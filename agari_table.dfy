/** The winning-shape table builder of mahjong/make_agari_table.py.

    A winning hand is built from seed shapes (melds and a pair as groups of
    counts). `ptn` lays the seed's groups out in every order and merges
    pairs of groups side by side at every offset; `find_hai_pos` finds the
    decompositions of each resulting pattern and packs them into integer
    payloads. The table maps `calc_key(pattern)` to those payloads written
    as comma-separated hexadecimal numbers. */
module AgariTable {
  import opened Common
  import opened Bits
  import opened PatternKey
  import opened HexList

  // ---------------------------------------------------------------------
  // Patterns as lists of groups

  /** The number of tiles in a pattern. */
  function Total(a: seq<seq<int>>): int
  {
    Sum(Flatten(a))
  }

  /** Python's `s.pop(i)` on a copy: s without its i-th element. */
  function RemoveAt<T>(s: seq<T>, i: int): (r: seq<T>)
    requires 0 <= i < |s|
    ensures |r| == |s| - 1
    ensures forall x :: x in r ==> x in s
  {
    s[..i] + s[i + 1..]
  }

  lemma TotalAppend(a: seq<seq<int>>, b: seq<seq<int>>)
    ensures Total(a + b) == Total(a) + Total(b)
  {
    FlattenAppend(a, b);
    SumAppend(Flatten(a), Flatten(b));
  }

  lemma TotalOne(g: seq<int>)
    ensures Total([g]) == Sum(g)
  {
    assert [g][..0] == [];
    assert Flatten([g]) == [] + g;
    assert [] + g == g;
  }

  lemma TotalRemoveAt(a: seq<seq<int>>, i: int)
    requires 0 <= i < |a|
    ensures Total(RemoveAt(a, i)) == Total(a) - Sum(a[i])
  {
    assert a == a[..i] + [a[i]] + a[i + 1..];
    TotalAppend(a[..i] + [a[i]], a[i + 1..]);
    TotalAppend(a[..i], [a[i]]);
    TotalAppend(a[..i], a[i + 1..]);
    TotalOne(a[i]);
  }

  // ---------------------------------------------------------------------
  // itertools.permutations

  /** The orderings of s in the order `itertools.permutations` yields
      them: by the position taken first, then recursively. */
  function Permutations<T>(s: seq<T>): seq<seq<T>>
    decreases |s|, |s| + 1
  {
    if s == [] then [[]] else PermutationsFrom(s, 0)
  }

  function PermutationsFrom<T>(s: seq<T>, i: nat): seq<seq<T>>
    requires i <= |s|
    decreases |s|, |s| - i
  {
    if i == |s| then []
    else Prepend(s[i], Permutations(RemoveAt(s, i))) + PermutationsFrom(s, i + 1)
  }

  function Prepend<T>(x: T, ps: seq<seq<T>>): (r: seq<seq<T>>)
    ensures |r| == |ps| && forall k :: 0 <= k < |ps| ==> r[k] == [x] + ps[k]
  {
    seq(|ps|, k requires 0 <= k < |ps| => [x] + ps[k])
  }

  /** Every pattern of ps rearranges the groups of s and keeps its tiles. */
  predicate Keeps(ps: seq<seq<seq<int>>>, s: seq<seq<int>>)
  {
    forall p :: p in ps ==> multiset(p) == multiset(s) && Total(p) == Total(s)
  }

  /** Every ordering rearranges the groups and keeps the tiles. */
  lemma {:induction false} PermutationsKeep(s: seq<seq<int>>)
    ensures Keeps(Permutations(s), s)
    decreases |s|, 1
  {
    if s != [] {
      PermutationsFromKeep(s, 0);
    }
  }

  lemma {:induction false} PermutationsFromKeep(s: seq<seq<int>>, i: nat)
    requires i <= |s|
    ensures Keeps(PermutationsFrom(s, i), s)
    decreases |s|, 0, |s| - i
  {
    if i < |s| {
      var rest := RemoveAt(s, i);
      PermutationsKeep(rest);
      PermutationsFromKeep(s, i + 1);
      RemoveAtParts(s, i);
      PrependKeeps(s[i], Permutations(rest), rest, s);
      KeepsAppend(Prepend(s[i], Permutations(rest)), PermutationsFrom(s, i + 1), s);
    }
  }

  /** Group i and the rest of s make up s. */
  lemma RemoveAtParts(s: seq<seq<int>>, i: int)
    requires 0 <= i < |s|
    ensures multiset{s[i]} + multiset(RemoveAt(s, i)) == multiset(s)
    ensures Sum(s[i]) + Total(RemoveAt(s, i)) == Total(s)
  {
    assert s == s[..i] + [s[i]] + s[i + 1..];
    TotalRemoveAt(s, i);
  }

  /** Putting x in front of rearrangements of rest gives rearrangements of s
      when x and rest make up s. */
  lemma PrependKeeps(x: seq<int>, qs: seq<seq<seq<int>>>, rest: seq<seq<int>>, s: seq<seq<int>>)
    requires Keeps(qs, rest)
    requires multiset{x} + multiset(rest) == multiset(s) && Sum(x) + Total(rest) == Total(s)
    ensures Keeps(Prepend(x, qs), s)
  {
    var head := Prepend(x, qs);
    forall p | p in head
      ensures multiset(p) == multiset(s) && Total(p) == Total(s)
    {
      var k :| 0 <= k < |head| && head[k] == p;
      assert qs[k] in qs;
      assert p == [x] + qs[k];
      TotalAppend([x], qs[k]);
      TotalOne(x);
    }
  }

  lemma KeepsAppend(ps: seq<seq<seq<int>>>, qs: seq<seq<seq<int>>>, s: seq<seq<int>>)
    requires Keeps(ps, s) && Keeps(qs, s)
    ensures Keeps(ps + qs, s)
  {
  }

  // ---------------------------------------------------------------------
  // ptn

  /** A group `ptn` may create by merging: at most nine kinds and every
      count non-zero and at most 4. */
  predicate Bounded(g: seq<int>)
  {
    |g| <= 9 && forall v :: v in g ==> v != 0 && v <= 4
  }

  /** Every pattern keeps the tiles of `a`, has at most as many groups,
      and each of its groups is a group of `a` or a bounded merged group. */
  ghost predicate Derived(a: seq<seq<int>>, ret: seq<seq<seq<int>>>)
  {
    forall p :: p in ret ==>
      Total(p) == Total(a) && |p| <= |a| && forall g :: g in p ==> g in a || Bounded(g)
  }

  lemma DerivedAppend(a: seq<seq<int>>, r1: seq<seq<seq<int>>>, r2: seq<seq<seq<int>>>)
    requires Derived(a, r1) && Derived(a, r2)
    ensures Derived(a, r1 + r2)
  {
  }

  /** `[0] * len(y) + x + [0] * len(y)` with y added from position k. */
  function Overlay(x: seq<int>, y: seq<int>, k: int): (t: seq<int>)
    ensures |t| == |x| + 2 * |y|
  {
    seq(|x| + 2 * |y|, idx requires 0 <= idx < |x| + 2 * |y| =>
      (if |y| <= idx < |y| + |x| then x[idx - |y|] else 0) +
      (if k <= idx < k + |y| then y[idx - k] else 0))
  }

  function Zeros(n: nat): (z: seq<int>)
    ensures |z| == n && forall i :: 0 <= i < n ==> z[i] == 0
  {
    if n == 0 then [] else Zeros(n - 1) + [0]
  }

  lemma {:induction false} SumZeros(n: nat)
    ensures Sum(Zeros(n)) == 0
  {
    if n > 0 {
      SumZeros(n - 1);
      assert Zeros(n)[..n - 1] == Zeros(n - 1);
    }
  }

  lemma {:induction false} SumUpdate(s: seq<int>, i: int, v: int)
    requires 0 <= i < |s|
    ensures Sum(s[i := v]) == Sum(s) - s[i] + v
  {
    var n := |s| - 1;
    var s' := s[i := v];
    assert s'[..n] == if i < n then s[..n][i := v] else s[..n];
    if i < n {
      SumUpdate(s[..n], i, v);
    }
  }

  /** Overlay with only the first m entries of y laid down. */
  ghost function Laid(x: seq<int>, y: seq<int>, k: int, m: nat): (t: seq<int>)
    requires m <= |y|
    ensures |t| == |x| + 2 * |y|
  {
    seq(|x| + 2 * |y|, idx requires 0 <= idx < |x| + 2 * |y| =>
      (if |y| <= idx < |y| + |x| then x[idx - |y|] else 0) +
      (if k <= idx < k + m then y[idx - k] else 0))
  }

  lemma LaidStart(x: seq<int>, y: seq<int>, k: int)
    ensures Laid(x, y, k, 0) == Zeros(|y|) + x + Zeros(|y|)
    ensures Sum(Laid(x, y, k, 0)) == Sum(x) + Sum(y[..0])
  {
    var z := Zeros(|y|);
    SumAppend(z + x, z);
    SumAppend(z, x);
    SumZeros(|y|);
    assert y[..0] == [];
  }

  lemma LaidEnd(x: seq<int>, y: seq<int>, k: int)
    ensures Laid(x, y, k, |y|) == Overlay(x, y, k)
    ensures y[..|y|] == y
  {
  }

  lemma LaidStep(x: seq<int>, y: seq<int>, k: int, m: nat, t: seq<int>)
    requires 0 <= k <= |x| + |y| && m < |y| && t == Laid(x, y, k, m)
    ensures k + m < |t|
    ensures t[k + m := t[k + m] + y[m]] == Laid(x, y, k, m + 1)
  {
  }

  lemma SumStep(t: seq<int>, i: int, v: int, y: seq<int>, m: nat, sx: int)
    requires 0 <= i < |t| && m < |y| && v == t[i] + y[m]
    requires Sum(t) == sx + Sum(y[..m])
    ensures Sum(t[i := v]) == sx + Sum(y[..m + 1])
  {
    SumUpdate(t, i, v);
    assert y[..m + 1] == y[..m] + [y[m]];
    SumAppend(y[..m], [y[m]]);
  }

  /** The loop of `ptn` that lays a[j] over a[i] at offset k. */
  method OverlayAt(x: seq<int>, y: seq<int>, k: int) returns (t: seq<int>)
    requires 0 <= k <= |x| + |y|
    ensures t == Overlay(x, y, k)
    ensures Sum(t) == Sum(x) + Sum(y)
  {
    LaidStart(x, y, k);
    t := Zeros(|y|) + x + Zeros(|y|);
    var m := 0;
    while m < |y|
      invariant 0 <= m <= |y| && t == Laid(x, y, k, m)
      invariant Sum(t) == Sum(x) + Sum(y[..m])
    {
      LaidStep(x, y, k, m, t);
      var v := t[k + m] + y[m];
      SumStep(t, k + m, v, y, m, Sum(x));
      t := t[k + m := v];
      m := m + 1;
    }
    LaidEnd(x, y, k);
  }

  /** Python's `list(filter(bool, t))`: the non-zero entries, in order. */
  function NonZero(t: seq<int>): (r: seq<int>)
    ensures forall v :: v in r ==> v != 0 && v in t
    ensures Sum(r) == Sum(t)
  {
    if t == [] then []
    else
      var n := |t| - 1;
      var r := NonZero(t[..n]) + (if t[n] != 0 then [t[n]] else []);
      assert Sum(r) == Sum(t) by {
        assert t == t[..n] + [t[n]];
        SumAppend(t[..n], [t[n]]);
        SumAppend(NonZero(t[..n]), if t[n] != 0 then [t[n]] else []);
      }
      r
  }

  /** `ptn(a)`: the permutations of the groups of `a`, then for each pair
      of groups (the same pair of group contents only once) every distinct
      admissible merge, expanded recursively. */
  method Ptn(a: seq<seq<int>>) returns (ret: seq<seq<seq<int>>>)
    ensures Derived(a, ret)
    ensures |a| == 1 ==> ret == [a]
    ensures |a| != 1 ==> |ret| >= |Permutations(a)| && ret[..|Permutations(a)|] == Permutations(a)
    decreases |a|, 1
  {
    if |a| == 1 {
      return [a];
    }
    ret := Permutations(a);
    PermutationsKeep(a);
    forall p | p in ret
      ensures |p| <= |a| && forall g :: g in p ==> g in a
    {
      assert multiset(p) == multiset(a);
      assert |p| == |multiset(p)|;
      forall g | g in p
        ensures g in a
      {
        assert g in multiset(p);
      }
    }
    ghost var perms := ret;
    var h1: set<seq<int>> := {};
    var i := 0;
    while i < |a|
      invariant 0 <= i <= |a|
      invariant Derived(a, ret) && |ret| >= |perms| && ret[..|perms|] == perms
    {
      var j := i + 1;
      while j < |a|
        invariant i + 1 <= j <= |a|
        invariant Derived(a, ret) && |ret| >= |perms| && ret[..|perms|] == perms
      {
        var key := a[i] + [0] + a[j];
        if key !in h1 {
          h1 := h1 + {key};
          var more := MergePair(a, i, j);
          DerivedAppend(a, ret, more);
          assert (ret + more)[..|perms|] == ret[..|perms|];
          ret := ret + more;
        }
        j := j + 1;
      }
      i := i + 1;
    }
  }

  /** The body of `ptn`'s pair loop for groups i < j: every offset of a[j]
      against a[i] whose merge has no count above 4 and at most nine kinds,
      each distinct merge once, with the rest of `a` expanded by `ptn`. */
  method MergePair(a: seq<seq<int>>, i: int, j: int) returns (more: seq<seq<seq<int>>>)
    requires 0 <= i < j < |a|
    ensures Derived(a, more)
    decreases |a|, 0
  {
    more := [];
    var h2: set<seq<int>> := {};
    var t2 := RemoveAt(RemoveAt(a, i), j - 1);
    assert Total(t2) == Total(a) - Sum(a[i]) - Sum(a[j]) by {
      TotalRemoveAt(a, i);
      assert RemoveAt(a, i)[j - 1] == a[j];
      TotalRemoveAt(RemoveAt(a, i), j - 1);
    }
    var k := 0;
    while k < |a[i] + a[j]| + 1
      invariant Derived(a, more)
    {
      var t := OverlayAt(a[i], a[j], k);
      t := NonZero(t);
      if exists v :: v in t && v > 4 {
        k := k + 1;
        continue;
      }
      if |t| > 9 {
        k := k + 1;
        continue;
      }
      if t !in h2 {
        h2 := h2 + {t};
        var sub := Ptn([t] + t2);
        assert Total([t] + t2) == Total(a) by {
          TotalAppend([t], t2);
          TotalOne(t);
        }
        assert forall g :: g in [t] + t2 ==> g in a || Bounded(g);
        DerivedAppend(a, more, sub);
        more := more + sub;
      }
      k := k + 1;
    }
  }

  // ---------------------------------------------------------------------
  // unique

  /** `unique(ret)`: the same patterns, each once. Python goes through a
      set, so its order is the set's; here the first occurrences are kept
      in order. */
  method Unique<T(==)>(ret: seq<T>) returns (r: seq<T>)
    ensures forall p :: p in r <==> p in ret
    ensures forall x, y :: 0 <= x < y < |r| ==> r[x] != r[y]
  {
    r := [];
    var seen: set<T> := {};
    var i := 0;
    while i < |ret|
      invariant 0 <= i <= |ret|
      invariant forall p :: p in r <==> p in ret[..i]
      invariant forall p :: p in seen <==> p in r
      invariant forall x, y :: 0 <= x < y < |r| ==> r[x] != r[y]
    {
      assert ret[..i + 1] == ret[..i] + [ret[i]];
      if ret[i] !in seen {
        seen := seen + {ret[i]};
        r := r + [ret[i]];
      }
      i := i + 1;
    }
    assert ret[..i] == ret;
  }

  // ---------------------------------------------------------------------
  // Positions in a pattern

  /** The position in `sum(a, [])` of the first count of group k. */
  function Offset(a: seq<seq<int>>, k: int): nat
    requires 0 <= k <= |a|
  {
    |Flatten(a[..k])|
  }

  lemma OffsetNext(a: seq<seq<int>>, k: int)
    requires 0 <= k < |a|
    ensures Offset(a, k + 1) == Offset(a, k) + |a[k]|
  {
    assert a[..k + 1][..k] == a[..k];
  }

  lemma {:induction false} OffsetBound(a: seq<seq<int>>, k: int)
    requires 0 <= k < |a|
    ensures Offset(a, k) + |a[k]| <= |Flatten(a)|
    decreases |a| - k
  {
    OffsetNext(a, k);
    if k + 1 < |a| {
      OffsetBound(a, k + 1);
    } else {
      assert a[..k + 1] == a;
    }
  }

  /** t has the groups and group lengths of a. */
  predicate SameShape(t: seq<seq<int>>, a: seq<seq<int>>)
  {
    |t| == |a| && forall k :: 0 <= k < |a| ==> |t[k]| == |a[k]|
  }

  lemma {:induction false} ShapeLength(t: seq<seq<int>>, a: seq<seq<int>>)
    requires SameShape(t, a)
    ensures |Flatten(t)| == |Flatten(a)|
  {
    if a != [] {
      var n := |a| - 1;
      ShapeLength(t[..n], a[..n]);
    }
  }

  lemma ShapeOffset(t: seq<seq<int>>, a: seq<seq<int>>, k: int)
    requires SameShape(t, a) && 0 <= k <= |a|
    ensures Offset(t, k) == Offset(a, k) && |Flatten(t)| == |Flatten(a)|
  {
    ShapeLength(t[..k], a[..k]);
    ShapeLength(t, a);
  }

  /** Setting one count of a group sets one position of the flattened
      pattern. */
  lemma {:induction false} FlattenUpdate(t: seq<seq<int>>, k: int, m: int, v: int)
    requires 0 <= k < |t| && 0 <= m < |t[k]|
    ensures Offset(t, k) + m < |Flatten(t)|
    ensures Flatten(t[k := t[k][m := v]]) == Flatten(t)[Offset(t, k) + m := v]
  {
    OffsetBound(t, k);
    var n := |t| - 1;
    var t' := t[k := t[k][m := v]];
    if k == n {
      assert t'[..n] == t[..n];
    } else {
      assert t'[..n] == t[..n][k := t[k][m := v]];
      assert t[..n][..k] == t[..k];
      FlattenUpdate(t[..n], k, m, v);
      OffsetBound(t[..n], k);
    }
  }

  // ---------------------------------------------------------------------
  // find_hai_pos: the decomposition

  /** The number of sequences in `ps` covering position x. */
  function Cover(ps: seq<int>, x: int): nat
  {
    multiset(ps)[x] + multiset(ps)[x - 1] + multiset(ps)[x - 2]
  }

  function PairAt(atama: int, x: int): nat
  {
    if x == atama then 2 else 0
  }

  /** Positions y, y+1 and y+2 lie in one group of a. */
  ghost predicate RunIn(a: seq<seq<int>>, y: int)
  {
    exists k :: 0 <= k < |a| && Offset(a, k) <= y && y + 2 < Offset(a, k) + |a[k]|
  }

  /** What has been taken out of the counts `f` to leave `rest`: the pair
      at `atama`, a triplet at each position of `pk`, a sequence from each
      position of `ps`. */
  ghost predicate Accounts(f: seq<int>, rest: seq<int>, atama: int, pk: seq<int>, ps: seq<int>)
  {
    |rest| == |f| && 0 <= atama < |f| &&
    forall x :: 0 <= x < |f| ==> f[x] == rest[x] + PairAt(atama, x) + 3 * multiset(pk)[x] + Cover(ps, x)
  }

  lemma AccountTriplet(f: seq<int>, rest: seq<int>, rest': seq<int>, atama: int, pk: seq<int>, ps: seq<int>, p: int)
    requires Accounts(f, rest, atama, pk, ps) && 0 <= p < |f|
    requires |rest'| == |rest| && forall x :: 0 <= x < |rest| ==> rest'[x] == rest[x] - if x == p then 3 else 0
    ensures Accounts(f, rest', atama, pk + [p], ps)
  {
    assert forall x :: multiset(pk + [p])[x] == multiset(pk)[x] + if x == p then 1 else 0;
  }

  lemma AccountSequence(f: seq<int>, rest: seq<int>, rest': seq<int>, atama: int, pk: seq<int>, ps: seq<int>, p: int)
    requires Accounts(f, rest, atama, pk, ps)
    requires |rest'| == |rest| && forall x :: 0 <= x < |rest| ==> rest'[x] == rest[x] - if p <= x <= p + 2 then 1 else 0
    ensures Accounts(f, rest', atama, pk, ps + [p])
  {
    assert forall x :: multiset(ps + [p])[x] == multiset(ps)[x] + if x == p then 1 else 0;
    forall x | 0 <= x < |f|
      ensures Cover(ps + [p], x) == Cover(ps, x) + if p <= x <= p + 2 then 1 else 0
    {
      assert multiset(ps + [p])[x - 1] == multiset(ps)[x - 1] + if x - 1 == p then 1 else 0;
      assert multiset(ps + [p])[x - 2] == multiset(ps)[x - 2] + if x - 2 == p then 1 else 0;
    }
  }

  /** `find_hai_pos`'s working copy `t` of `a` with what has been taken
      out so far. */
  ghost predicate Accounted(a: seq<seq<int>>, atama: int, t: seq<seq<int>>, pk: seq<int>, ps: seq<int>)
  {
    SameShape(t, a) && Accounts(Flatten(a), Flatten(t), atama, pk, ps) &&
    (forall y :: y in pk ==> 0 <= y < |Flatten(a)|) &&
    (forall y :: y in ps ==> RunIn(a, y))
  }

  /** The counts of `a` are exactly a pair at `atama`, triplets at `pk` and
      sequences from `ps`, each sequence inside one group. */
  ghost predicate Explains(a: seq<seq<int>>, atama: int, pk: seq<int>, ps: seq<int>)
  {
    0 <= atama < |Flatten(a)| &&
    (forall x :: 0 <= x < |Flatten(a)| ==>
      Flatten(a)[x] == PairAt(atama, x) + 3 * multiset(pk)[x] + Cover(ps, x)) &&
    (forall y :: y in pk ==> 0 <= y < |Flatten(a)|) &&
    (forall y :: y in ps ==> RunIn(a, y))
  }

  /** A working copy whose counts are all used up leaves a decomposition. */
  lemma UsedUp(a: seq<seq<int>>, atama: int, t: seq<seq<int>>, pk: seq<int>, ps: seq<int>)
    requires Accounted(a, atama, t, pk, ps) && forall v :: v in Flatten(t) ==> v == 0
    ensures Explains(a, atama, pk, ps)
  {
    var f, rest := Flatten(a), Flatten(t);
    forall x | 0 <= x < |f|
      ensures f[x] == PairAt(atama, x) + 3 * multiset(pk)[x] + Cover(ps, x)
    {
      assert rest[x] in rest;
    }
  }

  /** Replacing group k by a row of the same length replaces its stretch
      of the flattened pattern. */
  lemma {:induction false} FlattenReplace(t: seq<seq<int>>, k: int, row: seq<int>)
    requires 0 <= k < |t| && |row| == |t[k]|
    ensures Offset(t, k) + |row| <= |Flatten(t)|
    ensures |Flatten(t[k := row])| == |Flatten(t)|
    ensures forall x :: 0 <= x < |Flatten(t)| ==> (Flatten(t[k := row])[x] ==
      if Offset(t, k) <= x < Offset(t, k) + |row| then row[x - Offset(t, k)] else Flatten(t)[x])
  {
    OffsetBound(t, k);
    var n := |t| - 1;
    var t' := t[k := row];
    if k == n {
      assert t'[..n] == t[..n] && t[..k] == t[..n];
      assert Flatten(t') == Flatten(t[..n]) + row;
      assert Flatten(t) == Flatten(t[..n]) + t[n];
    } else {
      assert t'[..n] == t[..n][k := row];
      assert t[..n][..k] == t[..k];
      FlattenReplace(t[..n], k, row);
      OffsetBound(t[..n], k);
      assert Flatten(t') == Flatten(t[..n][k := row]) + t[n];
      assert Flatten(t) == Flatten(t[..n]) + t[n];
      var off, m := Offset(t, k), |Flatten(t[..n])|;
      assert Offset(t[..n], k) == off;
      forall x | 0 <= x < |Flatten(t)|
        ensures Flatten(t')[x] == if off <= x < off + |row| then row[x - off] else Flatten(t)[x]
      {
        if x < m {
          assert Flatten(t')[x] == Flatten(t[..n][k := row])[x];
          assert Flatten(t)[x] == Flatten(t[..n])[x];
        } else {
          assert Flatten(t')[x] == t[n][x - m] == Flatten(t)[x];
        }
      }
    }
  }

  /** Lowering counts of group k by `d[i]` at each position i lowers the
      same stretch of the flattened working copy. */
  lemma Lower(a: seq<seq<int>>, t: seq<seq<int>>, k: int, row: seq<int>)
    requires SameShape(t, a) && 0 <= k < |t| && |row| == |t[k]|
    ensures SameShape(t[k := row], a)
    ensures Offset(a, k) + |row| <= |Flatten(t)| == |Flatten(t[k := row])|
    ensures forall x :: 0 <= x < |Flatten(t)| ==> (Flatten(t[k := row])[x] ==
      if Offset(a, k) <= x < Offset(a, k) + |row| then Flatten(t)[x] - (t[k][x - Offset(a, k)] - row[x - Offset(a, k)])
      else Flatten(t)[x])
  {
    ShapeOffset(t, a, k);
    FlattenSlice(t, k);
    FlattenReplace(t, k, row);
  }

  lemma TakeTriplet(a: seq<seq<int>>, atama: int, t: seq<seq<int>>, pk: seq<int>, ps: seq<int>, k: int, m: int)
    requires Accounted(a, atama, t, pk, ps) && 0 <= k < |t| && 0 <= m < |t[k]|
    ensures Offset(a, k) + m < |Flatten(a)|
    ensures Accounted(a, atama, t[k := t[k][m := t[k][m] - 3]], pk + [Offset(a, k) + m], ps)
  {
    var p := Offset(a, k) + m;
    var row := t[k][m := t[k][m] - 3];
    Lower(a, t, k, row);
    AccountTriplet(Flatten(a), Flatten(t), Flatten(t[k := row]), atama, pk, ps, p);
  }

  /** One less of counts m, m+1 and m+2 of a group. */
  function LowerRun(row: seq<int>, m: int): (r: seq<int>)
    requires 0 <= m && m + 2 < |row|
    ensures |r| == |row| && forall i :: 0 <= i < |row| ==> r[i] == row[i] - if m <= i <= m + 2 then 1 else 0
  {
    row[m := row[m] - 1][m + 1 := row[m + 1] - 1][m + 2 := row[m + 2] - 1]
  }

  lemma TakeSequence(a: seq<seq<int>>, atama: int, t: seq<seq<int>>, pk: seq<int>, ps: seq<int>, k: int, m: int)
    requires Accounted(a, atama, t, pk, ps) && 0 <= k < |t| && 0 <= m && m + 2 < |t[k]|
    ensures Accounted(a, atama, t[k := LowerRun(t[k], m)], pk, ps + [Offset(a, k) + m])
  {
    var p := Offset(a, k) + m;
    var row := LowerRun(t[k], m);
    Lower(a, t, k, row);
    AccountSequence(Flatten(a), Flatten(t), Flatten(t[k := row]), atama, pk, ps, p);
    assert RunIn(a, p) by {
      OffsetBound(a, k);
    }
  }

  /** Group k occupies its stretch of the flattened pattern. */
  lemma FlattenSlice(t: seq<seq<int>>, k: int)
    requires 0 <= k < |t|
    ensures Offset(t, k) + |t[k]| <= |Flatten(t)|
    ensures forall x :: Offset(t, k) <= x < Offset(t, k) + |t[k]| ==> Flatten(t)[x] == t[k][x - Offset(t, k)]
  {
    OffsetBound(t, k);
    OffsetNext(t, k);
    assert Flatten(t[..k + 1]) == Flatten(t[..k]) + t[k] by {
      assert t[..k + 1][..k] == t[..k];
    }
    FlattenPrefix(t, k + 1);
  }

  /** The groups before k flatten to a prefix of the whole. */
  lemma {:induction false} FlattenPrefix(t: seq<seq<int>>, k: int)
    requires 0 <= k <= |t|
    ensures |Flatten(t[..k])| <= |Flatten(t)| && Flatten(t)[..|Flatten(t[..k])|] == Flatten(t[..k])
  {
    assert t == t[..k] + t[k..];
    FlattenAppend(t[..k], t[k..]);
  }

  /** Non-decreasing. */
  predicate Sorted(s: seq<int>)
  {
    forall x, y :: 0 <= x < y < |s| ==> s[x] <= s[y]
  }

  /** Strictly increasing. */
  predicate Increasing(s: seq<int>)
  {
    forall x, y :: 0 <= x < y < |s| ==> s[x] < s[y]
  }

  lemma IncreasingAppend(s: seq<int>, p: int)
    requires Increasing(s) && forall y :: y in s ==> y < p
    ensures Increasing(s + [p])
  {
    forall x, y | 0 <= x < y < |s| + 1
      ensures (s + [p])[x] < (s + [p])[y]
    {
      assert (s + [p])[x] == s[x] && s[x] in s;
    }
  }

  lemma SortedExtend(s: seq<int>, tail: seq<int>, p: int)
    requires Sorted(s) && (forall y :: y in s ==> y < p) && forall y :: y in tail ==> y == p
    ensures Sorted(s + tail)
  {
    forall x, y | 0 <= x < y < |s + tail|
      ensures (s + tail)[x] <= (s + tail)[y]
    {
      if y >= |s| {
        assert (s + tail)[y] == tail[y - |s|] && tail[y - |s|] in tail;
        if x >= |s| {
          assert (s + tail)[x] == tail[x - |s|] && tail[x - |s|] in tail;
        } else {
          assert (s + tail)[x] == s[x] && s[x] in s;
        }
      }
    }
  }

  // ---------------------------------------------------------------------
  // find_hai_pos: the tries as functions

  /** The inner `while` of `find_hai_pos` at count m of group k: the
      tally and the sequence positions once no further sequence can start
      at m. */
  function RunsOf(t: seq<seq<int>>, ps: seq<int>, k: int, m: int, p: int): (r: (seq<seq<int>>, seq<int>))
    requires 0 <= k < |t| && 0 <= m < |t[k]|
    ensures |r.0| == |t| && forall g :: 0 <= g < |t| ==> |r.0[g]| == |t[g]|
    decreases t[k][m]
  {
    if |t[k]| - m >= 3 && t[k][m] >= 1 && t[k][m + 1] >= 1 && t[k][m + 2] >= 1 then
      RunsOf(t[k := LowerRun(t[k], m)], ps + [p], k, m, p)
    else (t, ps)
  }

  /** The triplet step at count m of group k. */
  function TripletOf(t: seq<seq<int>>, pk: seq<int>, k: int, m: int, p: int): (seq<seq<int>>, seq<int>)
    requires 0 <= k < |t| && 0 <= m < |t[k]|
  {
    if t[k][m] >= 3 then (t[k := t[k][m := t[k][m] - 3]], pk + [p]) else (t, pk)
  }

  /** The body of the count loop: a triplet then sequences (`ks == 0`), or
      sequences then a triplet. */
  function TakeAtOf(t: seq<seq<int>>, pk: seq<int>, ps: seq<int>, k: int, m: int, p: int, ks: int)
    : (r: (seq<seq<int>>, seq<int>, seq<int>))
    requires 0 <= k < |t| && 0 <= m < |t[k]|
    ensures |r.0| == |t| && forall g :: 0 <= g < |t| ==> |r.0[g]| == |t[g]|
  {
    if ks == 0 then
      var (t1, pk1) := TripletOf(t, pk, k, m, p);
      var (t2, ps2) := RunsOf(t1, ps, k, m, p);
      (t2, pk1, ps2)
    else
      var (t1, ps1) := RunsOf(t, ps, k, m, p);
      var (t2, pk2) := TripletOf(t1, pk, k, m, p);
      (t2, pk2, ps1)
  }

  /** The loops over groups k and counts m from (k, m) on, at flattened
      position p. */
  function ScanOf(t: seq<seq<int>>, pk: seq<int>, ps: seq<int>, k: int, m: int, p: int, ks: int)
    : (seq<seq<int>>, seq<int>, seq<int>)
    requires 0 <= k <= |t| && (k < |t| ==> 0 <= m <= |t[k]|)
    decreases |t| - k, if k < |t| then |t[k]| - m else 0
  {
    if k == |t| then (t, pk, ps)
    else if m == |t[k]| then ScanOf(t, pk, ps, k + 1, 0, p, ks)
    else
      var r := TakeAtOf(t, pk, ps, k, m, p, ks);
      ScanOf(r.0, r.1, r.2, k, m + 1, p + 1, ks)
  }

  /** One try: the pair taken from count j of group i, melds taken in
      order `ks`; whether every count was used up, and the triplet and
      sequence positions. */
  function TryOf(a: seq<seq<int>>, i: int, j: int, ks: int): (bool, seq<int>, seq<int>)
    requires 0 <= i < |a| && 0 <= j < |a[i]|
  {
    var t0 := a[i := a[i][j := a[i][j] - 2]];
    var r := ScanOf(t0, [], [], 0, 0, 0, ks);
    (forall v :: v in Flatten(r.0) ==> v == 0, r.1, r.2)
  }

  /** The payload a successful try appends to `ret_array`. */
  function TryPayload(a: seq<seq<int>>, i: int, j: int, ks: int): seq<int>
    requires 0 <= i < |a| && 0 <= j < |a[i]|
  {
    var r := TryOf(a, i, j, ks);
    if r.0 then [Payload(a, Offset(a, i) + j, r.1, r.2)] else []
  }

  /** The payloads of the first n orders (`for ks in range(n)`). */
  function TryPayloads(a: seq<seq<int>>, i: int, j: int, n: nat): seq<int>
    requires 0 <= i < |a| && 0 <= j < |a[i]|
  {
    if n == 0 then [] else TryPayloads(a, i, j, n - 1) + TryPayload(a, i, j, n - 1)
  }

  /** `ret_array` from the pair position (i, j) on. */
  function TriesFrom(a: seq<seq<int>>, i: int, j: int): seq<int>
    requires 0 <= i <= |a| && (i < |a| ==> 0 <= j <= |a[i]|)
    decreases |a| - i, if i < |a| then |a[i]| - j else 0
  {
    if i == |a| then []
    else if j == |a[i]| then TriesFrom(a, i + 1, 0)
    else (if a[i][j] >= 2 then TryPayloads(a, i, j, 2) else []) + TriesFrom(a, i, j + 1)
  }

  lemma TakeAtOfTriplet(t: seq<seq<int>>, pk: seq<int>, ps: seq<int>, k: int, m: int, p: int,
                        t1: seq<seq<int>>, pk1: seq<int>)
    requires 0 <= k < |t| && 0 <= m < |t[k]| && (t1, pk1) == TripletOf(t, pk, k, m, p)
    ensures |t1| == |t| && |t1[k]| == |t[k]|
    ensures TakeAtOf(t, pk, ps, k, m, p, 0) == (RunsOf(t1, ps, k, m, p).0, pk1, RunsOf(t1, ps, k, m, p).1)
  {
  }

  lemma TakeAtOfRuns(t: seq<seq<int>>, pk: seq<int>, ps: seq<int>, k: int, m: int, p: int, ks: int,
                     t1: seq<seq<int>>, ps1: seq<int>)
    requires 0 <= k < |t| && 0 <= m < |t[k]| && ks != 0 && (t1, ps1) == RunsOf(t, ps, k, m, p)
    ensures |t1| == |t| && |t1[k]| == |t[k]|
    ensures TakeAtOf(t, pk, ps, k, m, p, ks) == (TripletOf(t1, pk, k, m, p).0, TripletOf(t1, pk, k, m, p).1, ps1)
  {
  }

  lemma ScanStep(t: seq<seq<int>>, pk: seq<int>, ps: seq<int>, k: int, m: int, p: int, ks: int)
    requires 0 <= k < |t| && 0 <= m < |t[k]|
    ensures var r := TakeAtOf(t, pk, ps, k, m, p, ks);
      ScanOf(t, pk, ps, k, m, p, ks) == ScanOf(r.0, r.1, r.2, k, m + 1, p + 1, ks)
  {
  }

  lemma ScanNextGroup(t: seq<seq<int>>, pk: seq<int>, ps: seq<int>, k: int, p: int, ks: int)
    requires 0 <= k < |t|
    ensures ScanOf(t, pk, ps, k, |t[k]|, p, ks) == ScanOf(t, pk, ps, k + 1, 0, p, ks)
  {
  }

  /** `ret_array` of `find_hai_pos`, in the order the loops append. */
  function Tries(a: seq<seq<int>>): seq<int>
  {
    TriesFrom(a, 0, 0)
  }

  /** The inner `while` of `find_hai_pos` at count m of group k (flattened
      position p): as long as counts m, m+1 and m+2 of the group are all at
      least 1, take one sequence from position p. Only those three counts
      change, and when it stops no further sequence can start at m. */
  method TakeRuns(ghost a: seq<seq<int>>, ghost atama: int, t: seq<seq<int>>, pk: seq<int>, ps: seq<int>,
                  k: int, m: int, p: int) returns (t': seq<seq<int>>, ps': seq<int>)
    requires Accounted(a, atama, t, pk, ps) && 0 <= k < |t| && 0 <= m < |t[k]| && p == Offset(a, k) + m
    ensures Accounted(a, atama, t', pk, ps')
    ensures |t'| == |t| && forall g :: 0 <= g < |t| && g != k ==> t'[g] == t[g]
    ensures |t'[k]| == |t[k]| && forall x :: 0 <= x < |t[k]| && !(m <= x <= m + 2) ==> t'[k][x] == t[k][x]
    ensures |ps'| >= |ps| && ps'[..|ps|] == ps && forall y :: y in ps'[|ps|..] ==> y == p
    ensures !(|t'[k]| - m >= 3 && t'[k][m] >= 1 && t'[k][m + 1] >= 1 && t'[k][m + 2] >= 1)
    ensures (t', ps') == RunsOf(t, ps, k, m, p)
  {
    t', ps' := t, ps;
    while |t'[k]| - m >= 3 && t'[k][m] >= 1 && t'[k][m + 1] >= 1 && t'[k][m + 2] >= 1
      invariant Accounted(a, atama, t', pk, ps')
      invariant RunFrame(t, ps, t', ps', k, m, p)
      invariant RunsOf(t', ps', k, m, p) == RunsOf(t, ps, k, m, p)
      decreases t'[k][m]
    {
      var row := LowerRun(t'[k], m);
      RunsStep(a, atama, t, pk, ps, t', ps', k, m, p, row);
      RunsOfStep(t', ps', k, m, p, row);
      t' := t'[k := row];
      ps' := ps' + [p];
    }
  }

  lemma RunsOfStep(t: seq<seq<int>>, ps: seq<int>, k: int, m: int, p: int, row: seq<int>)
    requires 0 <= k < |t| && 0 <= m && m + 2 < |t[k]| && row == LowerRun(t[k], m)
    requires t[k][m] >= 1 && t[k][m + 1] >= 1 && t[k][m + 2] >= 1
    ensures RunsOf(t, ps, k, m, p) == RunsOf(t[k := row], ps + [p], k, m, p)
  {
  }

  /** What TakeRuns changes: only counts m..m+2 of group k, and it only
      appends position p to ps. */
  predicate RunFrame(t: seq<seq<int>>, ps: seq<int>, t': seq<seq<int>>, ps': seq<int>, k: int, m: int, p: int)
    requires 0 <= k < |t|
  {
    |t'| == |t| && (forall g :: 0 <= g < |t| && g != k ==> t'[g] == t[g]) &&
    |t'[k]| == |t[k]| && (forall x :: 0 <= x < |t[k]| && !(m <= x <= m + 2) ==> t'[k][x] == t[k][x]) &&
    |ps'| >= |ps| && ps'[..|ps|] == ps && forall y :: y in ps'[|ps|..] ==> y == p
  }

  /** One sequence taken inside TakeRuns' loop. */
  lemma RunsStep(a: seq<seq<int>>, atama: int, t: seq<seq<int>>, pk: seq<int>, ps: seq<int>,
                 t': seq<seq<int>>, ps': seq<int>, k: int, m: int, p: int, row: seq<int>)
    requires 0 <= k < |t| && RunFrame(t, ps, t', ps', k, m, p) && Accounted(a, atama, t', pk, ps')
    requires p == Offset(a, k) + m && 0 <= m && m + 2 < |t'[k]| && row == LowerRun(t'[k], m)
    ensures Accounted(a, atama, t'[k := row], pk, ps' + [p])
    ensures RunFrame(t, ps, t'[k := row], ps' + [p], k, m, p)
    ensures row[m] == t'[k][m] - 1
  {
    TakeSequence(a, atama, t', pk, ps', k, m);
    RunFrameStep(t, ps, t', ps', k, m, p, row);
  }

  lemma RunFrameStep(t: seq<seq<int>>, ps: seq<int>, t': seq<seq<int>>, ps': seq<int>, k: int, m: int, p: int,
                     row: seq<int>)
    requires 0 <= k < |t| && RunFrame(t, ps, t', ps', k, m, p)
    requires 0 <= m && m + 2 < |t'[k]| && row == LowerRun(t'[k], m)
    ensures RunFrame(t, ps, t'[k := row], ps' + [p], k, m, p)
  {
    assert (ps' + [p])[..|ps|] == ps'[..|ps|];
    assert (ps' + [p])[|ps|..] == ps'[|ps|..] + [p];
  }

  /** `find_hai_pos`'s triplet step at count m of group k (flattened
      position p): a count of at least 3 gives up a triplet. */
  method TakeTripletAt(ghost a: seq<seq<int>>, ghost atama: int, t: seq<seq<int>>, pk: seq<int>, ghost ps: seq<int>,
                       k: int, m: int, p: int) returns (t': seq<seq<int>>, pk': seq<int>)
    requires Accounted(a, atama, t, pk, ps) && 0 <= k < |t| && 0 <= m < |t[k]| && p == Offset(a, k) + m
    ensures Accounted(a, atama, t', pk', ps)
    ensures t[k][m] >= 3 ==> t' == t[k := t[k][m := t[k][m] - 3]] && pk' == pk + [p]
    ensures t[k][m] < 3 ==> t' == t && pk' == pk
    ensures (t', pk') == TripletOf(t, pk, k, m, p)
  {
    t', pk' := t, pk;
    if t[k][m] >= 3 {
      TakeTriplet(a, atama, t, pk, ps, k, m);
      t' := t[k := t[k][m := t[k][m] - 3]];
      pk' := pk + [p];
    }
  }

  /** The body of `find_hai_pos`'s count loop at count m of group k
      (flattened position p): a triplet then sequences (`ks == 0`), or
      sequences then a triplet. */
  method TakeAt(ghost a: seq<seq<int>>, ghost atama: int, t: seq<seq<int>>, pk: seq<int>, ps: seq<int>,
                k: int, m: int, p: int, ks: int) returns (t': seq<seq<int>>, pk': seq<int>, ps': seq<int>)
    requires Accounted(a, atama, t, pk, ps) && 0 <= k < |t| && 0 <= m < |t[k]| && p == Offset(a, k) + m
    requires Increasing(pk) && Sorted(ps) && (forall y :: y in pk ==> y < p) && (forall y :: y in ps ==> y < p)
    ensures Accounted(a, atama, t', pk', ps')
    ensures Increasing(pk') && Sorted(ps') && (forall y :: y in pk' ==> y <= p) && (forall y :: y in ps' ==> y <= p)
    ensures (t', pk', ps') == TakeAtOf(t, pk, ps, k, m, p, ks)
  {
    if ks == 0 {
      var t1, pk1 := TakeTripletAt(a, atama, t, pk, ps, k, m, p);
      t', ps' := TakeRuns(a, atama, t1, pk1, ps, k, m, p);
      pk' := pk1;
      TakeAtOfTriplet(t, pk, ps, k, m, p, t1, pk1);
    } else {
      var t1, ps1 := TakeRuns(a, atama, t, pk, ps, k, m, p);
      t', pk' := TakeTripletAt(a, atama, t1, pk, ps1, k, m, p);
      ps' := ps1;
      TakeAtOfRuns(t, pk, ps, k, m, p, ks, t1, ps1);
    }
    IncreasingAppend(pk, p);
    assert ps' == ps + ps'[|ps|..];
    SortedExtend(ps, ps'[|ps|..], p);
  }

  /** The count loop of one try over group k, from flattened position p. */
  method ScanGroup(ghost a: seq<seq<int>>, ghost atama: int, t: seq<seq<int>>, pk: seq<int>, ps: seq<int>,
                   k: int, p: int, ks: int) returns (t': seq<seq<int>>, pk': seq<int>, ps': seq<int>, p': int)
    requires 0 <= k < |t| == |a| && p == Offset(a, k) && Accounted(a, atama, t, pk, ps)
    requires Increasing(pk) && Sorted(ps) && (forall y :: y in pk ==> y < p) && (forall y :: y in ps ==> y < p)
    ensures |t'| == |a| && p' == Offset(a, k) + |a[k]| && Accounted(a, atama, t', pk', ps')
    ensures Increasing(pk') && Sorted(ps') && (forall y :: y in pk' ==> y < p') && (forall y :: y in ps' ==> y < p')
    ensures ScanOf(t', pk', ps', k + 1, 0, p', ks) == ScanOf(t, pk, ps, k, 0, p, ks)
  {
    t', pk', ps', p' := t, pk, ps, p;
    var m := 0;
    while m < |t'[k]|
      invariant |t'| == |a| && 0 <= m <= |t'[k]| && p' == Offset(a, k) + m && Accounted(a, atama, t', pk', ps')
      invariant Increasing(pk') && Sorted(ps') && (forall y :: y in pk' ==> y < p') && (forall y :: y in ps' ==> y < p')
      invariant ScanOf(t', pk', ps', k, m, p', ks) == ScanOf(t, pk, ps, k, 0, p, ks)
    {
      ghost var (t0, pk0, ps0) := (t', pk', ps');
      t', pk', ps' := TakeAt(a, atama, t', pk', ps', k, m, p', ks);
      ScanStep(t0, pk0, ps0, k, m, p', ks);
      p' := p' + 1;
      m := m + 1;
    }
    ScanNextGroup(t', pk', ps', k, p', ks);
    assert |t'[k]| == |a[k]| by {
      assert SameShape(t', a);
    }
  }

  /** One try of `find_hai_pos`: the pair taken from count j of group i,
      then, group by group and count by count, triplets before sequences
      (`ks == 0`) or sequences before triplets (otherwise). When every
      count is used up (`ok`), the pair, the triplet positions `pk` and the
      sequence positions `ps` account for every tile of `a`; either way
      both lists come out in ascending order. */
  method Decompose(a: seq<seq<int>>, i: int, j: int, ks: int) returns (ok: bool, pk: seq<int>, ps: seq<int>)
    requires 0 <= i < |a| && 0 <= j < |a[i]|
    ensures ok ==> Explains(a, Offset(a, i) + j, pk, ps)
    ensures Increasing(pk) && Sorted(ps)
    ensures (ok, pk, ps) == TryOf(a, i, j, ks)
  {
    ghost var atama := Offset(a, i) + j;
    var t := a[i := a[i][j := a[i][j] - 2]];
    assert Accounted(a, atama, t, [], []) by {
      Lower(a, a, i, a[i][j := a[i][j] - 2]);
    }
    var rest;
    rest, pk, ps := ScanAll(a, atama, t, ks);
    ok := forall v :: v in Flatten(rest) ==> v == 0;
    if ok {
      UsedUp(a, atama, rest, pk, ps);
    }
  }

  /** The scan over every group of the working copy `t`, from no melds. */
  method ScanAll(ghost a: seq<seq<int>>, ghost atama: int, t0: seq<seq<int>>, ks: int)
    returns (t: seq<seq<int>>, pk: seq<int>, ps: seq<int>)
    requires Accounted(a, atama, t0, [], [])
    ensures (t, pk, ps) == ScanOf(t0, [], [], 0, 0, 0, ks)
    ensures Accounted(a, atama, t, pk, ps) && Increasing(pk) && Sorted(ps)
  {
    ShapeLength(t0, a);
    ghost var final := ScanOf(t0, [], [], 0, 0, 0, ks);
    t, pk, ps := t0, [], [];
    var p := 0;
    var k := 0;
    while k < |t|
      invariant 0 <= k <= |t| == |a| && p == Offset(a, k) && Accounted(a, atama, t, pk, ps)
      invariant Increasing(pk) && Sorted(ps) && (forall y :: y in pk ==> y < p) && (forall y :: y in ps ==> y < p)
      invariant ScanOf(t, pk, ps, k, 0, p, ks) == final
    {
      t, pk, ps, p := ScanGroup(a, atama, t, pk, ps, k, p, ks);
      OffsetNext(a, k);
      k := k + 1;
    }
  }

  // ---------------------------------------------------------------------
  // find_hai_pos: the payload

  /** The nine one-suit patterns of nine gates: 1112345678999 plus one
      more tile of the suit. */
  const NineGates: seq<seq<int>> := [
    [4, 1, 1, 1, 1, 1, 1, 1, 3], [3, 2, 1, 1, 1, 1, 1, 1, 3], [3, 1, 2, 1, 1, 1, 1, 1, 3],
    [3, 1, 1, 2, 1, 1, 1, 1, 3], [3, 1, 1, 1, 2, 1, 1, 1, 3], [3, 1, 1, 1, 1, 2, 1, 1, 3],
    [3, 1, 1, 1, 1, 1, 2, 1, 3], [3, 1, 1, 1, 1, 1, 1, 2, 3], [3, 1, 1, 1, 1, 1, 1, 1, 4]]

  /** `ret |= x << length; length += 4` for each x of xs. */
  function PackFrom(ret: int, xs: seq<int>, len: nat): int
    decreases |xs|
  {
    if xs == [] then ret else PackFrom(Or(ret, Shl(xs[0], len)), xs[1..], len + 4)
  }

  /** `ret |= 1 << bit` when b holds. */
  function SetBit(ret: int, b: bool, bit: nat): int
  {
    if b then Or(ret, Shl(1, bit)) else ret
  }

  /** Group g is a whole suit with sequences from its first, fourth and
      seventh counts. */
  predicate StraightAt(a: seq<seq<int>>, ps: seq<int>, g: int)
    requires 0 <= g < |a|
  {
    |a[g]| == 9 && Offset(a, g) in ps && Offset(a, g) + 3 in ps && Offset(a, g) + 6 in ps
  }

  predicate NineGatesFlag(a: seq<seq<int>>)
  {
    |a| == 1 && a[0] in NineGates
  }

  /** Pure straight: at most three groups, three sequences, and one group
      a straight. */
  predicate StraightFlag(a: seq<seq<int>>, ps: seq<int>)
  {
    |a| <= 3 && |ps| >= 3 && exists g :: 0 <= g < |a| && StraightAt(a, ps, g)
  }

  /** Two double sequences: four sequences, the first two alike and the
      last two alike. */
  predicate TwoDoublesFlag(ps: seq<int>)
  {
    |ps| == 4 && ps[0] == ps[1] && ps[2] == ps[3]
  }

  /** Python's `len(set(s))` */
  function DistinctCount(s: seq<int>): nat
  {
    |set y | y in s|
  }

  /** One double sequence, checked only when TwoDoublesFlag fails: four
      melds, at least two of them sequences, two sequences alike. */
  predicate OneDoubleFlag(pk: seq<int>, ps: seq<int>)
  {
    !TwoDoublesFlag(ps) && |ps| >= 2 && |pk| + |ps| == 4 && |ps| - DistinctCount(ps) >= 1
  }

  /** The payload `find_hai_pos` builds for the pair at atama, triplets at
      pk and sequences at ps. */
  function Payload(a: seq<seq<int>>, atama: int, pk: seq<int>, ps: seq<int>): int
  {
    var r := PackFrom(PackFrom(|pk| + Shl(|ps|, 3) + Shl(atama, 6), pk, 10), ps, 10 + 4 * |pk|);
    var r := SetBit(SetBit(r, NineGatesFlag(a), 27), StraightFlag(a, ps), 28);
    SetBit(SetBit(r, TwoDoublesFlag(ps), 29), OneDoubleFlag(pk, ps), 30)
  }

  /** The loop over the groups that sets bit 28 for a pure straight. */
  method StraightScan(a: seq<seq<int>>, ps: seq<int>, ret: int) returns (r: int)
    ensures r == SetBit(ret, exists g :: 0 <= g < |a| && StraightAt(a, ps, g), 28)
  {
    r := ret;
    var p := 0;
    var g := 0;
    while g < |a|
      invariant 0 <= g <= |a| && p == Offset(a, g)
      invariant r == SetBit(ret, exists h :: 0 <= h < g && StraightAt(a, ps, h), 28)
    {
      if |a[g]| == 9 {
        var b1, b2, b3 := false, false, false;
        var q := 0;
        while q < |ps|
          invariant 0 <= q <= |ps|
          invariant b1 == (p in ps[..q]) && b2 == (p + 3 in ps[..q]) && b3 == (p + 6 in ps[..q])
        {
          assert ps[..q + 1] == ps[..q] + [ps[q]];
          b1 := b1 || ps[q] == p;
          b2 := b2 || ps[q] == p + 3;
          b3 := b3 || ps[q] == p + 6;
          q := q + 1;
        }
        assert ps[..q] == ps;
        if b1 && b2 && b3 {
          OrAbsorb(ret, Shl(1, 28));
          r := Or(r, Shl(1, 28));
        }
      }
      assert (exists h :: 0 <= h < g + 1 && StraightAt(a, ps, h)) <==>
        (exists h :: 0 <= h < g && StraightAt(a, ps, h)) || StraightAt(a, ps, g);
      OffsetNext(a, g);
      p := p + |a[g]|;
      g := g + 1;
    }
  }

  /** `for x in xs: ret |= x << length; length += 4` */
  method PackLoop(ret: int, xs: seq<int>, len: nat) returns (r: int, len': nat)
    ensures r == PackFrom(ret, xs, len) && len' == len + 4 * |xs|
  {
    r, len' := ret, len;
    var q := 0;
    while q < |xs|
      invariant 0 <= q <= |xs| && len' == len + 4 * q
      invariant PackFrom(r, xs[q..], len') == PackFrom(ret, xs, len)
    {
      assert xs[q..][1..] == xs[q + 1..];
      r := Or(r, Shl(xs[q], len'));
      len' := len' + 4;
      q := q + 1;
    }
  }

  /** Lines building one payload in `find_hai_pos`: the counts and the
      pair position, the meld positions four bits each, then the flags. */
  method PackPayload(a: seq<seq<int>>, atama: int, pk: seq<int>, ps: seq<int>) returns (ret: int)
    ensures ret == Payload(a, atama, pk, ps)
  {
    ret := |pk| + Shl(|ps|, 3) + Shl(atama, 6);
    var len := 10;
    ret, len := PackLoop(ret, pk, len);
    ret, len := PackLoop(ret, ps, len);
    ghost var r0 := ret;
    if NineGatesFlag(a) {
      ret := Or(ret, Shl(1, 27));
    }
    assert ret == SetBit(r0, NineGatesFlag(a), 27);
    ghost var r1 := ret;
    if |a| <= 3 && |ps| >= 3 {
      ret := StraightScan(a, ps, ret);
    }
    assert ret == SetBit(r1, StraightFlag(a, ps), 28);
    ret := DoublesFlags(pk, ps, ret);
  }

  /** The if/elif that sets bit 29 for two double sequences, else bit 30
      for one. */
  method DoublesFlags(pk: seq<int>, ps: seq<int>, ret: int) returns (r: int)
    ensures r == SetBit(SetBit(ret, TwoDoublesFlag(ps), 29), OneDoubleFlag(pk, ps), 30)
  {
    r := ret;
    if |ps| == 4 && ps[0] == ps[1] && ps[2] == ps[3] {
      r := Or(r, Shl(1, 29));
    } else if |ps| >= 2 && |pk| + |ps| == 4 {
      if |ps| - DistinctCount(ps) >= 1 {
        r := Or(r, Shl(1, 30));
      }
    }
  }

  // ---------------------------------------------------------------------
  // The payload's bit layout

  /** One 4-bit field per meld position. */
  function Nibbles(xs: seq<int>): (fs: seq<BitField>)
    ensures |fs| == |xs| && forall q :: 0 <= q < |xs| ==> fs[q] == BitField(xs[q], 4)
  {
    seq(|xs|, q requires 0 <= q < |xs| => BitField(xs[q], 4))
  }

  /** n unused 4-bit fields. */
  function ZeroNibbles(n: nat): (fs: seq<BitField>)
    ensures |fs| == n && forall q :: 0 <= q < n ==> fs[q] == BitField(0, 4)
  {
    seq(n, q => BitField(0, 4))
  }

  function Bit(b: bool): BitField
  {
    BitField(if b then 1 else 0, 1)
  }

  /** Meld field q of a payload: the q-th of the triplet positions
      followed by the sequence positions, 0 past the end. */
  function Slot(ms: seq<int>, q: nat): int
  {
    if q < |ms| then ms[q] else 0
  }

  /** The fields of a payload, lowest first: the triplet count (3 bits),
      the sequence count (3), the pair position (4), four meld positions
      (4 each), the seven-pairs bit (never set here), then the nine-gates,
      pure-straight, two-double-sequences and one-double-sequence bits. */
  function PayloadFields(a: seq<seq<int>>, atama: int, pk: seq<int>, ps: seq<int>): seq<BitField>
  {
    var ms := pk + ps;
    [BitField(|pk|, 3), BitField(|ps|, 3), BitField(atama, 4),
     BitField(Slot(ms, 0), 4), BitField(Slot(ms, 1), 4), BitField(Slot(ms, 2), 4), BitField(Slot(ms, 3), 4),
     BitField(0, 1), Bit(NineGatesFlag(a)), Bit(StraightFlag(a, ps)), Bit(TwoDoublesFlag(ps)),
     Bit(OneDoubleFlag(pk, ps))]
  }

  /** What keeps the fields of a payload apart: at most four melds, and
      the pair and meld positions below 16. */
  predicate Packable(atama: int, pk: seq<int>, ps: seq<int>)
  {
    |pk| + |ps| <= 4 && 0 <= atama < 16 && forall y :: y in pk + ps ==> 0 <= y < 16
  }

  /** Counts explained by a pair, triplets at pk and sequences from ps add
      up to two tiles for the pair and three per meld. */
  lemma {:induction false} ExplainedSum(f: seq<int>, atama: int, pk: seq<int>, ps: seq<int>)
    requires 0 <= atama < |f|
    requires forall y :: y in pk ==> 0 <= y < |f|
    requires forall y :: y in ps ==> 0 <= y && y + 2 < |f|
    requires forall x :: 0 <= x < |f| ==> f[x] == PairAt(atama, x) + 3 * multiset(pk)[x] + Cover(ps, x)
    ensures Sum(f) == 2 + 3 * (|pk| + |ps|)
    decreases |pk| + |ps|
  {
    if ps != [] {
      var n := |ps| - 1;
      var y, ps0 := ps[n], ps[..n];
      assert ps == ps0 + [y];
      assert y in ps;
      assert forall z :: z in ps0 ==> z in ps;
      var g := LessSequence(f, atama, pk, ps0, y);
      ExplainedSum(g, atama, pk, ps0);
    } else if pk != [] {
      var n := |pk| - 1;
      var y, pk0 := pk[n], pk[..n];
      assert pk == pk0 + [y];
      assert y in pk;
      assert forall z :: z in pk0 ==> z in pk;
      var g := LessTriplet(f, atama, pk0, ps, y);
      ExplainedSum(g, atama, pk0, ps);
    } else {
      assert f == Zeros(|f|)[atama := 2];
      SumZeros(|f|);
      SumUpdate(Zeros(|f|), atama, 2);
    }
  }

  /** The counts with the last sequence, from y, taken out. */
  lemma LessSequence(f: seq<int>, atama: int, pk: seq<int>, ps0: seq<int>, y: int) returns (g: seq<int>)
    requires 0 <= y && y + 2 < |f|
    requires forall x :: 0 <= x < |f| ==> f[x] == PairAt(atama, x) + 3 * multiset(pk)[x] + Cover(ps0 + [y], x)
    ensures |g| == |f| && Sum(g) == Sum(f) - 3
    ensures forall x :: 0 <= x < |g| ==> g[x] == PairAt(atama, x) + 3 * multiset(pk)[x] + Cover(ps0, x)
  {
    g := LowerThree(f, y);
    forall x | 0 <= x < |g|
      ensures g[x] == PairAt(atama, x) + 3 * multiset(pk)[x] + Cover(ps0, x)
    {
      CoverAppend(ps0, y, x);
    }
  }

  /** One count taken from each of positions y, y+1 and y+2. */
  lemma LowerThree(f: seq<int>, y: int) returns (g: seq<int>)
    requires 0 <= y && y + 2 < |f|
    ensures |g| == |f| && Sum(g) == Sum(f) - 3
    ensures forall x :: 0 <= x < |g| ==> g[x] == f[x] - if y <= x <= y + 2 then 1 else 0
  {
    var f1 := f[y := f[y] - 1];
    var f2 := f1[y + 1 := f1[y + 1] - 1];
    g := f2[y + 2 := f2[y + 2] - 1];
    SumUpdate(f, y, f[y] - 1);
    SumUpdate(f1, y + 1, f1[y + 1] - 1);
    SumUpdate(f2, y + 2, f2[y + 2] - 1);
  }

  lemma CoverAppend(ps0: seq<int>, y: int, x: int)
    ensures Cover(ps0 + [y], x) == Cover(ps0, x) + if y <= x <= y + 2 then 1 else 0
  {
    var ps := ps0 + [y];
    assert multiset(ps)[x] == multiset(ps0)[x] + if x == y then 1 else 0;
    assert multiset(ps)[x - 1] == multiset(ps0)[x - 1] + if x - 1 == y then 1 else 0;
    assert multiset(ps)[x - 2] == multiset(ps0)[x - 2] + if x - 2 == y then 1 else 0;
  }

  /** The counts with the last triplet, at y, taken out. */
  lemma LessTriplet(f: seq<int>, atama: int, pk0: seq<int>, ps: seq<int>, y: int) returns (g: seq<int>)
    requires 0 <= y < |f|
    requires forall x :: 0 <= x < |f| ==> f[x] == PairAt(atama, x) + 3 * multiset(pk0 + [y])[x] + Cover(ps, x)
    ensures |g| == |f| && Sum(g) == Sum(f) - 3
    ensures forall x :: 0 <= x < |g| ==> g[x] == PairAt(atama, x) + 3 * multiset(pk0)[x] + Cover(ps, x)
  {
    g := f[y := f[y] - 3];
    forall x | 0 <= x < |g|
      ensures g[x] == PairAt(atama, x) + 3 * multiset(pk0)[x] + Cover(ps, x)
    {
      assert multiset(pk0 + [y])[x] == multiset(pk0)[x] + if x == y then 1 else 0;
    }
    SumUpdate(f, y, f[y] - 3);
  }

  /** Counts of at least one each add up to at least their number. */
  lemma {:induction false} SumAtLeastLength(s: seq<int>)
    requires forall v :: v in s ==> v >= 1
    ensures Sum(s) >= |s|
  {
    if s != [] {
      var n := |s| - 1;
      assert s[n] in s;
      assert forall v :: v in s[..n] ==> v in s;
      SumAtLeastLength(s[..n]);
    }
  }

  /** A decomposition of a fourteen-tile pattern, whose counts are all
      non-zero, has four melds and fits the payload's fields. */
  lemma ExplainsPackable(a: seq<seq<int>>, atama: int, pk: seq<int>, ps: seq<int>)
    requires Explains(a, atama, pk, ps) && Sum(Flatten(a)) == 14
    requires forall v :: v in Flatten(a) ==> v >= 1
    ensures |pk| + |ps| == 4 && Packable(atama, pk, ps)
  {
    var f := Flatten(a);
    assert forall y :: y in ps ==> 0 <= y && y + 2 < |f| by {
      forall y | y in ps
        ensures 0 <= y && y + 2 < |f|
      {
        assert RunIn(a, y);
        var k :| 0 <= k < |a| && Offset(a, k) <= y && y + 2 < Offset(a, k) + |a[k]|;
        OffsetBound(a, k);
      }
    }
    ExplainedSum(f, atama, pk, ps);
    SumAtLeastLength(f);
  }

  lemma Pow2Small()
    ensures Pow2(1) == 2 && Pow2(3) == 8 && Pow2(4) == 16 && Pow2(6) == 64
  {
    assert Pow2(2) == 4;
    assert Pow2(5) == 32;
  }

  /** The packing loop appends one 4-bit field per position. */
  lemma {:induction false} PackCompose(fs: seq<BitField>, xs: seq<int>)
    requires Fits(fs) && forall y :: y in xs ==> 0 <= y < 16
    ensures Fits(fs + Nibbles(xs)) && Width(fs + Nibbles(xs)) == Width(fs) + 4 * |xs|
    ensures PackFrom(Compose(fs), xs, Width(fs)) == Compose(fs + Nibbles(xs))
    decreases |xs|
  {
    if xs == [] {
      assert fs + Nibbles(xs) == fs;
    } else {
      Pow2Small();
      assert xs[0] in xs;
      OrAppend(fs, xs[0], 4);
      var fs' := fs + [BitField(xs[0], 4)];
      assert forall y :: y in xs[1..] ==> y in xs;
      PackCompose(fs', xs[1..]);
      assert fs' + Nibbles(xs[1..]) == fs + Nibbles(xs);
    }
  }

  lemma {:induction false} ComposeZero(zs: seq<BitField>)
    requires forall q :: 0 <= q < |zs| ==> zs[q].value == 0
    ensures Compose(zs) == 0
  {
    if zs != [] {
      ComposeZero(zs[1..]);
    }
  }

  /** Unused fields change the width and not the value. */
  lemma Pad(fs: seq<BitField>, zs: seq<BitField>)
    requires Fits(fs) && forall q :: 0 <= q < |zs| ==> zs[q].value == 0
    ensures Fits(fs + zs) && Compose(fs + zs) == Compose(fs) && Width(fs + zs) == Width(fs) + Width(zs)
  {
    ComposeZero(zs);
    ComposeSplit(fs, zs);
    forall q | 0 <= q < |fs + zs|
      ensures 0 <= (fs + zs)[q].value < Pow2((fs + zs)[q].width)
    {
      if q >= |fs| {
        assert (fs + zs)[q] == zs[q - |fs|];
      }
    }
  }

  /** `ret |= 1 << Width(fs)` appends a one-bit field. */
  lemma SetBitCompose(fs: seq<BitField>, b: bool, bit: nat)
    requires Fits(fs) && Width(fs) == bit
    ensures Fits(fs + [Bit(b)]) && Width(fs + [Bit(b)]) == bit + 1
    ensures SetBit(Compose(fs), b, bit) == Compose(fs + [Bit(b)])
  {
    Pow2Small();
    if b {
      OrAppend(fs, 1, 1);
    } else {
      Pad(fs, [Bit(b)]);
      assert [Bit(b)][1..] == [];
    }
  }

  /** The low 10 bits: the two counts and the pair position. */
  lemma BaseLayout(nk: int, ns: int, atama: int)
    requires 0 <= nk < 8 && 0 <= ns < 8 && 0 <= atama < 16
    ensures Fits([BitField(nk, 3), BitField(ns, 3), BitField(atama, 4)])
    ensures Width([BitField(nk, 3), BitField(ns, 3), BitField(atama, 4)]) == 10
    ensures Compose([BitField(nk, 3), BitField(ns, 3), BitField(atama, 4)]) == nk + Shl(ns, 3) + Shl(atama, 6)
  {
    Pow2Small();
    var fs0 := [BitField(nk, 3), BitField(ns, 3), BitField(atama, 4)];
    assert fs0[1..] == [BitField(ns, 3), BitField(atama, 4)];
    assert fs0[1..][1..] == [BitField(atama, 4)];
    assert fs0[1..][1..][1..] == [];
    assert Compose(fs0[1..][1..]) == atama;
    assert Compose(fs0[1..]) == ns + 8 * atama;
    assert Compose(fs0) == nk + 8 * (ns + 8 * atama);
    assert Shl(ns, 3) == 8 * ns && Shl(atama, 6) == 64 * atama;
    assert Width(fs0[1..][1..]) == 4 && Width(fs0[1..]) == 7;
  }

  /** The first 27 bits: counts, pair, the meld positions, and the unused
      fields up to the seven-pairs bit. */
  lemma {:induction false} LowLayout(atama: int, pk: seq<int>, ps: seq<int>)
    requires Packable(atama, pk, ps)
    ensures var h := LowFields(atama, pk, ps);
      Fits(h) && Width(h) == 27 &&
      PackFrom(PackFrom(|pk| + Shl(|ps|, 3) + Shl(atama, 6), pk, 10), ps, 10 + 4 * |pk|) == Compose(h)
  {
    var n := |pk| + |ps|;
    var fs0 := [BitField(|pk|, 3), BitField(|ps|, 3), BitField(atama, 4)];
    var base := |pk| + Shl(|ps|, 3) + Shl(atama, 6);
    var zs := ZeroNibbles(4 - n) + [BitField(0, 1)];
    var h := fs0 + Nibbles(pk + ps) + zs;
    assert Fits(fs0) && Width(fs0) == 10 && Compose(fs0) == base by {
      BaseLayout(|pk|, |ps|, atama);
    }
    assert Width(zs) == 4 * (4 - n) + 1 && forall q :: 0 <= q < |zs| ==> zs[q].value == 0 by {
      PadFields(4 - n);
    }
    assert Fits(h) && Width(h) == 27 && PackFrom(PackFrom(base, pk, 10), ps, 10 + 4 * |pk|) == Compose(h) by {
      LayoutChain(fs0, pk, ps, zs, base);
    }
    assert LowFields(atama, pk, ps) == h by {
      LowFieldsSplit(atama, pk, ps, fs0 + Nibbles(pk + ps), zs);
    }
  }

  /** The packing loops over pk and ps, then the padding, on top of
      10 bits of fields. */
  lemma {:induction false} LayoutChain(fs0: seq<BitField>, pk: seq<int>, ps: seq<int>, zs: seq<BitField>, base: int)
    requires Fits(fs0) && Width(fs0) == 10 && Compose(fs0) == base
    requires |pk| + |ps| <= 4 && forall y :: y in pk + ps ==> 0 <= y < 16
    requires Width(zs) == 4 * (4 - |pk| - |ps|) + 1
    requires forall q :: 0 <= q < |zs| ==> zs[q].value == 0
    ensures var h := fs0 + Nibbles(pk + ps) + zs;
      Fits(h) && Width(h) == 27 && PackFrom(PackFrom(base, pk, 10), ps, 10 + 4 * |pk|) == Compose(h)
  {
    var xs := pk + ps;
    var fs2 := fs0 + Nibbles(xs);
    var r := PackFrom(base, xs, 10);
    PackFromAppend(base, pk, ps, 10);
    PackCompose(fs0, xs);
    assert Fits(fs2) && Width(fs2) == 10 + 4 * |xs| && r == Compose(fs2);
    Pad(fs2, zs);
  }

  lemma LowFieldsSplit(atama: int, pk: seq<int>, ps: seq<int>, fs2: seq<BitField>, zs: seq<BitField>)
    requires |pk| + |ps| <= 4
    requires fs2 == [BitField(|pk|, 3), BitField(|ps|, 3), BitField(atama, 4)] + Nibbles(pk + ps)
    requires zs == ZeroNibbles(4 - |pk| - |ps|) + [BitField(0, 1)]
    ensures LowFields(atama, pk, ps) == fs2 + zs
  {
  }

  /** The unused meld fields and the seven-pairs bit. */
  lemma PadFields(k: nat)
    ensures Width(ZeroNibbles(k) + [BitField(0, 1)]) == 4 * k + 1
    ensures forall q :: 0 <= q < k + 1 ==> (ZeroNibbles(k) + [BitField(0, 1)])[q].value == 0
  {
    ZeroWidth(k);
    ComposeSplit(ZeroNibbles(k), [BitField(0, 1)]);
    assert [BitField(0, 1)][1..] == [];
  }

  /** The two packing loops of `find_hai_pos` run as one over pk + ps. */
  lemma {:induction false} PackFromAppend(ret: int, xs: seq<int>, ys: seq<int>, len: nat)
    ensures PackFrom(PackFrom(ret, xs, len), ys, len + 4 * |xs|) == PackFrom(ret, xs + ys, len)
    decreases |xs|
  {
    if xs == [] {
      assert xs + ys == ys;
    } else {
      assert (xs + ys)[1..] == xs[1..] + ys;
      PackFromAppend(Or(ret, Shl(xs[0], len)), xs[1..], ys, len + 4);
    }
  }

  /** The fields below the four flag bits. */
  function LowFields(atama: int, pk: seq<int>, ps: seq<int>): seq<BitField>
    requires |pk| + |ps| <= 4
  {
    [BitField(|pk|, 3), BitField(|ps|, 3), BitField(atama, 4)] + Nibbles(pk + ps) +
    (ZeroNibbles(4 - |pk| - |ps|) + [BitField(0, 1)])
  }

  /** With the fields kept apart, the payload is exactly its fields laid
      side by side. */
  lemma PayloadLayout(a: seq<seq<int>>, atama: int, pk: seq<int>, ps: seq<int>)
    requires Packable(atama, pk, ps)
    ensures Fits(PayloadFields(a, atama, pk, ps))
    ensures Payload(a, atama, pk, ps) == Compose(PayloadFields(a, atama, pk, ps))
  {
    var fs3 := LowFields(atama, pk, ps);
    LowLayout(atama, pk, ps);
    var r3 := PackFrom(PackFrom(|pk| + Shl(|ps|, 3) + Shl(atama, 6), pk, 10), ps, 10 + 4 * |pk|);
    var b27, b28, b29, b30 := NineGatesFlag(a), StraightFlag(a, ps), TwoDoublesFlag(ps), OneDoubleFlag(pk, ps);
    FlagsLayout(fs3, b27, b28, b29, b30);
    assert Payload(a, atama, pk, ps) == SetBit(SetBit(SetBit(SetBit(r3, b27, 27), b28, 28), b29, 29), b30, 30);
    FieldsAgree(a, atama, pk, ps);
  }

  /** Bits 27 to 30 set by the four flags. */
  lemma FlagsLayout(fs: seq<BitField>, b27: bool, b28: bool, b29: bool, b30: bool)
    requires Fits(fs) && Width(fs) == 27
    ensures Fits(fs + [Bit(b27)] + [Bit(b28)] + [Bit(b29)] + [Bit(b30)])
    ensures SetBit(SetBit(SetBit(SetBit(Compose(fs), b27, 27), b28, 28), b29, 29), b30, 30) ==
      Compose(fs + [Bit(b27)] + [Bit(b28)] + [Bit(b29)] + [Bit(b30)])
  {
    SetBitCompose(fs, b27, 27);
    SetBitCompose(fs + [Bit(b27)], b28, 28);
    SetBitCompose(fs + [Bit(b27)] + [Bit(b28)], b29, 29);
    SetBitCompose(fs + [Bit(b27)] + [Bit(b28)] + [Bit(b29)], b30, 30);
  }

  lemma {:induction false} ZeroWidth(n: nat)
    ensures Width(ZeroNibbles(n)) == 4 * n
  {
    if n > 0 {
      assert ZeroNibbles(n)[1..] == ZeroNibbles(n - 1);
      ZeroWidth(n - 1);
    }
  }

  lemma FieldsAgree(a: seq<seq<int>>, atama: int, pk: seq<int>, ps: seq<int>)
    requires |pk| + |ps| <= 4
    ensures LowFields(atama, pk, ps) + [Bit(NineGatesFlag(a))] + [Bit(StraightFlag(a, ps))] + [Bit(TwoDoublesFlag(ps))] +
      [Bit(OneDoubleFlag(pk, ps))] == PayloadFields(a, atama, pk, ps)
  {
    var ms := pk + ps;
    var n := |ms|;
    var gs := PayloadFields(a, atama, pk, ps);
    var h := [BitField(|pk|, 3), BitField(|ps|, 3), BitField(atama, 4)] + Nibbles(ms) + ZeroNibbles(4 - n);
    assert |h| == 7;
    forall q | 3 <= q < 7
      ensures h[q] == BitField(Slot(ms, q - 3), 4)
    {
      if q - 3 < n {
        assert h[q] == Nibbles(ms)[q - 3];
      } else {
        assert h[q] == ZeroNibbles(4 - n)[q - 3 - n];
      }
    }
    assert h == gs[..7];
    assert LowFields(atama, pk, ps) == h + [BitField(0, 1)];
  }

  // ---------------------------------------------------------------------
  // find_hai_pos: the result

  lemma {:induction false} PackFromNonNegative(ret: int, xs: seq<int>, len: nat)
    requires ret >= 0 && forall y :: y in xs ==> y >= 0
    ensures PackFrom(ret, xs, len) >= 0
    decreases |xs|
  {
    if xs != [] {
      assert xs[0] in xs;
      OrBit(ret, Shl(xs[0], len), 0);
      assert forall y :: y in xs[1..] ==> y in xs;
      PackFromNonNegative(Or(ret, Shl(xs[0], len)), xs[1..], len + 4);
    }
  }

  lemma SetBitNonNegative(ret: int, b: bool, bit: nat)
    requires ret >= 0
    ensures SetBit(ret, b, bit) >= 0
  {
    OrBit(ret, Shl(1, bit), 0);
  }

  /** Payloads of decompositions are never negative. */
  lemma PayloadNonNegative(a: seq<seq<int>>, atama: int, pk: seq<int>, ps: seq<int>)
    requires atama >= 0 && (forall y :: y in pk ==> y >= 0) && forall y :: y in ps ==> y >= 0
    ensures Payload(a, atama, pk, ps) >= 0
  {
    var base := |pk| + Shl(|ps|, 3) + Shl(atama, 6);
    PackFromNonNegative(base, pk, 10);
    PackFromNonNegative(PackFrom(base, pk, 10), ps, 10 + 4 * |pk|);
    var r := PackFrom(PackFrom(base, pk, 10), ps, 10 + 4 * |pk|);
    SetBitNonNegative(r, NineGatesFlag(a), 27);
    SetBitNonNegative(SetBit(r, NineGatesFlag(a), 27), StraightFlag(a, ps), 28);
    var r' := SetBit(SetBit(r, NineGatesFlag(a), 27), StraightFlag(a, ps), 28);
    SetBitNonNegative(r', TwoDoublesFlag(ps), 29);
    SetBitNonNegative(SetBit(r', TwoDoublesFlag(ps), 29), OneDoubleFlag(pk, ps), 30);
  }

  /** v is the payload of a decomposition of a: a pair, triplets and
      sequences using every tile, listed in ascending order. */
  ghost predicate IsPayload(a: seq<seq<int>>, v: int)
  {
    exists atama, pk, ps :: Explains(a, atama, pk, ps) && Increasing(pk) && Sorted(ps) &&
      v == Payload(a, atama, pk, ps)
  }

  /** The loops of `find_hai_pos` over the pair position and the two
      orders of taking melds, collecting a payload for each try that uses
      every tile: exactly `Tries(a)`, each a payload of a decomposition. */
  method FindPayloads(a: seq<seq<int>>) returns (ret: seq<nat>)
    ensures ret == Tries(a)
    ensures forall v :: v in ret ==> IsPayload(a, v)
  {
    ret := [];
    var pAtama := 0;
    var i := 0;
    while i < |a|
      invariant 0 <= i <= |a| && pAtama == Offset(a, i)
      invariant forall v :: v in ret ==> IsPayload(a, v)
      invariant ret + TriesFrom(a, i, 0) == Tries(a)
    {
      var found := PairsOfGroup(a, i, pAtama);
      Reassoc(ret, found, TriesFrom(a, i + 1, 0));
      ret := ret + found;
      OffsetNext(a, i);
      pAtama := pAtama + |a[i]|;
      i := i + 1;
    }
  }

  /** The pair positions of group i, from flattened position pAtama. */
  method PairsOfGroup(a: seq<seq<int>>, i: int, pAtama: int) returns (found: seq<nat>)
    requires 0 <= i < |a| && pAtama == Offset(a, i)
    ensures found + TriesFrom(a, i + 1, 0) == TriesFrom(a, i, 0)
    ensures forall v :: v in found ==> IsPayload(a, v)
  {
    found := [];
    ghost var all := TriesFrom(a, i, 0);
    var j := 0;
    while j < |a[i]|
      invariant 0 <= j <= |a[i]|
      invariant forall v :: v in found ==> IsPayload(a, v)
      invariant found + TriesFrom(a, i, j) == all
    {
      var more: seq<nat> := [];
      if a[i][j] >= 2 {
        more := TryPair(a, i, j, pAtama + j);
      }
      PairsStep(a, i, j, found, more, all);
      found := found + more;
      j := j + 1;
    }
    TriesFromEnd(a, i);
  }

  lemma PairsStep(a: seq<seq<int>>, i: int, j: int, found: seq<int>, more: seq<int>, all: seq<int>)
    requires 0 <= i < |a| && 0 <= j < |a[i]| && found + TriesFrom(a, i, j) == all
    requires more == if a[i][j] >= 2 then TryPayloads(a, i, j, 2) else []
    ensures (found + more) + TriesFrom(a, i, j + 1) == all
  {
    TriesFromStep(a, i, j);
    Reassoc(found, more, TriesFrom(a, i, j + 1));
  }

  /** `for ks in range(2)` at the pair position (i, j). */
  method TryPair(a: seq<seq<int>>, i: int, j: int, pAtama: int) returns (found: seq<nat>)
    requires 0 <= i < |a| && 0 <= j < |a[i]| && pAtama == Offset(a, i) + j
    ensures found == TryPayloads(a, i, j, 2)
    ensures forall v :: v in found ==> IsPayload(a, v)
  {
    found := [];
    var ks := 0;
    while ks < 2
      invariant 0 <= ks <= 2 && found == TryPayloads(a, i, j, ks)
      invariant forall v :: v in found ==> IsPayload(a, v)
    {
      var ok, pk, ps := Decompose(a, i, j, ks);
      TryPayloadsStep(a, i, j, ks);
      if ok {
        var v := PackPayload(a, pAtama, pk, ps);
        DecomposedPayload(a, pAtama, pk, ps);
        found := found + [v];
      }
      ks := ks + 1;
    }
  }

  lemma TryPayloadsStep(a: seq<seq<int>>, i: int, j: int, ks: nat)
    requires 0 <= i < |a| && 0 <= j < |a[i]|
    ensures var r := TryOf(a, i, j, ks);
      TryPayloads(a, i, j, ks + 1) ==
        TryPayloads(a, i, j, ks) + (if r.0 then [Payload(a, Offset(a, i) + j, r.1, r.2)] else [])
  {
  }

  /** A decomposition's payload is a non-negative payload of `a`. */
  lemma DecomposedPayload(a: seq<seq<int>>, atama: int, pk: seq<int>, ps: seq<int>)
    requires Explains(a, atama, pk, ps) && Increasing(pk) && Sorted(ps)
    ensures Payload(a, atama, pk, ps) >= 0 && IsPayload(a, Payload(a, atama, pk, ps))
  {
    assert forall y :: y in ps ==> y >= 0 by {
      forall y | y in ps
        ensures y >= 0
      {
        assert RunIn(a, y);
      }
    }
    PayloadNonNegative(a, atama, pk, ps);
  }

  lemma TriesFromEnd(a: seq<seq<int>>, i: int)
    requires 0 <= i < |a|
    ensures TriesFrom(a, i, |a[i]|) == TriesFrom(a, i + 1, 0)
  {
  }

  lemma TriesFromStep(a: seq<seq<int>>, i: int, j: int)
    requires 0 <= i < |a| && 0 <= j < |a[i]|
    ensures TriesFrom(a, i, j) == (if a[i][j] >= 2 then TryPayloads(a, i, j, 2) else []) + TriesFrom(a, i, j + 1)
  {
  }

  lemma Reassoc(x: seq<int>, y: seq<int>, z: seq<int>)
    ensures x + (y + z) == (x + y) + z
  {
  }

  /** Fourteen tiles, all in pairs: the seven-pairs shape. */
  predicate AllPairs14(a: seq<seq<int>>)
  {
    Sum(Flatten(a)) == 14 && forall v :: v in Flatten(a) ==> v == 2
  }

  /** `find_hai_pos(a)`: the distinct payloads of the decompositions
      found, joined as hexadecimal; failing those, `hex(1 << 26)` for seven
      pairs; otherwise None. `vs` are the values the string holds. */
  method FindHaiPos(a: seq<seq<int>>) returns (r: Option<string>, ghost vs: seq<nat>)
    ensures r.Some? ==> r.value == JoinHex(vs) && ParseHexList(r.value) == Some(vs) && vs != []
    ensures r.Some? ==> forall x, y :: 0 <= x < y < |vs| ==> vs[x] != vs[y]
    ensures r.Some? ==> (forall v :: v in vs ==> IsPayload(a, v)) || (vs == [Pow2(26)] && AllPairs14(a))
    ensures r.None? <==> Tries(a) == [] && !AllPairs14(a)
    ensures Tries(a) != [] ==> forall v :: v in vs <==> v in Tries(a)
    ensures Tries(a) == [] && AllPairs14(a) ==> vs == [Pow2(26)]
  {
    var ret := FindPayloads(a);
    if |ret| > 0 {
      var u := Unique(ret);
      assert ret[0] in u;
      r, vs := Some(JoinHex(u)), u;
    } else if AllPairs14(a) {
      r, vs := Some(Hex(Pow2(26))), [Pow2(26)];
      assert JoinHex(vs) == Hex(Pow2(26));
    } else {
      return None, [];
    }
    JoinRoundTrip(vs);
  }

  /** `len(p_s) - len(set(p_s)) >= 1` holds exactly when two sequences
      start at the same position. */
  lemma {:induction false} DistinctCountSpec(s: seq<int>)
    ensures DistinctCount(s) <= |s|
    ensures DistinctCount(s) == |s| <==> Distinct(s)
  {
    if s != [] {
      var n := |s| - 1;
      DistinctCountSpec(s[..n]);
      assert s == s[..n] + [s[n]];
      assert (set y | y in s) == (set y | y in s[..n]) + {s[n]};
      if s[n] in s[..n] {
        assert (set y | y in s) == (set y | y in s[..n]);
        assert !Distinct(s) by {
          var x := IndexOf(s[..n], s[n]);
          assert s[x] == s[n];
        }
      } else {
        assert Distinct(s) <==> Distinct(s[..n]) by {
          if Distinct(s[..n]) {
            forall x, y | 0 <= x < y < |s|
              ensures s[x] != s[y]
            {
              if y == n {
                assert s[x] == s[..n][x];
              } else {
                assert s[x] == s[..n][x] && s[y] == s[..n][y];
              }
            }
          }
          if Distinct(s) {
            forall x, y | 0 <= x < y < n
              ensures s[..n][x] != s[..n][y]
            {
              assert s[x] == s[..n][x] && s[y] == s[..n][y];
            }
          }
        }
      }
    }
  }

  // ---------------------------------------------------------------------
  // The table's seed shapes and the thirteen-orphans keys

  /** The complete shapes the table grows from: up to four melds (three
      of a kind [3] or a run [1, 1, 1]) and a pair [2], as groups. */
  const Seeds: seq<seq<seq<int>>> := [
    [[1, 1, 1], [1, 1, 1], [1, 1, 1], [1, 1, 1], [2]],
    [[1, 1, 1], [1, 1, 1], [1, 1, 1], [3], [2]],
    [[1, 1, 1], [1, 1, 1], [3], [3], [2]],
    [[1, 1, 1], [3], [3], [3], [2]],
    [[3], [3], [3], [3], [2]],
    [[1, 1, 1], [1, 1, 1], [1, 1, 1], [2]],
    [[1, 1, 1], [1, 1, 1], [3], [2]],
    [[1, 1, 1], [3], [3], [2]],
    [[3], [3], [3], [2]],
    [[1, 1, 1], [1, 1, 1], [2]],
    [[1, 1, 1], [3], [2]],
    [[3], [3], [2]],
    [[1, 1, 1], [2]],
    [[3], [2]],
    [[2]]]

  /** A seed is melds then one pair, so it holds 3m + 2 tiles. */
  predicate SeedShape(s: seq<seq<int>>)
  {
    |s| >= 1 && s[|s| - 1] == [2] && forall k :: 0 <= k < |s| - 1 ==> s[k] == [1, 1, 1] || s[k] == [3]
  }

  lemma {:induction false} SeedTotal(s: seq<seq<int>>)
    requires SeedShape(s)
    ensures Total(s) == 3 * (|s| - 1) + 2
  {
    var n := |s| - 1;
    assert s == s[..n] + [[2]];
    TotalAppend(s[..n], [[2]]);
    TotalOne([2]);
    assert [2][..0] == [];
    MeldsTotal(s[..n]);
  }

  lemma {:induction false} MeldsTotal(ms: seq<seq<int>>)
    requires forall k :: 0 <= k < |ms| ==> ms[k] == [1, 1, 1] || ms[k] == [3]
    ensures Total(ms) == 3 * |ms|
  {
    if ms != [] {
      var n := |ms| - 1;
      assert ms == ms[..n] + [ms[n]];
      MeldsTotal(ms[..n]);
      TotalAppend(ms[..n], [ms[n]]);
      TotalOne(ms[n]);
      assert [1, 1, 1][..2] == [1, 1] && [1, 1][..1] == [1] && [1][..0] == [];
      assert Sum([1, 1, 1]) == 3 && Sum([3]) == 3;
    }
  }

  /** The fifteen seeds: five of 14 tiles, then 11, 8, 5 and 2 tiles. */
  lemma SeedsShapes()
    ensures |Seeds| == 15
    ensures forall k :: 0 <= k < 15 ==> SeedShape(Seeds[k])
    ensures forall k :: 0 <= k < 15 ==> Total(Seeds[k]) == (if k < 5 then 14 else if k < 9 then 11 else if k < 12 then 8 else if k < 14 then 5 else 2)
  {
    forall k | 0 <= k < 15
      ensures SeedShape(Seeds[k])
      ensures Total(Seeds[k]) == (if k < 5 then 14 else if k < 9 then 11 else if k < 12 then 8 else if k < 14 then 5 else 2)
    {
      assert SeedShape(Seeds[k]);
      SeedTotal(Seeds[k]);
    }
  }

  /** Twelve single tiles with the pair at position i: a thirteen-orphans
      hand as a pattern. */
  function KokushiPattern(i: int): (p: seq<seq<int>>)
    requires 0 <= i < 13
    ensures |p| == 13
  {
    seq(13, k => if k == i then [2] else [1])
  }

  /** The `__main__` loop inserting [2] at each of the 13 positions of
      twelve [1] groups and computing each key: 13 keys, all different. */
  method KokushiKeys() returns (keys: seq<int>)
    ensures |keys| == 13
    ensures forall i :: 0 <= i < 13 ==> KeyOf(KokushiPattern(i)) == Some(keys[i])
    ensures forall x, y :: 0 <= x < y < 13 ==> keys[x] != keys[y]
  {
    var ones := seq(12, _ => [1]);
    var p := ones;
    keys := [];
    var i := 0;
    while i < 13
      invariant 0 <= i <= 13 && |keys| == i && p == ones
      invariant forall x :: 0 <= x < i ==> KeyOf(KokushiPattern(x)) == Some(keys[x])
    {
      p := p[..i] + [[2]] + p[i..];
      assert p == KokushiPattern(i);
      var key := CalcKey(p);
      assert key.Some? by {
        assert p[0] != [];
      }
      keys := keys + [key.value];
      assert p[..i] + p[i + 1..] == ones;
      p := RemoveAt(p, i);
      i := i + 1;
    }
    forall x, y | 0 <= x < y < 13
      ensures keys[x] != keys[y]
    {
      KokushiDistinct(x, y);
    }
  }

  lemma KokushiDistinct(x: int, y: int)
    requires 0 <= x < y < 13
    ensures KeyOf(KokushiPattern(x)) != KeyOf(KokushiPattern(y))
  {
    var px, py := KokushiPattern(x), KokushiPattern(y);
    assert WellFormed(px) && WellFormed(py);
    assert px[x] != py[x];
    if KeyOf(px) == KeyOf(py) {
      KeyInjective(px, py);
    }
  }
}
