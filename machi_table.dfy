/** The waiting-shape table builder of mahjong/make_machi_table.py: every
    13-tile shape one tile short of a winning shape, obtained by taking one
    tile away from a winning pattern. */
module MachiTable {
  import opened Common
  import opened PatternKey
  import opened AgariTable

  /** `[s] if s else []` */
  function Nonempty(s: seq<int>): seq<seq<int>>
  {
    if s == [] then [] else [s]
  }

  /** The groups that replace group g once its entry j has been lowered:
      a group whose only entry is 0 disappears; a 0 at either end is
      dropped; an interior 0 splits the group only when a neighbour is
      already 0, taking that neighbour with it (the group left of the split
      is kept even when empty, the group on the other side only when
      non-empty); otherwise the 0 stays inside the group. */
  function Split(g: seq<int>, j: int): seq<seq<int>>
    requires 0 <= j < |g|
  {
    if g[j] != 0 then [g]
    else if |g| == 1 then []
    else if j == 0 then [g[1..]]
    else if j == |g| - 1 then [g[..j]]
    else if g[j - 1] == 0 then [g[..j - 1]] + Nonempty(g[j + 1..])
    else if g[j + 1] == 0 then Nonempty(g[..j]) + [g[j + 2..]]
    else [g]
  }

  /** The pattern `remove_one_from_ptn` derives from `a` by taking one tile
      from entry j of group i. */
  function RemovedAt(a: seq<seq<int>>, i: int, j: int): seq<seq<int>>
    requires 0 <= i < |a| && 0 <= j < |a[i]|
  {
    a[..i] + Split(a[i][j := a[i][j] - 1], j) + a[i + 1..]
  }

  /** Whether `remove_one_from_ptn` appends the pattern derived from entry j
      of group g: the entry is not 0, and either it stays non-zero, or it
      is a group of its own, or it lies strictly inside its group. An
      emptied first or last entry of a longer group is trimmed off the copy,
      but the append of mahjong/make_machi_table.py:41 sits in the branch
      for interior entries only, so that copy is dropped. */
  predicate Appended(g: seq<int>, j: int)
    requires 0 <= j < |g|
  {
    g[j] != 0 && (g[j] != 1 || |g| == 1 || 0 < j < |g| - 1)
  }

  /** Whether the pattern derived from entry j of g is listed: as
      written (`all` false), when it is appended; as evidently intended
      (`all` true), for every non-zero entry. */
  predicate Taken(g: seq<int>, j: int, all: bool)
    requires 0 <= j < |g|
  {
    if all then g[j] != 0 else Appended(g, j)
  }

  /** The patterns derived from the first n entries of group i, in order. */
  function RowRemovals(a: seq<seq<int>>, i: int, n: int, all: bool): seq<seq<seq<int>>>
    requires 0 <= i < |a| && 0 <= n <= |a[i]|
  {
    if n == 0 then []
    else RowRemovals(a, i, n - 1, all) + (if Taken(a[i], n - 1, all) then [RemovedAt(a, i, n - 1)] else [])
  }

  /** The patterns derived from the first n groups, in order. */
  function RemovalsUpTo(a: seq<seq<int>>, n: int, all: bool): seq<seq<seq<int>>>
    requires 0 <= n <= |a|
  {
    if n == 0 then [] else RemovalsUpTo(a, n - 1, all) + RowRemovals(a, n - 1, |a[n - 1]|, all)
  }

  /** Everything `remove_one_from_ptn(a)` returns, in the order it returns
      them: one pattern per appended entry, groups and entries in order. */
  function Removals(a: seq<seq<int>>): seq<seq<seq<int>>>
  {
    RemovalsUpTo(a, |a|, false)
  }

  /** What `remove_one_from_ptn(a)` evidently means to return, with the
      append of mahjong/make_machi_table.py:41 applying to the trimmed
      ends too: one pattern per non-zero entry, in loop order. */
  function IntendedRemovals(a: seq<seq<int>>): seq<seq<seq<int>>>
  {
    RemovalsUpTo(a, |a|, true)
  }

  /** `lst.insert(i, x)` on a copy. */
  function Insert(s: seq<seq<int>>, i: int, x: seq<int>): (r: seq<seq<int>>)
    requires 0 <= i <= |s|
    ensures |r| == |s| + 1 && r[i] == x
  {
    s[..i] + [x] + s[i..]
  }

  /** `remove_one_from_ptn(a)`. The working copy `cur` stands for the
      caller's list: its entry is decremented before the copy is taken and
      restored after, which the loop invariants show leaves it equal to `a`. */
  method RemoveOneFromPtn(a: seq<seq<int>>) returns (ptns: seq<seq<seq<int>>>)
    ensures ptns == Removals(a)
  {
    var cur := a;
    ptns := [];
    var i := 0;
    while i < |cur|
      invariant 0 <= i <= |a| && cur == a
      invariant ptns == RemovalsUpTo(a, i, false)
    {
      var j := 0;
      while j < |cur[i]|
        invariant 0 <= j <= |a[i]| && cur == a
        invariant ptns == RemovalsUpTo(a, i, false) + RowRemovals(a, i, j, false)
      {
        RowNext(a, i, j, ptns);
        if cur[i][j] != 0 {
          cur := cur[i := cur[i][j := cur[i][j] - 1]];
          var newPtn := cur;
          cur := cur[i := cur[i][j := cur[i][j] + 1]];
          assert cur[i] == a[i];
          assert cur == a;
          var append;
          newPtn, append := RemovedFrom(a, newPtn, i, j);
          if append {
            ptns := ptns + [newPtn];
          }
        }
        j := j + 1;
      }
      assert RemovalsUpTo(a, i + 1, false) == RemovalsUpTo(a, i, false) + RowRemovals(a, i, |a[i]|, false);
      i := i + 1;
    }
  }

  /** The pops and inserts applied to the decremented copy `p` of `a`, and
      whether the branch taken appends the result. */
  method RemovedFrom(ghost a: seq<seq<int>>, p: seq<seq<int>>, i: int, j: int) returns (r: seq<seq<int>>, append: bool)
    requires 0 <= i < |a| && 0 <= j < |a[i]| && a[i][j] != 0
    requires p == a[i := a[i][j := a[i][j] - 1]]
    ensures r == RemovedAt(a, i, j)
    ensures append <==> Appended(a[i], j)
  {
    ghost var g, pre, post := p[i], p[..i], p[i + 1..];
    assert RemovedAt(a, i, j) == pre + Split(g, j) + post;
    assert p == pre + [g] + post;
    r, append := p, true;
    if r[i][j] != 0 {
      return;
    }
    if |r[i]| == 1 {
      r := RemoveAt(r, i);
      assert r == pre + Split(g, j) + post;
      return;
    }
    if j == 0 {
      r := r[i := r[i][1..]];
      assert r == pre + [g[1..]] + post;
      append := false;
    } else if j == |p[i]| - 1 {
      r := r[i := r[i][..|r[i]| - 1]];
      assert r == pre + [g[..j]] + post;
      append := false;
    } else if r[i][j - 1] == 0 {
      var left, right := r[i][..j - 1], r[i][j + 1..];
      r := RemoveAt(r, i);
      assert r == pre + post;
      r := Insert(r, i, left);
      assert r == pre + [left] + post;
      if right != [] {
        r := Insert(r, i + 1, right);
        assert r == pre + [left] + [right] + post;
      }
      assert r == pre + ([left] + Nonempty(right)) + post;
    } else if r[i][j + 1] == 0 {
      var left, right := r[i][..j], r[i][j + 2..];
      r := RemoveAt(r, i);
      assert r == pre + post;
      r := Insert(r, i, right);
      assert r == pre + [right] + post;
      if left != [] {
        r := Insert(r, i, left);
        assert r == pre + [left] + [right] + post;
      }
      assert r == pre + (Nonempty(left) + [right]) + post;
    }
  }

  // ---------------------------------------------------------------------
  // Properties

  lemma {:induction false} SumAllZero(s: seq<int>)
    requires forall k :: 0 <= k < |s| ==> s[k] == 0
    ensures Sum(s) == 0
  {
    if s != [] {
      SumAllZero(s[..|s| - 1]);
    }
  }

  /** Cutting a run of zeros out of a group keeps its sum. */
  lemma SumCut(g: seq<int>, lo: int, hi: int)
    requires 0 <= lo <= hi <= |g|
    requires forall k :: lo <= k < hi ==> g[k] == 0
    ensures Sum(g) == Sum(g[..lo]) + Sum(g[hi..])
  {
    assert g == g[..lo] + g[lo..hi] + g[hi..];
    SumAppend(g[..lo] + g[lo..hi], g[hi..]);
    SumAppend(g[..lo], g[lo..hi]);
    SumAllZero(g[lo..hi]);
  }

  /** Replacing group i by the groups gs. */
  lemma TotalSplice(a: seq<seq<int>>, i: int, gs: seq<seq<int>>)
    requires 0 <= i < |a|
    ensures Total(a[..i] + gs + a[i + 1..]) == Total(a) - Sum(a[i]) + Total(gs)
  {
    TotalRemoveAt(a, i);
    TotalAppend(a[..i] + gs, a[i + 1..]);
    TotalAppend(a[..i], gs);
    TotalAppend(a[..i], a[i + 1..]);
  }

  lemma TotalNonempty(s: seq<int>)
    ensures Total(Nonempty(s)) == Sum(s)
  {
    if s != [] {
      TotalOne(s);
    } else {
      assert Flatten<int>([]) == [];
    }
  }

  lemma TotalPair(x: seq<int>, y: seq<int>)
    ensures Total([x] + Nonempty(y)) == Sum(x) + Sum(y)
          && Total(Nonempty(x) + [y]) == Sum(x) + Sum(y)
  {
    TotalAppend([x], Nonempty(y));
    TotalAppend(Nonempty(x), [y]);
    TotalOne(x);
    TotalOne(y);
    TotalNonempty(x);
    TotalNonempty(y);
  }

  /** Splitting a group keeps its tiles. */
  lemma SplitTotal(g: seq<int>, j: int)
    requires 0 <= j < |g|
    ensures Total(Split(g, j)) == Sum(g)
  {
    if g[j] != 0 || (0 < j < |g| - 1 && g[j - 1] != 0 && g[j + 1] != 0) {
      assert Split(g, j) == [g];
      TotalOne(g);
    } else if |g| == 1 || j == 0 || j == |g| - 1 {
      SplitEnd(g, j);
    } else {
      SplitInner(g, j);
    }
  }

  lemma SplitEnd(g: seq<int>, j: int)
    requires 0 <= j < |g| && g[j] == 0 && (|g| == 1 || j == 0 || j == |g| - 1)
    ensures Total(Split(g, j)) == Sum(g)
  {
    if |g| == 1 {
      assert Split(g, j) == [];
      SumCut(g, 0, 1);
      assert Flatten<int>([]) == [];
    } else if j == 0 {
      assert Split(g, j) == [g[1..]];
      TotalOne(g[1..]);
      SumCut(g, 0, 1);
    } else {
      assert Split(g, j) == [g[..j]];
      TotalOne(g[..j]);
      SumCut(g, j, j + 1);
    }
  }

  /** Two adjacent zeros cut out of a group leave its sum. */
  lemma SumCutPair(g: seq<int>, lo: int)
    requires 0 <= lo && lo + 2 <= |g| && g[lo] == 0 && g[lo + 1] == 0
    ensures Sum(g) == Sum(g[..lo]) + Sum(g[lo + 2..])
  {
    forall k | lo <= k < lo + 2
      ensures g[k] == 0
    {
      assert k == lo || k == lo + 1;
    }
    SumCut(g, lo, lo + 2);
  }

  lemma SplitInner(g: seq<int>, j: int)
    requires 0 < j < |g| - 1 && g[j] == 0 && (g[j - 1] == 0 || g[j + 1] == 0)
    ensures Total(Split(g, j)) == Sum(g)
  {
    if g[j - 1] == 0 {
      assert Split(g, j) == [g[..j - 1]] + Nonempty(g[j + 1..]);
      TotalPair(g[..j - 1], g[j + 1..]);
      SumCutPair(g, j - 1);
    } else {
      assert Split(g, j) == Nonempty(g[..j]) + [g[j + 2..]];
      TotalPair(g[..j], g[j + 2..]);
      SumCutPair(g, j);
    }
  }

  /** Every derived pattern holds one tile fewer than the input. */
  lemma RemovedTotal(a: seq<seq<int>>, i: int, j: int)
    requires 0 <= i < |a| && 0 <= j < |a[i]|
    ensures Total(RemovedAt(a, i, j)) == Total(a) - 1
  {
    var g := a[i][j := a[i][j] - 1];
    SumUpdate(a[i], j, a[i][j] - 1);
    TotalSplice(a, i, Split(g, j));
    SplitTotal(g, j);
  }

  /** Every pattern `remove_one_from_ptn(a)` returns holds one tile fewer
      than `a`. */
  lemma RemovalsTotal(a: seq<seq<int>>)
    ensures forall p :: p in Removals(a) ==> Total(p) == Total(a) - 1
  {
    ListTotal(a, false);
  }

  /** So does every pattern of the intended list. */
  lemma IntendedTotal(a: seq<seq<int>>)
    ensures forall p :: p in IntendedRemovals(a) ==> Total(p) == Total(a) - 1
  {
    ListTotal(a, true);
  }

  lemma ListTotal(a: seq<seq<int>>, all: bool)
    ensures forall p :: p in RemovalsUpTo(a, |a|, all) ==> Total(p) == Total(a) - 1
  {
    UpToTotal(a, |a|, all);
    var ps := RemovalsUpTo(a, |a|, all);
    forall p | p in ps
      ensures Total(p) == Total(a) - 1
    {
      var k :| 0 <= k < |ps| && ps[k] == p;
    }
  }

  /** Entry j of group i is one whose derived pattern is listed. */
  predicate TakenAt(a: seq<seq<int>>, i: int, j: int, all: bool)
  {
    0 <= i < |a| && 0 <= j < |a[i]| && Taken(a[i], j, all)
  }

  /** The patterns `remove_one_from_ptn(a)` returns are exactly those
      derived from the entries whose pattern is appended. */
  lemma RemovalsMembers(a: seq<seq<int>>)
    ensures forall i, j :: TakenAt(a, i, j, false) ==> RemovedAt(a, i, j) in Removals(a)
    ensures forall p :: p in Removals(a) ==> exists i, j :: TakenAt(a, i, j, false) && p == RemovedAt(a, i, j)
  {
    ListMembers(a, false);
  }

  /** The intended list holds exactly the patterns derived from the
      non-zero entries. */
  lemma IntendedMembers(a: seq<seq<int>>)
    ensures forall i, j :: 0 <= i < |a| && 0 <= j < |a[i]| && a[i][j] != 0 ==> RemovedAt(a, i, j) in IntendedRemovals(a)
    ensures forall p :: p in IntendedRemovals(a) ==>
      exists i, j :: 0 <= i < |a| && 0 <= j < |a[i]| && a[i][j] != 0 && p == RemovedAt(a, i, j)
  {
    ListMembers(a, true);
    forall i, j | 0 <= i < |a| && 0 <= j < |a[i]| && a[i][j] != 0
      ensures RemovedAt(a, i, j) in IntendedRemovals(a)
    {
      assert TakenAt(a, i, j, true);
    }
    forall p | p in IntendedRemovals(a)
      ensures exists i, j :: 0 <= i < |a| && 0 <= j < |a[i]| && a[i][j] != 0 && p == RemovedAt(a, i, j)
    {
      var i, j :| TakenAt(a, i, j, true) && p == RemovedAt(a, i, j);
    }
  }

  /** What `remove_one_from_ptn` appends is part of the intended list. */
  lemma RemovalsIntended(a: seq<seq<int>>)
    ensures forall p :: p in Removals(a) ==> p in IntendedRemovals(a)
  {
    RemovalsMembers(a);
    IntendedMembers(a);
  }

  lemma ListMembers(a: seq<seq<int>>, all: bool)
    ensures forall i, j :: TakenAt(a, i, j, all) ==> RemovedAt(a, i, j) in RemovalsUpTo(a, |a|, all)
    ensures forall p :: p in RemovalsUpTo(a, |a|, all) ==> exists i, j :: TakenAt(a, i, j, all) && p == RemovedAt(a, i, j)
  {
    forall i, j | TakenAt(a, i, j, all)
      ensures RemovedAt(a, i, j) in RemovalsUpTo(a, |a|, all)
    {
      RowHas(a, i, j, |a[i]|, all);
      UpToHas(a, i + 1, |a|, all);
      assert RemovalsUpTo(a, i + 1, all) == RemovalsUpTo(a, i, all) + RowRemovals(a, i, |a[i]|, all);
    }
    forall p | p in RemovalsUpTo(a, |a|, all)
      ensures exists i, j :: TakenAt(a, i, j, all) && p == RemovedAt(a, i, j)
    {
      UpToOnly(a, |a|, p, all);
    }
  }

  /** A row's list holds the pattern of each of its listed entries. */
  lemma {:induction false} RowHas(a: seq<seq<int>>, i: int, j: int, n: int, all: bool)
    requires TakenAt(a, i, j, all) && j < n <= |a[i]|
    ensures RemovedAt(a, i, j) in RowRemovals(a, i, n, all)
  {
    RowStep(a, i, n, all);
    if j < n - 1 {
      RowHas(a, i, j, n - 1, all);
    }
  }

  /** Later groups only extend the list. */
  lemma {:induction false} UpToHas(a: seq<seq<int>>, m: int, n: int, all: bool)
    requires 0 <= m <= n <= |a|
    ensures forall q :: q in RemovalsUpTo(a, m, all) ==> q in RemovalsUpTo(a, n, all)
  {
    if m < n {
      UpToHas(a, m, n - 1, all);
    }
  }

  /** Every listed pattern comes from a listed entry. */
  lemma {:induction false} UpToOnly(a: seq<seq<int>>, n: int, p: seq<seq<int>>, all: bool)
    requires 0 <= n <= |a| && p in RemovalsUpTo(a, n, all)
    ensures exists i, j :: TakenAt(a, i, j, all) && p == RemovedAt(a, i, j)
  {
    if p in RemovalsUpTo(a, n - 1, all) {
      UpToOnly(a, n - 1, p, all);
    } else {
      RowOnly(a, n - 1, |a[n - 1]|, p, all);
    }
  }

  lemma {:induction false} RowOnly(a: seq<seq<int>>, i: int, n: int, p: seq<seq<int>>, all: bool)
    requires 0 <= i < |a| && 0 <= n <= |a[i]| && p in RowRemovals(a, i, n, all)
    ensures exists j :: TakenAt(a, i, j, all) && p == RemovedAt(a, i, j)
  {
    RowStep(a, i, n, all);
    if p in RowRemovals(a, i, n - 1, all) {
      RowOnly(a, i, n - 1, p, all);
    } else {
      assert TakenAt(a, i, n - 1, all) && p == RemovedAt(a, i, n - 1);
    }
  }

  /** Every pattern in ps holds t tiles. */
  predicate AllTotal(ps: seq<seq<seq<int>>>, t: int)
  {
    forall k :: 0 <= k < |ps| ==> Total(ps[k]) == t
  }

  lemma {:induction false} UpToTotal(a: seq<seq<int>>, n: int, all: bool)
    requires 0 <= n <= |a|
    ensures AllTotal(RemovalsUpTo(a, n, all), Total(a) - 1)
  {
    if n > 0 {
      UpToTotal(a, n - 1, all);
      RowTotal(a, n - 1, |a[n - 1]|, all);
      TotalsConcat(RemovalsUpTo(a, n - 1, all), RowRemovals(a, n - 1, |a[n - 1]|, all), Total(a) - 1);
    }
  }

  lemma {:induction false} RowTotal(a: seq<seq<int>>, i: int, n: int, all: bool)
    requires 0 <= i < |a| && 0 <= n <= |a[i]|
    ensures AllTotal(RowRemovals(a, i, n, all), Total(a) - 1)
  {
    if n > 0 {
      RowTotal(a, i, n - 1, all);
      RowStep(a, i, n, all);
      if Taken(a[i], n - 1, all) {
        AppendRemovedTotal(a, i, n - 1, RowRemovals(a, i, n - 1, all));
      }
    }
  }

  lemma AppendRemovedTotal(a: seq<seq<int>>, i: int, j: int, ps: seq<seq<seq<int>>>)
    requires 0 <= i < |a| && 0 <= j < |a[i]| && AllTotal(ps, Total(a) - 1)
    ensures AllTotal(ps + [RemovedAt(a, i, j)], Total(a) - 1)
  {
    RemovedTotal(a, i, j);
    TotalsAppend(ps, RemovedAt(a, i, j), Total(a) - 1);
  }

  /** The patterns so far, extended by entry j of row i. */
  lemma RowNext(a: seq<seq<int>>, i: int, j: int, ptns: seq<seq<seq<int>>>)
    requires 0 <= i < |a| && 0 <= j < |a[i]|
    requires ptns == RemovalsUpTo(a, i, false) + RowRemovals(a, i, j, false)
    ensures Appended(a[i], j) ==> ptns + [RemovedAt(a, i, j)] == RemovalsUpTo(a, i, false) + RowRemovals(a, i, j + 1, false)
    ensures !Appended(a[i], j) ==> ptns == RemovalsUpTo(a, i, false) + RowRemovals(a, i, j + 1, false)
  {
    RowStep(a, i, j + 1, false);
  }

  /** One more entry of the row adds its pattern when that entry is
      listed. */
  lemma RowStep(a: seq<seq<int>>, i: int, n: int, all: bool)
    requires 0 <= i < |a| && 0 < n <= |a[i]|
    ensures Taken(a[i], n - 1, all) ==> RowRemovals(a, i, n, all) == RowRemovals(a, i, n - 1, all) + [RemovedAt(a, i, n - 1)]
    ensures !Taken(a[i], n - 1, all) ==> RowRemovals(a, i, n, all) == RowRemovals(a, i, n - 1, all)
  {
    assert RowRemovals(a, i, n - 1, all) + [] == RowRemovals(a, i, n - 1, all);
  }

  lemma TotalsAppend(ps: seq<seq<seq<int>>>, q: seq<seq<int>>, t: int)
    requires AllTotal(ps, t) && Total(q) == t
    ensures AllTotal(ps + [q], t)
  {
    assert forall k :: 0 <= k < |ps| ==> (ps + [q])[k] == ps[k];
  }

  lemma TotalsConcat(ps: seq<seq<seq<int>>>, qs: seq<seq<seq<int>>>, t: int)
    requires AllTotal(ps, t) && AllTotal(qs, t)
    ensures AllTotal(ps + qs, t)
  {
    assert forall k :: |ps| <= k < |ps + qs| ==> (ps + qs)[k] == qs[k - |ps|];
  }

  /** The number of non-zero entries. */
  function CountNonZero(s: seq<int>): nat
  {
    if s == [] then 0 else CountNonZero(s[..|s| - 1]) + (if s[|s| - 1] != 0 then 1 else 0)
  }

  lemma {:induction false} CountAppend(s: seq<int>, t: seq<int>)
    ensures CountNonZero(s + t) == CountNonZero(s) + CountNonZero(t)
  {
    if t == [] {
      assert s + t == s;
    } else {
      CountAppend(s, t[..|t| - 1]);
      assert (s + t)[..|s + t| - 1] == s + t[..|t| - 1];
    }
  }

  /** The emptied end entries of a group of two or more whose patterns
      are dropped: its first entry when that is 1, and its last when that
      is 1. */
  function EndTrims(g: seq<int>): nat
  {
    if |g| <= 1 then 0
    else (if g[0] == 1 then 1 else 0) + (if g[|g| - 1] == 1 then 1 else 0)
  }

  /** The dropped end entries of all groups. */
  function AllEndTrims(a: seq<seq<int>>): nat
  {
    if a == [] then 0 else AllEndTrims(a[..|a| - 1]) + EndTrims(a[|a| - 1])
  }

  /** The dropped end entries among the first n entries of g. */
  function TrimsBefore(g: seq<int>, n: int): nat
  {
    if |g| <= 1 then 0
    else (if 1 <= n && g[0] == 1 then 1 else 0) + (if n == |g| && g[|g| - 1] == 1 then 1 else 0)
  }

  /** The entries of a row that are dropped among its first n. */
  function Dropped(g: seq<int>, n: int, all: bool): nat
  {
    if all then 0 else TrimsBefore(g, n)
  }

  lemma {:induction false} RowCount(a: seq<seq<int>>, i: int, n: int, all: bool)
    requires 0 <= i < |a| && 0 <= n <= |a[i]|
    ensures |RowRemovals(a, i, n, all)| == CountNonZero(a[i][..n]) - Dropped(a[i], n, all)
  {
    if n > 0 {
      RowCount(a, i, n - 1, all);
      RowStep(a, i, n, all);
      assert a[i][..n][..n - 1] == a[i][..n - 1];
      assert a[i][..n][n - 1] == a[i][n - 1];
    }
  }

  /** The dropped entries of all groups. */
  function AllDropped(a: seq<seq<int>>, all: bool): nat
  {
    if all then 0 else AllEndTrims(a)
  }

  lemma {:induction false} UpToCount(a: seq<seq<int>>, n: int, all: bool)
    requires 0 <= n <= |a|
    ensures |RemovalsUpTo(a, n, all)| == CountNonZero(Flatten(a[..n])) - AllDropped(a[..n], all)
  {
    if n > 0 {
      UpToCount(a, n - 1, all);
      RowCount(a, n - 1, |a[n - 1]|, all);
      assert a[..n][..n - 1] == a[..n - 1];
      assert a[..n][n - 1] == a[n - 1];
      assert a[n - 1][..|a[n - 1]|] == a[n - 1];
      CountAppend(Flatten(a[..n - 1]), a[n - 1]);
    }
  }

  /** `remove_one_from_ptn(a)` returns one pattern per non-zero entry of
      `a`, less one for each group of two or more whose first or last
      entry is 1: emptying such an end entry trims the copy, which is then
      never appended. */
  lemma RemovalsCount(a: seq<seq<int>>)
    ensures |Removals(a)| == CountNonZero(Flatten(a)) - AllEndTrims(a)
  {
    UpToCount(a, |a|, false);
    assert a[..|a|] == a;
  }

  /** The intended list has one pattern per non-zero entry. */
  lemma IntendedCount(a: seq<seq<int>>)
    ensures |IntendedRemovals(a)| == CountNonZero(Flatten(a))
  {
    UpToCount(a, |a|, true);
    assert a[..|a|] == a;
  }

  /** For the pattern of one sequence and a pair, two of the four
      one-tile removals are dropped: the first and the last tile of the
      sequence. */
  lemma EndTrimsDropped()
    ensures Removals([[1, 1, 1], [2]]) == [[[1, 0, 1], [2]], [[1, 1, 1], [1]]]
    ensures CountNonZero(Flatten([[1, 1, 1], [2]])) == 4
  {
    var a := [[1, 1, 1], [2]];
    assert RowRemovals(a, 0, 3, false) == [RemovedAt(a, 0, 1)];
    assert RowRemovals(a, 1, 1, false) == [RemovedAt(a, 1, 0)];
    assert a[0][1 := 0] == [1, 0, 1] && Split([1, 0, 1], 1) == [[1, 0, 1]];
    assert a[..0] == [] && a[1..] == [[2]];
    assert RemovedAt(a, 0, 1) == [[1, 0, 1], [2]];
    assert a[1][0 := 1] == [1] && Split([1], 0) == [[1]];
    assert a[..1] == [[1, 1, 1]] && a[2..] == [];
    assert RemovedAt(a, 1, 0) == [[1, 1, 1], [1]];
    assert RemovalsUpTo(a, 2, false) == RemovalsUpTo(a, 1, false) + RowRemovals(a, 1, 1, false);
    assert a[..1] == [[1, 1, 1]] && Flatten<int>([]) == [];
    assert Flatten(a[..1]) == [1, 1, 1];
    assert Flatten(a) == [1, 1, 1, 2];
    assert [1, 1, 1, 2][..3] == [1, 1, 1] && [1, 1, 1][..2] == [1, 1] && [1, 1][..1] == [1] && [1][..0] == [];
  }

  /** So the two-sided wait `[[1, 1], [2]]` on a pair is in the intended
      list of that pattern but not in the one returned. */
  lemma TwoSidedWaitDropped()
    ensures [[1, 1], [2]] in IntendedRemovals([[1, 1, 1], [2]])
    ensures [[1, 1], [2]] !in Removals([[1, 1, 1], [2]])
  {
    var a := [[1, 1, 1], [2]];
    EndTrimsDropped();
    assert a[0][2 := 0] == [1, 1, 0] && [1, 1, 0][..2] == [1, 1];
    assert Split([1, 1, 0], 2) == [[1, 1]];
    assert a[..0] == [] && a[1..] == [[2]];
    assert RemovedAt(a, 0, 2) == [[1, 1], [2]];
    IntendedMembers(a);
    assert [[1, 1], [2]] != [[1, 0, 1], [2]] && [[1, 1], [2]] != [[1, 1, 1], [1]];
  }

  /** The cases of the derivation, as `make_machi_table` promises them: an entry
      that stays non-zero is just lowered; an emptied singleton group is
      removed; an emptied first or last entry is dropped from its group;
      an emptied interior entry between non-zero neighbours stays as 0. */
  lemma RemovedCases(a: seq<seq<int>>, i: int, j: int)
    requires 0 <= i < |a| && 0 <= j < |a[i]|
    ensures a[i][j] != 1 ==> RemovedAt(a, i, j) == a[i := a[i][j := a[i][j] - 1]]
    ensures a[i] == [1] ==> RemovedAt(a, i, j) == RemoveAt(a, i)
    ensures |a[i]| > 1 && j == 0 && a[i][j] == 1 ==> RemovedAt(a, i, j) == a[i := a[i][1..]]
    ensures |a[i]| > 1 && j == |a[i]| - 1 && a[i][j] == 1 ==> RemovedAt(a, i, j) == a[i := a[i][..j]]
    ensures 0 < j < |a[i]| - 1 && a[i][j] == 1 && a[i][j - 1] != 0 && a[i][j + 1] != 0 ==>
      RemovedAt(a, i, j) == a[i := a[i][j := 0]]
  {
    var g := a[i][j := a[i][j] - 1];
    assert forall x :: a[i := x] == a[..i] + [x] + a[i + 1..];
    assert 0 < j < |a[i]| - 1 ==> g[j - 1] == a[i][j - 1] && g[j + 1] == a[i][j + 1];
    if |a[i]| > 1 && j == 0 && a[i][j] == 1 {
      assert g[1..] == a[i][1..];
    }
    if |a[i]| > 1 && j == |a[i]| - 1 && a[i][j] == 1 {
      assert g[..j] == a[i][..j];
    }
  }

  /** An emptied interior entry between non-zero neighbours leaves a 0 inside
      its group, and since `calc_key` writes a 0 exactly as it writes a 1,
      the derived 13-tile shape gets the key of the winning shape it came
      from. */
  lemma InteriorZeroKey(a: seq<seq<int>>, i: int, j: int)
    requires 0 <= i < |a| && 0 < j < |a[i]| - 1
    requires a[i][j] == 1 && a[i][j - 1] != 0 && a[i][j + 1] != 0
    ensures Total(RemovedAt(a, i, j)) == Total(a) - 1
    ensures KeyOf(RemovedAt(a, i, j)) == KeyOf(a)
  {
    RemovedCases(a, i, j);
    RemovedTotal(a, i, j);
    var b := a[i := a[i][j := 0]];
    KeyZeroAsOne(b, i, j);
    assert b[i][j := 1] == a[i];
    assert b[i := b[i][j := 1]] == a;
  }

  /** On a well-formed pattern (non-empty groups, entries 1..4) the derived
      pattern is well-formed again, except when an interior 1 is taken. */
  lemma RemovedWellFormed(a: seq<seq<int>>, i: int, j: int)
    requires WellFormed(a) && 0 <= i < |a| && 0 <= j < |a[i]|
    ensures WellFormed(RemovedAt(a, i, j)) <==> !(0 < j < |a[i]| - 1 && a[i][j] == 1)
  {
    RemovedCases(a, i, j);
    var r := RemovedAt(a, i, j);
    if 0 < j < |a[i]| - 1 && a[i][j] == 1 {
      assert r[i][j] == 0;
    } else if a[i][j] != 1 {
      GroupWellFormed(a, i, a[i][j := a[i][j] - 1]);
    } else if a[i] == [1] {
      DropWellFormed(a, i);
    } else if j == 0 {
      GroupWellFormed(a, i, a[i][1..]);
    } else {
      GroupWellFormed(a, i, a[i][..j]);
    }
  }

  /** Replacing a group by a non-empty group of entries 1..4 keeps a
      pattern well-formed. */
  lemma GroupWellFormed(a: seq<seq<int>>, i: int, g: seq<int>)
    requires WellFormed(a) && 0 <= i < |a| && g != []
    requires forall k :: 0 <= k < |g| ==> 1 <= g[k] <= 4
    ensures WellFormed(a[i := g])
  {
  }

  /** Dropping a group keeps a pattern well-formed. */
  lemma DropWellFormed(a: seq<seq<int>>, i: int)
    requires WellFormed(a) && 0 <= i < |a|
    ensures WellFormed(RemoveAt(a, i))
  {
    var r := RemoveAt(a, i);
    assert forall k :: 0 <= k < |r| ==> r[k] == (if k < i then a[k] else a[k + 1]);
  }
}
