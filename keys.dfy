/** The hand-shape key of mahjong/make_agari_table.py.

    `to_pattern` turns per-kind tile counts into a "pattern": the non-zero
    counts, split into runs of consecutive kinds of one suit (honors stand
    alone). `calc_key` writes a pattern as a prefix code and reads the
    bits as an integer.

    The code, bit by bit from the least significant end, is the stream
    below with its first bit dropped: each count c contributes a 0 and
    then 2(c-1) ones (none for a count other than 2, 3 or 4), and each
    group ends with a 1. The dropped first bit is the 0 of the first
    count, so the first group must not be empty. */
module PatternKey {
  import opened Common
  import opened Bits

  // ---------------------------------------------------------------------
  // The bit stream of a pattern

  function Ones(n: nat): (s: seq<bool>)
    ensures |s| == n && forall i :: 0 <= i < n ==> s[i]
  {
    if n == 0 then [] else [true] + Ones(n - 1)
  }

  /** The number of one-bits `calc_key` writes for a count. */
  function OnesFor(c: int): nat
  {
    if c == 2 then 2 else if c == 3 then 4 else if c == 4 then 6 else 0
  }

  function ElemBits(c: int): seq<bool>
  {
    [false] + Ones(OnesFor(c))
  }

  function ElemsBits(g: seq<int>): seq<bool>
  {
    if g == [] then [] else ElemBits(g[0]) + ElemsBits(g[1..])
  }

  function GroupBits(g: seq<int>): seq<bool>
  {
    ElemsBits(g) + [true]
  }

  function Stream(a: seq<seq<int>>): seq<bool>
  {
    if a == [] then [] else GroupBits(a[0]) + Stream(a[1..])
  }

  /** The value of a little-endian bit string. */
  function Val(s: seq<bool>): nat
  {
    if s == [] then 0 else (if s[0] then 1 else 0) + 2 * Val(s[1..])
  }

  /** What `calc_key(a)` computes: None where it raises (a negative shift
      for an empty first group). */
  function KeyOf(a: seq<seq<int>>): Option<int>
  {
    if a == [] then Some(0)
    else if a[0] == [] then None
    else Some(Val(Stream(a)) / 2)
  }

  lemma {:induction false} ElemsAppend(g: seq<int>, c: int)
    ensures ElemsBits(g + [c]) == ElemsBits(g) + ElemBits(c)
  {
    if g == [] {
      assert g + [c] == [c];
      assert [c][1..] == [];
    } else {
      assert (g + [c])[1..] == g[1..] + [c];
      ElemsAppend(g[1..], c);
    }
  }

  lemma {:induction false} StreamAppend(a: seq<seq<int>>, g: seq<int>)
    ensures Stream(a + [g]) == Stream(a) + GroupBits(g)
  {
    if a == [] {
      assert a + [g] == [g];
      assert [g][1..] == [];
    } else {
      assert (a + [g])[1..] == a[1..] + [g];
      StreamAppend(a[1..], g);
    }
  }

  lemma {:induction false} ValAppend(x: seq<bool>, y: seq<bool>)
    ensures Val(x + y) == Val(x) + Pow2(|x|) * Val(y)
  {
    if x == [] {
      assert x + y == y;
    } else {
      assert (x + y)[1..] == x[1..] + y;
      ValAppend(x[1..], y);
      var p, v := Pow2(|x| - 1), Val(y);
      assert Pow2(|x|) == 2 * p;
      MulTwo(v, p);
      MulComm(v, p);
      MulComm(v, 2 * p);
    }
  }

  lemma {:induction false} ValOnes(n: nat)
    ensures Val(Ones(n)) == Pow2(n) - 1
  {
    if n > 0 {
      assert Ones(n)[1..] == Ones(n - 1);
      ValOnes(n - 1);
    }
  }

  lemma {:induction false} ValBound(s: seq<bool>)
    ensures Val(s) < Pow2(|s|)
  {
    if s != [] { ValBound(s[1..]); }
  }

  /** A bit string ending in a one is worth at least its top bit. */
  lemma {:induction false} ValTop(s: seq<bool>)
    requires s != [] && s[|s| - 1]
    ensures Val(s) >= Pow2(|s| - 1)
  {
    if |s| > 1 {
      assert s[1..][|s[1..]| - 1] == s[|s| - 1];
      ValTop(s[1..]);
    }
  }

  /** One count appended to the stream: `calc_key`'s OR is an addition. */
  lemma ElemStep(s: seq<bool>, ret: int, c: int)
    requires 2 * ret == Val(s)
    ensures var add := Shl(Pow2(OnesFor(c)) - 1, |s|);
      Or(ret, add) == ret + add && 2 * (ret + add) == Val(s + ElemBits(c))
  {
    var n := OnesFor(c);
    var m, p := Pow2(n) - 1, Pow2(|s|);
    assert Or(ret, Shl(m, |s|)) == ret + Shl(m, |s|) by {
      ValBound(s);
      OrDisjoint(ret, m, |s|);
    }
    assert Val(ElemBits(c)) == 2 * m by {
      assert ElemBits(c)[1..] == Ones(n);
      ValOnes(n);
    }
    ValAppend(s, ElemBits(c));
    Twice(m, p);
  }

  lemma Twice(m: int, p: int)
    ensures p * (2 * m) == 2 * (m * p)
  {
  }

  /** The body of `calc_key`'s inner loop, for one count c with the
      stream so far `cur` and `length` one less than its size. */
  function CountStep(ret: int, length: int, c: int): (int, int)
    requires length >= -1
  {
    var l := length + 1;
    if c == 2 then (Or(ret, Shl(3, l)), l + 2)
    else if c == 3 then (Or(ret, Shl(15, l)), l + 4)
    else if c == 4 then (Or(ret, Shl(63, l)), l + 6)
    else (ret, l)
  }

  lemma CountStepValue(cur: seq<bool>, ret: int, length: int, c: int)
    requires |cur| == length + 1 && 2 * ret == Val(cur)
    ensures var (ret', length') := CountStep(ret, length, c);
      |cur + ElemBits(c)| == length' + 1 && 2 * ret' == Val(cur + ElemBits(c))
  {
    ElemStep(cur, ret, c);
    assert Pow2(2) - 1 == 3 && Pow2(4) - 1 == 15 && Pow2(6) - 1 == 63 && Pow2(0) - 1 == 0;
  }

  /** A group end appended to a non-empty stream. */
  lemma GroupEndStep(s: seq<bool>, ret: int)
    requires 2 * ret == Val(s) && s != []
    ensures Or(ret, Shl(1, |s| - 1)) == ret + Pow2(|s| - 1)
    ensures 2 * (ret + Pow2(|s| - 1)) == Val(s + [true])
  {
    ValBound(s);
    assert Pow2(|s|) == 2 * Pow2(|s| - 1);
    OrDisjoint(ret, 1, |s| - 1);
    ValAppend(s, [true]);
    assert Val([true]) == 1;
  }

  // ---------------------------------------------------------------------
  // calc_key

  /** `calc_key`'s inner loop over the counts of one group: the bits of
      each count are added above the stream `cur` written so far. */
  method WriteCounts(g: seq<int>, ret0: int, length0: int, ghost cur: seq<bool>)
    returns (ret: int, length: int)
    requires |cur| == length0 + 1 && 2 * ret0 == Val(cur)
    ensures |cur + ElemsBits(g)| == length + 1 && 2 * ret == Val(cur + ElemsBits(g))
  {
    ret, length := ret0, length0;
    var ei := 0;
    assert cur + ElemsBits(g[..0]) == cur by {
      assert g[..0] == [];
    }
    while ei < |g|
      invariant 0 <= ei <= |g|
      invariant |cur + ElemsBits(g[..ei])| == length + 1
      invariant 2 * ret == Val(cur + ElemsBits(g[..ei]))
    {
      var c := g[ei];
      ghost var done := cur + ElemsBits(g[..ei]);
      CountStepValue(done, ret, length, c);
      length := length + 1;
      if c == 2 {
        ret := Or(ret, Shl(3, length));
        length := length + 2;
      } else if c == 3 {
        ret := Or(ret, Shl(15, length));
        length := length + 4;
      } else if c == 4 {
        ret := Or(ret, Shl(63, length));
        length := length + 6;
      }
      assert done + ElemBits(c) == cur + ElemsBits(g[..ei + 1]) by {
        ElemsAppend(g[..ei], c);
        assert g[..ei + 1] == g[..ei] + [c];
      }
      ei := ei + 1;
    }
    assert g[..ei] == g;
  }

  /** `calc_key(a)` */
  method CalcKey(a: seq<seq<int>>) returns (r: Option<int>)
    ensures r == KeyOf(a)
  {
    var ret := 0;
    var length := -1;
    var gi := 0;
    while gi < |a|
      invariant 0 <= gi <= |a|
      invariant |Stream(a[..gi])| == length + 1 && 2 * ret == Val(Stream(a[..gi]))
      invariant gi > 0 ==> a[0] != []
    {
      var g := a[gi];
      ghost var done := Stream(a[..gi]);
      ret, length := WriteCounts(g, ret, length, done);
      if length < 0 {
        assert a[..gi + 1][gi] == g;
        return None;
      }
      GroupEndStep(done + ElemsBits(g), ret);
      ret := Or(ret, Shl(1, length));
      length := length + 1;
      StreamAppend(a[..gi], g);
      assert a[..gi + 1] == a[..gi] + [g];
      assert Stream(a[..gi + 1]) == done + ElemsBits(g) + [true];
      gi := gi + 1;
    }
    assert a[..gi] == a;
    return Some(ret);
  }
  // ---------------------------------------------------------------------
  // What the key tells apart

  /** Every group non-empty and every count a possible tile count, 1..4. */
  predicate WellFormed(a: seq<seq<int>>)
  {
    forall i :: 0 <= i < |a| ==> a[i] != [] && forall j :: 0 <= j < |a[i]| ==> 1 <= a[i][j] <= 4
  }

  lemma {:induction false} StreamEndsInOne(a: seq<seq<int>>)
    requires a != []
    ensures Stream(a) != [] && Stream(a)[|Stream(a)| - 1]
  {
    if |a| > 1 {
      StreamEndsInOne(a[1..]);
    }
  }

  /** The first count of a pattern, then what follows it in the stream. */
  lemma StreamHead(a: seq<seq<int>>)
    requires a != [] && a[0] != []
    ensures var rest := a[0][1..];
      Stream(a) == [false] + Ones(OnesFor(a[0][0])) +
        (if rest != [] then Stream([rest] + a[1..]) else [true] + Stream(a[1..]))
  {
    var rest, tail := a[0][1..], Stream(a[1..]);
    var e, es := ElemBits(a[0][0]), ElemsBits(rest);
    assert a[0] == [a[0][0]] + rest;
    assert ElemsBits(a[0]) == e + es;
    assert Stream(a) == (e + es + [true]) + tail;
    if rest != [] {
      var b := [rest] + a[1..];
      assert b[0] == rest && b[1..] == a[1..];
      assert Stream(b) == (es + [true]) + tail;
      Regroup3(e, es + [true], tail);
      assert e + es + [true] == e + (es + [true]);
    } else {
      assert es == [];
      Regroup3(e, [true], tail);
      assert e + es + [true] == e + [true];
    }
  }

  lemma Regroup3(x: seq<bool>, y: seq<bool>, z: seq<bool>)
    ensures (x + y) + z == x + (y + z)
  {
  }

  lemma StreamStartsWithZero(a: seq<seq<int>>)
    requires a != [] && a[0] != []
    ensures Stream(a) != [] && !Stream(a)[0]
  {
    StreamHead(a);
  }

  /** A run of ones followed by nothing or a zero is read off uniquely. */
  lemma {:induction false} OnesPrefix(n: nat, m: nat, x: seq<bool>, y: seq<bool>)
    requires Ones(n) + x == Ones(m) + y
    requires (x == [] || !x[0]) && (y == [] || !y[0])
    ensures n == m && x == y
  {
    OnesHead(n, x);
    OnesHead(m, y);
    if n == 0 || m == 0 {
      assert Ones(0) + x == x && Ones(0) + y == y;
    } else {
      assert (Ones(n) + x)[1..] == Ones(n - 1) + x;
      assert (Ones(m) + y)[1..] == Ones(m - 1) + y;
      OnesPrefix(n - 1, m - 1, x, y);
    }
  }

  lemma OnesHead(n: nat, x: seq<bool>)
    ensures n > 0 ==> Ones(n) + x != [] && (Ones(n) + x)[0]
  {
  }

  lemma OnesAppendOne(n: nat)
    ensures Ones(n) + [true] == Ones(n + 1)
  {
    if n > 0 {
      OnesAppendOne(n - 1);
    }
  }

  /** The ones read after the first count's zero: its own ones, plus the
      group end when the count closes its group. */
  function Run(a: seq<seq<int>>): nat
    requires a != [] && a[0] != []
  {
    if a[0][1..] != [] then OnesFor(a[0][0]) else OnesFor(a[0][0]) + 1
  }

  /** The pattern left after the first count (and its group end). */
  function Rest(a: seq<seq<int>>): seq<seq<int>>
    requires a != [] && a[0] != []
  {
    if a[0][1..] != [] then [a[0][1..]] + a[1..] else a[1..]
  }

  lemma HeadRun(a: seq<seq<int>>)
    requires WellFormed(a) && a != []
    ensures Stream(a) == [false] + (Ones(Run(a)) + Stream(Rest(a)))
    ensures WellFormed(Rest(a)) && |Stream(Rest(a))| < |Stream(a)|
    ensures Stream(Rest(a)) == [] || !Stream(Rest(a))[0]
    ensures Run(a) % 2 == 0 <==> a[0][1..] != []
  {
    WellFormedRest(a);
    RunParity(a);
    HeadSplit(a);
  }

  lemma RunParity(a: seq<seq<int>>)
    requires a != [] && a[0] != []
    ensures Run(a) % 2 == 0 <==> a[0][1..] != []
  {
    var n := OnesFor(a[0][0]);
    assert n == 0 || n == 2 || n == 4 || n == 6;
  }

  lemma WellFormedRest(a: seq<seq<int>>)
    requires WellFormed(a) && a != []
    ensures a[0] != [] && WellFormed(Rest(a))
    ensures a[1..] != [] ==> a[1..][0] != []
  {
    WellFormedParts(a);
    if a[1..] != [] {
      assert a[1..][0] == a[1];
    }
  }

  /** The stream facts of HeadRun, for a pattern whose first two groups
      are non-empty. */
  lemma HeadSplit(a: seq<seq<int>>)
    requires a != [] && a[0] != [] && (a[1..] != [] ==> a[1..][0] != [])
    ensures Stream(a) == [false] + (Ones(Run(a)) + Stream(Rest(a)))
    ensures |Stream(Rest(a))| < |Stream(a)|
    ensures Stream(Rest(a)) == [] || !Stream(Rest(a))[0]
  {
    var rest := a[0][1..];
    if rest == [] {
      HeadRunClosing(a);
      if a[1..] != [] { StreamStartsWithZero(a[1..]); }
    } else {
      HeadRunOpen(a);
      StreamStartsWithZero([rest] + a[1..]);
    }
    LengthAfterHead(Stream(a), Ones(Run(a)), Stream(Rest(a)));
  }

  lemma LengthAfterHead(s: seq<bool>, o: seq<bool>, t: seq<bool>)
    requires s == [false] + (o + t)
    ensures |t| < |s|
  {
  }

  /** The first count closes its group: its ones and the group end run together. */
  lemma HeadRunClosing(a: seq<seq<int>>)
    requires a != [] && a[0] != [] && a[0][1..] == []
    ensures Stream(a) == [false] + (Ones(Run(a)) + Stream(Rest(a)))
  {
    var n := OnesFor(a[0][0]);
    StreamHead(a);
    OnesAppendOne(n);
    Regroup([false], Ones(n), [true], Stream(a[1..]));
    assert Run(a) == n + 1 && Rest(a) == a[1..];
  }

  lemma Regroup(x: seq<bool>, y: seq<bool>, z: seq<bool>, w: seq<bool>)
    ensures x + y + (z + w) == x + ((y + z) + w)
  {
  }

  lemma HeadRunOpen(a: seq<seq<int>>)
    requires a != [] && a[0] != [] && a[0][1..] != []
    ensures Stream(a) == [false] + (Ones(Run(a)) + Stream(Rest(a)))
  {
    var n, b := OnesFor(a[0][0]), [a[0][1..]] + a[1..];
    StreamHead(a);
    assert Run(a) == n && Rest(a) == b;
    Regroup3([false], Ones(n), Stream(b));
  }

  /** The pieces of a well-formed pattern are well formed. */
  lemma WellFormedParts(a: seq<seq<int>>)
    requires WellFormed(a) && a != []
    ensures WellFormed(a[1..])
    ensures a[0][1..] != [] ==> WellFormed([a[0][1..]] + a[1..])
  {
    var rest := a[0][1..];
    forall i | 0 <= i < |a[1..]|
      ensures a[1..][i] == a[i + 1]
    {
    }
    if rest != [] {
      var b := [rest] + a[1..];
      forall i | 0 <= i < |b|
        ensures b[i] != [] && forall j :: 0 <= j < |b[i]| ==> 1 <= b[i][j] <= 4
      {
        if i > 0 {
          assert b[i] == a[i];
        } else {
          assert forall j :: 0 <= j < |rest| ==> rest[j] == a[0][j + 1];
        }
      }
    }
  }

  /** Well-formed patterns with the same stream are equal. */
  lemma {:induction false} StreamInjective(a: seq<seq<int>>, b: seq<seq<int>>)
    requires WellFormed(a) && WellFormed(b) && Stream(a) == Stream(b)
    ensures a == b
    decreases |Stream(a)|
  {
    if a == [] || b == [] {
      if a != [] { StreamEndsInOne(a); }
      if b != [] { StreamEndsInOne(b); }
    } else {
      HeadRun(a);
      HeadRun(b);
      SameTail(Stream(a), Ones(Run(a)) + Stream(Rest(a)), Ones(Run(b)) + Stream(Rest(b)));
      OnesPrefix(Run(a), Run(b), Stream(Rest(a)), Stream(Rest(b)));
      StreamInjective(Rest(a), Rest(b));
      SameHead(a, b);
    }
  }

  lemma SameTail(s: seq<bool>, x: seq<bool>, y: seq<bool>)
    requires s == [false] + x && s == [false] + y
    ensures x == y
  {
    assert x == s[1..] == y;
  }

  /** Two well-formed patterns with the same first run and the same rest
      are equal. */
  lemma SameHead(a: seq<seq<int>>, b: seq<seq<int>>)
    requires WellFormed(a) && WellFormed(b) && a != [] && b != []
    requires Run(a) == Run(b) && Rest(a) == Rest(b)
    ensures a == b
  {
    RunParity(a);
    RunParity(b);
    assert 1 <= a[0][0] <= 4 && 1 <= b[0][0] <= 4;
    assert a[0][0] == b[0][0];
    if a[0][1..] != [] {
      assert a[0][1..] == Rest(a)[0] && a[1..] == Rest(a)[1..];
      assert b[0][1..] == Rest(b)[0] && b[1..] == Rest(b)[1..];
    }
    assert a[0] == [a[0][0]] + a[0][1..] && b[0] == [b[0][0]] + b[0][1..];
    assert a == [a[0]] + a[1..] && b == [b[0]] + b[1..];
  }

  /** Bit strings ending in a one with the same value are equal. */
  lemma {:induction false} ValInjective(x: seq<bool>, y: seq<bool>)
    requires x != [] && x[|x| - 1] && y != [] && y[|y| - 1]
    requires Val(x) == Val(y)
    ensures x == y
  {
    assert x[0] == y[0];
    if |x| == 1 || |y| == 1 {
      if |x| > 1 {
        assert x[1..][|x[1..]| - 1];
        ValTop(x[1..]);
      }
      if |y| > 1 {
        assert y[1..][|y[1..]| - 1];
        ValTop(y[1..]);
      }
    } else {
      assert x[1..][|x[1..]| - 1] && y[1..][|y[1..]| - 1];
      ValInjective(x[1..], y[1..]);
      assert x == [x[0]] + x[1..] && y == [y[0]] + y[1..];
    }
  }

  /** Bit strings starting with a zero have even values, so equal halves
      mean equal values. */
  lemma SameHalf(x: seq<bool>, y: seq<bool>)
    requires x != [] && !x[0] && y != [] && !y[0] && Val(x) / 2 == Val(y) / 2
    ensures Val(x) == Val(y)
  {
    assert Val(x) == 2 * Val(x[1..]) && Val(y) == 2 * Val(y[1..]);
  }

  /** `calc_key` tells well-formed patterns apart: equal keys mean equal
      patterns. */
  lemma KeyInjective(a: seq<seq<int>>, b: seq<seq<int>>)
    requires WellFormed(a) && WellFormed(b) && KeyOf(a) == KeyOf(b)
    ensures a == b
  {
    if a != [] {
      StreamStartsWithZero(a);
      StreamEndsInOne(a);
      ValTop(Stream(a));
      assert |Stream(a)| >= 2;
      Pow2Monotone(1, |Stream(a)| - 1);
    }
    if b != [] {
      StreamStartsWithZero(b);
      StreamEndsInOne(b);
      ValTop(Stream(b));
      assert |Stream(b)| >= 2;
      Pow2Monotone(1, |Stream(b)| - 1);
    }
    if a != [] && b != [] {
      SameHalf(Stream(a), Stream(b));
      ValInjective(Stream(a), Stream(b));
      StreamInjective(a, b);
    }
  }

  /** Patterns of the same shape whose counts write the same ones have the
      same stream. */
  lemma {:induction false} ElemsByOnes(g: seq<int>, h: seq<int>)
    requires |g| == |h| && forall j :: 0 <= j < |g| ==> OnesFor(g[j]) == OnesFor(h[j])
    ensures ElemsBits(g) == ElemsBits(h)
  {
    if g != [] {
      ElemsByOnes(g[1..], h[1..]);
    }
  }

  lemma {:induction false} StreamByOnes(a: seq<seq<int>>, b: seq<seq<int>>)
    requires |a| == |b|
    requires forall i :: 0 <= i < |a| ==> |a[i]| == |b[i]|
    requires forall i, j :: 0 <= i < |a| && 0 <= j < |a[i]| ==> OnesFor(a[i][j]) == OnesFor(b[i][j])
    ensures Stream(a) == Stream(b)
  {
    if a != [] {
      ElemsByOnes(a[0], b[0]);
      StreamByOnes(a[1..], b[1..]);
    }
  }

  /** A count of 0 gets the same bits as a count of 1, so the key does not
      tell them apart. */
  lemma KeyZeroAsOne(a: seq<seq<int>>, i: int, j: int)
    requires 0 <= i < |a| && 0 <= j < |a[i]| && a[i][j] == 0
    ensures KeyOf(a[i := a[i][j := 1]]) == KeyOf(a)
  {
    var b := a[i := a[i][j := 1]];
    StreamByOnes(a, b);
    assert b[0] == [] <==> a[0] == [];
  }

  // ---------------------------------------------------------------------
  // to_pattern

  /** A kind held in hand with its count. */
  datatype Item = Item(kind: int, count: int)

  /** The non-zero entries of a count vector indexed by kind, in kind
      order: `sorted(counter.items())` with the zeros skipped. */
  function Items(counts: seq<int>): seq<Item>
  {
    if counts == [] then []
    else
      var k := |counts| - 1;
      Items(counts[..k]) + (if counts[k] != 0 then [Item(k, counts[k])] else [])
  }

  /** `to_pattern` closes the current group before kind k when the kind
      held before it was j: another suit, a gap, or an honor. */
  predicate Break(j: int, k: int)
  {
    k / 9 != j / 9 || k % 9 - 1 != j % 9 || k / 9 == 3
  }

  /** The items split into groups at each break. */
  function GroupItems(items: seq<Item>): seq<seq<Item>>
  {
    if items == [] then []
    else
      var n := |items| - 1;
      var g := GroupItems(items[..n]);
      if items[..n] == [] || g == [] || Break(items[n - 1].kind, items[n].kind) then g + [[items[n]]]
      else g[..|g| - 1] + [g[|g| - 1] + [items[n]]]
  }

  function Counts(items: seq<Item>): seq<int>
  {
    if items == [] then [] else Counts(items[..|items| - 1]) + [items[|items| - 1].count]
  }

  function CountsOf(groups: seq<seq<Item>>): seq<seq<int>>
  {
    if groups == [] then [] else CountsOf(groups[..|groups| - 1]) + [Counts(groups[|groups| - 1])]
  }

  /** What `to_pattern(counter)` returns for the counts of kinds
      0..|counts|-1. */
  function Pattern(counts: seq<int>): seq<seq<int>>
  {
    CountsOf(GroupItems(Items(counts)))
  }

  lemma CountsOfAppend(groups: seq<seq<Item>>, g: seq<Item>)
    ensures CountsOf(groups + [g]) == CountsOf(groups) + [Counts(g)]
  {
    assert (groups + [g])[..|groups|] == groups;
  }

  lemma CountsAppend(items: seq<Item>, x: Item)
    ensures Counts(items + [x]) == Counts(items) + [x.count]
  {
    assert (items + [x])[..|items|] == items;
  }

  lemma GroupItemsEmpty(items: seq<Item>)
    ensures GroupItems(items) == [] <==> items == []
  {
  }

  /** One more item: it joins the last group unless there is a break. */
  lemma GroupItemsAppend(items: seq<Item>, x: Item)
    requires items != []
    ensures var g := GroupItems(items);
      g != [] &&
      GroupItems(items + [x]) ==
        if Break(items[|items| - 1].kind, x.kind) then g + [[x]]
        else g[..|g| - 1] + [g[|g| - 1] + [x]]
  {
    var b := items + [x];
    assert b[..|items|] == items;
    assert b[|items| - 1] == items[|items| - 1];
    GroupItemsEmpty(items);
  }

  /** The state of `to_pattern`'s loop once it has seen `items`: the groups
      closed so far, the open group, and the last kind's digit and suit. */
  ghost predicate Scanned(items: seq<Item>, pattern: seq<seq<int>>, group: seq<int>,
                          curDigit: Option<int>, curType: Option<int>)
  {
    if items == [] then pattern == [] && group == [] && curDigit == None && curType == None
    else
      var last := items[|items| - 1].kind;
      group != [] && CountsOf(GroupItems(items)) == pattern + [group] &&
      curDigit == Some(last % 9) && curType == Some(last / 9)
  }

  lemma ItemsStep(counts: seq<int>, k: int)
    requires 0 <= k < |counts|
    ensures Items(counts[..k + 1]) ==
      Items(counts[..k]) + (if counts[k] != 0 then [Item(k, counts[k])] else [])
  {
    assert counts[..k + 1][..k] == counts[..k];
  }

  /** One non-zero count seen by `to_pattern`'s loop. */
  lemma ScanStep(items: seq<Item>, pattern: seq<seq<int>>, group: seq<int>,
                 curDigit: Option<int>, curType: Option<int>, x: Item)
    requires Scanned(items, pattern, group, curDigit, curType)
    ensures var cut := Some(x.kind / 9) != curType || Some(x.kind % 9 - 1) != curDigit || x.kind / 9 == 3;
      var pattern' := if cut && group != [] then pattern + [group] else pattern;
      var group' := if cut then [x.count] else group + [x.count];
      Scanned(items + [x], pattern', group', Some(x.kind % 9), Some(x.kind / 9))
  {
    var b := items + [x];
    assert b[|b| - 1] == x;
    if items == [] {
      assert b == [x];
      assert GroupItems(b) == [[x]] by {
        assert b[..0] == [];
      }
      assert Counts([x]) == [x.count] by {
        assert [x][..0] == [];
      }
      assert CountsOf([[x]]) == [[x.count]] by {
        assert [[x]][..0] == [];
      }
    } else {
      var g := GroupItems(items);
      GroupItemsAppend(items, x);
      if Break(items[|items| - 1].kind, x.kind) {
        CountsOfAppend(g, [x]);
        assert Counts([x]) == [x.count] by {
          assert [x][..0] == [];
        }
      } else {
        var init, last := g[..|g| - 1], g[|g| - 1];
        assert g == init + [last];
        CountsOfAppend(init, last);
        CountsOfAppend(init, last + [x]);
        CountsAppend(last, x);
        assert CountsOf(init) == pattern && Counts(last) == group by {
          assert CountsOf(init) + [Counts(last)] == pattern + [group];
          assert (CountsOf(init) + [Counts(last)])[..|pattern|] == CountsOf(init);
        }
      }
    }
  }

  /** `to_pattern(counter)` for the counts of kinds 0..|counts|-1. */
  method ToPattern(counts: seq<int>) returns (pattern: seq<seq<int>>)
    ensures pattern == Pattern(counts)
  {
    pattern := [];
    var curDigit: Option<int> := None;
    var curType: Option<int> := None;
    var group: seq<int> := [];
    var tile := 0;
    ghost var seen: seq<Item> := [];
    while tile < |counts|
      invariant 0 <= tile <= |counts|
      invariant seen == Items(counts[..tile])
      invariant Scanned(seen, pattern, group, curDigit, curType)
    {
      var c := counts[tile];
      ItemsStep(counts, tile);
      if c != 0 {
        var digit, t := tile % 9, tile / 9;
        ghost var cut := Some(t) != curType || Some(digit - 1) != curDigit || t == 3;
        ghost var group0 := group;
        ScanStep(seen, pattern, group, curDigit, curType, Item(tile, c));
        if Some(t) != curType || Some(digit - 1) != curDigit || t == 3 {
          if group != [] {
            pattern := pattern + [group];
            group := [];
          }
        }
        group := group + [c];
        assert group == if cut then [c] else group0 + [c];
        curDigit, curType := Some(digit), Some(t);
        seen := seen + [Item(tile, c)];
      } else {
        assert seen + [] == seen;
      }
      tile := tile + 1;
    }
    assert counts[..tile] == counts;
    if group != [] {
      pattern := pattern + [group];
    }
  }

  // ---------------------------------------------------------------------
  // What to_pattern keeps

  /** `Items` lists exactly the non-zero counts, in increasing kind order. */
  lemma ItemsSpec(counts: seq<int>)
    ensures forall i :: 0 <= i < |Items(counts)| ==>
      0 <= Items(counts)[i].kind < |counts| && Items(counts)[i].count == counts[Items(counts)[i].kind] != 0
    ensures forall i, j :: 0 <= i < j < |Items(counts)| ==> Items(counts)[i].kind < Items(counts)[j].kind
    ensures forall k :: 0 <= k < |counts| && counts[k] != 0 ==> HasKind(Items(counts), k)
  {
    ItemsSound(counts);
    ItemsComplete(counts);
  }

  lemma {:induction false} ItemsSound(counts: seq<int>)
    ensures forall i :: 0 <= i < |Items(counts)| ==>
      0 <= Items(counts)[i].kind < |counts| && Items(counts)[i].count == counts[Items(counts)[i].kind] != 0
    ensures forall i, j :: 0 <= i < j < |Items(counts)| ==> Items(counts)[i].kind < Items(counts)[j].kind
  {
    if counts != [] {
      var k := |counts| - 1;
      var pre := counts[..k];
      ItemsSound(pre);
      var its, p := Items(counts), Items(pre);
      assert its == p + (if counts[k] != 0 then [Item(k, counts[k])] else []);
      assert forall i :: 0 <= i < |p| ==> its[i] == p[i] && p[i].kind < k && pre[p[i].kind] == counts[p[i].kind];
    }
  }

  predicate HasKind(items: seq<Item>, k: int)
  {
    exists i :: 0 <= i < |items| && items[i].kind == k
  }

  lemma {:induction false} ItemsComplete(counts: seq<int>)
    ensures forall k :: 0 <= k < |counts| && counts[k] != 0 ==> HasKind(Items(counts), k)
  {
    if counts != [] {
      var k := |counts| - 1;
      var pre := counts[..k];
      ItemsComplete(pre);
      var its, p := Items(counts), Items(pre);
      assert its == p + (if counts[k] != 0 then [Item(k, counts[k])] else []);
      forall k' | 0 <= k' < |counts| && counts[k'] != 0
        ensures HasKind(its, k')
      {
        if k' < k {
          assert pre[k'] == counts[k'];
          assert HasKind(p, k');
          var i :| 0 <= i < |p| && p[i].kind == k';
          assert its[i] == p[i];
        } else {
          assert its[|its| - 1].kind == k';
        }
      }
    }
  }

  /** The groups laid end to end give back the counts. */
  lemma {:induction false} FlattenGroups(items: seq<Item>)
    ensures Flatten(CountsOf(GroupItems(items))) == Counts(items)
  {
    if items != [] {
      var n := |items| - 1;
      var pre, x := items[..n], items[n];
      assert items == pre + [x];
      CountsAppend(pre, x);
      if pre == [] {
        FlattenSingle(x);
      } else {
        FlattenGroups(pre);
        var g := GroupItems(pre);
        GroupItemsAppend(pre, x);
        if Break(pre[|pre| - 1].kind, x.kind) {
          FlattenBreak(g, x, Counts(pre));
        } else {
          FlattenMerge(g, x, Counts(pre));
        }
      }
    }
  }

  lemma FlattenSingle(x: Item)
    ensures GroupItems([x]) == [[x]]
    ensures Flatten(CountsOf([[x]])) == Counts([] + [x]) == [x.count]
  {
    assert CountsOf([[x]]) == [] + [Counts([x])];
    assert Counts([x]) == [x.count] by {
      assert [x][..0] == [];
    }
    assert Flatten([[x.count]]) == [x.count] by {
      assert [[x.count]][..0] == [];
    }
    assert [] + [x] == [x];
  }

  /** A new group holding x alone. */
  lemma {:induction false} FlattenBreak(g: seq<seq<Item>>, x: Item, c: seq<int>)
    requires Flatten(CountsOf(g)) == c
    ensures Flatten(CountsOf(g + [[x]])) == c + [x.count]
  {
    CountsOfAppend(g, [x]);
    assert Counts([x]) == [x.count] by {
      assert [x][..0] == [];
    }
    FlattenAppend(CountsOf(g), [[x.count]]);
    FlattenOne([x.count]);
  }

  /** x joins the last group. */
  lemma {:induction false} FlattenMerge(g: seq<seq<Item>>, x: Item, c: seq<int>)
    requires g != [] && Flatten(CountsOf(g)) == c
    ensures Flatten(CountsOf(g[..|g| - 1] + [g[|g| - 1] + [x]])) == c + [x.count]
  {
    var init, last := g[..|g| - 1], g[|g| - 1];
    assert g == init + [last];
    var f, cl := Flatten(CountsOf(init)), Counts(last);
    CountsOfAppend(init, last);
    FlattenAppend(CountsOf(init), [cl]);
    FlattenOne(cl);
    assert c == f + cl;
    CountsOfAppend(init, last + [x]);
    CountsAppend(last, x);
    FlattenAppend(CountsOf(init), [cl + [x.count]]);
    FlattenOne(cl + [x.count]);
    assert f + (cl + [x.count]) == (f + cl) + [x.count];
  }

  lemma FlattenOne(s: seq<int>)
    ensures Flatten([s]) == s
  {
    assert [s][..0] == [];
  }

  lemma {:induction false} SumCounts(counts: seq<int>)
    ensures Sum(Counts(Items(counts))) == Sum(counts)
  {
    if counts != [] {
      var k := |counts| - 1;
      SumCounts(counts[..k]);
      assert counts == counts[..k] + [counts[k]];
      if counts[k] != 0 {
        CountsAppend(Items(counts[..k]), Item(k, counts[k]));
        SumAppend(Counts(Items(counts[..k])), [counts[k]]);
      } else {
        assert Items(counts) == Items(counts[..k]) + [];
        assert Items(counts[..k]) + [] == Items(counts[..k]);
      }
      SumAppend(counts[..k], [counts[k]]);
    }
  }

  /** `to_pattern` keeps every non-zero count, in kind order, and so the
      number of tiles. */
  lemma PatternKeepsCounts(counts: seq<int>)
    ensures Flatten(Pattern(counts)) == Counts(Items(counts))
    ensures Sum(Flatten(Pattern(counts))) == Sum(counts)
  {
    FlattenGroups(Items(counts));
    SumCounts(counts);
  }

  /** `groups` cuts `items` exactly at the breaks. */
  ghost predicate Segmented(items: seq<Item>, groups: seq<seq<Item>>)
  {
    Flatten(groups) == items && NonEmptyGroups(groups) && Joined(groups) && BreaksBetween(groups)
  }

  predicate NonEmptyGroups(groups: seq<seq<Item>>)
  {
    forall i :: 0 <= i < |groups| ==> groups[i] != []
  }

  /** No break inside a group. */
  predicate Joined(groups: seq<seq<Item>>)
  {
    forall i, j :: 0 <= i < |groups| && 0 < j < |groups[i]| ==>
      !Break(groups[i][j - 1].kind, groups[i][j].kind)
  }

  /** A break between consecutive groups. */
  predicate BreaksBetween(groups: seq<seq<Item>>)
    requires NonEmptyGroups(groups)
  {
    forall i :: 0 < i < |groups| ==>
      Break(groups[i - 1][|groups[i - 1]| - 1].kind, groups[i][0].kind)
  }

  /** A new group starts exactly where the suit changes, a kind is skipped
      or an honor comes. */
  lemma {:induction false} GroupItemsSegmented(items: seq<Item>)
    ensures Segmented(items, GroupItems(items))
  {
    if items != [] {
      var n := |items| - 1;
      var pre, x := items[..n], items[n];
      assert items == pre + [x];
      if pre == [] {
        assert GroupItems(items) == [[x]];
        SegmentedSingle(x);
      } else {
        var g := GroupItems(pre);
        var r := GroupItems(items);
        GroupItemsSegmented(pre);
        GroupItemsAppend(pre, x);
        if Break(pre[|pre| - 1].kind, x.kind) {
          assert r == g + [[x]];
          SegmentedNewGroup(pre, g, x);
        } else {
          assert r == g[..|g| - 1] + [g[|g| - 1] + [x]];
          SegmentedJoin(pre, g, x);
        }
        assert Segmented(pre + [x], r);
      }
    }
  }

  lemma SegmentedSingle(x: Item)
    ensures Segmented([x], [[x]])
  {
    FlattenGroup([x]);
  }

  lemma {:induction false} SegmentedNewGroup(items: seq<Item>, groups: seq<seq<Item>>, x: Item)
    requires Segmented(items, groups) && items != [] && Break(items[|items| - 1].kind, x.kind)
    ensures Segmented(items + [x], groups + [[x]])
  {
    assert groups != [];
    assert Flatten(groups + [[x]]) == items + [x] by {
      FlattenAppend(groups, [[x]]);
      FlattenGroup([x]);
    }
    assert groups[|groups| - 1][|groups[|groups| - 1]| - 1] == items[|items| - 1] by {
      FlattenLast(groups);
    }
    NewGroupParts(groups, x);
  }

  lemma NewGroupParts(groups: seq<seq<Item>>, x: Item)
    requires groups != [] && NonEmptyGroups(groups) && Joined(groups) && BreaksBetween(groups)
    requires Break(groups[|groups| - 1][|groups[|groups| - 1]| - 1].kind, x.kind)
    ensures NonEmptyGroups(groups + [[x]]) && Joined(groups + [[x]]) && BreaksBetween(groups + [[x]])
  {
    var r: seq<seq<Item>> := groups + [[x]];
    assert forall i :: 0 <= i < |groups| ==> r[i] == groups[i];
  }

  lemma {:induction false} SegmentedJoin(items: seq<Item>, groups: seq<seq<Item>>, x: Item)
    requires Segmented(items, groups) && items != [] && !Break(items[|items| - 1].kind, x.kind)
    ensures groups != [] && Segmented(items + [x], groups[..|groups| - 1] + [groups[|groups| - 1] + [x]])
  {
    assert groups != [];
    var init, last := groups[..|groups| - 1], groups[|groups| - 1];
    var r: seq<seq<Item>> := init + [last + [x]];
    assert groups == init + [last];
    assert Flatten(r) == items + [x] by {
      FlattenAppend(init, [last]);
      FlattenAppend(init, [last + [x]]);
      FlattenGroup(last);
      FlattenGroup(last + [x]);
    }
    assert last != [] && last[|last| - 1] == items[|items| - 1] by {
      FlattenLast(groups);
    }
    JoinNonEmpty(groups, init, last, x);
    JoinJoined(groups, init, last, x);
    JoinBreaks(groups, init, last, x);
  }

  lemma JoinNonEmpty(groups: seq<seq<Item>>, init: seq<seq<Item>>, last: seq<Item>, x: Item)
    requires NonEmptyGroups(groups) && groups == init + [last]
    ensures NonEmptyGroups(init + [last + [x]])
  {
    var r: seq<seq<Item>> := init + [last + [x]];
    forall i | 0 <= i < |r|
      ensures r[i] != []
    {
      if i < |init| { assert r[i] == groups[i]; }
    }
  }

  lemma JoinJoined(groups: seq<seq<Item>>, init: seq<seq<Item>>, last: seq<Item>, x: Item)
    requires Joined(groups) && groups == init + [last]
    requires last != [] && !Break(last[|last| - 1].kind, x.kind)
    ensures Joined(init + [last + [x]])
  {
    var r: seq<seq<Item>> := init + [last + [x]];
    forall i, j | 0 <= i < |r| && 0 < j < |r[i]|
      ensures !Break(r[i][j - 1].kind, r[i][j].kind)
    {
      if i < |init| {
        assert r[i] == groups[i];
      } else if j < |last| {
        assert r[i][j - 1] == groups[|init|][j - 1] && r[i][j] == groups[|init|][j];
      } else {
        assert r[i][j - 1] == last[|last| - 1] && r[i][j] == x;
      }
    }
  }

  lemma JoinBreaks(groups: seq<seq<Item>>, init: seq<seq<Item>>, last: seq<Item>, x: Item)
    requires NonEmptyGroups(groups) && BreaksBetween(groups) && groups == init + [last]
    ensures NonEmptyGroups(init + [last + [x]]) && BreaksBetween(init + [last + [x]])
  {
    var r: seq<seq<Item>> := init + [last + [x]];
    JoinNonEmpty(groups, init, last, x);
    forall i | 0 < i < |r|
      ensures Break(r[i - 1][|r[i - 1]| - 1].kind, r[i][0].kind)
    {
      assert r[i - 1] == groups[i - 1];
      if i < |init| {
        assert r[i] == groups[i];
      } else {
        assert r[i][0] == groups[i][0];
      }
    }
  }

  lemma FlattenGroup(s: seq<Item>)
    ensures Flatten([s]) == s
  {
    assert [s][..0] == [];
  }

  /** The last item of non-empty groups is the last item of the last group. */
  lemma FlattenLast(g: seq<seq<Item>>)
    requires g != [] && forall i :: 0 <= i < |g| ==> g[i] != []
    ensures Flatten(g) != [] && Flatten(g)[|Flatten(g)| - 1] == g[|g| - 1][|g[|g| - 1]| - 1]
  {
  }

  /** An honor (kinds 27..35) is always a group on its own. */
  lemma HonorsAlone(items: seq<Item>, groups: seq<seq<Item>>)
    requires Segmented(items, groups)
    ensures forall i, j :: 0 <= i < |groups| && 0 <= j < |groups[i]| && groups[i][j].kind / 9 == 3 ==>
      |groups[i]| == 1
  {
    forall i, j | 0 <= i < |groups| && 0 <= j < |groups[i]| && groups[i][j].kind / 9 == 3
      ensures |groups[i]| == 1
    {
      assert j > 0 ==> Break(groups[i][j - 1].kind, groups[i][j].kind);
      assert j == 0 && |groups[i]| > 1 ==> Break(groups[i][0].kind, groups[i][1].kind);
    }
  }

  /** Counts 0..4 give a pattern whose key is defined and tells it apart. */
  lemma {:induction false} PatternWellFormed(counts: seq<int>)
    requires forall k :: 0 <= k < |counts| ==> 0 <= counts[k] <= 4
    ensures WellFormed(Pattern(counts))
  {
    var items := Items(counts);
    ItemsSpec(counts);
    GroupItemsSegmented(items);
    var g: seq<seq<Item>> := GroupItems(items);
    forall i | 0 <= i < |g|
      ensures forall j :: 0 <= j < |g[i]| ==> 1 <= g[i][j].count <= 4
    {
      forall j | 0 <= j < |g[i]|
        ensures 1 <= g[i][j].count <= 4
      {
        FlattenMember(g, i, j);
      }
    }
    CountsOfWellFormed(g);
  }

  /** Every item of a group is an item of the flattened groups. */
  lemma {:induction false} FlattenMember<T>(g: seq<seq<T>>, i: int, j: int)
    requires 0 <= i < |g| && 0 <= j < |g[i]|
    ensures g[i][j] in Flatten(g)
  {
    var n := |g| - 1;
    assert Flatten(g) == Flatten(g[..n]) + g[n];
    if i < n {
      FlattenMember(g[..n], i, j);
    }
  }

  lemma {:induction false} CountsOfWellFormed(g: seq<seq<Item>>)
    requires forall i :: 0 <= i < |g| ==> g[i] != [] && forall j :: 0 <= j < |g[i]| ==> 1 <= g[i][j].count <= 4
    ensures WellFormed(CountsOf(g))
  {
    if g != [] {
      var n := |g| - 1;
      CountsOfWellFormed(g[..n]);
      CountsRange(g[n]);
      assert CountsOf(g) == CountsOf(g[..n]) + [Counts(g[n])];
    }
  }

  lemma {:induction false} CountsRange(items: seq<Item>)
    requires items != [] && forall j :: 0 <= j < |items| ==> 1 <= items[j].count <= 4
    ensures Counts(items) != [] && forall j :: 0 <= j < |Counts(items)| ==> 1 <= Counts(items)[j] <= 4
  {
    var n := |items| - 1;
    if n > 0 {
      CountsRange(items[..n]);
    }
  }

  /** Two hands of counts 0..4 with the same key have the same pattern. */
  lemma PatternKeyDistinct(c1: seq<int>, c2: seq<int>)
    requires forall k :: 0 <= k < |c1| ==> 0 <= c1[k] <= 4
    requires forall k :: 0 <= k < |c2| ==> 0 <= c2[k] <= 4
    requires KeyOf(Pattern(c1)) == KeyOf(Pattern(c2))
    ensures Pattern(c1) == Pattern(c2)
  {
    PatternWellFormed(c1);
    PatternWellFormed(c2);
    KeyInjective(Pattern(c1), Pattern(c2));
  }

  /** `calc_key(to_pattern(counter))` never fails: `to_pattern` makes no
      empty group. */
  lemma PatternKeyDefined(counts: seq<int>)
    ensures KeyOf(Pattern(counts)).Some?
  {
    var g := GroupItems(Items(counts));
    GroupItemsSegmented(Items(counts));
    if g != [] {
      CountsOfFirst(g);
    }
  }

  lemma {:induction false} CountsOfFirst(g: seq<seq<Item>>)
    requires g != [] && g[0] != []
    ensures CountsOf(g) != [] && CountsOf(g)[0] != []
  {
    var n := |g| - 1;
    assert CountsOf(g) == CountsOf(g[..n]) + [Counts(g[n])];
    if n > 0 {
      CountsOfFirst(g[..n]);
    }
  }
}
