/** The helpers of mahjong/utils.py: a count map that never keeps a zero,
    the 16-bit call ("meld") code of Tenhou logs with its three encoders,
    and the dora successor of an indicator tile. */
module Utils {
  import opened Common
  import opened Bits

  // ---------------------------------------------------------------------
  // Counters

  /** A `collections.Counter` as a value: the keys in insertion order and
      the stored counts. A missing key reads as 0. */
  datatype Counter = Counter(keys: seq<int>, counts: map<int, int>)
  {
    /** Each key is listed once, and the listed keys are the stored ones. */
    ghost predicate Valid()
    {
      Distinct(keys) && forall k :: k in counts <==> k in keys
    }

    /** No stored count is zero. */
    ghost predicate NoZero()
    {
      forall k :: k in counts ==> counts[k] != 0
    }

    /** `c[k]` */
    function Get(k: int): int
    {
      if k in counts then counts[k] else 0
    }

    /** The plain dictionary assignment `c[k] = v`: a new key goes last,
        an existing key keeps its place. */
    function Put(k: int, v: int): (r: Counter)
      ensures Valid() ==> r.Valid()
      ensures k in r.counts && r.Get(k) == v
      ensures forall j :: j != k ==> r.Get(j) == Get(j) && (j in r.counts <==> j in counts)
    {
      Counter(if k in counts then keys else keys + [k], counts[k := v])
    }

    /** `del c[k]`; Counter's deletion ignores a missing key. */
    function Delete(k: int): (r: Counter)
      ensures Valid() ==> r.Valid()
      ensures k !in r.counts && r.Get(k) == 0
      ensures forall j :: j != k ==> r.Get(j) == Get(j) && (j in r.counts <==> j in counts)
    {
      Counter(Remove(keys, k), counts - {k})
    }

    /** `AutoCleanCounter.__setitem__`: assigning 0 deletes the key, any
        other value is stored. */
    function CleanPut(k: int, v: int): (r: Counter)
      ensures Valid() ==> r.Valid()
      ensures NoZero() ==> r.NoZero()
      ensures r.Get(k) == v && (k in r.counts <==> v != 0)
      ensures forall j :: j != k ==> r.Get(j) == Get(j) && (j in r.counts <==> j in counts)
    {
      if v == 0 then Delete(k) else Put(k, v)
    }
  }

  /** The list without any occurrence of x, order kept. */
  function Remove(s: seq<int>, x: int): (r: seq<int>)
    ensures x !in r
    ensures forall y :: y != x ==> (y in r <==> y in s)
    ensures Distinct(s) ==> Distinct(r)
  {
    if s == [] then []
    else
      var rest := Remove(s[..|s| - 1], x);
      var last := s[|s| - 1];
      assert forall y :: y in s <==> y in s[..|s| - 1] || y == last;
      if last == x then rest
      else
        assert Distinct(s) ==> last !in s[..|s| - 1];
        rest + [last]
  }

  const EmptyCounter := Counter([], map[])

  /** `AutoCleanCounter(xs)`: each element counted in turn. */
  function FromList(xs: seq<int>): Counter
  {
    if xs == [] then EmptyCounter
    else
      var c := FromList(xs[..|xs| - 1]);
      var x := xs[|xs| - 1];
      c.CleanPut(x, c.Get(x) + 1)
  }

  /** Counting a list gives, for every value, its number of occurrences,
      and stores no zero. */
  lemma {:induction false} FromListCounts(xs: seq<int>)
    ensures FromList(xs).Valid() && FromList(xs).NoZero()
    ensures forall k :: FromList(xs).Get(k) == multiset(xs)[k]
  {
    if xs != [] {
      var init := xs[..|xs| - 1];
      FromListCounts(init);
      assert xs == init + [xs[|xs| - 1]];
    }
  }

  /** `AutoCleanCounter`, a Counter object updated in place. */
  class AutoCleanCounter {
    var keys: seq<int>
    var counts: map<int, int>

    function View(): Counter
      reads this
    {
      Counter(keys, counts)
    }

    ghost predicate Valid()
      reads this
    {
      View().Valid() && View().NoZero()
    }

    constructor (xs: seq<int>)
      ensures Valid() && View() == FromList(xs)
    {
      keys := [];
      counts := map[];
      new;
      var i := 0;
      while i < |xs|
        invariant 0 <= i <= |xs|
        invariant Valid() && View() == FromList(xs[..i])
      {
        assert xs[..i + 1][..i] == xs[..i];
        SetItem(xs[i], View().Get(xs[i]) + 1);
        i := i + 1;
      }
      assert xs[..i] == xs;
    }

    /** `self[key] = value` */
    method SetItem(key: int, value: int)
      requires Valid()
      modifies this
      ensures Valid()
      ensures View() == old(View()).CleanPut(key, value)
    {
      if value == 0 {
        keys := Remove(keys, key);
        counts := counts - {key};
      } else {
        if key !in counts {
          keys := keys + [key];
        }
        counts := counts[key := value];
      }
    }
  }

  // ---------------------------------------------------------------------
  // Call codes

  /** `parse_meld`'s result: kind 0 chi, 1 pon, 2 added kan, 3 open kan,
      4 concealed kan; the tile ids; the claimed (or added) id; the seat
      the tile came from, relative to the caller. */
  datatype Meld = Meld(kind: nat, ids: seq<int>, claimed: int, source: nat)

  /** The three copies of the kind starting at id t, all but copy `unused`. */
  function TripletIds(t: int, unused: int): (h: seq<int>)
    ensures |h| == 3 && h[0] < h[1] < h[2]
    ensures 0 <= unused < 4 ==>
      forall i :: 0 <= i < 3 ==> t <= h[i] < t + 4 && h[i] != t + unused
  {
    if unused == 0 then [t + 1, t + 2, t + 3]
    else if unused == 1 then [t, t + 2, t + 3]
    else if unused == 2 then [t, t + 1, t + 3]
    else [t, t + 1, t + 2]
  }

  /** `h.insert(0, h.pop(r))` on a three-element list, for r in 1..2; the
      list is unchanged for r = 0. */
  function ToFront(h: seq<int>, r: int): (g: seq<int>)
    requires |h| == 3 && 0 <= r < 3
    ensures |g| == 3 && g[0] == h[r] && multiset(g) == multiset(h)
  {
    assert h == [h[0]] + [h[1]] + [h[2]];
    if r == 1 then
      assert [h[1], h[0], h[2]] == [h[1]] + [h[0]] + [h[2]];
      [h[1], h[0], h[2]]
    else if r == 2 then
      assert [h[2], h[0], h[1]] == [h[2]] + [h[0]] + [h[1]];
      [h[2], h[0], h[1]]
    else h
  }

  /** `parse_meld(m)`; None where `parse_meld` falls off the end
      without returning. */
  function ParseMeld(m: nat): (r: Option<Meld>)
    ensures r.None? <==> !BitSet(m, 2) && !BitSet(m, 3) && !BitSet(m, 4) && BitSet(m, 5)
    ensures r.Some? ==> r.value.source == m % 4 && r.value.kind <= 4 && |r.value.ids| >= 3
  {
    var kui := Field(m, 0, 2);
    if BitSet(m, 2) then
      var t := Field(m, 10, 6);
      var r := t % 3;
      var b := t / 3 / 7 * 9 + t / 3 % 7;
      var h := [4 * b + Field(m, 3, 2), 4 * (b + 1) + Field(m, 5, 2), 4 * (b + 2) + Field(m, 7, 2)];
      Some(Meld(0, h, h[r], kui))
    else if BitSet(m, 3) then
      var unused := Field(m, 5, 2);
      var t := Field(m, 9, 7);
      var h := TripletIds(t / 3 * 4, unused);
      Some(Meld(1, h, h[t % 3], kui))
    else if BitSet(m, 4) then
      var added := Field(m, 5, 2);
      var t := Field(m, 9, 7);
      var r := t % 3;
      var base := t / 3 * 4;
      var h := TripletIds(base, added);
      Some(Meld(2, ToFront(h, r), base + added, kui))
    else if !BitSet(m, 5) then
      var hai0 := Field(m, 8, 8);
      var r := hai0 % 4;
      var hai := if kui == 0 then And(hai0, -3) + 3 else hai0;
      var t := hai / 4 * 4;
      var h := [t, t + 1, t + 2, t + 3];
      Some(Meld(if kui != 0 then 3 else 4, h, h[r], kui))
    else
      None
  }

  /** A chi code: three consecutive kinds b, b+1, b+2 in one suit, b taken
      from bits 10-15 as t/3/7*9 + t/3%7, copies from bits 3-8, the claimed
      id picked by t%3. */
  lemma {:induction false} ParseSequence(m: nat)
    requires BitSet(m, 2)
    ensures ParseMeld(m).Some?
    ensures var x := ParseMeld(m).value;
      x.kind == 0 && |x.ids| == 3 && x.source == m % 4 &&
      x.ids[0] >= 0 && x.ids[0] / 4 % 9 <= 6 && x.ids[0] / 4 <= 27 &&
      x.ids[0] / 4 == Field(m, 10, 6) / 3 / 7 * 9 + Field(m, 10, 6) / 3 % 7 &&
      (forall i :: 0 <= i < 3 ==>
         x.ids[i] / 4 == x.ids[0] / 4 + i && x.ids[i] % 4 == Field(m, 3 + 2 * i, 2)) &&
      x.claimed == x.ids[Field(m, 10, 6) % 3]
  {
    var t := Field(m, 10, 6);
    var q := t / 3;
    var b := q / 7 * 9 + q % 7;
    assert b % 9 <= 6 && b <= 27 by {
      assert t < 64;
      assert b % 9 == q % 7;
    }
    var c0, c1, c2 := Field(m, 3, 2), Field(m, 5, 2), Field(m, 7, 2);
    var h := [4 * b + c0, 4 * (b + 1) + c1, 4 * (b + 2) + c2];
    assert ParseMeld(m) == Some(Meld(0, h, h[t % 3], m % 4));
    assert c0 < 4 && c1 < 4 && c2 < 4;
    assert h[0] / 4 == b && h[0] % 4 == c0 by { SplitId(b, c0); }
    assert h[1] / 4 == b + 1 && h[1] % 4 == c1 by { SplitId(b + 1, c1); }
    assert h[2] / 4 == b + 2 && h[2] % 4 == c2 by { SplitId(b + 2, c2); }
  }

  lemma SplitId(k: int, c: int)
    requires 0 <= c < 4
    ensures (4 * k + c) / 4 == k && (4 * k + c) % 4 == c
  {
  }

  /** A pon code: three ascending ids of kind t/3 (t in bits 9-15), exactly
      the copies other than the `unused` field in bits 5-6. */
  lemma ParseTriplet(m: nat)
    requires !BitSet(m, 2) && BitSet(m, 3)
    ensures ParseMeld(m).Some?
    ensures var x := ParseMeld(m).value;
      x.kind == 1 && |x.ids| == 3 && x.source == m % 4 &&
      x.ids[0] < x.ids[1] < x.ids[2] &&
      (forall i :: 0 <= i < 3 ==>
         x.ids[i] / 4 == Field(m, 9, 7) / 3 && x.ids[i] % 4 != Field(m, 5, 2)) &&
      x.claimed == x.ids[Field(m, 9, 7) % 3]
  {
    var t := Field(m, 9, 7);
    var k := t / 3;
    var u := Field(m, 5, 2);
    var h := TripletIds(4 * k, u);
    forall i | 0 <= i < 3
      ensures h[i] / 4 == k && h[i] % 4 != u
    {
      var c := h[i] - 4 * k;
      assert 0 <= c < 4 && c != u;
      assert h[i] == 4 * k + c;
    }
  }

  /** The whole pon read from a code with its fields named. */
  lemma ParseTripletCode(m: nat, u: int, t: int, w: int)
    requires !BitSet(m, 2) && BitSet(m, 3)
    requires Field(m, 0, 2) == w && Field(m, 5, 2) == u && Field(m, 9, 7) == t
    ensures ParseMeld(m) == Some(Meld(1, TripletIds(t / 3 * 4, u), TripletIds(t / 3 * 4, u)[t % 3], w))
  {
  }

  /** An added-kan code: the pon's three ids with the one it claimed moved
      to the front, and the added id 4k + `added`. */
  lemma ParseAddedKan(m: nat)
    requires !BitSet(m, 2) && !BitSet(m, 3) && BitSet(m, 4)
    ensures ParseMeld(m).Some?
    ensures var x := ParseMeld(m).value;
      var pon := TripletIds(Field(m, 9, 7) / 3 * 4, Field(m, 5, 2));
      x.kind == 2 && x.source == m % 4 &&
      multiset(x.ids) == multiset(pon) &&
      x.ids[0] == pon[Field(m, 9, 7) % 3] &&
      x.claimed == Field(m, 9, 7) / 3 * 4 + Field(m, 5, 2) && x.claimed !in x.ids
  {
    var pon := TripletIds(Field(m, 9, 7) / 3 * 4, Field(m, 5, 2));
    var x := ParseMeld(m).value;
    assert x.ids == ToFront(pon, Field(m, 9, 7) % 3);
    assert x.claimed !in pon;
    assert x.claimed !in multiset(x.ids);
  }

  /** A kan code: all four copies of one kind, kind 3 (open) when the
      source bits are non-zero and 4 (concealed) when they are zero. For a
      concealed kan whose id field holds an odd copy index, `& -3` carries
      the decoded kind one past the field's kind. */
  lemma ParseKan(m: nat)
    requires !BitSet(m, 2) && !BitSet(m, 3) && !BitSet(m, 4) && !BitSet(m, 5)
    ensures ParseMeld(m).Some?
    ensures var x := ParseMeld(m).value;
      var hai0 := Field(m, 8, 8);
      var k := if m % 4 == 0 && hai0 % 2 == 1 then hai0 / 4 + 1 else hai0 / 4;
      x.ids == [4 * k, 4 * k + 1, 4 * k + 2, 4 * k + 3] &&
      (x.kind == 3 <==> m % 4 != 0) && (x.kind == 4 <==> m % 4 == 0) &&
      x.claimed == x.ids[hai0 % 4] && x.source == m % 4
  {
    var hai0 := Field(m, 8, 8);
    if m % 4 == 0 {
      AndMinusThree(hai0);
      var hai := 4 * (hai0 / 4) + hai0 % 2 + 3;
      if hai0 % 2 == 1 {
        assert hai / 4 == hai0 / 4 + 1;
      } else {
        assert hai / 4 == hai0 / 4;
      }
    }
  }

  /** The bit-by-bit accumulation of `encode_shunzi`'s loop: the flags 3|4,
      then the copy index of the first n ids at bits 3+2i. */
  function CopyBits(ids: seq<int>, n: nat): int
    requires n <= |ids|
  {
    if n == 0 then Or(3, 4)
    else Or(CopyBits(ids, n - 1), Shl(ids[n - 1] % 4, 3 + (n - 1) * 2))
  }

  function ShunziCode(ids: seq<int>, kuiTile: int): int
    requires kuiTile in ids
  {
    Or(CopyBits(ids, |ids|), Shl(ids[0] / 4 * 3 + IndexOf(ids, kuiTile), 10))
  }

  /** `encode_shunzi(tile_id_list, kui_tile)` */
  method EncodeShunzi(ids: seq<int>, kuiTile: int) returns (code: int)
    requires kuiTile in ids
    ensures code == ShunziCode(ids, kuiTile)
  {
    var kuiIndex := IndexOf(ids, kuiTile);
    var pattern := ids[0] / 4 * 3 + kuiIndex;
    code := 3;
    code := Or(code, 4);
    var i := 0;
    while i < |ids|
      invariant 0 <= i <= |ids|
      invariant code == CopyBits(ids, i)
    {
      code := Or(code, Shl(ids[i] % 4, 3 + i * 2));
      i := i + 1;
    }
    code := Or(code, Shl(pattern, 10));
  }

  /** Three ascending ids of consecutive kinds starting at base kind b. */
  predicate IsRun(ids: seq<int>)
  {
    |ids| == 3 && ids[0] >= 0 &&
    forall i :: 0 <= i < 3 ==> ids[i] / 4 == ids[0] / 4 + i
  }

  /** The chi code as a sum of its fields. */
  lemma {:induction false} ShunziCodeValue(ids: seq<int>, kuiTile: int)
    requires IsRun(ids) && kuiTile in ids && ids[0] / 4 <= 20
    ensures ShunziCode(ids, kuiTile) ==
      7 + 8 * (ids[0] % 4) + 32 * (ids[1] % 4) + 128 * (ids[2] % 4)
      + 1024 * (ids[0] / 4 * 3 + IndexOf(ids, kuiTile))
  {
    var c0, c1, c2 := ids[0] % 4, ids[1] % 4, ids[2] % 4;
    var p := ids[0] / 4 * 3 + IndexOf(ids, kuiTile);
    assert CopyBits(ids, 0) == 7 by {
      assert Pow2(2) == 4;
      OrDisjoint(3, 1, 2);
    }
    assert CopyBits(ids, 1) == 7 + 8 * c0 by {
      assert Pow2(3) == 8;
      OrDisjoint(7, c0, 3);
    }
    assert CopyBits(ids, 2) == 7 + 8 * c0 + 32 * c1 by {
      assert Pow2(5) == 32;
      OrDisjoint(7 + 8 * c0, c1, 5);
    }
    assert CopyBits(ids, 3) == 7 + 8 * c0 + 32 * c1 + 128 * c2 by {
      assert Pow2(7) == 128;
      OrDisjoint(7 + 8 * c0 + 32 * c1, c2, 7);
    }
    assert Pow2(10) == 1024;
    OrDisjoint(7 + 8 * c0 + 32 * c1 + 128 * c2, p, 10);
  }

  /** Fields of a chi code as ParseMeld reads them. */
  lemma ShunziFields(ids: seq<int>, kuiTile: int)
    requires IsRun(ids) && kuiTile in ids && ids[0] / 4 <= 20
    ensures ShunziCode(ids, kuiTile) >= 0
    ensures var m: nat := ShunziCode(ids, kuiTile);
      var p := ids[0] / 4 * 3 + IndexOf(ids, kuiTile);
      m % 4 == 3 && BitSet(m, 2) && Field(m, 3, 2) == ids[0] % 4 &&
      Field(m, 5, 2) == ids[1] % 4 && Field(m, 7, 2) == ids[2] % 4 && Field(m, 10, 6) == p
  {
    ShunziCodeValue(ids, kuiTile);
    ChiFields(ids[0] % 4, ids[1] % 4, ids[2] % 4, ids[0] / 4 * 3 + IndexOf(ids, kuiTile));
  }

  /** Fields of the chi code 7 + 8c0 + 32c1 + 128c2 + 1024p. */
  lemma ChiFields(c0: int, c1: int, c2: int, p: int)
    requires 0 <= c0 < 4 && 0 <= c1 < 4 && 0 <= c2 < 4 && 0 <= p < 64
    ensures var m: nat := 7 + 8 * c0 + 32 * c1 + 128 * c2 + 1024 * p;
      m % 4 == 3 && BitSet(m, 2) && Field(m, 3, 2) == c0 &&
      Field(m, 5, 2) == c1 && Field(m, 7, 2) == c2 && Field(m, 10, 6) == p
  {
    var m: nat := 7 + 8 * c0 + 32 * c1 + 128 * c2 + 1024 * p;
    assert Pow2(1) == 2 && Pow2(2) == 4 && Pow2(3) == 8 && Pow2(5) == 32;
    assert Pow2(6) == 64 && Pow2(7) == 128 && Pow2(10) == 1024;
    FieldLit(m, 2, 1, 3, 1, c0 + 4 * c1 + 16 * c2 + 128 * p, 4, 2);
    FieldLit(m, 3, 2, 7, c0, c1 + 4 * c2 + 32 * p, 8, 4);
    FieldLit(m, 5, 2, 7 + 8 * c0, c1, c2 + 8 * p, 32, 4);
    FieldLit(m, 7, 2, 7 + 8 * c0 + 32 * c1, c2, 2 * p, 128, 4);
    FieldLit(m, 10, 6, 7 + 8 * c0 + 32 * c1 + 128 * c2, p, 0, 1024, 64);
  }

  /** `encode_shunzi` then `parse_meld` gives the chi back when its base
      kind is at most 6. */
  lemma ShunziRoundTrip(ids: seq<int>, kuiTile: int)
    requires IsRun(ids) && kuiTile in ids && ids[0] / 4 <= 6
    ensures ShunziCode(ids, kuiTile) >= 0
    ensures ParseMeld(ShunziCode(ids, kuiTile)) == Some(Meld(0, ids, kuiTile, 3))
  {
    ShunziFields(ids, kuiTile);
    var m: nat := ShunziCode(ids, kuiTile);
    ParseSequence(m);
    var x := ParseMeld(m).value;
    var b := ids[0] / 4;
    var k := IndexOf(ids, kuiTile);
    assert Field(m, 10, 6) / 3 == b && Field(m, 10, 6) % 3 == k by {
      assert Field(m, 10, 6) == b * 3 + k;
    }
    assert x.ids[0] / 4 == b by {
      assert b / 7 == 0 && b % 7 == b;
    }
    forall i | 0 <= i < 3
      ensures x.ids[i] == ids[i]
    {
      assert x.ids[i] / 4 == ids[i] / 4 && x.ids[i] % 4 == ids[i] % 4;
      SameDivMod(x.ids[i], ids[i]);
    }
    assert x.ids == ids;
  }

  lemma SameDivMod(a: int, b: int)
    requires a / 4 == b / 4 && a % 4 == b % 4
    ensures a == b
  {
  }

  /** For a base kind b of 7 to 20 the same round trip decodes the chi at
      kind b + 2*(b/7) instead: the encoder writes the plain kind while
      the decoder expects seven starting ranks per suit. */
  lemma ShunziMisdecodedAboveSix(ids: seq<int>, kuiTile: int)
    requires IsRun(ids) && kuiTile in ids && 7 <= ids[0] / 4 <= 20
    ensures ShunziCode(ids, kuiTile) >= 0
    ensures var x := ParseMeld(ShunziCode(ids, kuiTile));
      x.Some? && x.value.ids[0] / 4 == ids[0] / 4 + 2 * (ids[0] / 4 / 7) != ids[0] / 4
  {
    ShunziFields(ids, kuiTile);
    var m: nat := ShunziCode(ids, kuiTile);
    ParseSequence(m);
    var b := ids[0] / 4;
    var k := IndexOf(ids, kuiTile);
    assert (b * 3 + k) / 3 == b;
    assert b / 7 * 9 + b % 7 == b + 2 * (b / 7);
  }

  /** `encode_kezi(tile_id_list, kui_tile, where)` */
  function EncodeKezi(ids: seq<int>, kuiTile: int, where: int): int
    requires kuiTile in ids
  {
    var code := Or(where % 4, 8);
    var pattern := ids[0] / 4;
    var unused := pattern * 3 + 6 - Sum(ids);
    Or(Or(code, Shl(unused, 5)), Shl(pattern * 3 + IndexOf(ids, kuiTile), 9))
  }

  lemma SumOfThree(ids: seq<int>)
    requires |ids| == 3
    ensures Sum(ids) == ids[0] + ids[1] + ids[2]
  {
    assert ids[..2][..1] == ids[..1];
    assert ids[..1][..0] == [];
    assert Sum(ids[..1]) == ids[0];
    assert Sum(ids[..2]) == ids[0] + ids[1];
  }

  /** The pon of the copies other than u of kind 0, encoded by
      `encode_kezi`, decodes to itself. */
  lemma KeziRoundTripKindZero(u: int, kuiTile: int, where: int)
    requires 0 <= u < 4 && kuiTile in TripletIds(0, u)
    ensures EncodeKezi(TripletIds(0, u), kuiTile, where) >= 0
    ensures ParseMeld(EncodeKezi(TripletIds(0, u), kuiTile, where))
      == Some(Meld(1, TripletIds(0, u), kuiTile, where % 4))
  {
    KeziCodeValue(u, kuiTile, where);
    KeziParse(where % 4, u, IndexOf(TripletIds(0, u), kuiTile));
  }

  /** Reading back a pon code of kind 0. */
  lemma KeziParse(w: int, u: int, k: int)
    requires 0 <= w < 4 && 0 <= u < 4 && 0 <= k < 3
    ensures ParseMeld(w + 8 + 32 * u + 512 * k) == Some(Meld(1, TripletIds(0, u), TripletIds(0, u)[k], w))
  {
    var m: nat := w + 8 + 32 * u + 512 * k;
    KeziFields(w, u, k);
    SmallThird(k);
    ParseTripletCode(m, u, k, w);
  }

  lemma SmallThird(k: int)
    requires 0 <= k < 3
    ensures k / 3 * 4 == 0 && k % 3 == k
  {
  }

  /** The pon code of kind 0 as a sum of its fields. */
  lemma KeziCodeValue(u: int, kuiTile: int, where: int)
    requires 0 <= u < 4 && kuiTile in TripletIds(0, u)
    ensures EncodeKezi(TripletIds(0, u), kuiTile, where)
      == where % 4 + 8 + 32 * u + 512 * IndexOf(TripletIds(0, u), kuiTile)
  {
    var ids := TripletIds(0, u);
    var k := IndexOf(ids, kuiTile);
    TripletSumZero(u);
    var unused, pattern := ids[0] / 4 * 3 + 6 - Sum(ids), ids[0] / 4 * 3 + k;
    assert unused == u && pattern == k;
    assert EncodeKezi(ids, kuiTile, where) == Or(Or(Or(where % 4, 8), Shl(unused, 5)), Shl(pattern, 9));
    KeziOr(where % 4, u, k);
  }

  lemma TripletSumZero(u: int)
    requires 0 <= u < 4
    ensures Sum(TripletIds(0, u)) == 6 - u && TripletIds(0, u)[0] / 4 == 0
  {
    SumOfThree(TripletIds(0, u));
  }

  /** The three `|` of `encode_kezi` on fields that do not overlap. */
  lemma KeziOr(w: int, u: int, k: int)
    requires 0 <= w < 4 && 0 <= u < 4 && k >= 0
    ensures Or(Or(Or(w, 8), Shl(u, 5)), Shl(k, 9)) == w + 8 + 32 * u + 512 * k
  {
    assert Pow2(3) == 8 && Pow2(5) == 32 && Pow2(9) == 512;
    OrDisjoint(w, 1, 3);
    OrDisjoint(w + 8, u, 5);
    OrDisjoint(w + 8 + 32 * u, k, 9);
  }

  /** Fields of the pon code w + 8 + 32u + 512k. */
  lemma KeziFields(w: int, u: int, k: int)
    requires 0 <= w < 4 && 0 <= u < 4 && 0 <= k < 128
    ensures var m: nat := w + 8 + 32 * u + 512 * k;
      Field(m, 0, 2) == w && !BitSet(m, 2) && BitSet(m, 3) &&
      Field(m, 5, 2) == u && Field(m, 9, 7) == k
  {
    var m: nat := w + 8 + 32 * u + 512 * k;
    assert Field(m, 0, 2) == w by {
      assert Pow2(0) == 1 && Pow2(2) == 4;
      FieldOf(m, 0, 2, 0, w, 2 + 8 * u + 128 * k);
    }
    assert !BitSet(m, 2) by {
      assert Pow2(2) == 4 && Pow2(1) == 2;
      FieldOf(m, 2, 1, w, 0, 1 + 4 * u + 64 * k);
    }
    assert BitSet(m, 3) by {
      assert Pow2(3) == 8 && Pow2(1) == 2;
      FieldOf(m, 3, 1, w, 1, 2 * u + 32 * k);
    }
    assert Field(m, 5, 2) == u by {
      assert Pow2(5) == 32 && Pow2(2) == 4;
      FieldOf(m, 5, 2, w + 8, u, 4 * k);
    }
    assert Pow2(9) == 512 && Pow2(7) == 128;
    FieldOf(m, 9, 7, w + 8 + 32 * u, k, 0);
  }

  /** For any kind above 0 the `unused` field of `encode_kezi` is
      u - 9*kind, so the code comes out negative and has no meaning as a
      16-bit call code. */
  lemma KeziNegativeAboveKindZero(k: int, u: int, kuiTile: int, where: int)
    requires k >= 1 && 0 <= u < 4 && kuiTile in TripletIds(4 * k, u)
    ensures EncodeKezi(TripletIds(4 * k, u), kuiTile, where) < 0
  {
    var ids := TripletIds(4 * k, u);
    SumOfThree(ids);
    assert ids[0] / 4 == k;
    var unused := k * 3 + 6 - Sum(ids);
    assert unused == u - 9 * k < 0;
    var code := Or(where % 4, 8);
    OrNegative(code, Shl(unused, 5));
    OrNegativeLeft(Or(code, Shl(unused, 5)), Shl(k * 3 + IndexOf(ids, kuiTile), 9));
  }

  /** `encode_kanzi(tile_id_list, kui_tile, where, add, pon_code)`; the
      Python None of `add` is `None` here. */
  function EncodeKanzi(ids: seq<int>, kuiTile: int, where: int, add: Option<int>, ponCode: int): int
    requires add.None? && where % 4 != 0 ==> kuiTile in ids
  {
    if add.Some? then Or(ponCode, Shl(1, 4))
    else
      var code := where % 4;
      var kuiIndex := if code != 0 then IndexOf(ids, kuiTile) else 0;
      Or(code, Shl(kuiTile / 4 * 4 + kuiIndex, 8))
  }

  /** The kan of ids 4k..4k+3, encoded by `encode_kanzi`, decodes as an
      open kan with the claimed id and source when where%4 != 0, and as a
      concealed kan with claimed id 4k and source 0 otherwise. */
  lemma {:induction false} KanziRoundTrip(k: int, kuiTile: int, where: int)
    requires 0 <= k < 34 && kuiTile / 4 == k
    ensures var ids := [4 * k, 4 * k + 1, 4 * k + 2, 4 * k + 3];
      var code := EncodeKanzi(ids, kuiTile, where, None, 0);
      code >= 0 &&
      ParseMeld(code) == if where % 4 != 0 then Some(Meld(3, ids, kuiTile, where % 4))
                         else Some(Meld(4, ids, 4 * k, 0))
  {
    var ids := [4 * k, 4 * k + 1, 4 * k + 2, 4 * k + 3];
    var w := where % 4;
    var c := kuiTile % 4;
    var p := 4 * k + (if w != 0 then c else 0);
    var m: nat := w + 256 * p;
    KanziCodeValue(k, kuiTile, where);
    KanFields(w, p);
    ParseKan(m);
    var x := ParseMeld(m).value;
    assert p / 4 == k && p % 4 == (if w != 0 then c else 0);
    assert x.ids == ids by {
      assert p % 2 == 0 || w != 0;
    }
    if w != 0 {
      assert x == Meld(3, ids, kuiTile, w);
    } else {
      assert x == Meld(4, ids, 4 * k, 0);
    }
  }

  /** The open or concealed kan code as a sum of its fields. */
  lemma KanziCodeValue(k: int, kuiTile: int, where: int)
    requires 0 <= k < 34 && kuiTile / 4 == k
    ensures EncodeKanzi([4 * k, 4 * k + 1, 4 * k + 2, 4 * k + 3], kuiTile, where, None, 0)
      == where % 4 + 256 * (4 * k + if where % 4 != 0 then kuiTile % 4 else 0)
  {
    var ids := [4 * k, 4 * k + 1, 4 * k + 2, 4 * k + 3];
    var w := where % 4;
    var c := kuiTile % 4;
    assert kuiTile == ids[c];
    assert w != 0 ==> IndexOf(ids, kuiTile) == c;
    var p := 4 * k + (if w != 0 then c else 0);
    assert Pow2(8) == 256;
    OrDisjoint(w, p, 8);
  }

  /** Fields of the kan code w + 256p. */
  lemma KanFields(w: int, p: int)
    requires 0 <= w < 4 && 0 <= p < 256
    ensures var m: nat := w + 256 * p;
      m % 4 == w && !BitSet(m, 2) && !BitSet(m, 3) && !BitSet(m, 4) && !BitSet(m, 5) &&
      Field(m, 8, 8) == p
  {
    var m: nat := w + 256 * p;
    assert Pow2(1) == 2 && Pow2(2) == 4 && Pow2(3) == 8 && Pow2(4) == 16 && Pow2(5) == 32;
    FieldOf(m, 2, 1, w, 0, 32 * p);
    FieldOf(m, 3, 1, w, 0, 16 * p);
    FieldOf(m, 4, 1, w, 0, 8 * p);
    FieldOf(m, 5, 1, w, 0, 4 * p);
    assert Pow2(8) == 256;
    FieldOf(m, 8, 8, w, p, 0);
  }

  /** The added-kan path of `encode_kanzi` only sets bit 4 of the pon's
      code; bits 2 and 3 are kept, so `parse_meld` still reads a pon. */
  lemma AddedKanReadsAsPon(ids: seq<int>, kuiTile: int, where: int, added: int, ponCode: nat)
    requires BitSet(ponCode, 3) && !BitSet(ponCode, 2)
    ensures EncodeKanzi(ids, kuiTile, where, Some(added), ponCode) >= 0
    ensures var x := ParseMeld(EncodeKanzi(ids, kuiTile, where, Some(added), ponCode));
      x.Some? && x.value.kind == 1
  {
    assert Pow2(4) == 16;
    OrBit(ponCode, Shl(1, 4), 2);
    OrBit(ponCode, Shl(1, 4), 3);
    assert !BitSet(16, 2) by { FieldOf(16, 2, 1, 0, 0, 2); }
  }

  // ---------------------------------------------------------------------
  // Dora

  /** `get_dora(d)`: the bonus kind indicated by tile id d. */
  function GetDora(d: int): int
  {
    var k := d / 4;
    if k % 9 == 8 then k - 8
    else if k == 30 then 27
    else if k == 33 then 31
    else k + 1
  }

  /** The group of a kind: the three suits, the winds, the dragons. */
  function KindGroup(k: int): int
  {
    if k < 27 then k / 9 else if k < 31 then 3 else 4
  }

  /** The next kind in its group's cycle: 1..9 within a suit, then
      east, south, west, north, and white, green, red. */
  function NextKind(k: int): int
  {
    if k < 27 then k / 9 * 9 + (k % 9 + 1) % 9
    else if k < 31 then 27 + (k - 26) % 4
    else 31 + (k - 30) % 3
  }

  /** `get_dora` of any tile id is the next kind of its group: a kind in
      0..33 of the same group, never the indicator's own kind. */
  lemma GetDoraIsNextKind(d: int)
    requires 0 <= d < 136
    ensures GetDora(d) == NextKind(d / 4)
    ensures 0 <= GetDora(d) < 34 && KindGroup(GetDora(d)) == KindGroup(d / 4) && GetDora(d) != d / 4
  {
    var k := d / 4;
    if k < 27 {
      assert k / 9 == (k - k % 9) / 9;
      if k % 9 == 8 {
        assert NextKind(k) == k - 8;
      } else {
        assert (k + 1) / 9 == k / 9;
      }
    }
  }

  /** Different indicator kinds give different dora. */
  lemma GetDoraInjective(d1: int, d2: int)
    requires 0 <= d1 < 136 && 0 <= d2 < 136
    requires GetDora(d1) == GetDora(d2)
    ensures d1 / 4 == d2 / 4
  {
    GetDoraIsNextKind(d1);
    GetDoraIsNextKind(d2);
    var k1, k2 := d1 / 4, d2 / 4;
    if k1 < 27 && k2 < 27 {
      assert k1 / 9 == k2 / 9;
      assert k1 == k1 / 9 * 9 + k1 % 9 && k2 == k2 / 9 * 9 + k2 % 9;
    }
  }
}
