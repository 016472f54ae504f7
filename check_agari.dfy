/** Win and wait detection of mahjong/check_agari.py. The two tables the
    module loads at import time are parameters here: the winning table
    (pattern key to payload string, plus the thirteen-orphans keys) and
    the waiting table (tenpai keys, plus the thirteen-orphans wait keys).
    Every property below holds relative to their contents.

    A hand is given as its vector of 34 counts, indexed by tile kind, as
    `to_pattern` reads a counter; `check_riichi`, whose answer follows the
    counter's own order, takes the counter itself. */
module CheckAgari {
  import opened Common
  import opened Bits
  import opened PatternKey
  import opened HexList
  import opened AgariTable
  import opened Utils
  import opened MachiTable

  // ---------------------------------------------------------------------
  // parse_agari_info

  /** The fields of a payload. */
  datatype AgariInfo = AgariInfo(numKotsu: int, numShuntsu: int, atama: int,
                                 m1: int, m2: int, m3: int, m4: int,
                                 chitoi: int, cyuren: int, ikki: int, ryanpeikou: int, ippeikou: int)

  /** `(value & (((1 << w) - 1) << lo)) >> lo` */
  function Read(value: int, lo: nat, w: nat): int
  {
    And(value, Mask(lo, w)) / Pow2(lo)
  }

  /** `parse_agari_info(value)` */
  function ParseAgariInfo(value: int): AgariInfo
  {
    AgariInfo(Read(value, 0, 3), Read(value, 3, 3), Read(value, 6, 4),
              Read(value, 10, 4), Read(value, 14, 4), Read(value, 18, 4), Read(value, 22, 4),
              Read(value, 26, 1), Read(value, 27, 1), Read(value, 28, 1), Read(value, 29, 1), Read(value, 30, 1))
  }

  /** On a non-negative value, reading a field is the unsigned field. */
  lemma ReadIsField(m: nat, lo: nat, w: nat)
    ensures Read(m, lo, w) == Field(m, lo, w)
  {
    AndMaskIsField(m, lo, w);
    DivModUnique(Field(m, lo, w) * Pow2(lo), Pow2(lo), Field(m, lo, w), 0);
  }

  lemma PrefixWidth(fs: seq<BitField>, i: int)
    requires 0 <= i < |fs|
    ensures Width(fs[..i + 1]) == Width(fs[..i]) + fs[i].width
  {
    ComposeSplit(fs[..i], [fs[i]]);
    assert fs[..i + 1] == fs[..i] + [fs[i]];
    assert Width([fs[i]]) == fs[i].width + Width([]);
  }

  /** Every field of laid-out fields reads back. */
  lemma ReadBack(fs: seq<BitField>, i: int, lo: nat)
    requires Fits(fs) && 0 <= i < |fs| && lo == Width(fs[..i])
    ensures Read(Compose(fs), lo, fs[i].width) == fs[i].value
  {
    ComposeField(fs, i);
    ReadIsField(Compose(fs), lo, fs[i].width);
  }

  /** The widths of the payload fields, and so where each one starts. */
  lemma PayloadOffsets(fs: seq<BitField>)
    requires |fs| == 12
    requires fs[0].width == 3 && fs[1].width == 3
    requires forall q :: 2 <= q < 7 ==> fs[q].width == 4
    requires forall q :: 7 <= q < 12 ==> fs[q].width == 1
    ensures Width(fs[..0]) == 0 && Width(fs[..1]) == 3 && Width(fs[..2]) == 6 && Width(fs[..3]) == 10
    ensures Width(fs[..4]) == 14 && Width(fs[..5]) == 18 && Width(fs[..6]) == 22 && Width(fs[..7]) == 26
    ensures Width(fs[..8]) == 27 && Width(fs[..9]) == 28 && Width(fs[..10]) == 29 && Width(fs[..11]) == 30
  {
    assert fs[..0] == [];
    PrefixWidth(fs, 0);
    PrefixWidth(fs, 1);
    PrefixWidth(fs, 2);
    PrefixWidth(fs, 3);
    PrefixWidth(fs, 4);
    PrefixWidth(fs, 5);
    PrefixWidth(fs, 6);
    PrefixWidth(fs, 7);
    PrefixWidth(fs, 8);
    PrefixWidth(fs, 9);
    PrefixWidth(fs, 10);
  }

  function Flag(b: bool): int
  {
    if b then 1 else 0
  }

  /** `parse_agari_info` reads back exactly what `find_hai_pos` packed:
      the triplet and sequence counts, the pair position, the meld
      positions (triplets first, 0 for a missing meld), a clear
      seven-pairs bit, and the four flags. */
  lemma ParsePayload(a: seq<seq<int>>, atama: int, pk: seq<int>, ps: seq<int>)
    requires Packable(atama, pk, ps)
    ensures var ms := pk + ps;
      ParseAgariInfo(Payload(a, atama, pk, ps)) ==
        AgariInfo(|pk|, |ps|, atama, Slot(ms, 0), Slot(ms, 1), Slot(ms, 2), Slot(ms, 3), 0,
                  Flag(NineGatesFlag(a)), Flag(StraightFlag(a, ps)), Flag(TwoDoublesFlag(ps)),
                  Flag(OneDoubleFlag(pk, ps)))
  {
    var fs := PayloadFields(a, atama, pk, ps);
    PayloadLayout(a, atama, pk, ps);
    PayloadWidths(a, atama, pk, ps);
    ParseFields(fs);
  }

  /** The payload of any decomposition of a winning pattern reads back as
      four melds around its pair: fourteen tiles always fit the fields. */
  lemma ParseDecomposition(a: seq<seq<int>>, atama: int, pk: seq<int>, ps: seq<int>)
    requires Explains(a, atama, pk, ps) && Sum(Flatten(a)) == 14
    requires forall v :: v in Flatten(a) ==> v >= 1
    ensures var info := ParseAgariInfo(Payload(a, atama, pk, ps));
      info.numKotsu + info.numShuntsu == 4 && info.atama == atama && info.chitoi == 0
  {
    ExplainsPackable(a, atama, pk, ps);
    ParseRead(a, atama, pk, ps, ParseAgariInfo(Payload(a, atama, pk, ps)));
  }

  lemma ParseRead(a: seq<seq<int>>, atama: int, pk: seq<int>, ps: seq<int>, info: AgariInfo)
    requires Packable(atama, pk, ps) && info == ParseAgariInfo(Payload(a, atama, pk, ps))
    ensures info.numKotsu == |pk| && info.numShuntsu == |ps| && info.atama == atama && info.chitoi == 0
  {
    ParsePayload(a, atama, pk, ps);
  }

  lemma PayloadWidths(a: seq<seq<int>>, atama: int, pk: seq<int>, ps: seq<int>)
    ensures var fs := PayloadFields(a, atama, pk, ps);
      |fs| == 12 && fs[0].width == 3 && fs[1].width == 3 &&
      (forall q :: 2 <= q < 7 ==> fs[q].width == 4) &&
      (forall q :: 7 <= q < 12 ==> fs[q].width == 1)
  {
  }

  /** Twelve fields of the payload's widths read back one by one. */
  lemma ParseFields(fs: seq<BitField>)
    requires Fits(fs) && |fs| == 12
    requires fs[0].width == 3 && fs[1].width == 3
    requires forall q :: 2 <= q < 7 ==> fs[q].width == 4
    requires forall q :: 7 <= q < 12 ==> fs[q].width == 1
    ensures ParseAgariInfo(Compose(fs)) ==
      AgariInfo(fs[0].value, fs[1].value, fs[2].value, fs[3].value, fs[4].value, fs[5].value,
                fs[6].value, fs[7].value, fs[8].value, fs[9].value, fs[10].value, fs[11].value)
  {
    PayloadOffsets(fs);
    ReadBack(fs, 0, 0);
    ReadBack(fs, 1, 3);
    ReadBack(fs, 2, 6);
    ReadBack(fs, 3, 10);
    ReadBack(fs, 4, 14);
    ReadBack(fs, 5, 18);
    ReadBack(fs, 6, 22);
    ReadBack(fs, 7, 26);
    ReadBack(fs, 8, 27);
    ReadBack(fs, 9, 28);
    ReadBack(fs, 10, 29);
    ReadBack(fs, 11, 30);
  }

  // ---------------------------------------------------------------------
  // is_agari and check_machi

  /** The winning table: pattern key to the payload string `find_hai_pos`
      stored, and the keys of the thirteen-orphans shapes. */
  datatype AgariTables = AgariTables(standard: map<int, string>, kokushi: set<int>)

  /** The waiting table: keys of the 13-tile tenpai shapes, and the keys
      of the thirteen-orphans waiting shapes. */
  datatype MachiTables = MachiTables(standard: set<int>, kokushi: set<int>)

  /** What `is_agari` returns: None, the payload string, or True. */
  datatype Agari = NoAgari | Payloads(hex: string) | Kokushi

  /** `counter[k]`: 0 for a kind that is not held. */
  function At(counts: seq<int>, k: int): int
  {
    if 0 <= k < |counts| then counts[k] else 0
  }

  /** `calc_key(to_pattern(counter))` */
  function HandKey(counts: seq<int>): int
  {
    PatternKeyDefined(counts);
    KeyOf(Pattern(counts)).value
  }

  /** The number of terminal and honor tiles held. */
  function OrphanCount(counts: seq<int>): int
  {
    Sum(seq(13, q requires 0 <= q < 13 => At(counts, Orphans[q])))
  }

  /** `is_agari(counter)` */
  function IsAgari(t: AgariTables, counts: seq<int>): Agari
  {
    var key := HandKey(counts);
    if key in t.standard then Payloads(t.standard[key])
    else if key in t.kokushi && OrphanCount(counts) == 14 then Kokushi
    else NoAgari
  }

  /** `check_machi(counter)` */
  predicate CheckMachi(t: MachiTables, counts: seq<int>)
  {
    var key := HandKey(counts);
    key in t.standard || (key in t.kokushi && OrphanCount(counts) == 13)
  }

  /** The payload strings of the winning table are what `find_hai_pos`
      returns for the pattern with that key (a well-formed pattern, which
      the key determines). */
  ghost predicate StandardBuilt(t: AgariTables)
  {
    forall key :: key in t.standard ==> exists p :: Stored(p, key, t.standard[key])
  }

  ghost predicate Stored(p: seq<seq<int>>, key: int, s: string)
  {
    WellFormed(p) && KeyOf(p) == Some(key) &&
    exists vs: seq<nat> :: Holds(p, vs, s)
  }

  /** The string s joins the values vs, which are the payloads of
      decompositions of p, or the seven-pairs value for a seven-pairs p. */
  ghost predicate Holds(p: seq<seq<int>>, vs: seq<nat>, s: string)
  {
    s == JoinHex(vs) && vs != [] &&
    ((forall v :: v in vs ==> IsPayload(p, v)) || (vs == [Pow2(26)] && AllPairs14(p)))
  }

  /** The thirteen-orphans keys are keys of twelve singles and one pair of
      the thirteen terminal and honor kinds. */
  ghost predicate KokushiBuilt(t: AgariTables)
  {
    forall key :: key in t.kokushi ==> exists i :: 0 <= i < 13 && KeyOf(KokushiPattern(i)) == Some(key)
  }

  predicate Hand(counts: seq<int>)
  {
    forall k :: 0 <= k < |counts| ==> 0 <= counts[k] <= 4
  }

  /** A table hit is a decomposition of the hand itself: the string reads
      back as payloads of the hand's own pattern (or the seven-pairs
      value for seven pairs). */
  lemma IsAgariPayloads(t: AgariTables, counts: seq<int>)
    requires StandardBuilt(t) && Hand(counts) && IsAgari(t, counts).Payloads?
    ensures exists vs :: ParseHexList(IsAgari(t, counts).hex) == Some(vs) && Holds(Pattern(counts), vs, IsAgari(t, counts).hex)
  {
    var key := HandKey(counts);
    var s := t.standard[key];
    var p :| Stored(p, key, s);
    var vs :| Holds(p, vs, s);
    PatternWellFormed(counts);
    KeyInjective(p, Pattern(counts));
    JoinRoundTrip(vs);
    assert ParseHexList(s) == Some(vs) && Holds(Pattern(counts), vs, s);
  }

  /** `is_agari` answers True only for a hand holding 14 terminals and
      honors whose pattern is twelve singles and one pair. */
  lemma IsAgariKokushi(t: AgariTables, counts: seq<int>)
    requires KokushiBuilt(t) && Hand(counts) && IsAgari(t, counts) == Kokushi
    ensures OrphanCount(counts) == 14
    ensures exists i :: 0 <= i < 13 && Pattern(counts) == KokushiPattern(i)
  {
    var key := HandKey(counts);
    var i :| 0 <= i < 13 && KeyOf(KokushiPattern(i)) == Some(key);
    PatternWellFormed(counts);
    KokushiWellFormed(i);
    KeyInjective(KokushiPattern(i), Pattern(counts));
  }

  lemma KokushiWellFormed(i: int)
    requires 0 <= i < 13
    ensures WellFormed(KokushiPattern(i))
  {
  }

  /** Every tenpai key of the waiting table is the key of a pattern that
      `remove_one_from_ptn` derives from a well-formed shape of 3n+2
      tiles. */
  ghost predicate MachiBuilt(t: MachiTables)
  {
    forall key :: key in t.standard ==> exists p, i, j :: Source(p, i, j) && KeyOf(RemovedAt(p, i, j)) == Some(key)
  }

  ghost predicate Source(p: seq<seq<int>>, i: int, j: int)
  {
    WellFormed(p) && Total(p) % 3 == 2 && 0 <= i < |p| && 0 <= j < |p[i]|
  }

  /** A tenpai hit for a hand of 3n+1 tiles is the hand's own pattern
      being one tile short of a winning shape. The one derived pattern
      that is not well-formed, an interior 0, carries the key of its
      winning shape (see InteriorZeroKey), which no hand of 3n+1 tiles
      has. */
  lemma CheckMachiSound(t: MachiTables, counts: seq<int>)
    requires MachiBuilt(t) && Hand(counts) && Sum(counts) % 3 == 1 && HandKey(counts) in t.standard
    ensures exists p, i, j :: Source(p, i, j) && Pattern(counts) == RemovedAt(p, i, j)
  {
    var key := HandKey(counts);
    var p, i, j :| Source(p, i, j) && KeyOf(RemovedAt(p, i, j)) == Some(key);
    var q := RemovedAt(p, i, j);
    PatternWellFormed(counts);
    PatternKeepsCounts(counts);
    RemovedWellFormed(p, i, j);
    if WellFormed(q) {
      KeyInjective(q, Pattern(counts));
    } else {
      InteriorZeroKey(p, i, j);
      KeyInjective(p, Pattern(counts));
      assert false;
    }
  }

  // ---------------------------------------------------------------------
  // check_riichi and machi

  /** A counter's counts as the vector `to_pattern` reads. */
  function Dense(c: Counter): (v: seq<int>)
    ensures |v| == 34 && forall k :: 0 <= k < 34 ==> v[k] == c.Get(k)
  {
    seq(34, k => c.Get(k))
  }

  /** Every entry is a tile kind. */
  predicate AllKinds(ks: seq<int>)
  {
    forall q :: 0 <= q < |ks| ==> 0 <= ks[q] < 34
  }

  /** The hand with one tile of kind k taken away. */
  function Lowered(c: Counter, k: int): seq<int>
    requires 0 <= k < 34
  {
    Dense(c)[k := c.Get(k) - 1]
  }

  /** The kinds of ks, in order, whose discard leaves a tenpai hand. */
  function RiichiKinds(t: MachiTables, c: Counter, ks: seq<int>): seq<int>
    requires AllKinds(ks)
  {
    if ks == [] then []
    else
      var n := |ks| - 1;
      RiichiKinds(t, c, ks[..n]) + (if c.Get(ks[n]) > 0 && CheckMachi(t, Lowered(c, ks[n])) then [ks[n]] else [])
  }

  /** The two answers of `check_riichi`: a truth value, or the list of
      kinds (`return_riichi_hai`). */
  datatype Riichi = Answer(b: bool) | Kinds(ks: seq<int>)

  /** `check_riichi(counter, return_riichi_hai)`. The copy `counts` is
      lowered and restored around each `check_machi`. */
  method CheckRiichi(t: MachiTables, c: Counter, returnHai: bool) returns (r: Riichi)
    requires AllKinds(c.keys)
    ensures returnHai ==> r == Kinds(RiichiKinds(t, c, c.keys))
    ensures !returnHai ==> r == Answer(RiichiKinds(t, c, c.keys) != [])
  {
    var counts := Dense(c);
    var hai: seq<int> := [];
    var n := 0;
    while n < |c.keys|
      invariant 0 <= n <= |c.keys| && counts == Dense(c)
      invariant hai == RiichiKinds(t, c, c.keys[..n])
      invariant !returnHai ==> hai == []
    {
      var k := c.keys[n];
      var hit := TryDiscard(t, c, counts, k);
      RiichiStep(t, c, n, hit);
      if hit {
        if !returnHai {
          RiichiKindsPrefix(t, c, c.keys, n + 1);
          return Answer(true);
        }
        hai := hai + [k];
      }
      n := n + 1;
    }
    assert c.keys[..n] == c.keys;
    if hai != [] {
      return Kinds(hai);
    }
    if returnHai {
      return Kinds([]);
    }
    return Answer(false);
  }

  /** One pass of the loop of `check_riichi`: a held kind is lowered in the
      copy, `check_machi` is asked, and the copy is restored. */
  method TryDiscard(t: MachiTables, c: Counter, counts: seq<int>, k: int) returns (hit: bool)
    requires counts == Dense(c) && 0 <= k < 34
    ensures hit == (c.Get(k) > 0 && CheckMachi(t, Lowered(c, k)))
  {
    hit := false;
    var cur := counts;
    if cur[k] > 0 {
      cur := cur[k := cur[k] - 1];
      assert cur == Lowered(c, k);
      hit := CheckMachi(t, cur);
      cur := cur[k := cur[k] + 1];
    }
  }

  lemma RiichiStep(t: MachiTables, c: Counter, n: int, hit: bool)
    requires AllKinds(c.keys) && 0 <= n < |c.keys|
    requires hit == (c.Get(c.keys[n]) > 0 && CheckMachi(t, Lowered(c, c.keys[n])))
    ensures RiichiKinds(t, c, c.keys[..n + 1]) == RiichiKinds(t, c, c.keys[..n]) + (if hit then [c.keys[n]] else [])
  {
    assert c.keys[..n + 1][..n] == c.keys[..n];
  }

  /** A hit among the first n kinds is a hit among all. */
  lemma {:induction false} RiichiKindsPrefix(t: MachiTables, c: Counter, ks: seq<int>, n: int)
    requires AllKinds(ks)
    requires 0 <= n <= |ks| && RiichiKinds(t, c, ks[..n]) != []
    ensures RiichiKinds(t, c, ks) != []
  {
    if n < |ks| {
      var m := |ks| - 1;
      assert ks[..m][..n] == ks[..n];
      RiichiKindsPrefix(t, c, ks[..m], n);
    } else {
      assert ks[..n] == ks;
    }
  }

  /** A kind is listed exactly when it is held and discarding it leaves
      a tenpai hand. */
  lemma {:induction false} RiichiKindsSpec(t: MachiTables, c: Counter, ks: seq<int>)
    requires AllKinds(ks)
    ensures forall k :: k in RiichiKinds(t, c, ks) <==>
      k in ks && c.Get(k) > 0 && CheckMachi(t, Lowered(c, k))
  {
    if ks != [] {
      var n := |ks| - 1;
      RiichiKindsSpec(t, c, ks[..n]);
      assert forall k :: k in ks <==> k in ks[..n] || k == ks[n];
    }
  }

  /** The hand with one more tile of kind k. */
  function Raised(counts: seq<int>, k: int): seq<int>
    requires 0 <= k < |counts|
  {
    counts[k := counts[k] + 1]
  }

  /** `machi(counter)`: the kinds, other than those already held four
      times, whose addition makes a winning hand. The copy `cur` is raised
      and restored around each `is_agari`. */
  method Machi(t: AgariTables, counts: seq<int>) returns (res: set<int>)
    requires |counts| == 34
    ensures res == set k | 0 <= k < 34 && counts[k] != 4 && IsAgari(t, Raised(counts, k)) != NoAgari
  {
    var cur := counts;
    res := {};
    for i := 0 to 34
      invariant cur == counts
      invariant res == WaitsBelow(t, counts, i)
    {
      var hit := false;
      if cur[i] != 4 {
        cur := cur[i := cur[i] + 1];
        hit := IsAgari(t, cur) != NoAgari;
        cur := cur[i := cur[i] - 1];
      }
      assert cur == counts;
      WaitsStep(t, counts, i, hit);
      if hit {
        res := res + {i};
      }
    }
  }

  /** The waits among the kinds below n. */
  ghost function WaitsBelow(t: AgariTables, counts: seq<int>, n: int): set<int>
    requires |counts| == 34 && 0 <= n <= 34
  {
    set k | 0 <= k < n && counts[k] != 4 && IsAgari(t, Raised(counts, k)) != NoAgari
  }

  lemma WaitsStep(t: AgariTables, counts: seq<int>, i: int, hit: bool)
    requires |counts| == 34 && 0 <= i < 34
    requires hit == (counts[i] != 4 && IsAgari(t, Raised(counts, i)) != NoAgari)
    ensures WaitsBelow(t, counts, i + 1) == WaitsBelow(t, counts, i) + (if hit then {i} else {})
  {
  }

  /** Each wait `machi` reports completes the hand: a decomposition of
      the completed hand, or thirteen orphans. */
  lemma MachiSound(t: AgariTables, counts: seq<int>, k: int)
    requires StandardBuilt(t) && KokushiBuilt(t) && Hand(counts) && |counts| == 34
    requires 0 <= k < 34 && counts[k] != 4 && IsAgari(t, Raised(counts, k)) != NoAgari
    ensures IsAgari(t, Raised(counts, k)).Payloads? ==>
      exists vs :: ParseHexList(IsAgari(t, Raised(counts, k)).hex) == Some(vs) &&
        Holds(Pattern(Raised(counts, k)), vs, IsAgari(t, Raised(counts, k)).hex)
    ensures IsAgari(t, Raised(counts, k)) == Kokushi ==>
      exists i :: 0 <= i < 13 && Pattern(Raised(counts, k)) == KokushiPattern(i)
  {
    var h := Raised(counts, k);
    assert Hand(h);
    if IsAgari(t, h).Payloads? {
      IsAgariPayloads(t, h);
    } else {
      IsAgariKokushi(t, h);
    }
  }
}
