/** Scoring of a winning hand (`mahjong/yaku.py`): the yaku flag word, the
    classification of a seat's calls, dora counting, the quick "has a yaku"
    test, the fu and han of each decomposition the winning table stores,
    the choice between decompositions, the limit table, and the listing
    of the yaku a flag word holds.

    Integer lists that `yaku.py` keeps in numpy arrays are sequences;
    `ret` flag words are Python integers combined with `Or`. */
module YakuRules {
  import opened Common
  import opened Bits
  import opened HexList
  import opened PatternKey
  import opened CheckAgari

  // ---------------------------------------------------------------------
  // YakuList: yakuman ids, and the bits of the flag word

  const SUKANTSU := 1
  const SUANKO := 2
  const CHINROTO := 3
  const DAISANGEN := 4
  const DAISUSHI := 5
  const SYOSUSHI := 6
  const TSUISO := 7
  const RYUISO := 8
  const CHURENPOTO := 9
  const KOKUSHIMUSO := 10
  const SUANKOTANKI := 11
  const KOKUSHIJUSANMEN := 12
  const CHURENCHUMEN := 13
  const TENHOU := 14
  const CHIHOU := 15

  const TSUMO := 0x10
  const PINFU := 0x20
  const HONROTO := 0x40
  const CHINITSU := 0x80
  const HONITSU := 0x100
  const JUNCHANTA := 0x200
  const HONCHANTA := 0x400
  const SANANKO := 0x800
  const SANKANTSU := 0x1000
  const SANSYOKUDOKO := 0x2000
  const SANSYOKUDOJUN := 0x4000
  const IKKITSUKAN := 0x8000
  const TOITOI := 0x1_0000
  const RYANPEKO := 0x2_0000
  const IPEKO := 0x4_0000
  const CHITOITSU := 0x8_0000
  const TANYAO := 0x10_0000
  const SYOSANGEN := 0x20_0000

  const SANGENHAI_SHIFT: nat := 22
  const SANGENHAI_MASK := 12582912
  const BAKAZEHAI := 0x100_0000
  const MENFONHAI := 0x200_0000
  const DORA_SHIFT: nat := 26
  const DORA_MASK := 2080374784
  const URA_DORA_SHIFT: nat := 31
  const URA_DORA_MASK := 66571993088
  const AKA_DORA_SHIFT: nat := 36
  const AKA_DORA_MASK := 206158430208

  const RIICHI := 0x40_0000_0000
  const DOUBLE_RIICHI := 0x80_0000_0000
  const ROB_KAN := 0x100_0000_0000
  const RINSHAN := 0x200_0000_0000
  const HAITEI := 0x400_0000_0000
  const IPPATSU := 0x800_0000_0000

  lemma Pow2Values()
    ensures Pow2(22) == 0x40_0000 && Pow2(26) == 0x400_0000 && Pow2(31) == 0x8000_0000
    ensures Pow2(36) == 0x10_0000_0000
  {
    assert Pow2(10) == 1024;
    Pow2Add(10, 10);
    Pow2Add(20, 2);
    Pow2Add(20, 6);
    Pow2Add(20, 11);
    Pow2Add(20, 16);
    assert Pow2(2) == 4 && Pow2(6) == 64;
  }

  /** Each multi-bit mask is the field its shift starts: dragons 2 bits at
      22, dora 5 bits at 26, ura-dora 5 bits at 31, red fives 2 bits at
      36. */
  lemma MasksAreFields()
    ensures SANGENHAI_MASK == Mask(SANGENHAI_SHIFT, 2)
    ensures DORA_MASK == Mask(DORA_SHIFT, 5)
    ensures URA_DORA_MASK == Mask(URA_DORA_SHIFT, 5)
    ensures AKA_DORA_MASK == Mask(AKA_DORA_SHIFT, 2)
  {
    Pow2Values();
    assert Pow2(2) == 4 && Pow2(5) == 32;
  }

  /** The value of a yakuman: 2 for the four-concealed-triplets single
      wait, big four winds, pure nine gates and the thirteen-sided
      thirteen orphans, 1 for the others. */
  function YakumanValue(id: int): int
  {
    if id == SUANKOTANKI || id == DAISUSHI || id == CHURENCHUMEN || id == KOKUSHIJUSANMEN then 2 else 1
  }

  /** The total value of a list of yakuman. */
  function YakumanHan(ids: seq<int>): int
  {
    if ids == [] then 0 else YakumanHan(ids[..|ids| - 1]) + YakumanValue(ids[|ids| - 1])
  }

  // ---------------------------------------------------------------------
  // Yaku.__init__: the calls by type

  /** The calls sorted into the four lists `__init__` builds: pon kinds,
      chi lowest kinds, concealed-kan kinds, open-kan kinds. */
  datatype Melds = Melds(pon: seq<int>, chi: seq<int>, ankan: seq<int>, minkan: seq<int>)

  /** `ptn[0]` for a chi key, `ptn` for the others. */
  function Head(p: FuroPtn): int
  {
    match p
    case KindPtn(k) => k
    case ChiPtn(low, _) => low
  }

  /** The keys as the call map builds them: chi keys carry a (kind,
      position) pair and the other keys a kind. */
  predicate TypedKeys(calls: seq<Furo>)
  {
    forall i :: 0 <= i < |calls| ==> (calls[i].key.furoType == 0 <==> calls[i].key.ptn.ChiPtn?)
  }

  /** The patterns of the calls of type t, in call order. */
  function OfType(calls: seq<Furo>, t: int): seq<int>
  {
    if calls == [] then []
    else
      var n := |calls| - 1;
      OfType(calls[..n], t) + (if calls[n].key.furoType == t then [Head(calls[n].key.ptn)] else [])
  }

  /** The classification loop of `__init__`: each call goes to the list of
      its type, in call order; calls of another type are skipped. */
  method ClassifyCalls(calls: seq<Furo>) returns (m: Melds)
    requires TypedKeys(calls)
    ensures m == Melds(OfType(calls, 1), OfType(calls, 0), OfType(calls, 2), OfType(calls, 3))
  {
    m := Melds([], [], [], []);
    for i := 0 to |calls|
      invariant m == Melds(OfType(calls[..i], 1), OfType(calls[..i], 0), OfType(calls[..i], 2), OfType(calls[..i], 3))
    {
      assert calls[..i + 1][..i] == calls[..i];
      var key := calls[i].key;
      if key.furoType == 0 {
        m := m.(chi := m.chi + [key.ptn.low]);
      } else if key.furoType == 1 {
        m := m.(pon := m.pon + [key.ptn.kind]);
      } else if key.furoType == 2 {
        m := m.(ankan := m.ankan + [key.ptn.kind]);
      } else if key.furoType == 3 {
        m := m.(minkan := m.minkan + [key.ptn.kind]);
      }
    }
    assert calls[..|calls|] == calls;
  }

  /** k is in the list of type t exactly when a call of that type has
      pattern k. */
  lemma {:induction false} OfTypeSpec(calls: seq<Furo>, t: int)
    ensures forall k :: k in OfType(calls, t) <==>
      exists i :: 0 <= i < |calls| && calls[i].key.furoType == t && Head(calls[i].key.ptn) == k
  {
    if calls != [] {
      var n := |calls| - 1;
      OfTypeSpec(calls[..n], t);
      forall k | k in OfType(calls, t)
        ensures exists i :: 0 <= i < |calls| && calls[i].key.furoType == t && Head(calls[i].key.ptn) == k
      {
        if k in OfType(calls[..n], t) {
          var i :| 0 <= i < n && calls[..n][i].key.furoType == t && Head(calls[..n][i].key.ptn) == k;
          assert calls[i] == calls[..n][i];
        }
      }
      forall k | exists i :: 0 <= i < |calls| && calls[i].key.furoType == t && Head(calls[i].key.ptn) == k
        ensures k in OfType(calls, t)
      {
        var i :| 0 <= i < |calls| && calls[i].key.furoType == t && Head(calls[i].key.ptn) == k;
        if i < n {
          assert calls[..n][i] == calls[i];
        }
      }
    }
  }

  /** When every call has one of the four types, each lands in exactly one
      list, so the four lists together are as long as the call map. */
  lemma {:induction false} ClassifyPartition(calls: seq<Furo>)
    requires forall i :: 0 <= i < |calls| ==> 0 <= calls[i].key.furoType <= 3
    ensures |OfType(calls, 0)| + |OfType(calls, 1)| + |OfType(calls, 2)| + |OfType(calls, 3)| == |calls|
  {
    if calls != [] {
      ClassifyPartition(calls[..|calls| - 1]);
    }
  }

  /** `kui`: 1 when some chi, pon or open kan was called. */
  function Kui(m: Melds): int
  {
    if |m.pon + m.chi + m.minkan| > 0 then 1 else 0
  }

  // ---------------------------------------------------------------------
  // count_dora

  /** `Counter([_ // 4 for _ in ids])[k]`: the number of ids of kind k. */
  function CountKind(ids: seq<int>, k: int): nat
  {
    if ids == [] then 0
    else CountKind(ids[..|ids| - 1], k) + (if ids[|ids| - 1] / 4 == k then 1 else 0)
  }

  /** `hand_tiles + [_ for tiles in furo.values() for _ in tiles]` */
  function AllTiles(hand: seq<int>, calls: seq<Furo>): seq<int>
  {
    hand + Flatten(seq(|calls|, i requires 0 <= i < |calls| => calls[i].tiles))
  }

  /** The dora a list of indicated kinds gives: for each kind in ds (with
      repetitions), the number of tiles of that kind. */
  function DoraHits(ids: seq<int>, ds: seq<int>): nat
  {
    if ds == [] then 0 else DoraHits(ids, ds[..|ds| - 1]) + CountKind(ids, ds[|ds| - 1])
  }

  /** `sum(map(lambda x: x in [16, 52, 88], ids))` */
  function AkaCount(ids: seq<int>): nat
  {
    if ids == [] then 0 else AkaCount(ids[..|ids| - 1]) + (if ids[|ids| - 1] in AkaIds then 1 else 0)
  }

  lemma {:induction false} CountKindAppend(a: seq<int>, b: seq<int>, k: int)
    ensures CountKind(a + b, k) == CountKind(a, k) + CountKind(b, k)
  {
    if b == [] {
      assert a + b == a;
    } else {
      CountKindAppend(a, b[..|b| - 1], k);
      assert (a + b)[..|a + b| - 1] == a + b[..|b| - 1];
    }
  }

  /** The dora of the hand and of the calls add up: counting over the
      concatenated tile list is counting over each part. */
  lemma {:induction false} DoraHitsSplit(a: seq<int>, b: seq<int>, ds: seq<int>)
    ensures DoraHits(a + b, ds) == DoraHits(a, ds) + DoraHits(b, ds)
  {
    if ds != [] {
      DoraHitsSplit(a, b, ds[..|ds| - 1]);
      CountKindAppend(a, b, ds[|ds| - 1]);
    }
  }

  /** The number of occurrences of v in s. */
  function Occurrences(s: seq<int>, v: int): nat
  {
    if s == [] then 0 else Occurrences(s[..|s| - 1], v) + (if s[|s| - 1] == v then 1 else 0)
  }

  lemma {:induction false} AkaSplit(ids: seq<int>)
    ensures AkaCount(ids) == Occurrences(ids, 16) + Occurrences(ids, 52) + Occurrences(ids, 88)
  {
    if ids != [] {
      AkaSplit(ids[..|ids| - 1]);
    }
  }

  lemma {:induction false} OccursOnce(s: seq<int>, v: int)
    requires Distinct(s)
    ensures Occurrences(s, v) <= 1
    ensures v !in s ==> Occurrences(s, v) == 0
  {
    if s != [] {
      var n := |s| - 1;
      OccursOnce(s[..n], v);
      if s[n] == v {
        assert v !in s[..n];
      }
    }
  }

  /** Tile ids are distinct, so at most the three red fives count. */
  lemma AkaAtMostThree(ids: seq<int>)
    requires Distinct(ids)
    ensures AkaCount(ids) <= 3
  {
    AkaSplit(ids);
    OccursOnce(ids, 16);
    OccursOnce(ids, 52);
    OccursOnce(ids, 88);
  }

  // ---------------------------------------------------------------------
  // naive_check_yaku

  /** `x & 2080374784`: one of the payload flags at bits 26..30 is set. */
  predicate HasYakuFlag(x: int)
  {
    And(x, DORA_MASK) != 0
  }

  /** `naive_check_yaku`. Its payload strings are the ones `is_agari`
      returned, which parse (`WellStored`). */
  function NaiveCheck(agari: Agari, riichi: int, tsumo: bool, kui: int, tokusyu: int): bool
    requires WellStored(agari)
  {
    if agari.NoAgari? then false
    else if riichi != 0 || (tsumo && kui == 0) || tokusyu != 0 then true
    else if agari.Payloads? then
      var xs := ParseHexList(agari.hex).value;
      exists i :: 0 <= i < |xs| && HasYakuFlag(xs[i])
    else true
  }

  /** A payload string that `int(_, 16)` reads in full. */
  predicate WellStored(agari: Agari)
  {
    agari.Payloads? ==> ParseHexList(agari.hex).Some?
  }

  /** A field of m at bit lo is the field of m / 2 one bit lower. */
  lemma FieldShift(m: nat, lo: nat, w: nat)
    requires lo >= 1
    ensures Field(m, lo, w) == Field(m / 2, lo - 1, w)
  {
    DivDiv(m, Pow2(lo - 1));
  }

  /** Splitting a field: its lowest bit, then the rest. */
  lemma {:induction false} FieldSplit(m: nat, lo: nat, w: nat)
    ensures Field(m, lo, 1 + w) == Field(m, lo, 1) + 2 * Field(m, lo + 1, w)
  {
    if lo == 0 {
      ModTwice(m, Pow2(w));
      assert Pow2(1) == 2 && Pow2(0) == 1;
      assert Pow2(1 + w) == 2 * Pow2(w);
    } else {
      FieldSplit(m / 2, lo - 1, w);
      FieldShift(m, lo, 1 + w);
      FieldShift(m, lo, 1);
      FieldShift(m, lo + 1, w);
    }
  }

  /** The mask of `naive_check_yaku` is non-zero exactly when one of the
      five flags `parse_agari_info` reads is set: seven pairs, nine gates,
      pure straight, two double sequences, one double sequence. */
  lemma YakuFlagBits(x: nat)
    ensures var info := ParseAgariInfo(x);
      HasYakuFlag(x) <==>
        (info.chitoi != 0 || info.cyuren != 0 || info.ikki != 0 || info.ryanpeikou != 0 || info.ippeikou != 0)
  {
    YakuFlagField(x);
    ReadIsField(x, 26, 1);
    ReadIsField(x, 27, 1);
    ReadIsField(x, 28, 1);
    ReadIsField(x, 29, 1);
    ReadIsField(x, 30, 1);
    FiveBits(x, 26);
  }

  /** The payload test of `naive_check_yaku` is the five-bit field at bit 26. */
  lemma {:induction false} YakuFlagField(x: nat)
    ensures HasYakuFlag(x) <==> Field(x, 26, 5) != 0
  {
    var f, p := Field(x, 26, 5), Pow2(26);
    assert And(x, DORA_MASK) == f * p by {
      MasksAreFields();
      AndMaskIsField(x, 26, 5);
    }
    if f >= 1 {
      MulAtLeast(f, p);
    }
  }

  /** A 5-bit field is zero exactly when each of its bits is. */
  lemma FiveBits(x: nat, lo: nat)
    ensures Field(x, lo, 5) == 0 <==>
      Field(x, lo, 1) == 0 && Field(x, lo + 1, 1) == 0 && Field(x, lo + 2, 1) == 0 &&
      Field(x, lo + 3, 1) == 0 && Field(x, lo + 4, 1) == 0
  {
    FieldSplit(x, lo, 4);
    FieldSplit(x, lo + 1, 3);
    FieldSplit(x, lo + 2, 2);
    FieldSplit(x, lo + 3, 1);
  }

  /** The payload loop of `naive_check_yaku`: true at the first payload
      with a flag, false when none has one. */
  method AnyYakuFlag(xs: seq<nat>) returns (b: bool)
    ensures b <==> exists i :: 0 <= i < |xs| && HasYakuFlag(xs[i])
  {
    for i := 0 to |xs|
      invariant forall j :: 0 <= j < i ==> !HasYakuFlag(xs[j])
    {
      if And(xs[i], 2080374784) != 0 {
        return true;
      }
    }
    return false;
  }

  // ---------------------------------------------------------------------
  // parse_yaku_ret

  /** What `calculate_yaku` passes: the yakuman list, or the flag word. */
  datatype YakuRet = YakumanIds(ids: seq<int>) | Flags(bits: int)

  /** One line of the listing: a yaku's name, or a name with its count
      (`parse_yaku_ret` formats the latter as `name + ": " + str(n)`). */
  datatype Entry = Named(name: string) | Counted(name: string, n: int)

  /** The name of a yakuman id; ids outside the list have none. */
  function YakumanName(id: int): Option<string>
  {
    if id == TENHOU then Some("天和")
    else if id == CHIHOU then Some("地和")
    else if id == SUKANTSU then Some("四杠子")
    else if id == SUANKO then Some("四暗刻")
    else if id == CHINROTO then Some("清老头")
    else if id == DAISANGEN then Some("大三元")
    else if id == DAISUSHI then Some("大四喜")
    else if id == SYOSUSHI then Some("小四喜")
    else if id == TSUISO then Some("字一色")
    else if id == RYUISO then Some("绿一色")
    else if id == CHURENPOTO then Some("九莲宝灯")
    else if id == KOKUSHIMUSO then Some("国士无双")
    else if id == SUANKOTANKI then Some("四暗刻单骑")
    else if id == KOKUSHIJUSANMEN then Some("国士十三面")
    else if id == CHURENCHUMEN then Some("纯正九莲宝灯")
    else None
  }

  /** The names of the listed yakuman, in order, unknown ids skipped. */
  function YakumanNames(ids: seq<int>): seq<Entry>
  {
    if ids == [] then []
    else
      var n := |ids| - 1;
      var name := YakumanName(ids[n]);
      YakumanNames(ids[..n]) + (if name.Some? then [Named(name.value)] else [])
  }

  /** `ret & flag` taken as Python's truth value. */
  predicate Has(ret: int, flag: int)
  {
    And(ret, flag) != 0
  }

  /** `names.append(e)` when c holds. */
  function AddIf(names: seq<Entry>, c: bool, e: Entry): seq<Entry>
  {
    if c then names + [e] else names
  }

  /** Riichi, double riichi: the flags under which ura-dora is listed. */
  predicate InRiichi(ret: int)
  {
    Has(ret, RIICHI) || Has(ret, DOUBLE_RIICHI)
  }

  /** The listing of a flag word, in the order `parse_yaku_ret` appends. */
  function FlagNames(ret: int, tsumo: bool): seq<Entry>
  {
    CountNames(ThirdNames(SecondNames(FirstNames([], ret), ret, tsumo), ret), ret)
  }

  function FirstNames(names: seq<Entry>, ret: int): seq<Entry>
  {
    RiichiNames(HandNames(names, ret), ret)
  }

  function HandNames(names: seq<Entry>, ret: int): seq<Entry>
  {
    var n1 := AddIf(names, Has(ret, RIICHI), Named("立直"));
    var n2 := AddIf(n1, Has(ret, DOUBLE_RIICHI), Named("两立直"));
    var n3 := AddIf(n2, Has(ret, IPPATSU), Named("一发"));
    var n4 := AddIf(n3, Has(ret, TSUMO), Named("门清自摸"));
    AddIf(n4, Has(ret, PINFU), Named("平和"))
  }

  function RiichiNames(names: seq<Entry>, ret: int): seq<Entry>
  {
    var sangen := And(ret, SANGENHAI_MASK) / Pow2(SANGENHAI_SHIFT);
    var n6 := AddIf(names, Has(ret, MENFONHAI), Named("门风"));
    var n7 := AddIf(n6, Has(ret, BAKAZEHAI), Named("场风"));
    var n8 := AddIf(n7, sangen != 0, Counted("三元牌の役牌", sangen));
    var n9 := AddIf(n8, Has(ret, TANYAO), Named("断幺"));
    AddIf(n9, Has(ret, IPEKO), Named("一杯口"))
  }

  function SecondNames(names: seq<Entry>, ret: int, tsumo: bool): seq<Entry>
  {
    TripletNames(SpecialNames(names, ret, tsumo), ret)
  }

  function SpecialNames(names: seq<Entry>, ret: int, tsumo: bool): seq<Entry>
  {
    var n1 := if Has(ret, ROB_KAN) then names + [Named("抢杠")]
              else if Has(ret, RINSHAN) then names + [Named("岭上开花")]
              else if Has(ret, HAITEI) then names + [if tsumo then Named("海底摸月") else Named("河底捞鱼")]
              else names;
    var n2 := AddIf(n1, Has(ret, SANSYOKUDOKO), Named("三色同刻"));
    var n3 := AddIf(n2, Has(ret, SANKANTSU), Named("三杠子"));
    AddIf(n3, Has(ret, TOITOI), Named("对对和"))
  }

  function TripletNames(names: seq<Entry>, ret: int): seq<Entry>
  {
    var n5 := AddIf(names, Has(ret, SANANKO), Named("三暗刻"));
    var n6 := AddIf(n5, Has(ret, SYOSANGEN), Named("小三元"));
    var n7 := AddIf(n6, Has(ret, HONROTO), Named("混老头"));
    var n8 := AddIf(n7, Has(ret, CHITOITSU), Named("七对子"));
    AddIf(n8, Has(ret, HONCHANTA), Named("混全带幺九"))
  }

  function ThirdNames(names: seq<Entry>, ret: int): seq<Entry>
  {
    var n1 := if Has(ret, IKKITSUKAN) then names + [Named("一气通贯")]
              else if Has(ret, SANSYOKUDOJUN) then names + [Named("三色同顺")] else names;
    var n2 := AddIf(n1, Has(ret, RYANPEKO), Named("两杯口"));
    var n3 := AddIf(n2, Has(ret, JUNCHANTA), Named("纯全带幺九"));
    if Has(ret, HONITSU) then n3 + [Named("混一色")]
    else if Has(ret, CHINITSU) then n3 + [Named("清一色")] else n3
  }

  /** The counted entries: dora, red fives, and ura-dora under riichi. */
  function CountNames(names: seq<Entry>, ret: int): seq<Entry>
  {
    var dora := And(ret, DORA_MASK) / Pow2(DORA_SHIFT);
    var aka := And(ret, AKA_DORA_MASK) / Pow2(AKA_DORA_SHIFT);
    var ura := And(ret, URA_DORA_MASK) / Pow2(URA_DORA_SHIFT);
    var n1 := AddIf(names, dora != 0, Counted("宝牌", dora));
    var n2 := AddIf(n1, aka != 0, Counted("赤宝牌", aka));
    AddIf(n2, InRiichi(ret), Counted("里宝牌", ura))
  }

  /** The straight and the mixed triple sequence are never both listed,
      nor the half and the full flush. */
  lemma ThirdNamesExclusive(names: seq<Entry>, ret: int)
    requires Named("一气通贯") !in names && Named("三色同顺") !in names
    requires Named("混一色") !in names && Named("清一色") !in names
    ensures var r := ThirdNames(names, ret);
      (Named("一气通贯") in r ==> Named("三色同顺") !in r) && (Named("混一色") in r ==> Named("清一色") !in r)
  {
  }

  /** The ura-dora entry is listed exactly under riichi or double riichi,
      whatever the ura-dora count. */
  lemma UraListedUnderRiichi(names: seq<Entry>, ret: int)
    requires forall i :: 0 <= i < |names| ==> names[i].name != "里宝牌"
    ensures var r := CountNames(names, ret);
      (exists i :: 0 <= i < |r| && r[i].name == "里宝牌") <==> InRiichi(ret)
  {
    var r := CountNames(names, ret);
    if InRiichi(ret) {
      assert r[|r| - 1].name == "里宝牌";
    } else {
      var dora := And(ret, DORA_MASK) / Pow2(DORA_SHIFT);
      var aka := And(ret, AKA_DORA_MASK) / Pow2(AKA_DORA_SHIFT);
      var n1 := AddIf(names, dora != 0, Counted("宝牌", dora));
      assert forall i :: 0 <= i < |n1| ==> n1[i].name != "里宝牌";
      var n2 := AddIf(n1, aka != 0, Counted("赤宝牌", aka));
      assert forall i :: 0 <= i < |n2| ==> n2[i].name != "里宝牌";
    }
  }

  /** Reading a count through its mask and shift gives the field there. */
  lemma MaskedRead(ret: nat, lo: nat, w: nat, mask: int)
    requires mask == Mask(lo, w)
    ensures And(ret, mask) / Pow2(lo) == Field(ret, lo, w)
  {
    AndMaskIsField(ret, lo, w);
    DivModUnique(Field(ret, lo, w) * Pow2(lo), Pow2(lo), Field(ret, lo, w), 0);
  }

  /** A one-bit flag is set exactly when its bit reads 1. */
  lemma HasBit(ret: nat, i: nat, flag: int)
    requires flag == Shl(1, i)
    ensures Has(ret, flag) <==> Field(ret, i, 1) == 1
  {
    assert Pow2(1) == 2;
    assert flag == Mask(i, 1);
    AndMaskIsField(ret, i, 1);
  }

  /** The single-bit flags written outside the counted fields: self-draw
      at bit 4, then riichi, double riichi, robbing a kan, after a kan,
      last tile and ippatsu at bits 38 to 43. */
  lemma FlagShifts()
    ensures TSUMO == Shl(1, 4) && RIICHI == Shl(1, 38) && DOUBLE_RIICHI == Shl(1, 39)
    ensures ROB_KAN == Shl(1, 40) && RINSHAN == Shl(1, 41) && HAITEI == Shl(1, 42)
    ensures IPPATSU == Shl(1, 43)
  {
    Pow2Values();
    Pow2Add(36, 2);
    Pow2Add(36, 3);
    Pow2Add(36, 4);
    Pow2Add(36, 5);
    Pow2Add(36, 6);
    Pow2Add(36, 7);
    assert Pow2(2) == 4 && Pow2(4) == 16 && Pow2(7) == 128;
  }

  /** The dora, red-five and ura-dora entries list exactly the three
      counted fields, the ura-dora one under riichi. */
  lemma CountNamesFields(names: seq<Entry>, ret: nat)
    ensures CountNames(names, ret) ==
      AddIf(AddIf(AddIf(names, Field(ret, 26, 5) != 0, Counted("宝牌", Field(ret, 26, 5))),
                  Field(ret, 36, 2) != 0, Counted("赤宝牌", Field(ret, 36, 2))),
            InRiichi(ret), Counted("里宝牌", Field(ret, 31, 5)))
  {
    MasksAreFields();
    MaskedRead(ret, DORA_SHIFT, 5, DORA_MASK);
    MaskedRead(ret, URA_DORA_SHIFT, 5, URA_DORA_MASK);
    MaskedRead(ret, AKA_DORA_SHIFT, 2, AKA_DORA_MASK);
  }

  /** The dragon entry lists the two-bit count at bit 22. */
  lemma SangenRead(ret: nat)
    ensures And(ret, SANGENHAI_MASK) / Pow2(SANGENHAI_SHIFT) == Field(ret, 22, 2)
  {
    MasksAreFields();
    MaskedRead(ret, SANGENHAI_SHIFT, 2, SANGENHAI_MASK);
  }

  /** Riichi is read from bits 38 and 39. */
  lemma InRiichiBits(ret: nat)
    ensures InRiichi(ret) <==> Field(ret, 38, 1) == 1 || Field(ret, 39, 1) == 1
  {
    FlagShifts();
    HasBit(ret, 38, RIICHI);
    HasBit(ret, 39, DOUBLE_RIICHI);
  }

  /** `parse_yaku_ret(ret, tsumo)` */
  function YakuNames(ret: YakuRet, tsumo: bool): seq<Entry>
  {
    match ret
    case YakumanIds(ids) => YakumanNames(ids)
    case Flags(bits) => FlagNames(bits, tsumo)
  }

  /** `parse_yaku_ret`: the list is built by appends, one test at a time. */
  method ParseYakuRet(ret: YakuRet, tsumo: bool) returns (names: seq<Entry>)
    ensures names == YakuNames(ret, tsumo)
  {
    names := [];
    if ret.YakumanIds? {
      var ids := ret.ids;
      for i := 0 to |ids|
        invariant names == YakumanNames(ids[..i])
      {
        assert ids[..i + 1][..i] == ids[..i];
        var name := YakumanName(ids[i]);
        if name.Some? {
          names := names + [Named(name.value)];
        }
      }
      assert ids[..|ids|] == ids;
      return;
    }
    var r := ret.bits;
    names := AppendFirst(r, names);
    names := AppendSecond(r, tsumo, names);
    names := AppendThird(r, names);
    names := AppendCounts(r, names);
  }

  method AppendFirst(r: int, names0: seq<Entry>) returns (names: seq<Entry>)
    ensures names == FirstNames(names0, r)
  {
    names := names0;
    if And(r, RIICHI) != 0 { names := names + [Named("立直")]; }
    if And(r, DOUBLE_RIICHI) != 0 { names := names + [Named("两立直")]; }
    if And(r, IPPATSU) != 0 { names := names + [Named("一发")]; }
    if And(r, TSUMO) != 0 { names := names + [Named("门清自摸")]; }
    if And(r, PINFU) != 0 { names := names + [Named("平和")]; }
    assert names == HandNames(names0, r);
    ghost var mid := names;
    if And(r, MENFONHAI) != 0 { names := names + [Named("门风")]; }
    if And(r, BAKAZEHAI) != 0 { names := names + [Named("场风")]; }
    var sangen := And(r, SANGENHAI_MASK) / Pow2(SANGENHAI_SHIFT);
    if sangen != 0 { names := names + [Counted("三元牌の役牌", sangen)]; }
    if And(r, TANYAO) != 0 { names := names + [Named("断幺")]; }
    if And(r, IPEKO) != 0 { names := names + [Named("一杯口")]; }
    assert names == RiichiNames(mid, r);
  }

  method AppendSecond(r: int, tsumo: bool, names0: seq<Entry>) returns (names: seq<Entry>)
    ensures names == SecondNames(names0, r, tsumo)
  {
    names := names0;
    if And(r, ROB_KAN) != 0 {
      names := names + [Named("抢杠")];
    } else if And(r, RINSHAN) != 0 {
      names := names + [Named("岭上开花")];
    } else if And(r, HAITEI) != 0 {
      if tsumo {
        names := names + [Named("海底摸月")];
      } else {
        names := names + [Named("河底捞鱼")];
      }
    }
    if And(r, SANSYOKUDOKO) != 0 { names := names + [Named("三色同刻")]; }
    if And(r, SANKANTSU) != 0 { names := names + [Named("三杠子")]; }
    if And(r, TOITOI) != 0 { names := names + [Named("对对和")]; }
    assert names == SpecialNames(names0, r, tsumo);
    ghost var mid := names;
    if And(r, SANANKO) != 0 { names := names + [Named("三暗刻")]; }
    if And(r, SYOSANGEN) != 0 { names := names + [Named("小三元")]; }
    if And(r, HONROTO) != 0 { names := names + [Named("混老头")]; }
    if And(r, CHITOITSU) != 0 { names := names + [Named("七对子")]; }
    if And(r, HONCHANTA) != 0 { names := names + [Named("混全带幺九")]; }
    assert names == TripletNames(mid, r);
  }

  method AppendThird(r: int, names0: seq<Entry>) returns (names: seq<Entry>)
    ensures names == ThirdNames(names0, r)
  {
    names := names0;
    if And(r, IKKITSUKAN) != 0 {
      names := names + [Named("一气通贯")];
    } else if And(r, SANSYOKUDOJUN) != 0 {
      names := names + [Named("三色同顺")];
    }
    if And(r, RYANPEKO) != 0 { names := names + [Named("两杯口")]; }
    if And(r, JUNCHANTA) != 0 { names := names + [Named("纯全带幺九")]; }
    if And(r, HONITSU) != 0 {
      names := names + [Named("混一色")];
    } else if And(r, CHINITSU) != 0 {
      names := names + [Named("清一色")];
    }
  }

  method AppendCounts(r: int, names0: seq<Entry>) returns (names: seq<Entry>)
    ensures names == CountNames(names0, r)
  {
    names := names0;
    var riichi := And(r, RIICHI) != 0 || And(r, DOUBLE_RIICHI) != 0;
    var dora := And(r, DORA_MASK) / Pow2(DORA_SHIFT);
    if dora != 0 { names := names + [Counted("宝牌", dora)]; }
    var aka := And(r, AKA_DORA_MASK) / Pow2(AKA_DORA_SHIFT);
    if aka != 0 { names := names + [Counted("赤宝牌", aka)]; }
    if riichi {
      var ura := And(r, URA_DORA_MASK) / Pow2(URA_DORA_SHIFT);
      names := names + [Counted("里宝牌", ura)];
    }
  }
}
