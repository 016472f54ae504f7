/** The fu and han of one decomposition of a winning hand, as the body of
    the loop in `Yaku.yaku` (`mahjong/yaku.py`) computes them, the choice
    between decompositions and the limit table.

    Each step of the loop body is a function over the values it reads, and
    the loops inside the body are methods proved against those functions. */
module YakuScore {
  import opened Common
  import opened Bits
  import opened HexList
  import opened PatternKey
  import opened CheckAgari
  import opened YakuRules

  // ---------------------------------------------------------------------
  // The meld list of one decomposition

  /** What a decomposition is scored against: the held kinds in increasing
      order (`tiles_pos`), the kind counts of the closed hand, the calls by
      type, `kui`, the winning kind, the round and seat winds, and whether
      the hand was won by self-draw. */
  datatype Setting = Setting(tilesPos: seq<int>, counts: seq<int>, melds: Melds, kui: int,
                             agarihai: int, bahai: int, menfon: int, tsumo: bool)

  /** `info['m{i}']` for i in 1..4. */
  function M(info: AgariInfo, i: int): int
  {
    if i == 1 then info.m1 else if i == 2 then info.m2 else if i == 3 then info.m3 else info.m4
  }

  /** The payload's pair and meld positions index `tiles_pos`, and it
      names at most four melds. */
  predicate Positioned(tp: seq<int>, info: AgariInfo)
  {
    0 <= info.numKotsu && 0 <= info.numShuntsu && info.numKotsu + info.numShuntsu <= 4 &&
    0 <= info.atama < |tp| &&
    forall i :: 1 <= i <= info.numKotsu + info.numShuntsu ==> 0 <= M(info, i) < |tp|
  }

  /** `tiles_pos[info['m{from + 1}']]`, ..., `tiles_pos[info['m{from + n}']]` */
  function Picks(tp: seq<int>, info: AgariInfo, from: nat, n: nat): (r: seq<int>)
    requires Positioned(tp, info) && from + n <= info.numKotsu + info.numShuntsu
    ensures |r| == n
  {
    if n == 0 then [] else Picks(tp, info, from, n - 1) + [tp[M(info, from + n)]]
  }

  /** `mentsu` as the loop body builds it: the pair, the concealed
      triplets, the called pons, concealed kans and open kans, the
      concealed sequences, the called chis. */
  function Mentsu(s: Setting, info: AgariInfo): seq<int>
    requires Positioned(s.tilesPos, info)
  {
    [s.tilesPos[info.atama]] + Picks(s.tilesPos, info, 0, info.numKotsu)
      + s.melds.pon + s.melds.ankan + s.melds.minkan
      + Picks(s.tilesPos, info, info.numKotsu, info.numShuntsu) + s.melds.chi
  }

  /** The meld list with the number of melds of each sort. */
  datatype Hand = Hand(mentsu: seq<int>, anko: int, pon: int, ankan: int, minkan: int, shuntsu: int, chi: int)

  /** `num_kotsu`: triplets and kans. */
  function Kotsu(h: Hand): int { h.anko + h.pon + h.ankan + h.minkan }

  /** `num_shuntsu + num_chi`: sequences. */
  function Seqs(h: Hand): int { h.shuntsu + h.chi }

  /** The counts add up to the list, and every `mentsu[4 - i]` the
      sequence loops read is in the list. */
  predicate Indexable(h: Hand)
  {
    0 <= h.anko && 0 <= h.pon && 0 <= h.ankan && 0 <= h.minkan && 0 <= h.shuntsu && 0 <= h.chi &&
    |h.mentsu| == 1 + Kotsu(h) + Seqs(h) &&
    (Seqs(h) == 0 || (|h.mentsu| >= 5 && Seqs(h) <= 5))
  }

  function InitialHand(s: Setting, info: AgariInfo): Hand
    requires Positioned(s.tilesPos, info)
  {
    Hand(Mentsu(s, info), info.numKotsu, |s.melds.pon|, |s.melds.ankan|, |s.melds.minkan|,
         info.numShuntsu, |s.melds.chi|)
  }

  /** The inputs `yaku` indexes without failing: positions inside
      `tiles_pos`, sequence reads inside the meld list, tile kinds. */
  predicate Scorable(s: Setting, info: AgariInfo)
  {
    Positioned(s.tilesPos, info) && Indexable(InitialHand(s, info)) &&
    AllKinds(s.tilesPos) && AllKinds(s.melds.pon) && AllKinds(s.melds.chi) &&
    AllKinds(s.melds.ankan) && AllKinds(s.melds.minkan)
  }

  /** The two loops that build `mentsu`. */
  method BuildMentsu(s: Setting, info: AgariInfo) returns (mentsu: seq<int>)
    requires Positioned(s.tilesPos, info)
    ensures mentsu == Mentsu(s, info)
  {
    var tp := s.tilesPos;
    mentsu := [tp[info.atama]];
    for i := 0 to info.numKotsu
      invariant mentsu == [tp[info.atama]] + Picks(tp, info, 0, i)
    {
      mentsu := mentsu + [tp[M(info, i + 1)]];
    }
    mentsu := mentsu + s.melds.pon;
    mentsu := mentsu + s.melds.ankan;
    mentsu := mentsu + s.melds.minkan;
    ghost var front := mentsu;
    for i := 0 to info.numShuntsu
      invariant mentsu == front + Picks(tp, info, info.numKotsu, i)
    {
      mentsu := mentsu + [tp[M(info, info.numKotsu + i + 1)]];
    }
    mentsu := mentsu + s.melds.chi;
  }

  lemma AllKindsAppend(a: seq<int>, b: seq<int>)
    requires AllKinds(a) && AllKinds(b)
    ensures AllKinds(a + b)
  {
    forall q | 0 <= q < |a + b|
      ensures 0 <= (a + b)[q] < 34
    {
      if q >= |a| {
        assert (a + b)[q] == b[q - |a|];
      }
    }
  }

  lemma {:induction false} PicksKinds(tp: seq<int>, info: AgariInfo, from: nat, n: nat)
    requires Positioned(tp, info) && from + n <= info.numKotsu + info.numShuntsu && AllKinds(tp)
    ensures AllKinds(Picks(tp, info, from, n))
  {
    if n > 0 {
      PicksKinds(tp, info, from, n - 1);
      AllKindsAppend(Picks(tp, info, from, n - 1), [tp[M(info, from + n)]]);
    }
  }

  /** Every entry of the meld list is a tile kind. */
  lemma MentsuKinds(s: Setting, info: AgariInfo)
    requires Scorable(s, info)
    ensures AllKinds(Mentsu(s, info))
  {
    var tp := s.tilesPos;
    PicksKinds(tp, info, 0, info.numKotsu);
    PicksKinds(tp, info, info.numKotsu, info.numShuntsu);
    var a := [tp[info.atama]] + Picks(tp, info, 0, info.numKotsu);
    AllKindsAppend([tp[info.atama]], Picks(tp, info, 0, info.numKotsu));
    AllKindsAppend(a, s.melds.pon);
    AllKindsAppend(a + s.melds.pon, s.melds.ankan);
    AllKindsAppend(a + s.melds.pon + s.melds.ankan, s.melds.minkan);
    var b := a + s.melds.pon + s.melds.ankan + s.melds.minkan;
    AllKindsAppend(b, Picks(tp, info, info.numKotsu, info.numShuntsu));
    AllKindsAppend(b + Picks(tp, info, info.numKotsu, info.numShuntsu), s.melds.chi);
  }

  // ---------------------------------------------------------------------
  // The wait (`machi`)

  /** The bits of `machi`: 0x10 single wait, 0x2 on a pair of a triplet,
      0x1 two-sided, 0x8 edge, 0x4 closed. Each is set by `|=`, so the
      flag word is the sum of the set flags. */
  datatype Waits = Waits(tanki: bool, shanpon: bool, ryanmen: bool, penchan: bool, kanchan: bool)

  function MachiValue(w: Waits): int
  {
    (if w.tanki then 0x10 else 0) + (if w.shanpon then 0x2 else 0) + (if w.ryanmen then 0x1 else 0) +
    (if w.penchan then 0x8 else 0) + (if w.kanchan then 0x4 else 0)
  }

  function Join(a: Waits, b: Waits): Waits
  {
    Waits(a.tanki || b.tanki, a.shanpon || b.shanpon, a.ryanmen || b.ryanmen,
          a.penchan || b.penchan, a.kanchan || b.kanchan)
  }

  const NoWait := Waits(false, false, false, false, false)

  /** The wait one concealed sequence starting at kind p gives on the
      winning kind a. */
  function SeqWait(p: int, a: int): Waits
  {
    if p == a then (if a % 9 != 6 then NoWait.(ryanmen := true) else NoWait.(penchan := true))
    else if p + 2 == a then (if a % 9 != 2 then NoWait.(ryanmen := true) else NoWait.(penchan := true))
    else if p + 1 == a then NoWait.(kanchan := true)
    else NoWait
  }

  /** The waits of the sequence loop after m rounds: round j reads
      `mentsu[4 - j]`, as written. */
  function SeqWaits(mentsu: seq<int>, m: nat, a: int): (w: Waits)
    requires m <= 5 && (m == 0 || |mentsu| >= 5)
    ensures !w.tanki && !w.shanpon
  {
    if m == 0 then NoWait else Join(SeqWaits(mentsu, m - 1, a), SeqWait(mentsu[4 - (m - 1)], a))
  }

  /** `ron_pos`: the first concealed triplet, from position `from`, of the
      winning kind (its index in `mentsu`), or 0. */
  function RonPos(mentsu: seq<int>, from: nat, anko: nat, a: int): (r: nat)
    requires anko < |mentsu|
    ensures r == 0 || (from < r <= anko && mentsu[r] == a)
    ensures r == 0 <==> forall i :: from < i <= anko ==> mentsu[i] != a
    ensures forall i :: from < i < r ==> mentsu[i] != a
    decreases anko - from
  {
    if from >= anko then 0 else if mentsu[from + 1] == a then from + 1 else RonPos(mentsu, from + 1, anko, a)
  }

  /** The waits and `ron_pos` of a hand won on kind a. */
  datatype Machi = Machi(waits: Waits, ronPos: nat)

  function MachiOf(h: Hand, a: int): (r: Machi)
    requires Indexable(h)
    ensures r.waits.shanpon <==> r.ronPos > 0
    ensures r.ronPos <= h.anko
  {
    var ron := RonPos(h.mentsu, 0, h.anko, a);
    var w := Join(NoWait.(tanki := h.mentsu[0] == a, shanpon := ron > 0), SeqWaits(h.mentsu, h.shuntsu, a));
    Machi(w, ron)
  }

  /** The scan for a concealed triplet of the winning kind, stopped at the
      first one (`break`). */
  method FindRonPos(mentsu: seq<int>, anko: nat, a: int) returns (shanpon: bool, ron: nat)
    requires anko < |mentsu|
    ensures ron == RonPos(mentsu, 0, anko, a) && (shanpon <==> ron > 0)
  {
    shanpon, ron := false, 0;
    var m := 0;
    while m < anko
      invariant 0 <= m <= anko
      invariant RonPos(mentsu, 0, anko, a) == RonPos(mentsu, m, anko, a)
    {
      if mentsu[m + 1] == a {
        shanpon, ron := true, m + 1;
        break;
      }
      m := m + 1;
    }
  }

  /** The sequence loop of the wait. */
  method ScanSeqWaits(mentsu: seq<int>, shuntsu: nat, a: int) returns (w: Waits)
    requires shuntsu <= 5 && (shuntsu == 0 || |mentsu| >= 5)
    ensures w == SeqWaits(mentsu, shuntsu, a)
  {
    w := NoWait;
    for m := 0 to shuntsu
      invariant w == SeqWaits(mentsu, m, a)
    {
      var p := mentsu[4 - m];
      if p == a {
        if a % 9 != 6 {
          w := w.(ryanmen := true);
        } else {
          w := w.(penchan := true);
        }
      } else if p + 2 == a {
        if a % 9 != 2 {
          w := w.(ryanmen := true);
        } else {
          w := w.(penchan := true);
        }
      } else if p + 1 == a {
        w := w.(kanchan := true);
      }
    }
  }

  /** Reading the flags back from the number: `machi & 0x10` is the single
      wait and `machi & 0x1` the two-sided one. */
  lemma MachiBits(w: Waits)
    ensures Has(MachiValue(w), 0x10) <==> w.tanki
    ensures Has(MachiValue(w), 0x1) <==> w.ryanmen
  {
    TankiBit(w);
    RyanmenBit(w);
  }

  lemma TankiBit(w: Waits)
    ensures Has(MachiValue(w), 0x10) <==> w.tanki
  {
    var v := MachiValue(w);
    var t := if w.tanki then 1 else 0;
    AndMaskIsField(v, 4, 1);
    assert Pow2(1) == 2 && Pow2(4) == 16;
    assert Mask(4, 1) == 0x10;
    DivModUnique(v, 16, t, v - 16 * t);
    DivModUnique(t, 2, 0, t);
  }

  lemma RyanmenBit(w: Waits)
    ensures Has(MachiValue(w), 0x1) <==> w.ryanmen
  {
    var v := MachiValue(w);
    var r := if w.ryanmen then 1 else 0;
    AndMaskIsField(v, 0, 1);
    assert Pow2(1) == 2 && Pow2(0) == 1;
    assert Mask(0, 1) == 1;
    DivModUnique(v, 2, (v - r) / 2, r);
  }

  /** A ron won on a pair that completed a triplet makes that triplet an
      open one: it is swapped to the last concealed-triplet slot, which
      then counts as a pon. */
  function RonSwap(h: Hand, mc: Machi, tsumo: bool): (r: Hand)
    requires Indexable(h) && mc.ronPos <= h.anko && (mc.waits.shanpon <==> mc.ronPos > 0)
    ensures Indexable(r) && Kotsu(r) == Kotsu(h) && Seqs(r) == Seqs(h) && r.shuntsu == h.shuntsu
    ensures multiset(r.mentsu) == multiset(h.mentsu)
  {
    if !tsumo && MachiValue(mc.waits) == 2 then
      var m := h.mentsu;
      var ron := mc.ronPos;
      h.(mentsu := m[ron := m[h.anko]][h.anko := m[ron]], anko := h.anko - 1, pon := h.pon + 1)
    else h
  }

  // ---------------------------------------------------------------------
  // Tallies of the pair and the triplets, and the fu

  /** Terminal-or-honor pieces, honor pieces, and dragon triplets among the
      pair and the triplets (`roto`, `ji`, `sangen`). */
  datatype Tally = Tally(roto: int, ji: int, sangen: int)

  /** One round of the tally loop, at position i of the meld list. */
  function TallyStep(t: Tally, i: int, p: int): Tally
  {
    if p >= 27 then t.(ji := t.ji + 1, sangen := t.sangen + (if i > 0 && 31 <= p <= 33 then 1 else 0))
    else if p % 9 == 0 || p % 9 == 8 then t.(roto := t.roto + 1)
    else t
  }

  /** The tally over the first n entries of the meld list. */
  function TallyUpTo(mentsu: seq<int>, n: nat): (t: Tally)
    requires n <= |mentsu|
    ensures 0 <= t.sangen <= t.ji && 0 <= t.roto && t.roto + t.ji <= n
  {
    if n == 0 then Tally(0, 0, 0) else TallyStep(TallyUpTo(mentsu, n - 1), n - 1, mentsu[n - 1])
  }

  method CountTally(mentsu: seq<int>, n: nat) returns (t: Tally)
    requires n <= |mentsu|
    ensures t == TallyUpTo(mentsu, n)
  {
    var roto, ji, sangen := 0, 0, 0;
    for i := 0 to n
      invariant Tally(roto, ji, sangen) == TallyUpTo(mentsu, i)
    {
      var p := mentsu[i];
      if p >= 27 {
        ji := ji + 1;
        if i > 0 && 31 <= p <= 33 {
          sangen := sangen + 1;
        }
      } else if p % 9 == 0 || p % 9 == 8 {
        roto := roto + 1;
      }
    }
    t := Tally(roto, ji, sangen);
  }

  /** `futei`: 20, plus 2 for self-draw, or plus 10 for a closed ron. */
  function Futei(tsumo: bool, kui: int): int
  {
    if tsumo then 22 else if kui == 0 then 30 else 20
  }

  /** The fu of a pair: 2 for dragons, else 2 for the round wind; 2 more
      for the seat wind. */
  function PairFu(p: int, bahai: int, menfon: int): int
  {
    (if p >= 31 then 2 else if p == bahai then 2 else 0) + (if p == menfon then 2 else 0)
  }

  /** A terminal or honor kind. */
  predicate Yaochu(p: int)
  {
    p >= 27 || p % 9 == 0 || p % 9 == 8
  }

  /** The fu of one meld worth `simple` when its kind is simple and twice
      that when it is a terminal or honor. */
  function MeldFu(p: int, simple: int): int
  {
    if Yaochu(p) then 2 * simple else simple
  }

  /** The fu loop over `range(lo, hi)`, reading `mentsu[i + 1]`. */
  function RangeFu(mentsu: seq<int>, lo: nat, hi: nat, simple: int): int
    requires lo <= hi < |mentsu|
    decreases hi - lo
  {
    if lo == hi then 0 else RangeFu(mentsu, lo, hi - 1, simple) + MeldFu(mentsu[hi], simple)
  }

  method AddRangeFu(mentsu: seq<int>, lo: nat, hi: nat, simple: int, fu0: int) returns (fu: int)
    requires lo <= hi < |mentsu|
    ensures fu == fu0 + RangeFu(mentsu, lo, hi, simple)
  {
    fu := fu0;
    for i := lo to hi
      invariant fu == fu0 + RangeFu(mentsu, lo, i, simple)
    {
      var p := mentsu[i + 1];
      if p >= 27 || p % 9 == 0 || p % 9 == 8 {
        fu := fu + 2 * simple;
      } else {
        fu := fu + simple;
      }
    }
  }

  /** The fu of all triplets and kans: concealed triplet 4, open triplet
      2, concealed kan 16, open kan 8, doubled for terminals and honors. */
  function MeldsFu(h: Hand): int
    requires Indexable(h)
  {
    var m := h.mentsu;
    var a, b, c := h.anko, h.anko + h.pon, h.anko + h.pon + h.ankan;
    RangeFu(m, 0, a, 4) + RangeFu(m, a, b, 2) + RangeFu(m, b, c, 16) + RangeFu(m, c, Kotsu(h), 8)
  }

  /** Each meld's fu is its simple value or twice it, so a range of n
      melds is worth between n and 2n simple values. */
  lemma {:induction false} RangeFuBounds(mentsu: seq<int>, lo: nat, hi: nat, simple: nat)
    requires lo <= hi < |mentsu|
    ensures simple * (hi - lo) <= RangeFu(mentsu, lo, hi, simple) <= 2 * simple * (hi - lo)
    ensures RangeFu(mentsu, lo, hi, simple) % 2 == 0 <== simple % 2 == 0
    decreases hi - lo
  {
    if lo < hi {
      RangeFuBounds(mentsu, lo, hi - 1, simple);
      var r0, x := RangeFu(mentsu, lo, hi - 1, simple), MeldFu(mentsu[hi], simple);
      assert RangeFu(mentsu, lo, hi, simple) == r0 + x;
      FuStep(simple, hi - 1 - lo, r0, x);
    }
  }

  /** One more meld worth its simple value or twice it. */
  lemma FuStep(simple: nat, n: nat, r0: int, x: int)
    requires simple * n <= r0 <= 2 * simple * n && (x == simple || x == 2 * simple)
    requires simple % 2 == 0 ==> r0 % 2 == 0
    ensures simple * (n + 1) <= r0 + x <= 2 * simple * (n + 1)
    ensures simple % 2 == 0 ==> (r0 + x) % 2 == 0
  {
    assert simple * (n + 1) == simple * n + simple;
    assert 2 * simple * (n + 1) == 2 * simple * n + 2 * simple;
  }

  /** The fu before the yaku: base, wait, pair and melds. */
  function BaseFu(s: Setting, h: Hand, w: Waits): int
    requires Indexable(h)
  {
    Futei(s.tsumo, s.kui) + (if MachiValue(w) >= 4 then 2 else 0) + PairFu(h.mentsu[0], s.bahai, s.menfon) + MeldsFu(h)
  }

  // ---------------------------------------------------------------------
  // The loops over melds that the yaku tests read

  /** Wind triplets among the triplets (`fonhai`). */
  function Fonhai(mentsu: seq<int>, n: nat): nat
    requires n < |mentsu|
  {
    if n == 0 then 0 else Fonhai(mentsu, n - 1) + (if 27 <= mentsu[n] <= 30 then 1 else 0)
  }

  method CountFonhai(mentsu: seq<int>, n: nat) returns (fonhai: nat)
    requires n < |mentsu|
    ensures fonhai == Fonhai(mentsu, n)
  {
    fonhai := 0;
    for i := 0 to n
      invariant fonhai == Fonhai(mentsu, i)
    {
      fonhai := fonhai + (if 27 <= mentsu[i + 1] <= 30 then 1 else 0);
    }
  }

  /** `pre` of the triple-triplets loop: the number in suit of each suited
      triplet, in order. */
  function DokoPre(mentsu: seq<int>, n: nat): seq<int>
    requires n < |mentsu|
  {
    if n == 0 then [] else DokoPre(mentsu, n - 1) + (if mentsu[n] < 27 then [mentsu[n] % 9] else [])
  }

  /** `num_doko`: for each suited triplet, the earlier suited triplets
      with the same number. */
  function Doko(mentsu: seq<int>, n: nat): nat
    requires n < |mentsu|
  {
    if n == 0 then 0
    else Doko(mentsu, n - 1) + (if mentsu[n] < 27 then Occurrences(DokoPre(mentsu, n - 1), mentsu[n] % 9) else 0)
  }

  method CountDoko(mentsu: seq<int>, n: nat) returns (num: nat)
    requires n < |mentsu|
    ensures num == Doko(mentsu, n)
  {
    var pre: seq<int> := [];
    num := 0;
    for i := 0 to n
      invariant pre == DokoPre(mentsu, i) && num == Doko(mentsu, i)
    {
      var p := mentsu[i + 1];
      if p < 27 {
        for j := 0 to |pre|
          invariant num == Doko(mentsu, i) + Occurrences(pre[..j], p % 9)
        {
          assert pre[..j + 1][..j] == pre[..j];
          if pre[j] == p % 9 {
            num := num + 1;
          }
        }
        assert pre[..|pre|] == pre;
        pre := pre + [p % 9];
      }
    }
  }

  /** `ikki`: bit p // 3 for each sequence whose kind p is a multiple of
      3, over `mentsu[4 - i]`. */
  function IkkiBits(mentsu: seq<int>, n: nat): int
    requires n <= 5 && (n == 0 || |mentsu| >= 5) && AllKinds(mentsu)
  {
    if n == 0 then 0
    else
      var b := IkkiBits(mentsu, n - 1);
      var p := mentsu[4 - (n - 1)];
      if p % 3 == 0 then Or(b, Shl(1, p / 3)) else b
  }

  method CollectIkki(mentsu: seq<int>, n: nat) returns (ikki: int)
    requires n <= 5 && (n == 0 || |mentsu| >= 5) && AllKinds(mentsu)
    ensures ikki == IkkiBits(mentsu, n)
  {
    ikki := 0;
    for i := 0 to n
      invariant ikki == IkkiBits(mentsu, i)
    {
      var p := mentsu[4 - i];
      if p % 3 == 0 {
        ikki := Or(ikki, Shl(1, p / 3));
      }
    }
  }

  /** 1-2-3, 4-5-6 and 7-8-9 of one suit. */
  predicate IkkiShape(ikki: int)
  {
    And(ikki, 0x7) == 7 || And(ikki, 0x38) == 0x38 || And(ikki, 0x1c0) == 0x1c0
  }

  /** The earlier suited sequences with the same number in another suit. */
  function MatchCount(pre: seq<int>, p: int): nat
  {
    if pre == [] then 0
    else
      var c := pre[|pre| - 1];
      MatchCount(pre[..|pre| - 1], p) + (if c % 9 == p % 9 && c != p then 1 else 0)
  }

  function DojunPre(mentsu: seq<int>, n: nat): seq<int>
    requires n <= 5 && (n == 0 || |mentsu| >= 5)
  {
    if n == 0 then [] else
      var p := mentsu[4 - (n - 1)];
      DojunPre(mentsu, n - 1) + (if p < 27 then [p] else [])
  }

  /** `num_dojun` */
  function Dojun(mentsu: seq<int>, n: nat): nat
    requires n <= 5 && (n == 0 || |mentsu| >= 5)
  {
    if n == 0 then 0 else
      var p := mentsu[4 - (n - 1)];
      Dojun(mentsu, n - 1) + (if p < 27 then MatchCount(DojunPre(mentsu, n - 1), p) else 0)
  }

  lemma MatchStep(pre: seq<int>, j: int, p: int)
    requires 0 <= j < |pre|
    ensures MatchCount(pre[..j + 1], p) ==
      MatchCount(pre[..j], p) + (if pre[j] % 9 == p % 9 && pre[j] != p then 1 else 0)
  {
    assert pre[..j + 1][..j] == pre[..j];
  }

  method CountDojun(mentsu: seq<int>, n: nat) returns (num: nat)
    requires n <= 5 && (n == 0 || |mentsu| >= 5)
    ensures num == Dojun(mentsu, n)
  {
    var pre: seq<int> := [];
    num := 0;
    for i := 0 to n
      invariant pre == DojunPre(mentsu, i) && num == Dojun(mentsu, i)
    {
      var p := mentsu[4 - i];
      DojunUnfold(mentsu, i, p);
      if p < 27 {
        var matches := CountMatches(pre, p);
        num := num + matches;
        pre := pre + [p];
      }
    }
  }

  lemma DojunUnfold(mentsu: seq<int>, i: nat, p: int)
    requires i < 5 && |mentsu| >= 5 && p == mentsu[4 - i]
    ensures DojunPre(mentsu, i + 1) == DojunPre(mentsu, i) + (if p < 27 then [p] else [])
    ensures Dojun(mentsu, i + 1) == Dojun(mentsu, i) + (if p < 27 then MatchCount(DojunPre(mentsu, i), p) else 0)
  {
  }

  /** The inner loop of `num_dojun`: the earlier suited sequences with p's
      number in another suit. */
  method CountMatches(pre: seq<int>, p: int) returns (num: nat)
    ensures num == MatchCount(pre, p)
  {
    num := 0;
    for j := 0 to |pre|
      invariant num == MatchCount(pre[..j], p)
    {
      MatchStep(pre, j, p);
      var c := pre[j];
      if c % 9 == p % 9 && c != p {
        num := num + 1;
      }
    }
    assert pre[..|pre|] == pre;
  }

  /** The sequences that hold a terminal: lowest number 1 or 7. */
  function ChantaSeqs(mentsu: seq<int>, n: nat): nat
    requires n <= 5 && (n == 0 || |mentsu| >= 5)
  {
    if n == 0 then 0 else
      var p := mentsu[4 - (n - 1)];
      ChantaSeqs(mentsu, n - 1) + (if p % 9 == 0 || p % 9 == 6 then 1 else 0)
  }

  method CountChantaSeqs(mentsu: seq<int>, n: nat) returns (k: nat)
    requires n <= 5 && (n == 0 || |mentsu| >= 5)
    ensures k == ChantaSeqs(mentsu, n)
  {
    k := 0;
    for i := 0 to n
      invariant k == ChantaSeqs(mentsu, i)
    {
      if mentsu[4 - i] % 9 == 0 || mentsu[4 - i] % 9 == 6 {
        k := k + 1;
      }
    }
  }

  /** Melds of characters, circles and bamboo. */
  datatype Suits = Suits(man: nat, pin: nat, sou: nat)

  function SuitsOf(mentsu: seq<int>): Suits
  {
    if mentsu == [] then Suits(0, 0, 0)
    else
      var c := SuitsOf(mentsu[..|mentsu| - 1]);
      var p := mentsu[|mentsu| - 1];
      if 0 <= p <= 8 then c.(man := c.man + 1)
      else if 9 <= p <= 17 then c.(pin := c.pin + 1)
      else if 18 <= p <= 26 then c.(sou := c.sou + 1)
      else c
  }

  method CountSuits(mentsu: seq<int>) returns (c: Suits)
    ensures c == SuitsOf(mentsu)
  {
    var man, pin, sou := 0, 0, 0;
    for i := 0 to |mentsu|
      invariant Suits(man, pin, sou) == SuitsOf(mentsu[..i])
    {
      assert mentsu[..i + 1][..i] == mentsu[..i];
      var p := mentsu[i];
      if 0 <= p <= 8 {
        man := man + 1;
      } else if 9 <= p <= 17 {
        pin := pin + 1;
      } else if 18 <= p <= 26 {
        sou := sou + 1;
      }
    }
    assert mentsu[..|mentsu|] == mentsu;
    c := Suits(man, pin, sou);
  }

  /** The kinds of the all-green hand: bamboo 2, 3, 4, 6, 8 and the green
      dragon. */
  predicate GreenKind(p: int)
  {
    p in [32, 19, 20, 21, 23, 25]
  }

  /** Every sequence is bamboo 2-3-4. */
  predicate GreenSeqs(mentsu: seq<int>, n: nat)
    requires n <= 5 && (n == 0 || |mentsu| >= 5)
  {
    n == 0 || (GreenSeqs(mentsu, n - 1) && mentsu[4 - (n - 1)] == 19)
  }

  /** The two loops of the all-green test, each stopped at the first
      failure. */
  method IsGreen(mentsu: seq<int>, n: nat) returns (g: bool)
    requires n <= 5 && (n == 0 || |mentsu| >= 5)
    ensures g <==> (forall j :: 0 <= j < |mentsu| ==> GreenKind(mentsu[j])) && GreenSeqs(mentsu, n)
  {
    g := true;
    var i := 0;
    while i < |mentsu|
      invariant 0 <= i <= |mentsu|
      invariant forall j :: 0 <= j < i ==> GreenKind(mentsu[j])
    {
      if !GreenKind(mentsu[i]) {
        g := false;
        break;
      }
      i := i + 1;
    }
    if g {
      var m := 0;
      while m < n
        invariant 0 <= m <= n && GreenSeqs(mentsu, m)
      {
        if mentsu[4 - m] != 19 {
          g := false;
          GreenSeqsPrefix(mentsu, m + 1, n);
          break;
        }
        m := m + 1;
      }
    }
  }

  lemma {:induction false} GreenSeqsPrefix(mentsu: seq<int>, m: nat, n: nat)
    requires m <= n <= 5 && (n == 0 || |mentsu| >= 5)
    ensures GreenSeqs(mentsu, n) ==> GreenSeqs(mentsu, m)
    decreases n - m
  {
    if m < n {
      GreenSeqsPrefix(mentsu, m, n - 1);
    }
  }

  /** What the loops over the melds found. */
  datatype Scans = Scans(fonhai: nat, doko: nat, ikki: int, dojun: nat, chanta: nat, suits: Suits, green: bool)

  function ScansOf(h: Hand): Scans
    requires Indexable(h) && AllKinds(h.mentsu)
  {
    var m, k, q := h.mentsu, Kotsu(h), Seqs(h);
    Scans(Fonhai(m, k), Doko(m, k), IkkiBits(m, q), Dojun(m, q), ChantaSeqs(m, q), SuitsOf(m),
          (forall j :: 0 <= j < |m| ==> GreenKind(m[j])) && GreenSeqs(m, q))
  }

  /** The loops over the melds. They change nothing, so running each of
      them whether or not its branch of `yaku` is taken gives the same
      values. */
  method Scan(h: Hand) returns (sc: Scans)
    requires Indexable(h) && AllKinds(h.mentsu)
    ensures sc == ScansOf(h)
  {
    var m, k, q := h.mentsu, Kotsu(h), Seqs(h);
    var fonhai := CountFonhai(m, k);
    var doko := CountDoko(m, k);
    var ikki := CollectIkki(m, q);
    var dojun := CountDojun(m, q);
    var chanta := CountChantaSeqs(m, q);
    var suits := CountSuits(m);
    var green := IsGreen(m, q);
    sc := Scans(fonhai, doko, ikki, dojun, chanta, suits, green);
  }

  // ---------------------------------------------------------------------
  // The yaku of one decomposition

  /** The running han, fu, flag word and yakuman list of one
      decomposition. */
  datatype Acc = Acc(han: int, fu: int, ret: int, yakuman: seq<int>)

  /** `ret |= flag; han += h` */
  function AddYaku(a: Acc, flag: int, h: int): Acc
  {
    a.(han := a.han + h, ret := Or(a.ret, flag))
  }

  /** `yakuman.append(id)`; `han_yakuman` grows by the yakuman's value. */
  function AddYakuman(a: Acc, id: int): Acc
  {
    a.(yakuman := a.yakuman + [id])
  }

  /** The four-triplet block: four kans, four concealed triplets (single
      wait or not), all honors or all terminals, all triplets, all
      terminals and honors. */
  function FourKotsu(h: Hand, w: Waits, t: Tally, a: Acc): (r: Acc)
    ensures r.han >= a.han + 2 && r.fu == a.fu
  {
    var a1 := if h.ankan + h.minkan == 4 then AddYakuman(a, SUKANTSU) else a;
    var a2 := if h.anko + h.ankan == 4 then AddYakuman(a1, if Has(MachiValue(w), 0x10) then SUANKOTANKI else SUANKO) else a1;
    var a3 := if t.ji == 5 then AddYakuman(a2, TSUISO) else if t.roto == 5 then AddYakuman(a2, CHINROTO) else a2;
    var a4 := AddYaku(a3, TOITOI, 2);
    if t.roto + t.ji == 5 then AddYaku(a4, HONROTO, 2) else a4
  }

  /** The three-triplet block: big and little four winds, three concealed
      triplets, three kans, triple triplets. */
  function ThreeKotsu(h: Hand, t: Tally, sc: Scans, a: Acc): (r: Acc)
    requires |h.mentsu| > 0
    ensures r.han >= a.han && r.fu == a.fu
  {
    var a1 := if t.ji >= 4 then
        (if sc.fonhai == 4 then AddYakuman(a, DAISUSHI)
         else if sc.fonhai == 3 && 27 <= h.mentsu[0] <= 30 then AddYakuman(a, SYOSUSHI) else a)
      else a;
    var a2 := if h.anko + h.ankan == 3 then AddYaku(a1, SANANKO, 2) else a1;
    var a3 := if h.ankan + h.minkan == 3 then AddYaku(a2, SANKANTSU, 2) else a2;
    if sc.doko >= 3 then AddYaku(a3, SANSYOKUDOKO, 2) else a3
  }

  /** `if num_kotsu >= 2:` with the dragon yaku at its end. */
  function KotsuStage(h: Hand, w: Waits, t: Tally, sc: Scans, a: Acc): (r: Acc)
    requires |h.mentsu| > 0
    ensures r.han >= a.han && r.fu == a.fu
  {
    if Kotsu(h) < 2 then a
    else
      var a1 := if Kotsu(h) == 4 then FourKotsu(h, w, t, a) else a;
      var a2 := if Kotsu(h) >= 3 then ThreeKotsu(h, t, sc, a1) else a1;
      if t.sangen == 3 then AddYakuman(a2, DAISANGEN)
      else if t.sangen == 2 && 31 <= h.mentsu[0] <= 33 then AddYaku(a2, SYOSANGEN, 2)
      else a2
  }

  /** Pinfu (fu set to 20 on self-draw, 30 on ron) and two double
      sequences, for four concealed sequences; otherwise an open
      all-sequence hand at 20 fu is raised to 30. */
  function PinfuStage(s: Setting, info: AgariInfo, h: Hand, w: Waits, a: Acc): (r: Acc)
    requires |h.mentsu| > 0
    ensures r.han >= a.han
    ensures a.fu >= 20 && a.fu % 2 == 0 ==> r.fu >= 20 && r.fu % 2 == 0
  {
    if h.shuntsu == 4 then
      var p := h.mentsu[0];
      var b := if p < 31 && p != s.bahai && p != s.menfon && Has(MachiValue(w), 0x1)
               then AddYaku(a, PINFU, 1).(fu := if s.tsumo then 20 else 30) else a;
      if info.ryanpeikou != 0 then AddYaku(b, RYANPEKO, 3) else b
    else if Seqs(h) == 4 then (if a.fu == 20 then a.(fu := 30) else a)
    else a
  }

  /** `if num_shuntsu + num_chi >= 2:` pinfu, the straight or the mixed
      triple sequence, nine gates, one double sequence. */
  function ShuntsuStage(s: Setting, info: AgariInfo, h: Hand, w: Waits, sc: Scans, a: Acc): (r: Acc)
    requires |h.mentsu| > 0
    ensures s.kui <= 1 ==> r.han >= a.han
    ensures a.fu >= 20 && a.fu % 2 == 0 ==> r.fu >= 20 && r.fu % 2 == 0
  {
    if Seqs(h) < 2 then a
    else
      var a1 := PinfuStage(s, info, h, w, a);
      var a2 := if Seqs(h) >= 3 then
          (if info.ikki != 0 then AddYaku(a1, IKKITSUKAN, 2 - s.kui)
           else if IkkiShape(sc.ikki) then AddYaku(a1, IKKITSUKAN, 2 - s.kui)
           else if sc.dojun >= 3 then AddYaku(a1, SANSYOKUDOJUN, 2 - s.kui)
           else a1)
        else a1;
      var c := At(s.counts, s.agarihai);
      var a3 := if info.cyuren != 0 then AddYakuman(a2, if c == 4 || c == 2 then CHURENCHUMEN else CHURENPOTO) else a2;
      if info.ippeikou != 0 then AddYaku(a3, IPEKO, 1) else a3
  }

  /** Terminal-or-honor pieces, honor pieces and suit counts as the last
      tests read them. */
  datatype Colors = Colors(roto: int, ji: int, man: nat, pin: nat, sou: nat)

  /** Terminal kinds (1 and 9 of each suit) held, for seven pairs. */
  function ChitoiRoto(counts: seq<int>): int
  {
    At(counts, 0) + At(counts, 8) + At(counts, 9) + At(counts, 17) + At(counts, 18) + At(counts, 26)
  }

  /** Honor tiles held, for seven pairs. */
  function ChitoiJi(counts: seq<int>): int
  {
    At(counts, 27) + At(counts, 28) + At(counts, 29) + At(counts, 30) + At(counts, 31) + At(counts, 32) + At(counts, 33)
  }

  /** Outside seven pairs: the tally plus the terminal sequences, and the
      suits of the melds. In seven pairs: the hand's terminal and honor
      tiles, and no suit count (`man = pin = sou = 0`). */
  function ColorsOf(s: Setting, info: AgariInfo, t: Tally, sc: Scans): Colors
  {
    if info.chitoi == 0 then Colors(t.roto + sc.chanta, t.ji, sc.suits.man, sc.suits.pin, sc.suits.sou)
    else Colors(ChitoiRoto(s.counts), ChitoiJi(s.counts), 0, 0, 0)
  }

  /** The round-wind and seat-wind triplets, over `mentsu[1..n]`. */
  function Winds(mentsu: seq<int>, n: nat, bahai: int, menfon: int, a: Acc): (r: Acc)
    requires n < |mentsu|
    ensures a.han <= r.han <= a.han + 2 * n && r.fu == a.fu && r.yakuman == a.yakuman
  {
    if n == 0 then a
    else
      var b := Winds(mentsu, n - 1, bahai, menfon, a);
      var p := mentsu[n];
      var b1 := if p == bahai then AddYaku(b, BAKAZEHAI, 1) else b;
      if p == menfon then AddYaku(b1, MENFONHAI, 1) else b1
  }

  method AddWinds(mentsu: seq<int>, n: nat, bahai: int, menfon: int, a0: Acc) returns (a: Acc)
    requires n < |mentsu|
    ensures a == Winds(mentsu, n, bahai, menfon, a0)
  {
    a := a0;
    for i := 0 to n
      invariant a == Winds(mentsu, i, bahai, menfon, a0)
    {
      if mentsu[i + 1] == bahai {
        a := AddYaku(a, BAKAZEHAI, 1);
      }
      if mentsu[i + 1] == menfon {
        a := AddYaku(a, MENFONHAI, 1);
      }
    }
  }

  /** Pure or mixed outside hand, else all green; then the dragon triplets
      (count at bit 22, one han each) and the wind triplets. */
  function TerminalTests(s: Setting, h: Hand, t: Tally, c: Colors, sc: Scans, a: Acc): (r: Acc)
    ensures s.kui <= 1 && t.sangen >= 0 ==> r.han >= a.han
    ensures r.fu == a.fu
  {
    var a1 := if c.roto == 5 then AddYaku(a, JUNCHANTA, 3 - s.kui)
              else if c.roto + c.ji == 5 && Seqs(h) > 0 then AddYaku(a, HONCHANTA, 2 - s.kui)
              else if sc.green then AddYakuman(a, RYUISO)
              else a;
    a1.(ret := Or(a1.ret, Shl(t.sangen, SANGENHAI_SHIFT)), han := a1.han + t.sangen)
  }

  /** The dragon-triplet count written at bit 22 reads back there, and so
      the listing shows it as the dragon entry. */
  lemma TerminalSangen(s: Setting, h: Hand, t: Tally, c: Colors, sc: Scans, a: Acc)
    requires a.ret >= 0 && Field(a.ret, 22, 2) == 0 && 0 <= t.sangen < 4
    ensures var ret := TerminalTests(s, h, t, c, sc, a).ret;
      ret >= 0 && Field(ret, 22, 2) == t.sangen &&
      And(ret, SANGENHAI_MASK) / Pow2(SANGENHAI_SHIFT) == t.sangen
  {
    assert Pow2(2) == 4 && Pow2(9) == JUNCHANTA && Pow2(10) == HONCHANTA;
    var r1: nat := a.ret;
    if c.roto == 5 {
      OrFlag(a.ret, 9, 22, 2);
      r1 := Or(a.ret, JUNCHANTA);
    } else if c.roto + c.ji == 5 && Seqs(h) > 0 {
      OrFlag(a.ret, 10, 22, 2);
      r1 := Or(a.ret, HONCHANTA);
    }
    FieldShl(t.sangen, 22, 2);
    FieldOr(r1, Shl(t.sangen, 22), 22, 2);
    SangenRead(Or(r1, Shl(t.sangen, 22)));
  }

  /** Seven pairs: 25 fu and 2 han, then all honors or all terminals and
      honors. */
  function ChitoiStage(c: Colors, a: Acc): (r: Acc)
    ensures r.han >= a.han + 2 && r.fu == 25
  {
    var a1 := AddYaku(a.(fu := 25), CHITOITSU, 2);
    if c.ji == 14 then AddYakuman(a1, TSUISO)
    else if c.roto + c.ji == 14 then AddYaku(a1, HONROTO, 2)
    else a1
  }

  /** All simples, the flushes (two suits absent), and rounding the fu up
      to a multiple of 10 unless it is 25. */
  function Finish(c: Colors, kui: int, a: Acc): (r: Acc)
    ensures kui <= 1 ==> r.han >= a.han
    ensures a.fu == 25 ==> r.fu == 25
    ensures a.fu != 25 ==> r.fu % 10 == 0 && a.fu <= r.fu < a.fu + 10
  {
    var a1 := if c.roto + c.ji == 0 then AddYaku(a, TANYAO, 1) else a;
    var absent := (if c.man == 0 then 1 else 0) + (if c.pin == 0 then 1 else 0) + (if c.sou == 0 then 1 else 0);
    var a2 := if absent == 2 then (if c.ji == 0 then AddYaku(a1, CHINITSU, 6 - kui) else AddYaku(a1, HONITSU, 3 - kui))
              else a1;
    if a2.fu != 25 then a2.(fu := (a2.fu + 9) / 10 * 10) else a2
  }

  /** The meld list after the ron swap, the wait, and the fu before the
      yaku. */
  datatype Prepared = Prepared(h: Hand, w: Waits, fu: int)

  /** The first part of one round of the loop of `yaku`: the meld list,
      the wait, the ron swap, the fu of the base, the wait, the pair and
      the triplets. */
  function Prepare(s: Setting, h0: Hand): (p: Prepared)
    requires Indexable(h0) && AllKinds(h0.mentsu)
    ensures Indexable(p.h) && AllKinds(p.h.mentsu)
  {
    var mc := MachiOf(h0, s.agarihai);
    var h := RonSwap(h0, mc, s.tsumo);
    MultisetKinds(h0.mentsu, h.mentsu);
    Prepared(h, mc.waits, BaseFu(s, h, mc.waits))
  }

  /** The second part: the yaku tests, in the order `yaku` makes them. */
  function YakuOf(s: Setting, info: AgariInfo, p: Prepared): Acc
    requires Indexable(p.h) && AllKinds(p.h.mentsu)
  {
    var h := p.h;
    var t := TallyUpTo(h.mentsu, Kotsu(h) + 1);
    var sc := ScansOf(h);
    var a1 := KotsuStage(h, p.w, t, sc, Acc(0, p.fu, 0, []));
    Closing(s, info, h, t, sc, ShuntsuStage(s, info, h, p.w, sc, a1))
  }

  /** Outside seven pairs the terminal, dragon and wind tests, in seven
      pairs its own; then the last tests and the fu rounding. */
  function Closing(s: Setting, info: AgariInfo, h: Hand, t: Tally, sc: Scans, a: Acc): Acc
    requires 0 <= Kotsu(h) < |h.mentsu|
  {
    var c := ColorsOf(s, info, t, sc);
    var a1 := if info.chitoi == 0 then Winds(h.mentsu, Kotsu(h), s.bahai, s.menfon, TerminalTests(s, h, t, c, sc, a))
              else ChitoiStage(c, a);
    Finish(c, s.kui, a1)
  }

  /** One round of the loop of `yaku`, for the payload read as info. */
  function Evaluate(s: Setting, info: AgariInfo): Acc
    requires Scorable(s, info)
  {
    MentsuKinds(s, info);
    YakuOf(s, info, Prepare(s, InitialHand(s, info)))
  }

  /** A rearrangement of tile kinds holds tile kinds. */
  lemma MultisetKinds(a: seq<int>, b: seq<int>)
    requires AllKinds(a) && multiset(a) == multiset(b)
    ensures AllKinds(b)
  {
    forall q | 0 <= q < |b|
      ensures 0 <= b[q] < 34
    {
      assert b[q] in multiset(b);
      assert b[q] in a;
    }
  }

  /** The body of the loop of `yaku` for one payload. */
  method EvaluateOne(s: Setting, info: AgariInfo) returns (a: Acc)
    requires Scorable(s, info)
    ensures a == Evaluate(s, info)
  {
    MentsuKinds(s, info);
    var mentsu := BuildMentsu(s, info);
    var h := Hand(mentsu, info.numKotsu, |s.melds.pon|, |s.melds.ankan|, |s.melds.minkan|,
                  info.numShuntsu, |s.melds.chi|);
    var p := PrepareOne(s, h);
    a := YakuOne(s, info, p);
  }

  method PrepareOne(s: Setting, h0: Hand) returns (p: Prepared)
    requires Indexable(h0) && AllKinds(h0.mentsu)
    ensures p == Prepare(s, h0)
  {
    var mc := FindMachi(h0, s.agarihai);
    var fu := Futei(s.tsumo, s.kui);
    if MachiValue(mc.waits) >= 4 {
      fu := fu + 2;
    }
    var h := SwapRon(h0, mc, s.tsumo);
    MultisetKinds(h0.mentsu, h.mentsu);
    fu := AddMeldsFu(s, h, fu);
    p := Prepared(h, mc.waits, fu);
  }

  /** The ron swap of `mentsu[ron_pos]` and `mentsu[num_anko]`. */
  method SwapRon(h: Hand, mc: Machi, tsumo: bool) returns (r: Hand)
    requires Indexable(h) && mc.ronPos <= h.anko && (mc.waits.shanpon <==> mc.ronPos > 0)
    ensures r == RonSwap(h, mc, tsumo)
  {
    r := h;
    if !tsumo && MachiValue(mc.waits) == 2 {
      var mentsu, ronPos, numAnko := h.mentsu, mc.ronPos, h.anko;
      mentsu := mentsu[ronPos := mentsu[numAnko]][numAnko := mentsu[ronPos]];
      r := h.(mentsu := mentsu, anko := numAnko - 1, pon := h.pon + 1);
    }
  }

  /** The wait loops: the pair, the concealed triplets, the concealed
      sequences. */
  method FindMachi(h: Hand, a: int) returns (mc: Machi)
    requires Indexable(h)
    ensures mc == MachiOf(h, a)
  {
    var shanpon, ronPos := FindRonPos(h.mentsu, h.anko, a);
    var seqWaits := ScanSeqWaits(h.mentsu, h.shuntsu, a);
    mc := Machi(Join(NoWait.(tanki := h.mentsu[0] == a, shanpon := shanpon), seqWaits), ronPos);
  }

  /** The pair's fu and the four loops over the triplets and kans. */
  method AddMeldsFu(s: Setting, h: Hand, fu0: int) returns (fu: int)
    requires Indexable(h)
    ensures fu == fu0 + PairFu(h.mentsu[0], s.bahai, s.menfon) + MeldsFu(h)
  {
    var mentsu := h.mentsu;
    fu := fu0 + PairFu(mentsu[0], s.bahai, s.menfon);
    var b, c := h.anko + h.pon, h.anko + h.pon + h.ankan;
    fu := AddRangeFu(mentsu, 0, h.anko, 4, fu);
    fu := AddRangeFu(mentsu, h.anko, b, 2, fu);
    fu := AddRangeFu(mentsu, b, c, 16, fu);
    fu := AddRangeFu(mentsu, c, Kotsu(h), 8, fu);
  }

  method YakuOne(s: Setting, info: AgariInfo, p: Prepared) returns (a: Acc)
    requires Indexable(p.h) && AllKinds(p.h.mentsu)
    ensures a == YakuOf(s, info, p)
  {
    var h := p.h;
    var t := CountTally(h.mentsu, Kotsu(h) + 1);
    var sc := Scan(h);
    var acc := Acc(0, p.fu, 0, []);
    acc := KotsuStage(h, p.w, t, sc, acc);
    acc := ShuntsuStage(s, info, h, p.w, sc, acc);
    assert t == TallyUpTo(h.mentsu, Kotsu(h) + 1) && sc == ScansOf(h);
    a := CloseOne(s, info, h, t, sc, acc);
  }

  method CloseOne(s: Setting, info: AgariInfo, h: Hand, t: Tally, sc: Scans, a0: Acc) returns (a: Acc)
    requires 0 <= Kotsu(h) < |h.mentsu|
    ensures a == Closing(s, info, h, t, sc, a0)
  {
    var colors := ColorsOf(s, info, t, sc);
    a := a0;
    if info.chitoi == 0 {
      a := TerminalTests(s, h, t, colors, sc, a);
      a := AddWinds(h.mentsu, Kotsu(h), s.bahai, s.menfon, a);
    } else {
      a := ChitoiStage(colors, a);
    }
    a := Finish(colors, s.kui, a);
  }

  // ---------------------------------------------------------------------
  // Choosing between decompositions

  /** Every payload can be scored. */
  predicate AllScorable(s: Setting, xs: seq<int>)
  {
    forall i :: 0 <= i < |xs| ==> Scorable(s, ParseAgariInfo(xs[i]))
  }

  /** The round results, payload by payload. */
  function Evals(s: Setting, xs: seq<int>): (es: seq<Acc>)
    requires AllScorable(s, xs)
    ensures |es| == |xs| && forall i :: 0 <= i < |xs| ==> es[i] == Evaluate(s, ParseAgariInfo(xs[i]))
  {
    seq(|xs|, i requires 0 <= i < |xs| => Evaluate(s, ParseAgariInfo(xs[i])))
  }

  /** The first round with a yakuman, or |es| when there is none. */
  function FirstYakuman(es: seq<Acc>, from: nat): (k: nat)
    requires from <= |es|
    ensures from <= k <= |es| && (k < |es| ==> es[k].yakuman != [])
    ensures forall j :: from <= j < k ==> es[j].yakuman == []
    decreases |es| - from
  {
    if from == |es| then from else if es[from].yakuman != [] then from else FirstYakuman(es, from + 1)
  }

  /** A list of yakuman is worth at least one per entry. */
  lemma {:induction false} YakumanHanAtLeast(ids: seq<int>)
    ensures YakumanHan(ids) >= |ids|
  {
    if ids != [] {
      YakumanHanAtLeast(ids[..|ids| - 1]);
    }
  }

  /** The object fields the last part of `yaku` reads: riichi (0, 1 for
      riichi, 2 for double riichi), ippatsu, the special-win code
      `tokusyu`, and the three dora counters. */
  datatype Extras = Extras(riichi: int, ippatsu: int, tokusyu: int, dora: int, ura: int, aka: int)

  /** The han every decomposition gets from the hand's situation: closed
      self-draw, riichi or double riichi with ippatsu, the special win,
      dora, ura-dora under riichi, red fives. */
  function BonusHan(s: Setting, e: Extras): int
  {
    (if s.tsumo && s.kui == 0 then 1 else 0) +
    (if e.riichi == 1 then 1 + (if e.ippatsu != 0 then 1 else 0)
     else if e.riichi == 2 then 2 + (if e.ippatsu != 0 then 1 else 0) else 0) +
    (if e.tokusyu > 0 then 1 else 0) + e.dora + (if e.riichi != 0 then e.ura else 0) + e.aka
  }

  /** The flags the same step writes into each flag word: self-draw,
      riichi or double riichi with ippatsu, the special win. */
  function BonusFlags(s: Setting, e: Extras, r: int): int
  {
    var r1 := if s.tsumo && s.kui == 0 then Or(r, TSUMO) else r;
    var r2 := if e.riichi == 1 then (var q := Or(r1, RIICHI); if e.ippatsu != 0 then Or(q, IPPATSU) else q)
              else if e.riichi == 2 then (var q := Or(r1, DOUBLE_RIICHI); if e.ippatsu != 0 then Or(q, IPPATSU) else q)
              else r1;
    if e.tokusyu == 1 then Or(r2, RINSHAN) else if e.tokusyu == 2 then Or(r2, ROB_KAN)
    else if e.tokusyu == 3 then Or(r2, HAITEI) else r2
  }

  /** The flags, then the dora, ura-dora (under riichi) and red-five
      counts shifted to bits 26, 31 and 36. */
  function BonusRet(s: Setting, e: Extras, r: int): int
    requires e.dora >= 0 && e.ura >= 0 && e.aka >= 0
  {
    var r4 := Or(BonusFlags(s, e, r), Shl(e.dora, DORA_SHIFT));
    var r5 := if e.riichi != 0 then Or(r4, Shl(e.ura, URA_DORA_SHIFT)) else r4;
    Or(r5, Shl(e.aka, AKA_DORA_SHIFT))
  }

  /** `a | flag` for a flag outside bits lo..lo+w-1 leaves that field. */
  lemma OrFlag(a: nat, i: nat, lo: nat, w: nat)
    requires i < lo || lo + w <= i
    ensures Or(a, Shl(1, i)) >= 0 && Field(Or(a, Shl(1, i)), lo, w) == Field(a, lo, w)
  {
    if i < lo {
      FieldAboveShl(1, 1, i, lo, w);
    } else {
      FieldBelowShl(1, i, lo, w);
    }
    FieldOr(a, Shl(1, i), lo, w);
  }

  /** The flags leave every field between bits 5 and 37 as it was. */
  lemma FlagsKeepField(s: Setting, e: Extras, r: nat, lo: nat, w: nat)
    requires 5 <= lo && lo + w <= 38
    ensures BonusFlags(s, e, r) >= 0 && Field(BonusFlags(s, e, r), lo, w) == Field(r, lo, w)
  {
    FlagShifts();
    var r1: nat := r;
    if s.tsumo && s.kui == 0 {
      OrFlag(r, 4, lo, w);
      r1 := Or(r, TSUMO);
    }
    var r2: nat := r1;
    if e.riichi == 1 || e.riichi == 2 {
      var i := if e.riichi == 1 then 38 else 39;
      OrFlag(r1, i, lo, w);
      var q: nat := Or(r1, Shl(1, i));
      r2 := q;
      if e.ippatsu != 0 {
        OrFlag(q, 43, lo, w);
        r2 := Or(q, IPPATSU);
      }
    }
    if e.tokusyu == 1 {
      OrFlag(r2, 41, lo, w);
    } else if e.tokusyu == 2 {
      OrFlag(r2, 40, lo, w);
    } else if e.tokusyu == 3 {
      OrFlag(r2, 42, lo, w);
    }
  }

  /** The dora count reads back from bits 26 to 30. */
  lemma BonusDora(s: Setting, e: Extras, r: nat)
    requires 0 <= e.dora < 32 && e.ura >= 0 && e.aka >= 0 && Field(r, 26, 5) == 0
    ensures BonusRet(s, e, r) >= 0 && Field(BonusRet(s, e, r), 26, 5) == e.dora
  {
    var r3 := BonusFlags(s, e, r);
    FlagsKeepField(s, e, r, 26, 5);
    Pow2Values5();
    FieldShl(e.dora, 26, 5);
    FieldOr(r3, Shl(e.dora, 26), 26, 5);
    var r4: nat := Or(r3, Shl(e.dora, 26));
    var r5: nat := r4;
    if e.riichi != 0 {
      FieldBelowShl(e.ura, 31, 26, 5);
      FieldOr(r4, Shl(e.ura, 31), 26, 5);
      r5 := Or(r4, Shl(e.ura, 31));
    }
    FieldBelowShl(e.aka, 36, 26, 5);
    FieldOr(r5, Shl(e.aka, 36), 26, 5);
  }

  /** The ura-dora count reads back from bits 31 to 35 under riichi, and
      0 without it. */
  lemma BonusUra(s: Setting, e: Extras, r: nat)
    requires 0 <= e.dora < 32 && 0 <= e.ura < 32 && e.aka >= 0 && Field(r, 31, 5) == 0
    ensures BonusRet(s, e, r) >= 0
    ensures Field(BonusRet(s, e, r), 31, 5) == if e.riichi != 0 then e.ura else 0
  {
    var r3 := BonusFlags(s, e, r);
    FlagsKeepField(s, e, r, 31, 5);
    Pow2Values5();
    FieldAboveShl(e.dora, 5, 26, 31, 5);
    FieldOr(r3, Shl(e.dora, 26), 31, 5);
    var r4: nat := Or(r3, Shl(e.dora, 26));
    var r5: nat := r4;
    if e.riichi != 0 {
      FieldShl(e.ura, 31, 5);
      FieldOr(r4, Shl(e.ura, 31), 31, 5);
      r5 := Or(r4, Shl(e.ura, 31));
    }
    FieldBelowShl(e.aka, 36, 31, 5);
    FieldOr(r5, Shl(e.aka, 36), 31, 5);
  }

  /** The red-five count reads back from bits 36 and 37. */
  lemma BonusAka(s: Setting, e: Extras, r: nat)
    requires 0 <= e.dora < 32 && 0 <= e.ura < 32 && 0 <= e.aka < 4 && Field(r, 36, 2) == 0
    ensures BonusRet(s, e, r) >= 0 && Field(BonusRet(s, e, r), 36, 2) == e.aka
  {
    var r3 := BonusFlags(s, e, r);
    FlagsKeepField(s, e, r, 36, 2);
    Pow2Values5();
    FieldAboveShl(e.dora, 5, 26, 36, 2);
    FieldOr(r3, Shl(e.dora, 26), 36, 2);
    var r4: nat := Or(r3, Shl(e.dora, 26));
    var r5: nat := r4;
    if e.riichi != 0 {
      FieldAboveShl(e.ura, 5, 31, 36, 2);
      FieldOr(r4, Shl(e.ura, 31), 36, 2);
      r5 := Or(r4, Shl(e.ura, 31));
    }
    FieldShl(e.aka, 36, 2);
    FieldOr(r5, Shl(e.aka, 36), 36, 2);
  }

  lemma Pow2Values5()
    ensures Pow2(2) == 4 && Pow2(5) == 32
  {
  }

  /** What the listing of a settled flag word reads back: the dora and
      red-five counts written by the bonus step, and the ura-dora count
      exactly under riichi. */
  lemma BonusCountNames(names: seq<Entry>, s: Setting, e: Extras, r: nat)
    requires 0 <= e.dora < 32 && 0 <= e.ura < 32 && 0 <= e.aka < 4
    requires Field(r, 26, 5) == 0 && Field(r, 31, 5) == 0 && Field(r, 36, 2) == 0
    ensures var ret := BonusRet(s, e, r);
      ret >= 0 &&
      CountNames(names, ret) ==
        AddIf(AddIf(AddIf(names, e.dora != 0, Counted("宝牌", e.dora)), e.aka != 0, Counted("赤宝牌", e.aka)),
              InRiichi(ret), Counted("里宝牌", if e.riichi != 0 then e.ura else 0))
  {
    BonusDora(s, e, r);
    BonusUra(s, e, r);
    BonusAka(s, e, r);
    CountNamesFields(names, BonusRet(s, e, r));
  }

  /** `np.max` */
  function MaxOf(xs: seq<int>): (m: int)
    requires |xs| > 0
    ensures (forall i :: 0 <= i < |xs| ==> xs[i] <= m) && exists i :: 0 <= i < |xs| && xs[i] == m
  {
    if |xs| == 1 then xs[0]
    else
      var m := MaxOf(xs[..|xs| - 1]);
      assert forall i :: 0 <= i < |xs| - 1 ==> xs[..|xs| - 1][i] == xs[i];
      if xs[|xs| - 1] > m then xs[|xs| - 1] else m
  }

  /** `np.argmax`: the first index holding the maximum. */
  function ArgMax(xs: seq<int>): (k: nat)
    requires |xs| > 0
    ensures k < |xs| && xs[k] == MaxOf(xs) && forall i :: 0 <= i < k ==> xs[i] < xs[k]
  {
    if |xs| == 1 then 0
    else
      var k := ArgMax(xs[..|xs| - 1]);
      assert forall i :: 0 <= i < |xs| - 1 ==> xs[..|xs| - 1][i] == xs[i];
      if xs[|xs| - 1] > xs[k] then |xs| - 1 else k
  }

  /** The tie-break of `yaku`: the index of the only best score, else the
      first index of the largest han among the best scores, where the
      other entries count as 0. */
  function Choose(scores: seq<int>, hans: seq<int>): nat
    requires |scores| == |hans| > 0
  {
    var mx := MaxOf(scores);
    if Occurrences(scores, mx) == 1 then ArgMax(scores)
    else ArgMax(seq(|scores|, i requires 0 <= i < |scores| => if scores[i] == mx then hans[i] else 0))
  }

  /** The limit table: below 5 han the score is capped at 2000; 5 han is
      2000, 6-7 3000, 8-10 4000, 11-12 6000, 13 and more 8000. */
  function Limit(han: int, score: int): int
  {
    if han < 5 then (if score >= 2000 then 2000 else score)
    else if han == 5 then 2000
    else if han <= 7 then 3000
    else if han <= 10 then 4000
    else if han <= 12 then 6000
    else 8000
  }

  /** What `yaku` returns: (han, fu, 8000 per yakuman, the yakuman list)
      or (han, fu, score, flag word). */
  datatype Outcome = YakumanWin(han: int, fu: int, score: int, ids: seq<int>)
                   | Scored(han: int, fu: int, score: int, ret: int)

  /** The base score of each decomposition, `fu << (han + 2)`. */
  function BaseScores(hans: seq<int>, fus: seq<int>): (r: seq<int>)
    requires |hans| == |fus| && forall i :: 0 <= i < |hans| ==> hans[i] >= 0
    ensures |r| == |hans|
  {
    seq(|hans|, i requires 0 <= i < |hans| => fus[i] * Pow2(hans[i] + 2))
  }

  /** The end of `yaku` without a yakuman: bonus han and flags, scores,
      the tie-break, han made only of dora reported as 0, the limit
      table. */
  function Settle(s: Setting, e: Extras, hans0: seq<int>, fus: seq<int>, rets0: seq<int>): Outcome
    requires |hans0| == |fus| == |rets0| > 0
    requires forall i :: 0 <= i < |hans0| ==> hans0[i] >= 0
    requires e.dora >= 0 && e.ura >= 0 && e.aka >= 0 && 0 <= s.kui <= 1
  {
    var bonus := BonusHan(s, e);
    var hans := seq(|hans0|, i requires 0 <= i < |hans0| => hans0[i] + bonus);
    var rets := seq(|rets0|, i requires 0 <= i < |rets0| => BonusRet(s, e, rets0[i]));
    var scores := BaseScores(hans, fus);
    var k := Choose(scores, hans);
    var han := if hans[k] == e.dora + e.aka + e.ura then 0 else hans[k];
    Scored(han, fus[k], Limit(han, MaxOf(scores)), rets[k])
  }

  /** The bonus han is never negative, for non-negative dora counts. */
  lemma BonusNonNegative(s: Setting, e: Extras)
    requires e.riichi >= 0 && e.dora >= 0 && e.ura >= 0 && e.aka >= 0
    ensures BonusHan(s, e) >= 0
  {
  }

  /** With `kui` 0 or 1 every yaku adds han, so a round's han is never
      negative. */
  lemma EvaluateHan(s: Setting, info: AgariInfo)
    requires Scorable(s, info) && 0 <= s.kui <= 1
    ensures Evaluate(s, info).han >= 0
  {
  }

  lemma EvalsHan(s: Setting, xs: seq<int>)
    requires AllScorable(s, xs) && 0 <= s.kui <= 1
    ensures forall i :: 0 <= i < |xs| ==> Evals(s, xs)[i].han >= 0
  {
    forall i | 0 <= i < |xs|
      ensures Evals(s, xs)[i].han >= 0
    {
      EvaluateHan(s, ParseAgariInfo(xs[i]));
    }
  }

  /** The whole of `yaku` once the dora are counted: the first round with
      a yakuman ends it with 8000 per yakuman; otherwise the rounds are
      settled together. */
  function ScoreSpec(s: Setting, xs: seq<int>, e: Extras): Outcome
    requires |xs| > 0 && AllScorable(s, xs) && 0 <= s.kui <= 1
    requires e.dora >= 0 && e.ura >= 0 && e.aka >= 0
  {
    EvalsHan(s, xs);
    ScoreOf(s, Evals(s, xs), e)
  }

  /** The same, over the round results. */
  function ScoreOf(s: Setting, es: seq<Acc>, e: Extras): Outcome
    requires |es| > 0 && 0 <= s.kui <= 1 && forall i :: 0 <= i < |es| ==> es[i].han >= 0
    requires e.dora >= 0 && e.ura >= 0 && e.aka >= 0
  {
    var k := FirstYakuman(es, 0);
    if k < |es| then
      var n := YakumanHan(es[k].yakuman);
      YakumanWin(n, es[k].fu, 8000 * n, es[k].yakuman)
    else
      Settle(s, e, seq(|es|, i requires 0 <= i < |es| => es[i].han),
             seq(|es|, i requires 0 <= i < |es| => es[i].fu),
             seq(|es|, i requires 0 <= i < |es| => es[i].ret))
  }

  /** A yakuman outcome pays 8000 per yakuman and counts at least one per
      listed yakuman, of which there is at least one. */
  lemma ScoreOfYakuman(s: Setting, es: seq<Acc>, e: Extras)
    requires |es| > 0 && 0 <= s.kui <= 1 && forall i :: 0 <= i < |es| ==> es[i].han >= 0
    requires e.dora >= 0 && e.ura >= 0 && e.aka >= 0
    ensures var o := ScoreOf(s, es, e);
      o.YakumanWin? ==> o.han >= |o.ids| >= 1 && o.score == 8000 * o.han
  {
    var k := FirstYakuman(es, 0);
    if k < |es| {
      YakumanHanAtLeast(es[k].yakuman);
    }
  }

  /** Round k of the loop, for the k-th payload. */
  function RoundAt(s: Setting, xs: seq<int>, k: nat): Acc
    requires AllScorable(s, xs) && k < |xs|
  {
    Evaluate(s, ParseAgariInfo(xs[k]))
  }

  /** es lists the round results of the payloads xs. */
  predicate RoundsOf(s: Setting, xs: seq<int>, es: seq<Acc>)
    requires AllScorable(s, xs)
  {
    |es| == |xs| && forall k {:trigger RoundAt(s, xs, k)} :: 0 <= k < |xs| ==> es[k] == RoundAt(s, xs, k)
  }

  /** Round k of the loop. */
  method Round(s: Setting, xs: seq<int>, k: nat, ghost es: seq<Acc>) returns (a: Acc)
    requires AllScorable(s, xs) && k < |xs| && RoundsOf(s, xs, es)
    ensures a == es[k]
  {
    a := EvaluateOne(s, ParseAgariInfo(xs[k]));
    assert a == RoundAt(s, xs, k);
  }

  /** The loop of `yaku` and its last step. */
  method ScoreLoop(s: Setting, xs: seq<int>, e: Extras) returns (out: Outcome)
    requires |xs| > 0 && AllScorable(s, xs) && 0 <= s.kui <= 1
    requires e.dora >= 0 && e.ura >= 0 && e.aka >= 0
    ensures out == ScoreSpec(s, xs, e)
  {
    EvalsHan(s, xs);
    ghost var es := Evals(s, xs);
    assert RoundsOf(s, xs, es) by {
      forall k | 0 <= k < |xs|
        ensures es[k] == RoundAt(s, xs, k)
      {
      }
    }
    out := RunRounds(s, xs, e, es);
  }

  /** The rounds in order: the per-round lists start as zeros, the
      yakuman list and count live outside the loop, and the first round
      with a yakuman returns at once. */
  method RunRounds(s: Setting, xs: seq<int>, e: Extras, ghost es: seq<Acc>) returns (out: Outcome)
    requires |xs| > 0 && AllScorable(s, xs) && 0 <= s.kui <= 1 && RoundsOf(s, xs, es)
    requires forall i :: 0 <= i < |es| ==> es[i].han >= 0
    requires e.dora >= 0 && e.ura >= 0 && e.aka >= 0
    ensures out == ScoreOf(s, es, e)
  {
    var yakuman: seq<int> := [];
    var hanYakuman := 0;
    var hanList := seq(|xs|, _ => 0);
    var fuList := seq(|xs|, _ => 0);
    var retList := seq(|xs|, _ => 0);
    for k := 0 to |xs|
      invariant yakuman == [] && hanYakuman == 0
      invariant |hanList| == |fuList| == |retList| == |xs|
      invariant forall j :: 0 <= j < k ==> es[j].yakuman == []
      invariant forall j :: 0 <= j < k ==> hanList[j] == es[j].han && fuList[j] == es[j].fu && retList[j] == es[j].ret
    {
      var a := Round(s, xs, k, es);
      yakuman := yakuman + a.yakuman;
      hanYakuman := hanYakuman + YakumanHan(a.yakuman);
      YakumanHanAtLeast(a.yakuman);
      if hanYakuman != 0 {
        FirstYakumanAt(es, 0, k);
        return YakumanWin(hanYakuman, a.fu, 8000 * hanYakuman, yakuman);
      }
      assert a.yakuman == [];
      hanList := hanList[k := a.han];
      fuList := fuList[k := a.fu];
      retList := retList[k := a.ret];
    }
    FirstYakumanNone(es, 0);
    assert hanList == seq(|es|, i requires 0 <= i < |es| => es[i].han);
    assert fuList == seq(|es|, i requires 0 <= i < |es| => es[i].fu);
    assert retList == seq(|es|, i requires 0 <= i < |es| => es[i].ret);
    out := Settle(s, e, hanList, fuList, retList);
  }

  /** The first yakuman round is k when k has one and no round before it
      does. */
  lemma {:induction false} FirstYakumanAt(es: seq<Acc>, from: nat, k: nat)
    requires from <= k < |es| && es[k].yakuman != []
    requires forall j :: from <= j < k ==> es[j].yakuman == []
    ensures FirstYakuman(es, from) == k
    decreases k - from
  {
    if from < k {
      FirstYakumanAt(es, from + 1, k);
    }
  }

  /** No round has a yakuman: the search runs off the end. */
  lemma {:induction false} FirstYakumanNone(es: seq<Acc>, from: nat)
    requires from <= |es|
    requires forall j :: from <= j < |es| ==> es[j].yakuman == []
    ensures FirstYakuman(es, from) == |es|
    decreases |es| - from
  {
    if from < |es| {
      FirstYakumanNone(es, from + 1);
    }
  }

  // ---------------------------------------------------------------------
  // Properties of the fu

  /** A range of melds at an even simple value adds an even, non-negative
      number of fu. */
  lemma RangeFuEven(mentsu: seq<int>, lo: nat, hi: nat, simple: nat)
    requires lo <= hi < |mentsu| && simple % 2 == 0
    ensures RangeFu(mentsu, lo, hi, simple) >= 0 && RangeFu(mentsu, lo, hi, simple) % 2 == 0
  {
    RangeFuBounds(mentsu, lo, hi, simple);
    assert simple * (hi - lo) >= 0;
  }

  /** The fu before the yaku is at least 20 and even: every term is. */
  lemma BaseFuShape(s: Setting, h: Hand, w: Waits)
    requires Indexable(h)
    ensures BaseFu(s, h, w) >= 20 && BaseFu(s, h, w) % 2 == 0
  {
    var m, a, b, c := h.mentsu, h.anko, h.anko + h.pon, h.anko + h.pon + h.ankan;
    RangeFuEven(m, 0, a, 4);
    RangeFuEven(m, a, b, 2);
    RangeFuEven(m, b, c, 16);
    RangeFuEven(m, c, Kotsu(h), 8);
  }

  /** Rounding up to a multiple of 10, from 20 fu or more. */
  lemma RoundUpTen(x: int)
    requires x >= 20
    ensures var r := (x + 9) / 10 * 10;
      r >= 20 && r % 10 == 0 && (x == 20 ==> r == 20) && (x == 30 ==> r == 30) && (x > 20 ==> r >= 30)
  {
    var q := (x + 9) / 10;
    assert q >= 2 && (x > 20 ==> q >= 3);
    assert (x == 20 || x == 30) ==> (x + 9) / 10 * 10 == x;
  }

  /** The last part of a round sets seven pairs to 25 fu and rounds any
      other fu up to a multiple of 10. */
  lemma ClosingFu(s: Setting, info: AgariInfo, h: Hand, t: Tally, sc: Scans, a: Acc)
    requires 0 <= Kotsu(h) < |h.mentsu|
    ensures var fu := Closing(s, info, h, t, sc, a).fu;
      (info.chitoi != 0 ==> fu == 25) && (info.chitoi == 0 && a.fu != 25 ==> fu == (a.fu + 9) / 10 * 10)
  {
  }

  /** The yaku tests of one round, from a given tally and scans. */
  function Stages(s: Setting, info: AgariInfo, h: Hand, w: Waits, t: Tally, sc: Scans, fu: int): Acc
    requires 0 <= Kotsu(h) < |h.mentsu|
  {
    Closing(s, info, h, t, sc, ShuntsuStage(s, info, h, w, sc, KotsuStage(h, w, t, sc, Acc(0, fu, 0, []))))
  }

  /** From a base of at least 20 even fu, a round's fu is 25 exactly for
      seven pairs and otherwise a multiple of 10 of at least 20. */
  lemma StagesFu(s: Setting, info: AgariInfo, h: Hand, w: Waits, t: Tally, sc: Scans, fu: int)
    requires 0 <= Kotsu(h) < |h.mentsu| && fu >= 20 && fu % 2 == 0
    ensures var r := Stages(s, info, h, w, t, sc, fu).fu;
      (info.chitoi != 0 ==> r == 25) && (info.chitoi == 0 ==> r >= 20 && r % 10 == 0)
  {
    var a1 := KotsuStage(h, w, t, sc, Acc(0, fu, 0, []));
    var a2 := ShuntsuStage(s, info, h, w, sc, a1);
    ClosingShape(s, info, h, t, sc, a2);
  }

  lemma ClosingShape(s: Setting, info: AgariInfo, h: Hand, t: Tally, sc: Scans, a: Acc)
    requires 0 <= Kotsu(h) < |h.mentsu| && a.fu >= 20 && a.fu % 2 == 0
    ensures var fu := Closing(s, info, h, t, sc, a).fu;
      (info.chitoi != 0 ==> fu == 25) && (info.chitoi == 0 ==> fu >= 20 && fu % 10 == 0)
  {
    ClosingFu(s, info, h, t, sc, a);
    if info.chitoi == 0 {
      RoundUpTen(a.fu);
    }
  }

  /** The same for the tally and scans of the hand itself. */
  lemma YakuOfFu(s: Setting, info: AgariInfo, p: Prepared)
    requires Indexable(p.h) && AllKinds(p.h.mentsu) && p.fu >= 20 && p.fu % 2 == 0
    ensures var fu := YakuOf(s, info, p).fu;
      (info.chitoi != 0 ==> fu == 25) && (info.chitoi == 0 ==> fu >= 20 && fu % 10 == 0)
  {
    var t := TallyUpTo(p.h.mentsu, Kotsu(p.h) + 1);
    var sc := ScansOf(p.h);
    assert YakuOf(s, info, p) == Stages(s, info, p.h, p.w, t, sc, p.fu);
    StagesFu(s, info, p.h, p.w, t, sc, p.fu);
  }

  /** A round's fu is 25 exactly for seven pairs; any other round ends on
      a multiple of 10 of at least 20. */
  lemma FuShape(s: Setting, info: AgariInfo)
    requires Scorable(s, info)
    ensures var fu := Evaluate(s, info).fu;
      (info.chitoi != 0 ==> fu == 25) && (info.chitoi == 0 ==> fu >= 20 && fu % 10 == 0)
  {
    MentsuKinds(s, info);
    var p := Prepare(s, InitialHand(s, info));
    BaseFuShape(s, p.h, p.w);
    YakuOfFu(s, info, p);
  }

  /** Pinfu: four concealed sequences, a pair that earns no fu and a
      two-sided wait. */
  predicate PinfuHand(s: Setting, p: Prepared)
  {
    p.h.shuntsu == 4 && |p.h.mentsu| > 0 && p.h.mentsu[0] < 31 && p.h.mentsu[0] != s.bahai &&
    p.h.mentsu[0] != s.menfon && p.w.ryanmen
  }

  /** The sequence yaku set the fu of a pinfu hand: 20 on self-draw, 30
      on ron. */
  lemma PinfuStageFu(s: Setting, info: AgariInfo, p: Prepared, sc: Scans, a: Acc)
    requires Indexable(p.h) && PinfuHand(s, p)
    ensures ShuntsuStage(s, info, p.h, p.w, sc, a).fu == (if s.tsumo then 20 else 30)
  {
    RyanmenBit(p.w);
  }

  /** A pinfu hand ends at 20 fu on self-draw and 30 on ron. */
  lemma PinfuFu(s: Setting, info: AgariInfo, p: Prepared, t: Tally, sc: Scans)
    requires Indexable(p.h) && info.chitoi == 0 && PinfuHand(s, p)
    ensures Stages(s, info, p.h, p.w, t, sc, p.fu).fu == (if s.tsumo then 20 else 30)
  {
    var a1 := KotsuStage(p.h, p.w, t, sc, Acc(0, p.fu, 0, []));
    var a2 := ShuntsuStage(s, info, p.h, p.w, sc, a1);
    PinfuStageFu(s, info, p, sc, a1);
    assert Stages(s, info, p.h, p.w, t, sc, p.fu) == Closing(s, info, p.h, t, sc, a2);
    ClosingFu(s, info, p.h, t, sc, a2);
    RoundUpTen(a2.fu);
  }

  /** An all-sequence hand with at least one called sequence never ends
      below 30 fu. */
  lemma {:induction false} OpenPinfuFu(s: Setting, info: AgariInfo, h: Hand, w: Waits, t: Tally, sc: Scans, fu: int)
    requires Indexable(h) && info.chitoi == 0 && fu >= 20 && fu % 2 == 0
    requires Seqs(h) == 4 && h.shuntsu != 4
    ensures Stages(s, info, h, w, t, sc, fu).fu >= 30
  {
    var a1 := KotsuStage(h, w, t, sc, Acc(0, fu, 0, []));
    var a2 := ShuntsuStage(s, info, h, w, sc, a1);
    assert a2.fu >= 22;
    assert Stages(s, info, h, w, t, sc, fu) == Closing(s, info, h, t, sc, a2);
    ClosingFu(s, info, h, t, sc, a2);
    RoundUpTen(a2.fu);
    assert Closing(s, info, h, t, sc, a2).fu == (a2.fu + 9) / 10 * 10;
  }

  // ---------------------------------------------------------------------
  // Properties of the settlement

  /** The best score, when only one decomposition has it, is the one
      chosen. */
  lemma ChooseUnique(scores: seq<int>, hans: seq<int>)
    requires |scores| == |hans| > 0 && Occurrences(scores, MaxOf(scores)) == 1
    ensures scores[Choose(scores, hans)] == MaxOf(scores)
  {
  }

  /** On a tie for the best score where some tied decomposition has han,
      the choice is a tied decomposition with the most han, the first of
      them. */
  lemma ChooseTie(scores: seq<int>, hans: seq<int>, j: nat)
    requires |scores| == |hans| > j && Occurrences(scores, MaxOf(scores)) != 1
    requires scores[j] == MaxOf(scores) && hans[j] > 0
    ensures var k := Choose(scores, hans);
      scores[k] == MaxOf(scores) &&
      (forall i :: 0 <= i < |scores| && scores[i] == MaxOf(scores) ==> hans[i] <= hans[k]) &&
      (forall i :: 0 <= i < k && scores[i] == MaxOf(scores) ==> hans[i] < hans[k])
  {
    var mx := MaxOf(scores);
    var masked := seq(|scores|, i requires 0 <= i < |scores| => if scores[i] == mx then hans[i] else 0);
    var k := ArgMax(masked);
    assert masked[j] == hans[j];
    assert masked[k] > 0;
    forall i | 0 <= i < |scores| && scores[i] == mx
      ensures hans[i] <= hans[k]
    {
      assert masked[i] == hans[i];
    }
    forall i | 0 <= i < k && scores[i] == mx
      ensures hans[i] < hans[k]
    {
      assert masked[i] == hans[i];
    }
  }

  /** When the tied decompositions all have 0 han, the masked vector is
      all zeros and its argmax is index 0 whatever its score: here the
      score is 280 from index 1 or 2, while the han and fu come from index
      0, which scores 240. */
  lemma ChooseZeroTie()
    ensures Choose([240, 280, 280], [1, 0, 0]) == 0
  {
    var scores, hans := [240, 280, 280], [1, 0, 0];
    assert MaxOf(scores) == 280 by {
      assert MaxOf(scores[..2]) == 280 by { assert scores[..2][..1] == [240]; }
    }
    assert Occurrences(scores, 280) == 2 by {
      assert scores[..2][..1] == [240];
      assert scores[..2] == [240, 280];
      assert [240, 280][..1] == [240];
    }
    var masked := seq(3, i requires 0 <= i < 3 => if scores[i] == 280 then hans[i] else 0);
    assert masked == [0, 0, 0];
  }

  /** The limit table never goes above 8000; from 5 han it is at least
      2000 and ignores the score; below 5 han it caps the score at 2000. */
  lemma LimitBounds(han: int, score: int)
    ensures Limit(han, score) <= 8000
    ensures han >= 5 ==> Limit(han, score) >= 2000 && Limit(han, score) == Limit(han, 0)
    ensures han < 5 ==> Limit(han, score) <= 2000 && Limit(han, score) <= score &&
                        (score <= 2000 ==> Limit(han, score) == score)
  {
  }

  /** More han never pays less, for the same score. */
  lemma LimitMonotone(h1: int, h2: int, score: int)
    requires h1 <= h2
    ensures Limit(h1, score) <= Limit(h2, score)
  {
  }
}
