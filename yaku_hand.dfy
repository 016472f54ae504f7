/** The `Yaku` object of `mahjong/yaku.py`: what its constructor derives
    from a hand, its dora counters, the quick yaku test and
    `calculate_yaku`. The winning table is a parameter (`yaku.py` loads
    it from a file). */
module YakuHand {
  import opened Common
  import opened HexList
  import opened PatternKey
  import opened CheckAgari
  import opened YakuRules
  import opened YakuScore

  /** `Counter([_ // 4 for _ in hand_tiles])` read at every kind. */
  function HandCounts(tiles: seq<int>): (c: seq<int>)
    ensures |c| == 34 && forall k :: 0 <= k < 34 ==> c[k] == CountKind(tiles, k)
  {
    seq(34, k => CountKind(tiles, k))
  }

  /** `[_[0] for _ in counter.items()]`: the held kinds, in the order the
      sorted hand first shows them, which is increasing kind order. */
  function HeldKinds(counts: seq<int>): (r: seq<int>)
    ensures |r| == |Items(counts)|
  {
    var items := Items(counts);
    seq(|items|, i requires 0 <= i < |items| => items[i].kind)
  }

  /** Every payload string of the winning table parses. */
  predicate TablesParse(t: AgariTables)
  {
    forall key :: key in t.standard ==> ParseHexList(t.standard[key]).Some?
  }

  /** What `calculate_yaku` gives: None (no win, or no han), the listing,
      or the failure `calculate_yaku` raises on a payload it cannot score (an
      empty list, a position outside `tiles_pos`, a sequence read outside
      `mentsu`). */
  datatype Listing = NoListing | Listed(names: seq<Entry>) | Raises

  /** `calculate_yaku` over the object's values, with the dora counters
      as `count_dora` leaves them. */
  function Calculate(a: Agari, s: Setting, e: Extras): Listing
    requires WellStored(a) && 0 <= s.kui <= 1 && e.dora >= 0 && e.ura >= 0 && e.aka >= 0
  {
    match a
    case NoAgari => NoListing
    case Kokushi =>
      Listed(YakuNames(YakumanIds([if At(s.counts, s.agarihai) == 2 then KOKUSHIJUSANMEN else KOKUSHIMUSO]), s.tsumo))
    case Payloads(hex) => PayloadListing(s, ParseHexList(hex).value, e)
  }

  /** Where the loop of `yaku` stops on its own: at a payload it cannot
      score (the failure `calculate_yaku` raises), at the first round with
      a yakuman (an early return), or after the last payload. */
  datatype Stop = Fails | YakumanRound(k: nat) | Completes

  /** One round of the loop: its result, or None when the payload cannot
      be scored. */
  function Tried(s: Setting, x: int): Option<Acc>
  {
    var info := ParseAgariInfo(x);
    if Scorable(s, info) then Some(Evaluate(s, info)) else None
  }

  /** The rounds of the loop, payload by payload. */
  function RoundTries(s: Setting, xs: seq<int>): (rs: seq<Option<Acc>>)
    ensures |rs| == |xs|
  {
    if xs == [] then [] else RoundTries(s, xs[..|xs| - 1]) + [Tried(s, xs[|xs| - 1])]
  }

  lemma {:induction false} RoundTriesAt(s: Setting, xs: seq<int>, j: int)
    requires 0 <= j < |xs|
    ensures RoundTries(s, xs)[j] == Tried(s, xs[j])
  {
    if j < |xs| - 1 {
      RoundTriesAt(s, xs[..|xs| - 1], j);
    }
  }

  /** The rounds before m are all scored without a yakuman. */
  predicate PlainUpTo(rs: seq<Option<Acc>>, m: int)
    requires 0 <= m <= |rs|
  {
    forall j :: 0 <= j < m ==> rs[j].Some? && rs[j].value.yakuman == []
  }

  /** The stop of the loop, from round k on. */
  function StopFrom(rs: seq<Option<Acc>>, k: nat): (r: Stop)
    requires k <= |rs|
    ensures r.Completes? ==> forall j :: k <= j < |rs| ==> rs[j].Some?
    ensures r.YakumanRound? ==> k <= r.k < |rs| && rs[r.k].Some? && rs[r.k].value.yakuman != []
    decreases |rs| - k
  {
    if k == |rs| then Completes
    else if rs[k].None? then Fails
    else if rs[k].value.yakuman != [] then YakumanRound(k)
    else StopFrom(rs, k + 1)
  }

  /** No scored round counts negative han. */
  predicate HansNonNegative(rs: seq<Option<Acc>>)
  {
    forall j :: 0 <= j < |rs| && rs[j].Some? ==> rs[j].value.han >= 0
  }

  lemma RoundTriesHans(s: Setting, xs: seq<int>)
    requires 0 <= s.kui <= 1
    ensures HansNonNegative(RoundTries(s, xs))
  {
    var rs := RoundTries(s, xs);
    forall j | 0 <= j < |rs| && rs[j].Some?
      ensures rs[j].value.han >= 0
    {
      RoundTriesAt(s, xs, j);
      TriedHan(s, xs[j]);
    }
  }

  lemma TriedHan(s: Setting, x: int)
    requires 0 <= s.kui <= 1
    ensures Tried(s, x).Some? ==> Tried(s, x).value.han >= 0
  {
    var info := ParseAgariInfo(x);
    if Scorable(s, info) {
      EvaluateHan(s, info);
    }
  }

  /** The results of rounds that were all scored. */
  function Values(rs: seq<Option<Acc>>): (es: seq<Acc>)
    requires forall j :: 0 <= j < |rs| ==> rs[j].Some?
    ensures |es| == |rs| && forall j :: 0 <= j < |rs| ==> rs[j] == Some(es[j])
  {
    seq(|rs|, j requires 0 <= j < |rs| => rs[j].value)
  }

  /** The names `calculate_yaku` lists for an outcome of `yaku`, or None
      when it has no han. */
  function OutcomeListing(s: Setting, o: Outcome): Listing
  {
    match o
    case YakumanWin(han, _, _, ids) => if han == 0 then NoListing else Listed(YakuNames(YakumanIds(ids), s.tsumo))
    case Scored(han, _, _, ret) => if han == 0 then NoListing else Listed(YakuNames(Flags(ret), s.tsumo))
  }

  /** The outcome of the early return for a round with a yakuman. */
  function YakumanOutcome(a: Acc): Outcome
  {
    var n := YakumanHan(a.yakuman);
    YakumanWin(n, a.fu, 8000 * n, a.yakuman)
  }

  /** What `yaku` returns for the round results rs, or None when the loop
      fails at a payload it cannot score (or at `np.max` of an empty
      list): the rounds are taken in order until the loop stops. */
  function OutcomeOf(s: Setting, rs: seq<Option<Acc>>, e: Extras): Option<Outcome>
    requires 0 <= s.kui <= 1 && e.dora >= 0 && e.ura >= 0 && e.aka >= 0 && HansNonNegative(rs)
  {
    if |rs| == 0 then None
    else
      match StopFrom(rs, 0)
      case Fails => None
      case YakumanRound(k) => Some(YakumanOutcome(rs[k].value))
      case Completes => Some(ScoreOf(s, Values(rs), e))
  }

  /** What `yaku` returns for the payloads xs, or None when it raises. */
  function PayloadOutcome(s: Setting, xs: seq<int>, e: Extras): Option<Outcome>
    requires 0 <= s.kui <= 1 && e.dora >= 0 && e.ura >= 0 && e.aka >= 0
  {
    RoundTriesHans(s, xs);
    OutcomeOf(s, RoundTries(s, xs), e)
  }

  /** The listing of an outcome, or the failure when there is none. */
  function ListingOf(s: Setting, o: Option<Outcome>): Listing
  {
    match o
    case None => Raises
    case Some(o) => OutcomeListing(s, o)
  }

  /** A standard win: the listing of the outcome unless it has no han. */
  function PayloadListing(s: Setting, xs: seq<int>, e: Extras): Listing
    requires 0 <= s.kui <= 1 && e.dora >= 0 && e.ura >= 0 && e.aka >= 0
  {
    ListingOf(s, PayloadOutcome(s, xs, e))
  }

  /** Round k: the result of payload k, or None when it cannot be scored. */
  method TryRound(s: Setting, xs: seq<int>, k: nat) returns (r: Option<Acc>)
    requires k < |xs|
    ensures r == RoundTries(s, xs)[k]
  {
    RoundTriesAt(s, xs, k);
    var info := ParseAgariInfo(xs[k]);
    if !Scorable(s, info) {
      return None;
    }
    var a := EvaluateOne(s, info);
    r := Some(a);
  }

  /** The loop of `yaku`, with its failures, in the order it meets them:
      the payloads are tried in order until one cannot be scored or has a
      yakuman; when the loop runs to the end, `ScoreLoop` settles it. */
  method RunPayloads(s: Setting, xs: seq<int>, e: Extras) returns (out: Option<Outcome>)
    requires 0 <= s.kui <= 1 && e.dora >= 0 && e.ura >= 0 && e.aka >= 0
    ensures out == PayloadOutcome(s, xs, e)
  {
    RoundTriesHans(s, xs);
    if |xs| == 0 {
      return None;
    }
    ghost var rs := RoundTries(s, xs);
    var k := 0;
    while k < |xs|
      invariant 0 <= k <= |xs| && StopFrom(rs, k) == StopFrom(rs, 0)
    {
      var r := TryRound(s, xs, k);
      if r.None? {
        StoppedAt(s, xs, e);
        return None;
      }
      if r.value.yakuman != [] {
        StoppedAt(s, xs, e);
        return Some(YakumanOutcome(r.value));
      }
      k := k + 1;
    }
    out := SettleRounds(s, xs, e);
  }

  /** The outcome at a round that stops the loop early. */
  lemma StoppedAt(s: Setting, xs: seq<int>, e: Extras)
    requires 0 <= s.kui <= 1 && e.dora >= 0 && e.ura >= 0 && e.aka >= 0 && |xs| > 0
    ensures StopFrom(RoundTries(s, xs), 0).Fails? ==> PayloadOutcome(s, xs, e) == None
    ensures var st := StopFrom(RoundTries(s, xs), 0);
      st.YakumanRound? ==> PayloadOutcome(s, xs, e) == Some(YakumanOutcome(RoundTries(s, xs)[st.k].value))
  {
    RoundTriesHans(s, xs);
  }

  /** The loop of `yaku` run to the end, once no round stopped it. */
  method SettleRounds(s: Setting, xs: seq<int>, e: Extras) returns (out: Option<Outcome>)
    requires 0 <= s.kui <= 1 && e.dora >= 0 && e.ura >= 0 && e.aka >= 0
    requires |xs| > 0 && StopFrom(RoundTries(s, xs), 0).Completes?
    ensures out == PayloadOutcome(s, xs, e)
  {
    CompletesScorable(s, xs);
    var o := ScoreLoop(s, xs, e);
    PayloadOutcomeScored(s, xs, e);
    out := Some(o);
  }

  /** The scoring half of `calculate_yaku` for a standard win. */
  method ListPayloads(s: Setting, xs: seq<int>, e: Extras) returns (r: Listing)
    requires 0 <= s.kui <= 1 && e.dora >= 0 && e.ura >= 0 && e.aka >= 0
    ensures r == PayloadListing(s, xs, e)
  {
    var res := RunPayloads(s, xs, e);
    if res.None? {
      return Raises;
    }
    var out := res.value;
    if out.han == 0 {
      return NoListing;
    }
    var ret := if out.YakumanWin? then YakumanIds(out.ids) else Flags(out.ret);
    var names := ParseYakuRet(ret, s.tsumo);
    r := Listed(names);
  }

  /** A loop that runs to the end has scored every payload. */
  lemma CompletesScorable(s: Setting, xs: seq<int>)
    requires StopFrom(RoundTries(s, xs), 0).Completes?
    ensures AllScorable(s, xs)
  {
    var rs := RoundTries(s, xs);
    forall i | 0 <= i < |xs|
      ensures Scorable(s, ParseAgariInfo(xs[i]))
    {
      RoundTriesAt(s, xs, i);
    }
  }

  /** The loop stops at a failure exactly when some round cannot be
      scored and every round before it is scored without a yakuman. */
  lemma {:induction false} StopFails(rs: seq<Option<Acc>>, k: nat)
    requires k <= |rs| && PlainUpTo(rs, k)
    ensures StopFrom(rs, k) == Fails <==> exists m :: k <= m < |rs| && PlainUpTo(rs, m) && rs[m].None?
    decreases |rs| - k
  {
    if k < |rs| {
      if rs[k].Some? && rs[k].value.yakuman == [] {
        assert PlainUpTo(rs, k + 1);
        StopFails(rs, k + 1);
        if exists m :: k <= m < |rs| && PlainUpTo(rs, m) && rs[m].None? {
          var m :| k <= m < |rs| && PlainUpTo(rs, m) && rs[m].None?;
          assert m != k;
        }
      } else if rs[k].Some? {
        assert forall m :: k < m <= |rs| ==> !PlainUpTo(rs, m);
      }
    }
  }

  /** `yaku` raises exactly when there is no payload, or when a payload
      that cannot be scored comes before any round with a yakuman: the
      payloads after a yakuman are never read. */
  lemma RoundsRaise(s: Setting, rs: seq<Option<Acc>>, e: Extras)
    requires 0 <= s.kui <= 1 && e.dora >= 0 && e.ura >= 0 && e.aka >= 0 && HansNonNegative(rs)
    ensures OutcomeOf(s, rs, e).None? <==>
      |rs| == 0 || exists m :: 0 <= m < |rs| && PlainUpTo(rs, m) && rs[m].None?
  {
    StopFails(rs, 0);
  }

  /** A round is missing exactly when its payload cannot be scored. */
  lemma RoundTriesNone(s: Setting, xs: seq<int>)
    ensures forall m :: 0 <= m < |xs| ==> (RoundTries(s, xs)[m].None? <==> !Scorable(s, ParseAgariInfo(xs[m])))
  {
    forall m | 0 <= m < |xs|
      ensures RoundTries(s, xs)[m].None? <==> !Scorable(s, ParseAgariInfo(xs[m]))
    {
      RoundTriesAt(s, xs, m);
    }
  }

  lemma {:induction false} StopAtYakuman(rs: seq<Option<Acc>>, from: nat, k: nat)
    requires from <= k < |rs| && PlainUpTo(rs, k) && rs[k].Some? && rs[k].value.yakuman != []
    ensures StopFrom(rs, from) == YakumanRound(k)
    decreases k - from
  {
    if from < k {
      StopAtYakuman(rs, from + 1, k);
    }
  }

  /** A round with a yakuman after rounds scored without one is listed by
      its yakuman names, whatever the rounds after it hold. */
  lemma EarlyYakumanListed(s: Setting, rs: seq<Option<Acc>>, e: Extras, k: nat)
    requires 0 <= s.kui <= 1 && e.dora >= 0 && e.ura >= 0 && e.aka >= 0 && HansNonNegative(rs)
    requires k < |rs| && PlainUpTo(rs, k) && rs[k].Some? && rs[k].value.yakuman != []
    ensures OutcomeOf(s, rs, e) == Some(YakumanOutcome(rs[k].value))
    ensures ListingOf(s, OutcomeOf(s, rs, e)) == Listed(YakumanNames(rs[k].value.yakuman))
  {
    StopAtYakuman(rs, 0, k);
    YakumanHanAtLeast(rs[k].value.yakuman);
  }

  /** When every round is scored, the loop gives what `ScoreOf` gives for
      their results. */
  lemma RoundsScored(s: Setting, rs: seq<Option<Acc>>, es: seq<Acc>, e: Extras)
    requires 0 <= s.kui <= 1 && e.dora >= 0 && e.ura >= 0 && e.aka >= 0 && HansNonNegative(rs)
    requires |rs| > 0 && |es| == |rs| && forall j :: 0 <= j < |rs| ==> rs[j] == Some(es[j])
    requires forall j :: 0 <= j < |es| ==> es[j].han >= 0
    ensures OutcomeOf(s, rs, e) == Some(ScoreOf(s, es, e))
  {
    var f := FirstYakuman(es, 0);
    assert PlainUpTo(rs, f);
    if f < |es| {
      StopAtYakuman(rs, 0, f);
    } else {
      StopFails(rs, 0);
      StopPlain(rs, 0);
      assert Values(rs) == es;
    }
  }

  /** Rounds all scored without a yakuman run the loop to the end. */
  lemma {:induction false} StopPlain(rs: seq<Option<Acc>>, k: nat)
    requires k <= |rs| && PlainUpTo(rs, |rs|)
    ensures StopFrom(rs, k) == Completes
    decreases |rs| - k
  {
    if k < |rs| {
      StopPlain(rs, k + 1);
    }
  }

  /** The rounds of payloads that can all be scored are their `Evals`. */
  lemma TriesAreEvals(s: Setting, xs: seq<int>)
    requires AllScorable(s, xs)
    ensures forall j :: 0 <= j < |xs| ==> RoundTries(s, xs)[j] == Some(Evals(s, xs)[j])
  {
    forall j | 0 <= j < |xs|
      ensures RoundTries(s, xs)[j] == Some(Evals(s, xs)[j])
    {
      RoundTriesAt(s, xs, j);
    }
  }

  /** When every payload can be scored, the loop gives `ScoreSpec`. */
  lemma PayloadOutcomeScored(s: Setting, xs: seq<int>, e: Extras)
    requires 0 <= s.kui <= 1 && e.dora >= 0 && e.ura >= 0 && e.aka >= 0
    requires |xs| > 0 && AllScorable(s, xs)
    ensures PayloadOutcome(s, xs, e) == Some(ScoreSpec(s, xs, e))
  {
    EvalsHan(s, xs);
    TriesAreEvals(s, xs);
    RoundTriesHans(s, xs);
    RoundsScored(s, RoundTries(s, xs), Evals(s, xs), e);
  }

  /** When every payload can be scored, the listing is that of the whole
      scoring loop of `yaku`. */
  lemma PayloadListingScored(s: Setting, xs: seq<int>, e: Extras)
    requires 0 <= s.kui <= 1 && e.dora >= 0 && e.ura >= 0 && e.aka >= 0
    requires |xs| > 0 && AllScorable(s, xs)
    ensures PayloadListing(s, xs, e) == OutcomeListing(s, ScoreSpec(s, xs, e))
  {
    PayloadOutcomeScored(s, xs, e);
  }

  /** Thirteen orphans is always listed, as the thirteen-sided wait exactly
      when the winning kind is held twice. */
  lemma KokushiListing(s: Setting, e: Extras)
    requires 0 <= s.kui <= 1 && e.dora >= 0 && e.ura >= 0 && e.aka >= 0
    ensures Calculate(Kokushi, s, e) ==
      Listed([Named(if At(s.counts, s.agarihai) == 2 then "国士十三面" else "国士无双")])
  {
    var id := if At(s.counts, s.agarihai) == 2 then KOKUSHIJUSANMEN else KOKUSHIMUSO;
    assert [id][..0] == [];
    assert YakumanNames([id]) == YakumanNames([]) + [Named(YakumanName(id).value)];
  }

  /** An outcome with yakuman is always listed, by its yakuman names. */
  lemma YakumanListed(s: Setting, rs: seq<Option<Acc>>, e: Extras)
    requires 0 <= s.kui <= 1 && e.dora >= 0 && e.ura >= 0 && e.aka >= 0 && HansNonNegative(rs)
    requires OutcomeOf(s, rs, e).Some? && OutcomeOf(s, rs, e).value.YakumanWin?
    ensures ListingOf(s, OutcomeOf(s, rs, e)) == Listed(YakumanNames(OutcomeOf(s, rs, e).value.ids))
  {
    match StopFrom(rs, 0)
    case YakumanRound(k) =>
      YakumanHanAtLeast(rs[k].value.yakuman);
    case Completes =>
      ScoreOfYakuman(s, Values(rs), e);
  }

  /** The listing half of `calculate_yaku`, once the dora are counted. */
  method ListHand(a: Agari, s: Setting, e: Extras) returns (r: Listing)
    requires WellStored(a) && 0 <= s.kui <= 1 && e.dora >= 0 && e.ura >= 0 && e.aka >= 0
    ensures r == Calculate(a, s, e)
  {
    match a
    case NoAgari =>
      r := NoListing;
    case Kokushi =>
      var id := if At(s.counts, s.agarihai) == 2 then KOKUSHIJUSANMEN else KOKUSHIMUSO;
      var names := ParseYakuRet(YakumanIds([id]), s.tsumo);
      r := Listed(names);
    case Payloads(hex) =>
      r := ListPayloads(s, ParseHexList(hex).value, e);
  }

  /** A hand being scored. The fields are those of the Python `Yaku` object; the
      calls map is a sequence of calls in insertion order. */
  class Yaku {
    var handTiles: seq<int>
    var counts: seq<int>
    var agari: Agari
    var calls: seq<Furo>
    var agarihai: int
    var riichi: int
    var bahai: int
    var menfon: int
    var tsumo: bool
    var dora: seq<int>
    var uraDora: seq<int>
    var hasAka: bool
    var doraCount: int
    var uraDoraCount: int
    var akaCount: int
    var melds: Melds
    var kui: int
    var ippatsu: int
    var tokusyu: int

    /** The counters never go negative, `kui` is 0 or 1, and a winning
        table payload parses. */
    ghost predicate Valid()
      reads this
    {
      doraCount >= 0 && uraDoraCount >= 0 && akaCount >= 0 && 0 <= kui <= 1 && WellStored(agari)
    }

    /** The values a decomposition is scored against. */
    function SettingOf(): Setting
      reads this`counts, this`melds, this`kui, this`agarihai, this`bahai, this`menfon, this`tsumo
    {
      Setting(HeldKinds(counts), counts, melds, kui, agarihai, bahai, menfon, tsumo)
    }

    /** The values the last step of `yaku` reads. */
    function ExtrasOf(): Extras
      reads this
    {
      Extras(riichi, ippatsu, tokusyu, doraCount, uraDoraCount, akaCount)
    }

    /** `__init__`: the closed hand's kind counts and the table lookup;
        for a winning hand also the calls by type and `kui`. `__init__`
        sorts the hand first; here the counts are by kind and the held
        kinds come out in increasing order, which is what the sort gives. */
    constructor(t: AgariTables, handTiles: seq<int>, calls: seq<Furo>, agarihai: int, dora: seq<int>,
                uraDora: seq<int>, bahai: int, menfon: int, tsumo: bool, riichi: int, ippatsu: int,
                tokusyu: int, aka: bool)
      requires TablesParse(t) && TypedKeys(calls)
      ensures Valid()
      ensures this.handTiles == handTiles && this.calls == calls && this.agarihai == agarihai / 4
      ensures this.dora == dora && this.uraDora == uraDora && hasAka == aka
      ensures this.bahai == bahai && this.menfon == menfon && this.tsumo == tsumo && this.riichi == riichi
      ensures counts == HandCounts(handTiles) && agari == IsAgari(t, counts)
      ensures doraCount == 0 && uraDoraCount == 0 && akaCount == 0
      ensures agari != NoAgari ==>
        melds == Melds(OfType(calls, 1), OfType(calls, 0), OfType(calls, 2), OfType(calls, 3)) &&
        kui == Kui(melds) && this.ippatsu == ippatsu && this.tokusyu == tokusyu
    {
      this.handTiles := handTiles;
      var c := HandCounts(handTiles);
      counts := c;
      agari := IsAgari(t, c);
      this.calls := calls;
      this.agarihai := agarihai / 4;
      this.riichi := riichi;
      this.bahai := bahai;
      this.menfon := menfon;
      this.tsumo := tsumo;
      this.dora := dora;
      this.uraDora := uraDora;
      hasAka := aka;
      doraCount, uraDoraCount, akaCount := 0, 0, 0;
      var m := Melds([], [], [], []);
      var k, ipp, tok := 0, 0, 0;
      if IsAgari(t, c) != NoAgari {
        m := ClassifyCalls(calls);
        k, ipp, tok := Kui(m), ippatsu, tokusyu;
      }
      melds, kui, this.ippatsu, this.tokusyu := m, k, ipp, tok;
    }

    /** The counters after one more `count_dora`: each indicated kind adds
        the number of tiles of that kind in the hand and the calls;
        ura-dora only under riichi; red fives are counted afresh when they
        are in play. */
    twostate predicate DoraCounted()
      reads this
    {
      var total := AllTiles(handTiles, calls);
      doraCount == old(doraCount) + DoraHits(total, dora) &&
      uraDoraCount == old(uraDoraCount) + (if riichi != 0 then DoraHits(total, uraDora) else 0) &&
      akaCount == if hasAka then AkaCount(total) else old(akaCount)
    }

    /** `count_dora` */
    method CountDora()
      requires Valid()
      modifies this`doraCount, this`uraDoraCount, this`akaCount
      ensures Valid()
      ensures DoraCounted()
    {
      var total := AllTiles(handTiles, calls);
      for i := 0 to |dora|
        invariant uraDoraCount == old(uraDoraCount) && akaCount == old(akaCount)
        invariant doraCount == old(doraCount) + DoraHits(total, dora[..i])
      {
        assert dora[..i + 1][..i] == dora[..i];
        doraCount := doraCount + CountKind(total, dora[i]);
      }
      assert dora[..|dora|] == dora;
      if riichi != 0 {
        for i := 0 to |uraDora|
          invariant doraCount == old(doraCount) + DoraHits(total, dora) && akaCount == old(akaCount)
          invariant uraDoraCount == old(uraDoraCount) + DoraHits(total, uraDora[..i])
        {
          assert uraDora[..i + 1][..i] == uraDora[..i];
          uraDoraCount := uraDoraCount + CountKind(total, uraDora[i]);
        }
        assert uraDora[..|uraDora|] == uraDora;
      }
      if hasAka {
        akaCount := AkaCount(total);
      }
    }

    /** `naive_check_yaku`: the payload loop is `AnyYakuFlag`. */
    method NaiveCheckYaku() returns (b: bool)
      requires Valid()
      ensures b == NaiveCheck(agari, riichi, tsumo, kui, tokusyu)
    {
      if agari.NoAgari? {
        return false;
      }
      if riichi != 0 || (tsumo && kui == 0) || tokusyu != 0 {
        return true;
      }
      if agari.Payloads? {
        var xs := ParseHexList(agari.hex).value;
        b := AnyYakuFlag(xs);
        return;
      }
      return true;
    }

    /** `calculate_yaku`: thirteen orphans by the count of the winning
        kind; a standard win counts the dora (`yaku` starts with
        `count_dora`) and scores every payload; no listing without han. */
    method CalculateYaku() returns (r: Listing)
      requires Valid()
      modifies this`doraCount, this`uraDoraCount, this`akaCount
      ensures Valid()
      ensures r == Calculate(agari, SettingOf(), ExtrasOf())
      ensures agari.Payloads? ==> DoraCounted()
      ensures !agari.Payloads? ==> doraCount == old(doraCount) && uraDoraCount == old(uraDoraCount) && akaCount == old(akaCount)
    {
      if agari.Payloads? {
        CountDora();
      }
      r := ListHand(agari, SettingOf(), ExtrasOf());
    }
  }
}
