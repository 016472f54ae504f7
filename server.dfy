/** The settlement of a finished hand in online_game/server.py
    (`GameEnvironment.game_update`): the point transfers of wins and
    draws, the riichi sticks, the honba and round counters, and the
    decision whether the game is over; and the kinds a seat may not
    discard right after a chi or a pon. Points are counted in hundreds,
    as the server counts them. */
module Server {
  import opened Common
  import opened GameRules
  import AgentModel

  /** A seat number. */
  predicate IsSeat(i: int)
  {
    0 <= i < 4
  }

  /** One entry of a win result: the winner, the seat it won from (itself
      for a self-draw) and the hand's base points. */
  datatype Win = Win(who: int, fromWho: int, score: int)

  /** How a hand ended: one or more wins, an exhaustive draw with its
      nagashi-mangan claimants and its tenpai seats, or an abortive draw. */
  datatype HandEnd =
    | Agari(wins: seq<Win>)
    | Exhausted(nagashi: seq<int>, tenpai: set<int>)
    | Aborted

  /** What the game hands to the settlement: a non-empty win list, and
      seats everywhere a seat is named. */
  predicate WellFormed(res: HandEnd)
  {
    match res
    case Agari(wins) =>
      wins != [] && forall w :: w in wins ==> IsSeat(w.who) && IsSeat(w.fromWho)
    case Exhausted(nagashi, tenpai) =>
      (forall i :: i in nagashi ==> IsSeat(i)) && (forall i :: i in tenpai ==> IsSeat(i))
    case Aborted => true
  }

  // ---------------------------------------------------------------------
  // Point transfers

  /** No transfer at all. */
  const Zero: seq<int> := [0, 0, 0, 0]

  /** Seat-by-seat addition of two transfers. */
  function Plus(a: seq<int>, b: seq<int>): (r: seq<int>)
    requires |a| == 4 && |b| == 4
    ensures |r| == 4 && Sum(r) == Sum(a) + Sum(b)
  {
    Sum4(a);
    Sum4(b);
    var r := [a[0] + b[0], a[1] + b[1], a[2] + b[2], a[3] + b[3]];
    Sum4(r);
    r
  }

  /** Adding transfers one after another is adding their sum. */
  lemma PlusAssoc(a: seq<int>, b: seq<int>, c: seq<int>)
    requires |a| == 4 && |b| == 4 && |c| == 4
    ensures Plus(Plus(a, b), c) == Plus(a, Plus(b, c))
  {
  }

  /** The points a ron costs the discarder: six or four times the base,
      rounded up to a hundred, and three hundred per honba. */
  function RonPay(w: Win, oya: int, honba: int): int
  {
    (w.score * (if w.who == oya then 6 else 4) + 90) / 100 + honba * 3
  }

  /** What seat i gains, or pays when negative, for the win w. */
  function WinShare(w: Win, oya: int, honba: int, i: int): int
  {
    if w.who == w.fromWho then
      if w.who == oya then
        var s := (w.score * 2 + 90) / 100;
        if i == w.who then s * 3 + honba * 3 else -(s + honba)
      else
        var so := (w.score * 2 + 90) / 100;
        var s := (w.score + 90) / 100;
        if i == w.who then so + s * 2 + honba * 3
        else if i == oya then -(so + honba)
        else -(s + honba)
    else
      var s := RonPay(w, oya, honba);
      if i == w.who then s else if i == w.fromWho then -s else 0
  }

  /** The transfer of one win, seat by seat. */
  function Shares(w: Win, oya: int, honba: int): seq<int>
  {
    [WinShare(w, oya, honba, 0), WinShare(w, oya, honba, 1),
     WinShare(w, oya, honba, 2), WinShare(w, oya, honba, 3)]
  }

  /** Every win moves points between seats and creates none. */
  lemma WinZeroSum(w: Win, oya: int, honba: int)
    requires IsSeat(w.who) && IsSeat(w.fromWho) && IsSeat(oya)
    ensures Sum(Shares(w, oya, honba)) == 0
  {
    Sum4(Shares(w, oya, honba));
  }

  /** A ron: the discarder pays the winner and nobody else pays. */
  lemma RonTransfer(w: Win, oya: int, honba: int, i: int)
    requires IsSeat(w.who) && IsSeat(w.fromWho) && w.who != w.fromWho && IsSeat(i)
    ensures WinShare(w, oya, honba, w.who) == RonPay(w, oya, honba)
    ensures WinShare(w, oya, honba, w.fromWho) == -WinShare(w, oya, honba, w.who)
    ensures i != w.who && i != w.fromWho ==> WinShare(w, oya, honba, i) == 0
  {
  }

  /** A self-draw: the winner takes exactly what the other three pay, the
      dealer paying the doubled share when the winner is not the dealer. */
  lemma TsumoTransfer(w: Win, oya: int, honba: int)
    requires IsSeat(w.who) && w.who == w.fromWho && IsSeat(oya)
    ensures WinShare(w, oya, honba, w.who) ==
      -(Sum(Shares(w, oya, honba)) - WinShare(w, oya, honba, w.who))
    ensures w.who != oya ==>
      WinShare(w, oya, honba, oya) == -((w.score * 2 + 90) / 100 + honba)
  {
    WinZeroSum(w, oya, honba);
  }

  /** The transfers of a list of wins, accumulated in order. */
  function WinsDelta(ws: seq<Win>, oya: int, honba: int): (r: seq<int>)
    ensures |r| == 4
  {
    if ws == [] then Zero
    else
      var n := |ws| - 1;
      Plus(WinsDelta(ws[..n], oya, honba), Shares(ws[n], oya, honba))
  }

  /** However many players win a hand, no points are created. */
  lemma {:induction false} WinsZeroSum(ws: seq<Win>, oya: int, honba: int)
    requires IsSeat(oya) && forall w :: w in ws ==> IsSeat(w.who) && IsSeat(w.fromWho)
    ensures Sum(WinsDelta(ws, oya, honba)) == 0
  {
    if ws == [] {
      Sum4(Zero);
    } else {
      var n := |ws| - 1;
      WinsZeroSum(ws[..n], oya, honba);
      assert ws[n] in ws;
      WinZeroSum(ws[n], oya, honba);
    }
  }

  /** Seat who receives the amount on top of the transfer d. */
  function Bonus(d: seq<int>, who: int, amount: int): (r: seq<int>)
    requires |d| == 4 && IsSeat(who)
    ensures |r| == 4 && Sum(r) == Sum(d) + amount
  {
    SumBump(d, who, amount);
    d[who := d[who] + amount]
  }

  /** A bonus on top of scores plus a transfer is a bonus in the transfer. */
  lemma PlusBonus(a: seq<int>, d: seq<int>, who: int, amount: int)
    requires |a| == 4 && |d| == 4 && IsSeat(who)
    ensures Bonus(Plus(a, d), who, amount) == Plus(a, Bonus(d, who, amount))
  {
  }

  /** The nagashi-mangan payment to or from seat j for claimant c, as the
      server computes it: the non-claimants pay 20 each, 40 for the
      dealer, even when the claimant is the dealer. */
  function NagashiShareAsWritten(c: int, oya: int, j: int): int
  {
    if j == c then (if j == oya then 120 else 80)
    else if j == oya then -40 else -20
  }

  /** A dealer's nagashi-mangan under the payments as written gives the
      table 60 more points than it had. */
  lemma NagashiAsWrittenCreatesPoints(oya: int)
    requires IsSeat(oya)
    ensures NagashiShareAsWritten(oya, oya, 0) + NagashiShareAsWritten(oya, oya, 1)
          + NagashiShareAsWritten(oya, oya, 2) + NagashiShareAsWritten(oya, oya, 3) == 60
  {
  }

  /** The nagashi-mangan payment to or from seat j for claimant c: the
      dealer takes 40 from each other seat; any other claimant takes 40
      from the dealer and 20 from each other seat. */
  function NagashiShare(c: int, oya: int, j: int): int
  {
    if j == c then (if j == oya then 120 else 80)
    else if j == oya || c == oya then -40 else -20
  }

  /** The transfer of one nagashi-mangan claim, seat by seat. */
  function NagashiShares(c: int, oya: int): seq<int>
  {
    [NagashiShare(c, oya, 0), NagashiShare(c, oya, 1),
     NagashiShare(c, oya, 2), NagashiShare(c, oya, 3)]
  }

  /** A nagashi-mangan claim moves points and creates none. */
  lemma NagashiZeroSum(c: int, oya: int)
    requires IsSeat(c) && IsSeat(oya)
    ensures Sum(NagashiShares(c, oya)) == 0
  {
    Sum4(NagashiShares(c, oya));
  }

  /** The transfers of all nagashi-mangan claims, accumulated in order. */
  function NagashiDelta(cs: seq<int>, oya: int): (r: seq<int>)
    ensures |r| == 4
  {
    if cs == [] then Zero
    else
      var n := |cs| - 1;
      Plus(NagashiDelta(cs[..n], oya), NagashiShares(cs[n], oya))
  }

  /** However many seats claim nagashi-mangan, no points are created. */
  lemma {:induction false} NagashiDeltaZeroSum(cs: seq<int>, oya: int)
    requires IsSeat(oya) && forall c :: c in cs ==> IsSeat(c)
    ensures Sum(NagashiDelta(cs, oya)) == 0
  {
    if cs == [] {
      Sum4(Zero);
    } else {
      var n := |cs| - 1;
      NagashiDeltaZeroSum(cs[..n], oya);
      assert cs[n] in cs;
      NagashiZeroSum(cs[n], oya);
    }
  }

  /** The tenpai payment of seat i in an exhaustive draw with the tenpai
      seats t: the 30 points the noten seats pay are split among the
      tenpai seats; nothing moves when all or none are tenpai. */
  function TenpaiShare(t: set<int>, i: int): int
  {
    if |t| < 1 || |t| >= 4 then 0
    else if i in t then 30 / |t|
    else -(30 / (4 - |t|))
  }

  /** The tenpai payments, seat by seat. */
  function TenpaiDelta(t: set<int>): seq<int>
  {
    [TenpaiShare(t, 0), TenpaiShare(t, 1), TenpaiShare(t, 2), TenpaiShare(t, 3)]
  }

  /** 1 when the seat is tenpai, else 0. */
  function Tenpai(t: set<int>, i: int): int
  {
    if i in t then 1 else 0
  }

  /** Taking a seat out of a set shrinks it by one when it was there. */
  lemma RemoveSeat(t: set<int>, i: int)
    ensures |t - {i}| == |t| - Tenpai(t, i)
  {
    if i in t {
      assert t == (t - {i}) + {i};
    } else {
      assert t - {i} == t;
    }
  }

  /** A set of seats has as many members as seats 0 to 3 that are in it. */
  lemma {:induction false} SeatSetSize(t: set<int>)
    requires forall i :: i in t ==> IsSeat(i)
    ensures |t| == Tenpai(t, 0) + Tenpai(t, 1) + Tenpai(t, 2) + Tenpai(t, 3)
  {
    var t1 := t - {0};
    var t2 := t1 - {1};
    var t3 := t2 - {2};
    RemoveSeat(t, 0);
    RemoveSeat(t1, 1);
    RemoveSeat(t2, 2);
    RemoveSeat(t3, 3);
    assert t3 - {3} == {} by {
      forall i | i in t3 - {3} ensures false {
      }
    }
    assert Tenpai(t1, 1) == Tenpai(t, 1) && Tenpai(t2, 2) == Tenpai(t, 2);
    assert Tenpai(t3, 3) == Tenpai(t, 3);
  }

  /** The tenpai payments move points and create none. */
  lemma TenpaiZeroSum(t: set<int>)
    requires forall i :: i in t ==> IsSeat(i)
    ensures Sum(TenpaiDelta(t)) == 0
  {
    Sum4(TenpaiDelta(t));
    SeatSetSize(t);
    if 1 <= |t| < 4 {
      var n := |t|;
      assert n == 1 || n == 2 || n == 3;
    }
  }

  // ---------------------------------------------------------------------
  // The whole hand

  /** Whether the deal passes to the next seat: not when the dealer won,
      not when the dealer is tenpai in an exhaustive draw, and never
      after an abortive draw. */
  predicate ChangeOya(res: HandEnd, oya: int)
  {
    match res
    case Agari(wins) => NoDealerWin(wins, oya)
    case Exhausted(_, tenpai) => oya !in tenpai
    case Aborted => false
  }

  /** None of the wins is the dealer's, checked win by win. */
  predicate NoDealerWin(ws: seq<Win>, oya: int)
  {
    ws == [] || (NoDealerWin(ws[..|ws| - 1], oya) && ws[|ws| - 1].who != oya)
  }

  /** The win-by-win check means no winner is the dealer. */
  lemma {:induction false} NoDealerWinMeans(ws: seq<Win>, oya: int)
    ensures NoDealerWin(ws, oya) <==> forall w :: w in ws ==> w.who != oya
  {
    if ws != [] {
      var n := |ws| - 1;
      NoDealerWinMeans(ws[..n], oya);
      assert ws == ws[..n] + [ws[n]];
    }
  }

  /** The honba counter after the hand: reset by a win that passes the
      deal, otherwise one more. */
  function NextHonba(res: HandEnd, oya: int, honba: int): int
  {
    if res.Agari? && ChangeOya(res, oya) then 0 else honba + 1
  }

  /** The riichi sticks left on the table after the hand: a win takes
      them, a draw leaves them. */
  function Sticks(res: HandEnd, riichiBa: int): int
  {
    if res.Agari? then 0 else riichiBa
  }

  /** The whole point transfer of a hand, the `score_delta` of the
      server: the wins with the sticks to the first winner, the
      nagashi-mangan claims, or the tenpai payments. */
  function HandDelta(res: HandEnd, oya: int, honba: int, riichiBa: int): (r: seq<int>)
    requires WellFormed(res)
    ensures |r| == 4
  {
    match res
    case Agari(wins) =>
      var d := WinsDelta(wins, oya, honba);
      assert wins[0] in wins;
      Bonus(d, wins[0].who, riichiBa * 10)
    case Exhausted(nagashi, tenpai) =>
      if nagashi != [] then NagashiDelta(nagashi, oya) else TenpaiDelta(tenpai)
    case Aborted => Zero
  }

  /** A hand creates no points: all it hands out beyond what the seats
      pay is the riichi sticks a winner collects. */
  lemma HandDeltaSum(res: HandEnd, oya: int, honba: int, riichiBa: int)
    requires WellFormed(res) && IsSeat(oya)
    ensures Sum(HandDelta(res, oya, honba, riichiBa)) ==
      riichiBa * 10 - Sticks(res, riichiBa) * 10
  {
    match res
    case Agari(wins) =>
      WinsZeroSum(wins, oya, honba);
    case Exhausted(nagashi, tenpai) =>
      if nagashi != [] {
        NagashiDeltaZeroSum(nagashi, oya);
      } else {
        TenpaiZeroSum(tenpai);
      }
    case Aborted =>
      Sum4(Zero);
  }

  // ---------------------------------------------------------------------
  // The end of the game

  /** The highest of the scores. */
  function Max(s: seq<int>): (m: int)
    requires s != []
    ensures m in s && forall x :: x in s ==> x <= m
  {
    if |s| == 1 then s[0]
    else
      var m := Max(s[1..]);
      assert forall x :: x in s ==> x == s[0] || x in s[1..];
      if s[0] >= m then s[0] else m
  }

  /** `get_rank()[0][0]`: the seat ranked first. */
  function Leader(s: seq<int>): int
    requires s != []
  {
    var r := RankOrder(Enumerate(s));
    assert |r| == |s| by {
      assert |multiset(r)| == |multiset(Enumerate(s))|;
    }
    r[0].seat
  }

  /** The seat ranked first is the first seat holding the top score. */
  lemma LeaderIsArgMax(s: seq<int>)
    requires s != []
    ensures Leader(s) == ArgMax(s)
  {
    var e := Enumerate(s);
    var r := RankOrder(e);
    RankOrderRanked(s);
    assert |r| == |s| by {
      assert |multiset(r)| == |multiset(e)|;
    }
    var f := ArgMax(s);
    assert r[0] in multiset(e);
    var k :| 0 <= k < |e| && e[k] == r[0];
    assert e[f] in multiset(r);
    var q :| 0 <= q < |r| && r[q] == e[f];
    if q != 0 {
      assert false;
    }
  }

  /** Whether `game_update` reports the game over, from the scores after
      the hand, the round counter after it and whether the deal passed:
      a score below the minimum, the twelfth round passed, or the last
      rounds with a top score of 300 and either a new dealer or a dealer
      in the lead. */
  predicate Over(s: seq<int>, round: int, changeOya: bool, oya: int, minScore: int)
    requires |s| == 4
  {
    if AgentModel.Min(s) * 100 < minScore then true
    else if round > 11 then true
    else if round > 7 || (round == 7 && !changeOya) then
      if Max(s) < 300 then false
      else if changeOya then true
      else Leader(s) == oya
    else false
  }

  /** The game ends with a new dealer in the last rounds while sticks
      are on the table: the leader collects them. */
  predicate PaysLeftover(s: seq<int>, round: int, changeOya: bool, minScore: int, sticks: int)
    requires |s| == 4
  {
    AgentModel.Min(s) * 100 >= minScore && round <= 11 && round > 7
    && Max(s) >= 300 && changeOya && sticks != 0
  }

  /** The game ends only when `Over` says so: a kept deal in the seventh
      round or later, with the dealer not in the lead and every score at
      least the minimum, plays on. */
  lemma DealerBehindPlaysOn(s: seq<int>, round: int, oya: int, minScore: int)
    requires |s| == 4 && 7 <= round <= 11 && AgentModel.Min(s) * 100 >= minScore
    requires IsSeat(oya) && s[oya] < Max(s)
    ensures !Over(s, round, false, oya, minScore)
  {
    LeaderIsArgMax(s);
  }

  // ---------------------------------------------------------------------
  // The server's state

  /** The part of the server that `game_update` changes: the seats'
      scores, the honba and riichi-stick counters and the round. */
  class GameEnvironment {
    const minScore: int
    var scores: seq<int>
    var honba: int
    var riichiBa: int
    var round: int

    predicate Valid()
      reads this
    {
      |scores| == 4
    }

    constructor (minScore: int, scores: seq<int>)
      requires |scores| == 4
      ensures Valid() && this.minScore == minScore && this.scores == scores
      ensures honba == 0 && riichiBa == 0 && round == 0
    {
      this.minScore := minScore;
      this.scores := scores;
      honba := 0;
      riichiBa := 0;
      round := 0;
    }

    /** `game_update`: settle the hand, move the counters, and report
        whether the game is over together with the transfer. */
    method GameUpdate(res: HandEnd, gameHonba: int, gameRiichiBa: int, oya: int)
        returns (over: bool, delta: seq<int>)
      requires Valid() && WellFormed(res) && IsSeat(oya)
      modifies this`scores, this`honba, this`riichiBa, this`round
      ensures Valid()
      ensures delta == HandDelta(res, oya, gameHonba, gameRiichiBa)
      ensures honba == NextHonba(res, oya, gameHonba)
      ensures round == old(round) + (if ChangeOya(res, oya) then 1 else 0)
      ensures var s := Plus(old(scores), delta);
        && over == Over(s, round, ChangeOya(res, oya), oya, minScore)
        && if PaysLeftover(s, round, ChangeOya(res, oya), minScore, Sticks(res, gameRiichiBa)) then
             scores == Bonus(s, ArgMax(s), Sticks(res, gameRiichiBa) * 10) && riichiBa == 0
           else
             scores == s && riichiBa == Sticks(res, gameRiichiBa)
      ensures Sum(scores) + riichiBa * 10 == Sum(old(scores)) + gameRiichiBa * 10
    {
      var changeOya;
      var sc := scores;
      match res {
        case Agari(wins) =>
          sc, delta, changeOya := SettleWins(sc, wins, oya, gameHonba, gameRiichiBa);
          riichiBa := 0;
          honba := if changeOya then 0 else gameHonba + 1;
        case Exhausted(nagashi, tenpai) =>
          sc, delta, changeOya := SettleDraw(sc, nagashi, tenpai, oya);
          riichiBa := gameRiichiBa;
          honba := gameHonba + 1;
        case Aborted =>
          delta, changeOya := Zero, false;
          riichiBa := gameRiichiBa;
          honba := gameHonba + 1;
      }
      assert sc == Plus(scores, delta);
      HandDeltaSum(res, oya, gameHonba, gameRiichiBa);
      if changeOya {
        round := round + 1;
      }
      scores := sc;
      over := CloseGame(oya, changeOya);
    }

    /** The end-of-game test of `game_update`, paying leftover sticks to
        the leader when the game ends with a new dealer. */
    method CloseGame(oya: int, changeOya: bool) returns (over: bool)
      requires Valid() && IsSeat(oya)
      modifies this`scores, this`riichiBa
      ensures Valid()
      ensures over == Over(old(scores), round, changeOya, oya, minScore)
      ensures if PaysLeftover(old(scores), round, changeOya, minScore, old(riichiBa)) then
          scores == Bonus(old(scores), ArgMax(old(scores)), old(riichiBa) * 10) && riichiBa == 0
        else
          scores == old(scores) && riichiBa == old(riichiBa)
      ensures Sum(scores) + riichiBa * 10 == Sum(old(scores)) + old(riichiBa) * 10
    {
      if AgentModel.Min(scores) * 100 < minScore {
        return true;
      }
      if round > 11 {
        return true;
      }
      if round > 7 || (round == 7 && !changeOya) {
        if Max(scores) < 300 {
          return false;
        }
        if changeOya {
          if riichiBa != 0 {
            var winner := ArgMax(scores);
            scores := Bonus(scores, winner, riichiBa * 10);
            riichiBa := 0;
          }
          return true;
        }
        var winner := Leader(scores);
        return winner == oya;
      }
      return false;
    }
  }

  /** Add one transfer to the scores and to the running delta, seat by
      seat. */
  method Pay(sc: seq<int>, delta: seq<int>, shares: seq<int>)
      returns (sc': seq<int>, delta': seq<int>)
    requires |sc| == 4 && |delta| == 4 && |shares| == 4
    ensures sc' == Plus(sc, shares) && delta' == Plus(delta, shares)
  {
    sc', delta' := sc, delta;
    for i := 0 to 4
      invariant |sc'| == 4 && |delta'| == 4
      invariant forall j :: 0 <= j < 4 ==>
        sc'[j] == sc[j] + (if j < i then shares[j] else 0)
      invariant forall j :: 0 <= j < 4 ==>
        delta'[j] == delta[j] + (if j < i then shares[j] else 0)
    {
      sc' := sc'[i := sc'[i] + shares[i]];
      delta' := delta'[i := delta'[i] + shares[i]];
    }
  }

  /** The win branch of `game_update`: every win in turn, then the sticks
      to the first winner. */
  method SettleWins(sc: seq<int>, wins: seq<Win>, oya: int, honba: int, riichiBa: int)
      returns (sc': seq<int>, delta: seq<int>, changeOya: bool)
    requires |sc| == 4 && WellFormed(Agari(wins))
    ensures delta == HandDelta(Agari(wins), oya, honba, riichiBa)
    ensures sc' == Plus(sc, delta)
    ensures changeOya == ChangeOya(Agari(wins), oya)
  {
    sc', delta, changeOya := sc, Zero, true;
    var k := 0;
    while k < |wins|
      invariant k <= |wins|
      invariant delta == WinsDelta(wins[..k], oya, honba)
      invariant sc' == Plus(sc, delta)
      invariant changeOya == NoDealerWin(wins[..k], oya)
    {
      var w := wins[k];
      assert wins[..k + 1][..k] == wins[..k];
      PlusAssoc(sc, delta, Shares(w, oya, honba));
      sc', delta := Pay(sc', delta, Shares(w, oya, honba));
      if w.who == oya {
        changeOya := false;
      }
      k := k + 1;
    }
    assert wins[..k] == wins;
    assert wins[0] in wins;
    if riichiBa != 0 {
      PlusBonus(sc, delta, wins[0].who, riichiBa * 10);
      sc' := Bonus(sc', wins[0].who, riichiBa * 10);
      delta := Bonus(delta, wins[0].who, riichiBa * 10);
    }
  }

  /** The exhaustive-draw branch of `game_update`: nagashi-mangan claims
      if there are any, else the tenpai payments. */
  method SettleDraw(sc: seq<int>, nagashi: seq<int>, tenpai: set<int>, oya: int)
      returns (sc': seq<int>, delta: seq<int>, changeOya: bool)
    requires |sc| == 4 && WellFormed(Exhausted(nagashi, tenpai))
    ensures delta == HandDelta(Exhausted(nagashi, tenpai), oya, 0, 0)
    ensures sc' == Plus(sc, delta)
    ensures changeOya == ChangeOya(Exhausted(nagashi, tenpai), oya)
  {
    changeOya := oya !in tenpai;
    sc', delta := sc, Zero;
    if nagashi != [] {
      var k := 0;
      while k < |nagashi|
        invariant k <= |nagashi|
        invariant delta == NagashiDelta(nagashi[..k], oya)
        invariant sc' == Plus(sc, delta)
      {
        assert nagashi[..k + 1][..k] == nagashi[..k];
        PlusAssoc(sc, delta, NagashiShares(nagashi[k], oya));
        sc', delta := Pay(sc', delta, NagashiShares(nagashi[k], oya));
        k := k + 1;
      }
      assert nagashi[..k] == nagashi;
    } else {
      sc', delta := Pay(sc', delta, TenpaiDelta(tenpai));
    }
  }

  // ---------------------------------------------------------------------
  // Banned discards after a call

  /** The kinds banned after chi-ing tileId into the run pattern, as the
      server computes them: the claimed kind, and the kind three above
      the run's low end when the low end was claimed, or one below it
      when the high end was claimed. */
  function BannedAfterChiAsWritten(banned: seq<int>, tileId: int, pattern: seq<int>): seq<int>
    requires pattern != []
  {
    var p := AgentModel.Min(pattern) / 4;
    var t := tileId / 4;
    banned + [t]
    + (if t == p && p % 9 != 7 then [p + 3]
       else if t == p + 2 && p % 9 != 0 then [p - 1]
       else [])
  }

  /** Chi-ing the 7 of a 7-8-9 run in characters bans the 1 of circles,
      a kind that no discard could have completed the run with. */
  lemma ChiBanLeavesSuit()
    ensures BannedAfterChiAsWritten([], 24, [24, 28, 32]) == [6, 9]
    ensures 6 / 9 != 9 / 9
  {
    assert AgentModel.Min([24, 28, 32]) == 24;
  }

  /** The kinds banned after a chi: the claimed kind, and the kind three
      above the run's low end when the low end was claimed and that kind
      exists in the suit, or one below the run when the high end was
      claimed and that kind exists. */
  function BannedAfterChi(banned: seq<int>, tileId: int, pattern: seq<int>): seq<int>
    requires pattern != []
  {
    var p := AgentModel.Min(pattern) / 4;
    var t := tileId / 4;
    banned + [t]
    + (if t == p && p % 9 < 6 then [p + 3]
       else if t == p + 2 && p % 9 != 0 then [p - 1]
       else [])
  }

  /** The pattern is a chi: three ids whose kinds are a run p, p+1, p+2
      in one numbered suit. */
  predicate ChiPattern(pattern: seq<int>, p: int)
  {
    |pattern| == 3 && 0 <= p < 27 && p % 9 <= 6
    && pattern[0] / 4 == p && pattern[1] / 4 == p + 1 && pattern[2] / 4 == p + 2
  }

  /** After a chi the claimed kind is banned, and any other banned kind is
      the suji of the claimed tile in the same suit, banned exactly when
      the claimed tile is an end of the run with that kind beyond it. */
  lemma ChiBanStaysInSuit(banned: seq<int>, tileId: int, pattern: seq<int>, p: int)
    requires ChiPattern(pattern, p) && tileId in pattern
    ensures var r := BannedAfterChi(banned, tileId, pattern);
      var t := tileId / 4;
      && r[..|banned| + 1] == banned + [t]
      && (forall k :: k in r[|banned| + 1..] ==> k / 9 == t / 9 && (k == t + 3 || k == t - 3))
      && (t + 3 in r[|banned| + 1..] <==> t == p && p % 9 < 6)
      && (t - 3 in r[|banned| + 1..] <==> t == p + 2 && p % 9 != 0)
  {
    ChiLowKind(pattern, p);
  }

  /** The lowest id of a chi pattern is of the run's low kind. */
  lemma ChiLowKind(pattern: seq<int>, p: int)
    requires ChiPattern(pattern, p)
    ensures AgentModel.Min(pattern) / 4 == p
  {
    var m := AgentModel.Min(pattern);
    forall x | x in pattern
      ensures x / 4 >= p
    {
      var i :| 0 <= i < 3 && pattern[i] == x;
    }
    assert m <= pattern[0];
  }

  /** The kinds banned after a pon: the claimed kind. */
  function BannedAfterPon(banned: seq<int>, tileId: int): (r: seq<int>)
    ensures |r| == |banned| + 1 && r[..|banned|] == banned && r[|banned|] == tileId / 4
  {
    banned + [tileId / 4]
  }
}
