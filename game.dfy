/** The table of mahjong/game.py: the wall, the dealer and round, the
    bonus indicators, the kan counts, the tiles every seat can see, and
    the four seats, with the moves that change them. The shuffle and the
    dice are inputs. */
module GameModel {
  import opened Common
  import opened Utils
  import opened CheckAgari
  import opened AgentModel
  import opened GameRules

  class MahjongGame {
    const agari: AgariTables
    const waiting: MachiTables
    const isPlayback: bool

    var yama: seq<int>
    var leftNum: int
    var hasAka: bool
    var round: int
    var roundWind: int
    var honba: int
    var riichiBa: int
    var doraIndicator: seq<int>
    var dora: seq<int>
    var uraDoraIndicator: seq<int>
    var uraDora: seq<int>
    var oya: int
    var kangNum: seq<int>
    var agents: seq<Agent>
    var ranks: seq<int>
    var visible: map<int, int>
    var firstRound: bool

    /** Four distinct seats, each consistent and reading the table's own
        tables, four kan counts, and a wall of ids. */
    ghost predicate Valid()
      reads this`agents, this`kangNum, this`yama, agents
    {
      SeatsReady(agents, agari, waiting) && |kangNum| == 4 && AllIds(yama)
    }

    function Scores(): seq<int>
      reads this`agents, agents
      requires |agents| == 4
    {
      ScoresOf(agents)
    }

    /** `get_rank()`: every seat with its score, highest score first and
        equal scores in seat order. */
    function GetRank(): (r: seq<SeatScore>)
      reads this`agents, agents
      requires |agents| == 4
      ensures Ranked(r) && multiset(r) == multiset(Enumerate(Scores()))
    {
      RankOrderRanked(Scores());
      RankOrder(Enumerate(Scores()))
    }

    /** `MahjongGame(has_aka, is_playback)`: four seats of 25000 points
        with empty hands. */
    constructor (hasAka: bool, isPlayback: bool, agari: AgariTables, waiting: MachiTables)
      ensures Valid() && this.hasAka == hasAka && this.isPlayback == isPlayback
      ensures yama == [] && leftNum == 0 && round == 0 && roundWind == 27 && honba == 0 && riichiBa == 0
      ensures doraIndicator == [] && dora == [] && uraDoraIndicator == [] && uraDora == [] && oya == 0
      ensures kangNum == [0, 0, 0, 0] && ranks == [0, 1, 2, 3] && visible == map[] && firstRound
      ensures forall i :: 0 <= i < 4 ==> agents[i].score == 250 && agents[i].tiles == {} && agents[i].menfon == 27 + i
      ensures fresh(agents[0]) && fresh(agents[1]) && fresh(agents[2]) && fresh(agents[3])
    {
      var seats := MakeSeats([250, 250, 250, 250], [[], [], [], []], 0, isPlayback, agari, waiting);
      this.agari := agari;
      this.waiting := waiting;
      this.isPlayback := isPlayback;
      this.hasAka := hasAka;
      yama := [];
      leftNum := 0;
      round := 0;
      roundWind := 27;
      honba := 0;
      riichiBa := 0;
      doraIndicator := [];
      dora := [];
      uraDoraIndicator := [];
      uraDora := [];
      oya := 0;
      kangNum := [0, 0, 0, 0];
      agents := seats;
      ranks := [0, 1, 2, 3];
      visible := map[];
      firstRound := true;
    }

    /** The state every hand starts from: 70 tiles left to draw, the
        round's wind, the sticks, the dealer, one dora indicator shown
        with its bonus kind, the ura indicators set aside, no kans, and
        the first go-round under way. */
    ghost predicate HandStart(r: int, h: int, riichi: int, dealer: int, doraInd: int, ura: seq<int>)
      reads this`leftNum, this`round, this`roundWind, this`honba, this`riichiBa, this`oya
      reads this`doraIndicator, this`dora, this`uraDoraIndicator, this`uraDora, this`kangNum, this`firstRound
      requires -16 <= r < 16
    {
      leftNum == 70 && round == r && roundWind == RoundWind(r) && honba == h && riichiBa == riichi &&
      oya == dealer && doraIndicator == [doraInd] && dora == [GetDora(doraInd)] &&
      uraDoraIndicator == ura && uraDora == Doras(ura) && kangNum == [0, 0, 0, 0] && firstRound
    }

    /** The assignments `init_from_info` and `new_game` share. */
    method StartHand(r: int, h: int, riichi: int, dealer: int, doraInd: int, ura: seq<int>)
      requires -16 <= r < 16
      modifies this`leftNum, this`round, this`roundWind, this`honba, this`riichiBa, this`oya
      modifies this`doraIndicator, this`dora, this`uraDoraIndicator, this`uraDora, this`kangNum, this`firstRound
      ensures HandStart(r, h, riichi, dealer, doraInd, ura)
    {
      leftNum := 136 - 13 * 4 - 14;
      round := r;
      roundWind := RoundWind(r);
      honba := h;
      riichiBa := riichi;
      doraIndicator := [doraInd];
      dora := [GetDora(doraInd)];
      uraDoraIndicator := ura;
      uraDora := Doras(ura);
      oya := dealer;
      kangNum := [0, 0, 0, 0];
      firstRound := true;
    }

    /** `init_from_info(init_info, has_aka)` for playback, with the log's
        fields already read as numbers: the round r, honba, riichi sticks,
        the dora indicator, the dealer, the scores and the hands. */
    method InitFromInfo(r: int, h: int, riichi: int, doraInd: int, dealer: int,
                        scores: seq<int>, hands: seq<seq<int>>, hasAka: bool)
      requires -16 <= r < 16 && |scores| == 4 && |hands| == 4
      requires forall i :: 0 <= i < 4 ==> Distinct(hands[i]) && AllIds(hands[i])
      modifies this
      ensures Valid() && yama == [] && this.hasAka == hasAka && HandStart(r, h, riichi, dealer, doraInd, [])
      ensures forall i :: 0 <= i < 4 ==> (fresh(agents[i]) && agents[i].score == scores[i] &&
        agents[i].tiles == IdSet(hands[i]) && agents[i].menfon == 27 + (i - r % 4) % 4)
      ensures RanksBy(ranks, scores) && visible == map[doraInd / 4 := 1]
    {
      yama := [];
      this.hasAka := hasAka;
      StartHand(r, h, riichi, dealer, doraInd, []);
      visible := map[doraInd / 4 := 1];
      SeatHands(r, scores, hands);
    }

    /** The seats of `init_from_info`: seat i gets score i, hand i and the
        wind of i places after the round's dealer; ranks follow the scores. */
    method SeatHands(r: int, scores: seq<int>, hands: seq<seq<int>>)
      requires |scores| == 4 && |hands| == 4
      requires forall i :: 0 <= i < 4 ==> Distinct(hands[i]) && AllIds(hands[i])
      modifies this`agents, this`ranks
      ensures SeatsReady(agents, agari, waiting)
      ensures forall i :: 0 <= i < 4 ==> (fresh(agents[i]) && agents[i].score == scores[i] &&
        agents[i].tiles == IdSet(hands[i]) && agents[i].menfon == 27 + (i - r % 4) % 4)
      ensures RanksBy(ranks, scores)
    {
      ranks := PlaceSeats(scores);
      var seats := MakeSeats(scores, hands, r, isPlayback, agari, waiting);
      agents := seats;
    }

    /** `new_game(game_round, honba, riichi_ba)` with the shuffled wall and
        the two dice given: the wall is broken at the dice, the dora and
        ura indicators are the 6th and 5th tiles from its end, and the
        seat i places after the dealer gets wind 27+i and the ids at its
        deal positions. */
    method NewGame(gameRound: int, honba: int, riichiBa: int, wall: seq<int>, dice1: int, dice2: int)
      requires |agents| == 4
      requires |wall| == 136 && Distinct(wall) && AllIds(wall)
      requires 1 <= dice1 <= 6 && 1 <= dice2 <= 6 && -16 <= gameRound < 16
      modifies this
      ensures Valid()
      ensures Opened(Cut(wall, BreakAt(dice1 + dice2)), gameRound, honba, riichiBa)
      ensures DealtSeats(agents, Cut(wall, BreakAt(dice1 + dice2)), gameRound % 4, old(Scores()))
      ensures forall i :: 0 <= i < 4 ==> fresh(agents[i])
      ensures RanksBy(ranks, old(Scores()))
    {
      OpenWall(wall, dice1 + dice2, gameRound, honba, riichiBa);
      DealSeats(wall, BreakAt(dice1 + dice2), gameRound % 4);
    }

    /** The wall past the deal of the turned wall cut, the dora indicator
        (its 6th tile from the end) visible to all, the ura indicator
        (the 5th) set aside, and the start of hand gameRound. */
    ghost predicate Opened(cut: seq<int>, gameRound: int, honba: int, riichiBa: int)
      reads this`yama, this`visible
      reads this`leftNum, this`round, this`roundWind, this`honba, this`riichiBa, this`oya
      reads this`doraIndicator, this`dora, this`uraDoraIndicator, this`uraDora, this`kangNum, this`firstRound
      requires |cut| == 136 && -16 <= gameRound < 16
    {
      yama == cut[52..] && visible == map[PyIndex(cut, -6) / 4 := 1] &&
      HandStart(gameRound, honba, riichiBa, gameRound % 4, PyIndex(cut, -6), [PyIndex(cut, -5)])
    }

    /** The wall and round state `new_game` sets: the wall past the deal,
        the dora indicator visible to all, and the start of a hand. */
    method OpenWall(wall: seq<int>, dice: int, gameRound: int, honba: int, riichiBa: int)
      requires |wall| == 136 && Distinct(wall) && AllIds(wall) && -16 <= gameRound < 16
      modifies this`yama, this`visible
      modifies this`leftNum, this`round, this`roundWind, this`honba, this`riichiBa, this`oya
      modifies this`doraIndicator, this`dora, this`uraDoraIndicator, this`uraDora, this`kangNum, this`firstRound
      ensures Opened(Cut(wall, BreakAt(dice)), gameRound, honba, riichiBa) && AllIds(yama)
    {
      var cut := Cut(wall, BreakAt(dice));
      CutKeepsIds(wall, BreakAt(dice));
      var d := PyIndex(cut, -6);
      var u := PyIndex(cut, -5);
      yama := cut[52..];
      visible := map[d / 4 := 1];
      StartHand(gameRound, honba, riichiBa, gameRound % 4, d, [u]);
    }

    /** The loop of `new_game` that replaces the seat i places after the
        dealer by a new seat with its deal, keeping its score, and the
        ranking of the seats by those scores. */
    method DealSeats(wall: seq<int>, startPos: int, dealer: int)
      requires |agents| == 4 && |wall| == 136 && Distinct(wall) && AllIds(wall)
      modifies this`agents, this`ranks
      ensures SeatsReady(agents, agari, waiting) && DealtSeats(agents, Cut(wall, startPos), dealer, old(Scores()))
      ensures forall i :: 0 <= i < 4 ==> fresh(agents[i])
      ensures RanksBy(ranks, old(Scores()))
    {
      CutKeepsIds(wall, startPos);
      ranks := PlaceSeats(Scores());
      var seats := DealRound(agents, Cut(wall, startPos), dealer, agari, waiting);
      agents := seats;
    }

    // -------------------------------------------------------------------
    // Moves

    /** `new_dora(dora)`: the indicator is appended with its bonus kind and
        becomes visible. With none given it is turned over from the dead
        wall, two places further in per indicator shown and one back per
        kan made, and the ura indicator beside it is set aside; false where
        either index falls outside the wall (Python's IndexError), and
        then nothing changes. */
    method NewDora(given: Option<int>) returns (ok: bool)
      requires Valid()
      modifies this`doraIndicator, this`dora, this`uraDoraIndicator, this`uraDora, this`visible
      ensures Valid()
      ensures var i := DoraIndex(|old(dora)|, Sum(kangNum));
        ok <==> given.Some? || (InRange(|yama|, i) && InRange(|yama|, i + 1))
      ensures !ok ==> (doraIndicator == old(doraIndicator) && dora == old(dora) && visible == old(visible) &&
        uraDoraIndicator == old(uraDoraIndicator) && uraDora == old(uraDora))
      ensures ok ==> var i := DoraIndex(|old(dora)|, Sum(kangNum));
        var d := if given.Some? then given.value else PyIndex(yama, i);
        doraIndicator == old(doraIndicator) + [d] && dora == old(dora) + [GetDora(d)] &&
        visible == Bump(old(visible), d / 4, 1) &&
        (given.Some? ==> uraDoraIndicator == old(uraDoraIndicator) && uraDora == old(uraDora)) &&
        (given.None? ==> (uraDoraIndicator == old(uraDoraIndicator) + [PyIndex(yama, i + 1)] &&
           uraDora == old(uraDora) + [GetDora(PyIndex(yama, i + 1))]))
    {
      var d: int;
      if given.None? {
        var i := DoraIndex(|dora|, Sum(kangNum));
        if !InRange(|yama|, i) || !InRange(|yama|, i + 1) {
          return false;
        }
        d := PyIndex(yama, i);
        var u := PyIndex(yama, i + 1);
        uraDoraIndicator := uraDoraIndicator + [u];
        uraDora := uraDora + [GetDora(u)];
      } else {
        d := given.value;
      }
      doraIndicator := doraIndicator + [d];
      dora := dora + [GetDora(d)];
      visible := Bump(visible, d / 4, 1);
      ok := true;
    }

    /** `declare_furo(who, meld_code)` in playback: the call the code
        encodes is made by seat who; false where `parse_meld` yields
        nothing to unpack (Python's TypeError), and then nothing changes. */
    method DeclareFuro(who: int, m: nat) returns (ok: bool)
      requires Valid() && 0 <= who < 4
      requires ParseMeld(m).Some? ==> AllIds(ParseMeld(m).value.ids) && IsId(ParseMeld(m).value.claimed)
      modifies this`kangNum, this`visible, agents[who]
      ensures Valid()
      ensures ok <==> ParseMeld(m).Some?
      ensures !ok ==> kangNum == old(kangNum) && visible == old(visible) && unchanged(agents[who])
      ensures ok ==> var x := ParseMeld(m).value;
        var a := agents[who];
        (x.kind == 0 ==> visible == ChiShown(old(visible), x.ids, x.claimed)) &&
        (x.kind == 1 ==> visible == Bump(old(visible), x.claimed / 4, 2)) &&
        (x.kind <= 1 ==> a.kui && a.kuiInfo == old(a.kuiInfo) + [[Some(x.claimed), Some((who + x.source) % 4)]]) &&
        (x.kind == 0 ==> Chied(a, old(a.furo), old(a.kuiInfo), old(a.tiles), x.ids, x.claimed, Some((who + x.source) % 4))) &&
        (x.kind == 1 ==> Poned(a, old(a.furo), old(a.kuiInfo), old(a.tiles), x.ids, x.claimed, Some((who + x.source) % 4))) &&
        (x.kind <= 1 ==> kangNum == old(kangNum)) &&
        (x.kind >= 2 ==> (a.counter == old(a.counter).CleanPut(x.ids[0] / 4, 0) &&
           kangNum == old(kangNum)[who := old(kangNum)[who] + 1] && visible == old(visible)[x.ids[0] / 4 := 4] &&
           Kanned(a, old(a.furo), old(a.kuiInfo), old(a.kui), old(a.tiles), x.ids,
             if x.kind == 2 then Some(x.claimed) else None, if x.kind == 3 then Some(x.claimed) else None,
             Some((who + x.source) % 4), if x.kind == 2 then 2 else if x.kind == 3 then 1 else 0))) &&
        (x.kind == 2 ==> a.tiles == old(a.tiles) - {x.claimed}) &&
        (x.kind != 2 ==> a.tiles == old(a.tiles) - IdSet(x.ids))
    {
      var parsed := ParseMeld(m);
      if parsed.None? {
        return false;
      }
      Claim(who, parsed.value);
      ok := true;
    }

    /** The dispatch of `declare_furo` on a parsed call x: a chi, a pon, or
        an added, open or concealed kan, claimed from the seat `source`
        places after who. */
    method Claim(who: int, x: Meld)
      requires Valid() && 0 <= who < 4 && x.kind <= 4 && |x.ids| >= 3 && AllIds(x.ids) && IsId(x.claimed)
      modifies this`kangNum, this`visible, agents[who]
      ensures Valid()
      ensures var a := agents[who];
        (x.kind == 0 ==> visible == ChiShown(old(visible), x.ids, x.claimed)) &&
        (x.kind == 1 ==> visible == Bump(old(visible), x.claimed / 4, 2)) &&
        (x.kind <= 1 ==> a.kui && a.kuiInfo == old(a.kuiInfo) + [[Some(x.claimed), Some((who + x.source) % 4)]]) &&
        (x.kind == 0 ==> Chied(a, old(a.furo), old(a.kuiInfo), old(a.tiles), x.ids, x.claimed, Some((who + x.source) % 4))) &&
        (x.kind == 1 ==> Poned(a, old(a.furo), old(a.kuiInfo), old(a.tiles), x.ids, x.claimed, Some((who + x.source) % 4))) &&
        (x.kind <= 1 ==> kangNum == old(kangNum)) &&
        (x.kind >= 2 ==> (a.counter == old(a.counter).CleanPut(x.ids[0] / 4, 0) &&
           kangNum == old(kangNum)[who := old(kangNum)[who] + 1] && visible == old(visible)[x.ids[0] / 4 := 4] &&
           Kanned(a, old(a.furo), old(a.kuiInfo), old(a.kui), old(a.tiles), x.ids,
             if x.kind == 2 then Some(x.claimed) else None, if x.kind == 3 then Some(x.claimed) else None,
             Some((who + x.source) % 4), if x.kind == 2 then 2 else if x.kind == 3 then 1 else 0))) &&
        (x.kind == 2 ==> a.tiles == old(a.tiles) - {x.claimed}) &&
        (x.kind != 2 ==> a.tiles == old(a.tiles) - IdSet(x.ids))
    {
      var fromWho := Some((who + x.source) % 4);
      if x.kind == 0 {
        Chi(who, x.ids, x.claimed, fromWho);
      } else if x.kind == 1 {
        Pon(who, x.ids, x.claimed, fromWho);
      } else if x.kind == 2 {
        Kan(who, x.ids, Some(x.claimed), None, fromWho, 2);
      } else if x.kind == 3 {
        Kan(who, x.ids, None, Some(x.claimed), fromWho, 1);
      } else {
        Kan(who, x.ids, None, None, fromWho, 0);
      }
    }

    /** `check_pon(who, tile_id)`: nothing is offered once the wall is
        empty; otherwise what the seat offers. */
    method CheckPon(who: int, tileId: int) returns (ok: bool, kind: Option<int>)
      requires Valid() && 0 <= who < 4
      ensures ok <==> leftNum != 0 && agents[who].riichiStatus == 0 && agents[who].counter.Get(tileId / 4) >= 2
      ensures kind == if ok then Some(tileId / 4) else None
    {
      if leftNum == 0 {
        return false, None;
      }
      ok, kind := agents[who].CheckPon(tileId);
    }

    /** `check_chi(who, tile_id)`: no run once the wall is empty;
        otherwise the runs the seat may claim the discard into. */
    method CheckChi(who: int, tileId: int) returns (ok: bool, patterns: seq<int>)
      requires Valid() && 0 <= who < 4
      ensures ok <==> patterns != []
      ensures forall p :: p in patterns <==> leftNum != 0 && agents[who].ChiAllowed(tileId, p)
    {
      if leftNum == 0 {
        return false, [];
      }
      ok, patterns := agents[who].CheckChi(tileId);
    }

    /** `check_kan(who, tile_id, mode)`: no kan once the wall is empty;
        otherwise the kans the seat may make. */
    method CheckKan(who: int, tileId: int, mode: int) returns (ok: bool, options: seq<KanOption>)
      requires Valid() && 0 <= who < 4
      requires mode != 0 && mode != 1 ==> PonsOpen(agents[who].furo, agents[who].counter)
      ensures ok <==> options != []
      ensures leftNum == 0 ==> options == []
      ensures var a := agents[who]; leftNum != 0 ==>
        (mode == 1 ==> (options ==
           if a.riichiStatus == 0 && a.counter.Get(tileId / 4) == 3 then [KanOption(1, tileId / 4, tileId)] else [])) &&
        (mode == 0 && a.riichiStatus != 0 ==> (options ==
           if a.counter.Get(tileId / 4) == 4 && a.machi == Waits(a.agari, a.counter.CleanPut(tileId / 4, 0))
           then [KanOption(0, tileId / 4, tileId)] else [])) &&
        (mode == 0 && a.riichiStatus == 0 ==> options == ConcealedKans(a.counter, a.counter.keys)) &&
        (mode != 0 && mode != 1 ==> options == AddedKans(a.furo, a.counter))
    {
      if leftNum == 0 {
        return false, [];
      }
      ok, options := agents[who].CheckKan(tileId, mode);
    }

    /** `pon(who, tile_id_list, kui_tile, from_who)`: the claimed kind
        shows twice more to the table. */
    method Pon(who: int, ids: seq<int>, kuiTile: int, fromWho: Option<int>)
      requires Valid() && 0 <= who < 4 && IsId(kuiTile)
      modifies this`visible, agents[who]
      ensures Valid() && visible == Bump(old(visible), kuiTile / 4, 2)
      ensures Poned(agents[who], old(agents[who].furo), old(agents[who].kuiInfo), old(agents[who].tiles),
        ids, kuiTile, fromWho)
      ensures agents[who].counter == old(agents[who].counter).CleanPut(kuiTile / 4, old(agents[who].counter).Get(kuiTile / 4) - 2)
    {
      agents[who].Pon(ids, kuiTile, fromWho);
      visible := Bump(visible, kuiTile / 4, 2);
    }

    /** `chi(who, tile_id_list, kui_tile, from_who)`: each of the seat's
        own ids in the run shows once more to the table. */
    method Chi(who: int, ids: seq<int>, kuiTile: int, fromWho: Option<int>)
      requires Valid() && 0 <= who < 4 && ids != [] && AllIds(ids)
      modifies this`visible, agents[who]
      ensures Valid() && visible == ChiShown(old(visible), ids, kuiTile)
      ensures forall k :: Seen(visible, k) == Seen(old(visible), k) + multiset(OwnKinds(ids, kuiTile))[k]
      ensures Chied(agents[who], old(agents[who].furo), old(agents[who].kuiInfo), old(agents[who].tiles),
        ids, kuiTile, fromWho)
      ensures agents[who].counter == ChiLowered(old(agents[who].counter), ids, kuiTile)
    {
      var shown := visible;
      for i := 0 to |ids|
        invariant shown == ChiShown(visible, ids[..i], kuiTile)
      {
        assert ids[..i + 1][..i] == ids[..i];
        if ids[i] != kuiTile {
          shown := Bump(shown, ids[i] / 4, 1);
        }
      }
      assert ids[..|ids|] == ids;
      ChiShownCounts(visible, ids, kuiTile);
      visible := shown;
      agents[who].Chi(ids, kuiTile, fromWho);
    }

    /** `kan(who, tile_id_list, add, kui_tile, from_who, mode)`: one more
        kan for the seat, and all four copies of the kind show. */
    method Kan(who: int, ids: seq<int>, add: Option<int>, kuiTile: Option<int>, fromWho: Option<int>, mode: int)
      requires Valid() && 0 <= who < 4 && ids != []
      requires mode != 0 && mode != 1 ==> add.Some?
      modifies this`kangNum, this`visible, agents[who]
      ensures Valid()
      ensures kangNum == old(kangNum)[who := old(kangNum)[who] + 1] && Sum(kangNum) == Sum(old(kangNum)) + 1
      ensures visible == old(visible)[ids[0] / 4 := 4]
      ensures agents[who].counter == old(agents[who].counter).CleanPut(ids[0] / 4, 0)
      ensures Kanned(agents[who], old(agents[who].furo), old(agents[who].kuiInfo), old(agents[who].kui),
        old(agents[who].tiles), ids, add, kuiTile, fromWho, mode)
    {
      agents[who].Kan(ids, add, mode, kuiTile, fromWho);
      SumBump(kangNum, who, 1);
      kangNum := kangNum[who := kangNum[who] + 1];
      visible := visible[ids[0] / 4 := 4];
    }

    /** `draw(who, tile_id, where)`: with no id given, the tile is popped
        from the wall at `where`, -1 meaning the dead wall's end, which
        alternates with each kan; None where the pop would fail (Python's
        IndexError), and then nothing changes. */
    method Draw(who: int, tileId: Option<int>, where: int) returns (r: Option<int>)
      requires Valid() && 0 <= who < 4
      requires tileId.Some? ==> IsId(tileId.value)
      modifies this`yama, this`leftNum, agents[who]
      ensures Valid()
      ensures tileId.Some? ==> r == tileId && yama == old(yama)
      ensures tileId.None? ==> var w := PopIndex(where, Sum(kangNum));
        if InRange(|old(yama)|, w) then r == Some(PyIndex(old(yama), w)) && yama == PyRemoveAt(old(yama), w)
        else r.None? && yama == old(yama)
      ensures r.Some? ==> (leftNum == old(leftNum) - 1 && agents[who].tiles == old(agents[who].tiles) + {r.value} &&
        agents[who].counter == old(agents[who].counter).CleanPut(r.value / 4, old(agents[who].counter).Get(r.value / 4) + 1))
      ensures r.None? ==> leftNum == old(leftNum) && unchanged(agents[who])
    {
      var id: int;
      if tileId.None? {
        var w := PopIndex(where, Sum(kangNum));
        if !InRange(|yama|, w) {
          return None;
        }
        id := PyIndex(yama, w);
        var rest := PyRemoveAt(yama, w);
        assert forall x :: x in rest ==> x in multiset(yama);
        yama := rest;
      } else {
        id := tileId.value;
      }
      agents[who].Draw(id);
      leftNum := leftNum - 1;
      r := Some(id);
    }

    /** `discard(who, tile_id)`: the discarded kind shows once more. */
    method Discard(who: int, tileId: int)
      requires Valid() && 0 <= who < 4 && IsId(tileId) && tileId in agents[who].tiles
      modifies this`visible, agents[who]
      ensures Valid() && visible == Bump(old(visible), tileId / 4, 1)
      ensures agents[who].tiles == old(agents[who].tiles) - {tileId}
      ensures agents[who].discardTiles == old(agents[who].discardTiles) + [tileId]
      ensures var a := agents[who];
        !a.isPlayback ==> !a.roundFuriten && (a.Furiten() <==> a.discardFuriten || a.riichiFuriten)
      ensures var a := agents[who];
        !a.isPlayback && a.counter.counts != old(a.counterBak).counts && a.riichiStatus == 0 ==>
          a.machi == (if CheckMachi(a.waiting, Dense(a.counter)) then Waits(a.agari, a.counter) else {}) &&
          (a.discardFuriten <==> a.machi * KindsOf(a.discardTiles) != {})
    {
      agents[who].Discard(tileId);
      visible := Bump(visible, tileId / 4, 1);
    }

    /** `can_declare_riichi(who)`: never with fewer than four tiles left
        to draw; otherwise as the seat judges. */
    method CanDeclareRiichi(who: int) returns (ok: bool)
      requires Valid() && 0 <= who < 4
      ensures var a := agents[who];
        ok <==> (leftNum >= 4 && !a.kui && a.riichiStatus == 0 && a.score >= 10 &&
          exists k :: 0 <= k < 34 && a.counter.Get(k) > 0 && CheckMachi(a.waiting, Lowered(a.counter, k)))
    {
      if leftNum < 4 {
        return false;
      }
      ok := agents[who].CanDeclareRiichi();
    }

    /** `riichi(who, double_riichi)`: a seat not yet in riichi puts a
        1000-point stick on the table; points on the table and in the
        seats' scores together stay the same. */
    method Riichi(who: int, double: bool)
      requires Valid() && 0 <= who < 4
      modifies this`riichiBa, agents[who]
      ensures Valid()
      ensures riichiBa == old(riichiBa) + (if old(agents[who].riichiStatus) == 0 then 1 else 0)
      ensures Sum(Scores()) + 10 * riichiBa == old(Sum(Scores())) + 10 * old(riichiBa)
      ensures var a := agents[who];
        if old(a.riichiStatus) == 0 then
          a.riichiStatus == (if double then 2 else 1) && a.ippatsuStatus == 1 &&
          a.riichiRound == |a.discardTiles| && a.score == old(a.score) - 10
        else
          a.riichiStatus == old(a.riichiStatus) && a.ippatsuStatus == old(a.ippatsuStatus) &&
          a.riichiRound == old(a.riichiRound) && a.score == old(a.score)
    {
      ghost var before := Scores();
      var ok := agents[who].Riichi(double);
      if ok {
        riichiBa := riichiBa + 1;
      }
      assert Scores() == before[who := before[who] - (if ok then 10 else 0)];
      Sum4(before);
      Sum4(Scores());
    }
  }

  /** Four distinct consistent seats reading the given tables. */
  ghost predicate SeatsReady(agents: seq<Agent>, agari: AgariTables, waiting: MachiTables)
    reads agents
  {
    |agents| == 4 &&
    (forall i, j :: 0 <= i < j < 4 ==> agents[i] != agents[j]) &&
    (forall i :: 0 <= i < 4 ==> ReadySeat(agents[i], agari, waiting))
  }

  /** The seats' scores, in seat order. */
  function ScoresOf(seats: seq<Agent>): (r: seq<int>)
    reads seats
    requires |seats| == 4
    ensures |r| == 4 && forall k :: 0 <= k < 4 ==> r[k] == seats[k].score
  {
    [seats[0].score, seats[1].score, seats[2].score, seats[3].score]
  }

  /** The seat i places after the dealer holds the ids at its deal
      positions of the wall, has wind 27+i and kept its score. */
  ghost predicate DealtSeats(seats: seq<Agent>, cut: seq<int>, dealer: int, scores: seq<int>)
    reads seats
    requires |cut| >= 52 && |scores| == 4 && |seats| == 4
  {
    forall i :: 0 <= i < 4 ==> DealtSeat(seats, cut, dealer, scores, i)
  }

  ghost predicate DealtSeat(seats: seq<Agent>, cut: seq<int>, dealer: int, scores: seq<int>, i: int)
    reads seats
    requires |cut| >= 52 && |scores| == 4 && |seats| == 4 && 0 <= i < 4
  {
    var k := SeatAt(dealer, i);
    SeatsDiffer(dealer);
    seats[k].tiles == IdSet(Deal(cut, i)) && seats[k].menfon == 27 + i && seats[k].score == scores[k]
  }

  /** The seat's state after `pon(tile_id_list, kui_tile, from_who)`
      on hand tiles0, calls furo0 and call record kuiInfo0. */
  ghost predicate Poned(a: Agent, furo0: seq<Furo>, kuiInfo0: seq<KuiEntry>, tiles0: set<int>,
                        ids: seq<int>, kuiTile: int, fromWho: Option<int>)
    reads a
  {
    a.tiles == tiles0 - IdSet(ids) && a.furo == PutFuro(furo0, FuroKey(1, KindPtn(kuiTile / 4)), ids) &&
    a.kuiInfo == kuiInfo0 + [[Some(kuiTile), fromWho]] && a.kui
  }

  /** The seat's state after `chi(tile_id_list, kui_tile, from_who)`: the
      run is keyed by its lowest kind and the number of calls before it. */
  ghost predicate Chied(a: Agent, furo0: seq<Furo>, kuiInfo0: seq<KuiEntry>, tiles0: set<int>,
                        ids: seq<int>, kuiTile: int, fromWho: Option<int>)
    reads a
  {
    ids != [] && a.tiles == tiles0 - IdSet(ids) &&
    a.furo == PutFuro(furo0, FuroKey(0, ChiPtn(Min(ids) / 4, |furo0|)), ids) &&
    a.kuiInfo == kuiInfo0 + [[Some(kuiTile), fromWho]] && a.kui
  }

  /** The seat's state after `kan(tile_id_list, add, mode, kui_tile,
      from_who)`: a concealed kan (mode 0) or an open kan (mode 1) keyed by
      its kind, or a pon upgraded by the added tile, whose claim entry gets
      that tile in front. */
  ghost predicate Kanned(a: Agent, furo0: seq<Furo>, kuiInfo0: seq<KuiEntry>, kui0: bool, tiles0: set<int>,
                         ids: seq<int>, add: Option<int>, kuiTile: Option<int>, fromWho: Option<int>, mode: int)
    reads a
  {
    ids != [] && |kuiInfo0| >= |furo0| && (mode != 0 && mode != 1 ==> add.Some?) &&
    (mode == 0 ==> (a.tiles == tiles0 - IdSet(ids) && a.kui == kui0 &&
      a.furo == PutFuro(furo0, FuroKey(2, KindPtn(ids[0] / 4)), ids) &&
      a.kuiInfo == kuiInfo0 + [[kuiTile, fromWho]])) &&
    (mode == 1 ==> (a.tiles == tiles0 - IdSet(ids) && a.kui &&
      a.furo == PutFuro(furo0, FuroKey(3, KindPtn(ids[0] / 4)), ids) &&
      a.kuiInfo == kuiInfo0 + [[kuiTile, fromWho]])) &&
    (mode != 0 && mode != 1 ==> (a.tiles == tiles0 - {add.value} && a.kui == kui0 &&
      a.furo == FromItems(Upgraded(furo0, ids[0] / 4, add.value)) &&
      var i := FindKey(furo0, FuroKey(1, KindPtn(ids[0] / 4)));
      a.kuiInfo == if i < |furo0| then kuiInfo0[i := [add] + kuiInfo0[i]] else kuiInfo0))
  }

  /** A consistent seat reading the given tables. */
  ghost predicate ReadySeat(a: Agent, agari: AgariTables, waiting: MachiTables)
    reads a
  {
    a.Valid() && a.agari == agari && a.waiting == waiting
  }

  /** One pass of the `new_game` loop: the seat i places after the
      dealer is replaced by a new seat with its deal and its old score,
      and no other seat changes. */
  method DealSeat(seats: seq<Agent>, cut: seq<int>, dealer: int, scores: seq<int>, i: int,
                  agari: AgariTables, waiting: MachiTables) returns (r: seq<Agent>)
    requires |seats| == 4 && |cut| == 136 && Distinct(cut) && AllIds(cut) && 0 <= i < 4
    requires |scores| == 4 && seats[SeatAt(dealer, i)].score == scores[SeatAt(dealer, i)]
    ensures |r| == 4 && DealtSeat(r, cut, dealer, scores, i)
    ensures fresh(r[SeatAt(dealer, i)]) && ReadySeat(r[SeatAt(dealer, i)], agari, waiting)
    ensures forall k :: 0 <= k < 4 && k != SeatAt(dealer, i) ==> r[k] == seats[k]
  {
    SeatsDiffer(dealer);
    var seat := SeatAt(dealer, i);
    DealDisjoint(cut, i, i);
    DealIds(cut, i);
    var a := NewSeat(seats[seat].score, Deal(cut, i), i, false, agari, waiting);
    r := seats[seat := a];
  }

  /** The loop of `new_game` over the four seats from the dealer on:
      all four seats are new, whatever the old ones held. */
  method DealRound(seats0: seq<Agent>, cut: seq<int>, dealer: int, agari: AgariTables, waiting: MachiTables)
    returns (seats: seq<Agent>)
    requires |seats0| == 4 && |cut| == 136 && Distinct(cut) && AllIds(cut)
    ensures SeatsReady(seats, agari, waiting) && DealtSeats(seats, cut, dealer, ScoresOf(seats0))
    ensures forall k :: 0 <= k < 4 ==> fresh(seats[k])
  {
    SeatsDiffer(dealer);
    var scores := ScoresOf(seats0);
    seats := seats0;
    for i := 0 to 4
      invariant |seats| == 4
      invariant forall j :: 0 <= j < i ==> (DealtSeat(seats, cut, dealer, scores, j) &&
        fresh(seats[SeatAt(dealer, j)]) && ReadySeat(seats[SeatAt(dealer, j)], agari, waiting))
      invariant forall j1, j2 :: 0 <= j1 < j2 < i ==> seats[SeatAt(dealer, j1)] != seats[SeatAt(dealer, j2)]
      invariant forall j :: i <= j < 4 ==> seats[SeatAt(dealer, j)] == seats0[SeatAt(dealer, j)]
    {
      var next := DealSeat(seats, cut, dealer, scores, i, agari, waiting);
      seats := next;
    }
    forall k | 0 <= k < 4
      ensures fresh(seats[k]) && ReadySeat(seats[k], agari, waiting)
    {
      assert seats[k] == seats[SeatAt(dealer, PlaceOf(dealer, k))];
    }
    forall k1, k2 | 0 <= k1 < k2 < 4
      ensures seats[k1] != seats[k2]
    {
      var p1, p2 := PlaceOf(dealer, k1), PlaceOf(dealer, k2);
      assert seats[k1] == seats[SeatAt(dealer, p1)] && seats[k2] == seats[SeatAt(dealer, p2)];
    }
  }

  /** The four seats `__init__` and `init_from_info` create. */
  method MakeSeats(scores: seq<int>, hands: seq<seq<int>>, r: int, isPlayback: bool,
                   agari: AgariTables, waiting: MachiTables) returns (agents: seq<Agent>)
    requires |scores| == 4 && |hands| == 4
    requires forall i :: 0 <= i < 4 ==> Distinct(hands[i]) && AllIds(hands[i])
    ensures SeatsReady(agents, agari, waiting)
    ensures forall i :: 0 <= i < 4 ==> (fresh(agents[i]) && agents[i].score == scores[i] &&
      agents[i].tiles == IdSet(hands[i]) && agents[i].menfon == 27 + (i - r % 4) % 4)
  {
    var a0 := NewSeat(scores[0], hands[0], 0 - r % 4, isPlayback, agari, waiting);
    var a1 := NewSeat(scores[1], hands[1], 1 - r % 4, isPlayback, agari, waiting);
    var a2 := NewSeat(scores[2], hands[2], 2 - r % 4, isPlayback, agari, waiting);
    var a3 := NewSeat(scores[3], hands[3], 3 - r % 4, isPlayback, agari, waiting);
    agents := [a0, a1, a2, a3];
    forall i | 0 <= i < 4
      ensures agents[i].score == scores[i] && agents[i].tiles == IdSet(hands[i])
      ensures agents[i].menfon == 27 + (i - r % 4) % 4
    {
      if i == 0 {
        assert agents[i] == a0;
      } else if i == 1 {
        assert agents[i] == a1;
      } else if i == 2 {
        assert agents[i] == a2;
      } else {
        assert agents[i] == a3;
      }
    }
  }

  /** The `ranks` list for the given scores. */
  function PlaceSeats(scores: seq<int>): (r: seq<int>)
    ensures RanksBy(r, scores)
  {
    RanksAreRanking(scores);
    Ranks(scores)
  }

  /** A new seat as the table uses it. */
  method NewSeat(score: int, deal: seq<int>, seat: int, isPlayback: bool, agari: AgariTables, waiting: MachiTables)
    returns (a: Agent)
    requires Distinct(deal) && AllIds(deal) && -4 <= seat < 4
    ensures fresh(a) && a.Valid() && a.agari == agari && a.waiting == waiting
    ensures a.score == score && a.tiles == IdSet(deal) && a.menfon == 27 + seat % 4
  {
    a := new Agent(score, deal, seat, isPlayback, agari, waiting);
  }

}
