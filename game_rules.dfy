/** The pure parts of mahjong/game.py: Python list access, the wall's
    break and deal, the counter of visible tiles, the dora index, and
    the ranking of seats by score. */
module GameRules {
  import opened Common
  import opened Utils
  import opened AgentModel

  // ---------------------------------------------------------------------
  // Python list access

  /** Python's `s[i]`, a negative i counting from the end. */
  function PyIndex(s: seq<int>, i: int): int
    requires InRange(|s|, i)
  {
    if i < 0 then s[|s| + i] else s[i]
  }

  /** i is a valid Python index into a list of length n. */
  predicate InRange(n: int, i: int)
  {
    -n <= i < n
  }

  /** Python's `s.pop(i)`: the list without that element. */
  function PyRemoveAt(s: seq<int>, i: int): (r: seq<int>)
    requires InRange(|s|, i)
    ensures |r| == |s| - 1
    ensures multiset(r) + multiset{PyIndex(s, i)} == multiset(s)
  {
    var j := if i < 0 then |s| + i else i;
    assert s == s[..j] + [s[j]] + s[j + 1..];
    s[..j] + s[j + 1..]
  }

  /** Where the slice `s[p:]` starts, as Python clamps and wraps p. */
  function SliceAt(n: nat, p: int): (j: nat)
    ensures j <= n
  {
    if p < 0 then (if p + n < 0 then 0 else p + n) else if p > n then n else p
  }

  /** `s[p:] + s[:p]`: the wall turned to start at the break. */
  function Cut(s: seq<int>, p: int): (r: seq<int>)
    ensures |r| == |s|
  {
    var j := SliceAt(|s|, p);
    s[j..] + s[..j]
  }

  /** Turning the wall neither loses nor adds a tile. */
  lemma CutPermutes(s: seq<int>, p: int)
    ensures multiset(Cut(s, p)) == multiset(s)
  {
    var j := SliceAt(|s|, p);
    assert s == s[..j] + s[j..];
  }

  /** Where `new_game` breaks the wall for a dice total: 34 tiles per
      side, counted back from the dealer's side. */
  function BreakAt(dice: int): int
  {
    -(dice % 4) * 17 * 2 + dice * 2
  }

  /** The sum of four numbers. */
  lemma Sum4(s: seq<int>)
    requires |s| == 4
    ensures Sum(s) == s[0] + s[1] + s[2] + s[3]
  {
    assert Sum(s[..1]) == s[0] by { assert s[..1][..0] == []; }
    assert Sum(s[..2]) == s[0] + s[1] by { assert s[..2][..1] == s[..1]; }
    assert Sum(s[..3]) == s[0] + s[1] + s[2] by { assert s[..3][..2] == s[..2]; }
  }

  /** Raising one entry by d raises the sum by d: one more kan at a seat
      is one more kan in all. */
  lemma {:induction false} SumBump(s: seq<int>, i: int, d: int)
    requires 0 <= i < |s|
    ensures Sum(s[i := s[i] + d]) == Sum(s) + d
  {
    var n := |s| - 1;
    var t := s[i := s[i] + d];
    if i < n {
      SumBump(s[..n], i, d);
      assert t[..n] == s[..n][i := s[i] + d];
    } else {
      assert t[..n] == s[..n];
    }
  }

  // ---------------------------------------------------------------------
  // Counters of visible tiles

  /** `c[k]` of a plain Counter. */
  function Seen(c: map<int, int>, k: int): int
  {
    if k in c then c[k] else 0
  }

  /** `c[k] += d` */
  function Bump(c: map<int, int>, k: int, d: int): (r: map<int, int>)
    ensures Seen(r, k) == Seen(c, k) + d && forall j :: j != k ==> Seen(r, j) == Seen(c, j)
  {
    c[k := Seen(c, k) + d]
  }

  /** The visible counts after `chi` shows each id but the claimed one. */
  function ChiShown(c: map<int, int>, ids: seq<int>, kuiTile: int): map<int, int>
  {
    if ids == [] then c
    else
      var n := |ids| - 1;
      var p := ChiShown(c, ids[..n], kuiTile);
      if ids[n] != kuiTile then Bump(p, ids[n] / 4, 1) else p
  }

  /** Each kind becomes visible once per id of that kind the seat gave up:
      what `chi` takes from the seat's counter, the table sees. */
  lemma {:induction false} ChiShownCounts(c: map<int, int>, ids: seq<int>, kuiTile: int)
    ensures forall k :: Seen(ChiShown(c, ids, kuiTile), k) == Seen(c, k) + multiset(OwnKinds(ids, kuiTile))[k]
  {
    if ids != [] {
      ChiShownCounts(c, ids[..|ids| - 1], kuiTile);
    }
  }

  // ---------------------------------------------------------------------
  // The deal

  /** The wall positions `new_game` deals to the seat i places after the
      dealer: three blocks of four, then one tile. */
  function DealPositions(i: int): seq<int>
  {
    [4 * i, 4 * i + 1, 4 * i + 2, 4 * i + 3,
     4 * i + 16, 4 * i + 17, 4 * i + 18, 4 * i + 19,
     4 * i + 32, 4 * i + 33, 4 * i + 34, 4 * i + 35,
     48 + i]
  }

  /** The seat a wall position goes to. */
  function SeatOf(p: int): int
  {
    if p >= 48 then p - 48
    else if p >= 32 then (p - 32) / 4
    else if p >= 16 then (p - 16) / 4
    else p / 4
  }

  /** The deal positions partition 0..51: each position goes to exactly
      the seat SeatOf names, and each seat gets 13 distinct positions. */
  lemma {:induction false} DealPartition(i: int, p: int)
    requires 0 <= i < 4
    ensures p in DealPositions(i) <==> 0 <= p < 52 && SeatOf(p) == i
    ensures |DealPositions(i)| == 13 && Distinct(DealPositions(i))
  {
    var ps := DealPositions(i);
    if 0 <= p < 52 && SeatOf(p) == i {
      if p >= 48 {
        assert p == ps[12];
      } else if p >= 32 {
        assert p == ps[p - 24 - 4 * i];
      } else if p >= 16 {
        assert p == ps[p - 12 - 4 * i];
      } else {
        assert p == ps[p - 4 * i];
      }
    }
  }

  /** The ids `new_game` deals the seat i places after the dealer. */
  function Deal(yama: seq<int>, i: int): (d: seq<int>)
    requires |yama| >= 52 && 0 <= i < 4
  {
    yama[i * 4..i * 4 + 4] + yama[i * 4 + 16..i * 4 + 20] + yama[i * 4 + 32..i * 4 + 36] + yama[i + 48..i + 49]
  }

  /** A seat's hand holds the wall's tiles at its deal positions. */
  lemma DealAt(yama: seq<int>, i: int)
    requires |yama| >= 52 && 0 <= i < 4
    ensures |Deal(yama, i)| == 13
    ensures forall q :: 0 <= q < 13 ==> Deal(yama, i)[q] == yama[DealPositions(i)[q]]
  {
    var a, b, c, d := yama[i * 4..i * 4 + 4], yama[i * 4 + 16..i * 4 + 20], yama[i * 4 + 32..i * 4 + 36], yama[i + 48..i + 49];
    var ps := DealPositions(i);
    assert Deal(yama, i) == a + b + c + d;
    forall q | 0 <= q < 13
      ensures (a + b + c + d)[q] == yama[ps[q]]
    {
      if q < 4 {
        assert (a + b + c + d)[q] == a[q];
      } else if q < 8 {
        assert (a + b + c + d)[q] == b[q - 4];
      } else if q < 12 {
        assert (a + b + c + d)[q] == c[q - 8];
      } else {
        assert (a + b + c + d)[q] == d[0];
      }
    }
  }

  /** Every id of a deal comes from one of the seat's deal positions. */
  lemma DealSource(yama: seq<int>, i: int, x: int) returns (p: int)
    requires |yama| >= 52 && 0 <= i < 4 && x in Deal(yama, i)
    ensures 0 <= p < 52 && SeatOf(p) == i && yama[p] == x
  {
    DealAt(yama, i);
    var q :| 0 <= q < 13 && Deal(yama, i)[q] == x;
    p := DealPositions(i)[q];
    DealPartition(i, p);
  }

  /** From a wall without repeats, the four hands are disjoint, hold 13
      ids each, and none of them is left in the wall. */
  lemma DealDisjoint(yama: seq<int>, i: int, j: int)
    requires |yama| >= 52 && Distinct(yama) && 0 <= i < 4 && 0 <= j < 4
    ensures Distinct(Deal(yama, i))
    ensures i != j ==> IdSet(Deal(yama, i)) !! IdSet(Deal(yama, j))
    ensures IdSet(Deal(yama, i)) !! IdSet(yama[52..])
  {
    DealAt(yama, i);
    DealPartition(i, 0);
    forall a, b | 0 <= a < b < 13
      ensures Deal(yama, i)[a] != Deal(yama, i)[b]
    {
      assert DealPositions(i)[a] != DealPositions(i)[b];
    }
    forall x | x in Deal(yama, i) && x in Deal(yama, j)
      ensures i == j
    {
      var p := DealSource(yama, i, x);
      var p' := DealSource(yama, j, x);
      assert p == p';
    }
    forall x | x in Deal(yama, i) && x in yama[52..]
      ensures false
    {
      var p := DealSource(yama, i, x);
    }
  }

  // ---------------------------------------------------------------------
  // Ranking

  /** One entry of `get_rank`: a seat and its score. */
  datatype SeatScore = SeatScore(seat: int, score: int)

  /** `list(enumerate(scores))` */
  function Enumerate(scores: seq<int>): (r: seq<SeatScore>)
    ensures |r| == |scores| && forall i :: 0 <= i < |r| ==> r[i] == SeatScore(i, scores[i])
  {
    seq(|scores|, i requires 0 <= i < |scores| => SeatScore(i, scores[i]))
  }

  /** x placed after every entry scoring at least as much. */
  function Insert(x: SeatScore, s: seq<SeatScore>): (r: seq<SeatScore>)
    ensures multiset(r) == multiset(s) + multiset{x}
  {
    if s == [] then [x]
    else if s[0].score >= x.score then
      assert s == [s[0]] + s[1..];
      [s[0]] + Insert(x, s[1..])
    else [x] + s
  }

  /** `sort(key=score, reverse=True)`, which is stable: inserting each
      entry in turn after the ones scoring at least as much. */
  function RankOrder(s: seq<SeatScore>): (r: seq<SeatScore>)
    ensures multiset(r) == multiset(s)
  {
    if s == [] then []
    else
      var n := |s| - 1;
      assert s == s[..n] + [s[n]];
      Insert(s[n], RankOrder(s[..n]))
  }

  /** Entry a is listed before entry b: a higher score, or the same
      score and a lower seat. */
  predicate Before(a: SeatScore, b: SeatScore)
  {
    a.score > b.score || (a.score == b.score && a.seat < b.seat)
  }

  /** Higher score first; equal scores in seat order. */
  predicate Ranked(s: seq<SeatScore>)
  {
    forall i, j :: 0 <= i < j < |s| ==> Before(s[i], s[j])
  }

  /** A ranking stays ranked under a head listed before all of it. */
  lemma RankedCons(h: SeatScore, s: seq<SeatScore>)
    requires Ranked(s) && forall e :: e in s ==> Before(h, e)
    ensures Ranked([h] + s)
  {
    var r := [h] + s;
    forall i, j | 0 <= i < j < |r|
      ensures Before(r[i], r[j])
    {
      assert r[j] == s[j - 1];
      if i > 0 {
        assert r[i] == s[i - 1];
      }
    }
  }

  lemma {:induction false} InsertRanked(x: SeatScore, s: seq<SeatScore>)
    requires Ranked(s) && forall e :: e in s ==> e.seat < x.seat
    ensures Ranked(Insert(x, s))
  {
    if s == [] {
    } else if s[0].score >= x.score {
      var t := s[1..];
      assert forall e :: e in t ==> e in s;
      assert Ranked(t) by {
        forall i, j | 0 <= i < j < |t|
          ensures Before(t[i], t[j])
        {
          assert t[i] == s[i + 1] && t[j] == s[j + 1];
        }
      }
      InsertRanked(x, t);
      var r := Insert(x, t);
      forall e | e in r
        ensures Before(s[0], e)
      {
        assert e in multiset(r);
        if e != x {
          assert e in t;
          var k :| 0 <= k < |t| && t[k] == e;
          assert s[k + 1] == e;
        }
      }
      RankedCons(s[0], r);
    } else {
      forall e | e in s
        ensures Before(x, e)
      {
        var k :| 0 <= k < |s| && s[k] == e;
        if k > 0 {
          assert Before(s[0], s[k]);
        }
      }
      RankedCons(x, s);
    }
  }

  /** The sort orders the seats by score, descending, with ties in seat
      order, and loses or adds no entry. */
  lemma {:induction false} RankOrderRanked(scores: seq<int>)
    ensures Ranked(RankOrder(Enumerate(scores)))
    ensures multiset(RankOrder(Enumerate(scores))) == multiset(Enumerate(scores))
  {
    if scores != [] {
      var n := |scores| - 1;
      var s := Enumerate(scores);
      assert s[..n] == Enumerate(scores[..n]);
      RankOrderRanked(scores[..n]);
      forall e | e in RankOrder(s[..n])
        ensures e.seat < s[n].seat
      {
        assert e in multiset(s[..n]);
      }
      InsertRanked(s[n], RankOrder(s[..n]));
    }
  }

  /** The seats of a ranking, in order. */
  function Seats(s: seq<SeatScore>): (r: seq<int>)
    ensures |r| == |s| && forall i :: 0 <= i < |s| ==> r[i] == s[i].seat
  {
    seq(|s|, i requires 0 <= i < |s| => s[i].seat)
  }

  /** Every seat appears in the ranking. */
  lemma SeatListed(scores: seq<int>, i: int)
    requires 0 <= i < |scores|
    ensures i in Seats(RankOrder(Enumerate(scores)))
  {
    RankOrderRanked(scores);
    var r := RankOrder(Enumerate(scores));
    assert SeatScore(i, scores[i]) in multiset(Enumerate(scores));
    assert SeatScore(i, scores[i]) in r;
    var q :| 0 <= q < |r| && r[q] == SeatScore(i, scores[i]);
    assert Seats(r)[q] == i;
  }

  lemma SeatsListed(scores: seq<int>)
    ensures forall i :: 0 <= i < |scores| ==> i in Seats(RankOrder(Enumerate(scores)))
  {
    forall i | 0 <= i < |scores|
      ensures i in Seats(RankOrder(Enumerate(scores)))
    {
      SeatListed(scores, i);
    }
  }

  /** The places in order of seats 0..n-1. */
  function PlacesIn(order: seq<int>, n: nat): (r: seq<int>)
    requires forall i :: 0 <= i < n ==> i in order
    ensures |r| == n && forall i :: 0 <= i < n ==> r[i] == IndexOf(order, i)
  {
    if n == 0 then [] else PlacesIn(order, n - 1) + [IndexOf(order, n - 1)]
  }

  /** `ranks`: each seat's place in the ranking, 0 for the leader. */
  function Ranks(scores: seq<int>): (r: seq<int>)
  {
    SeatsListed(scores);
    PlacesIn(Seats(RankOrder(Enumerate(scores))), |scores|)
  }

  /** A seat ranks above another exactly when it scores more, or scores
      the same and sits earlier. */
  lemma RanksOrder(scores: seq<int>, i: int, j: int)
    requires 0 <= i < |scores| && 0 <= j < |scores| && i != j
    ensures Ranks(scores)[i] < Ranks(scores)[j] <==>
      scores[i] > scores[j] || (scores[i] == scores[j] && i < j)
  {
    RankOrderRanked(scores);
    var r := RankOrder(Enumerate(scores));
    var a, b := Ranks(scores)[i], Ranks(scores)[j];
    assert r[a].seat == i && r[b].seat == j;
    assert a != b;
    forall k | 0 <= k < |r|
      ensures 0 <= r[k].seat < |scores| && r[k].score == scores[r[k].seat]
    {
      assert r[k] in multiset(Enumerate(scores));
      assert r[k] in Enumerate(scores);
    }
  }

  /** r gives each seat its place: places lie in 0..|r|-1, and a seat
      places before another exactly when it scores more, or scores the
      same and sits earlier. */
  predicate RanksBy(r: seq<int>, scores: seq<int>)
  {
    |r| == |scores| && (forall i :: 0 <= i < |r| ==> 0 <= r[i] < |r|) &&
    forall i, j :: 0 <= i < |r| && 0 <= j < |r| && i != j ==>
      (r[i] < r[j] <==> scores[i] > scores[j] || (scores[i] == scores[j] && i < j))
  }

  /** `ranks` as the table computes it is such a placing. */
  lemma RanksAreRanking(scores: seq<int>)
    ensures RanksBy(Ranks(scores), scores)
  {
    var r := RankOrder(Enumerate(scores));
    assert |r| == |scores| by {
      assert |multiset(r)| == |multiset(Enumerate(scores))|;
    }
    forall i, j | 0 <= i < |scores| && 0 <= j < |scores| && i != j
      ensures Ranks(scores)[i] < Ranks(scores)[j] <==>
        scores[i] > scores[j] || (scores[i] == scores[j] && i < j)
    {
      RanksOrder(scores, i, j);
    }
  }

  // ---------------------------------------------------------------------
  // The table

  /** The wall index `draw` pops: a replacement tile after a kan comes
      from the end, one further in after an odd number of kans. */
  function PopIndex(where: int, kans: int): int
  {
    if where == -1 then (if kans % 2 == 0 then -1 else -2) else where
  }

  /** The wall index of the next dora indicator `new_dora` turns over:
      two further in per indicator shown, one back per kan made. */
  function DoraIndex(shown: int, kans: int): int
  {
    -6 - 2 * shown + kans
  }

  /** `[27, 28, 29, 30][r // 4]`: the prevailing wind of round r, east
      to north, a negative r counting back from the north as Python's
      negative index does. */
  function RoundWind(r: int): (w: int)
    requires -16 <= r < 16
    ensures w == 27 + r / 4 % 4
  {
    PyIndex([27, 28, 29, 30], r / 4)
  }

  /** The bonus kinds listed for the indicators shown. */
  function Doras(ind: seq<int>): (d: seq<int>)
    ensures |d| == |ind| && forall i :: 0 <= i < |d| ==> d[i] == GetDora(ind[i])
  {
    if ind == [] then [] else Doras(ind[..|ind| - 1]) + [GetDora(ind[|ind| - 1])]
  }

  /** A position p of the list holds the wall's tiles when every one of
      its tiles is an id. */
  predicate AllIds(s: seq<int>)
  {
    forall x :: x in s ==> IsId(x)
  }

  /** Turning the wall keeps its tiles. */
  lemma CutKeepsIds(wall: seq<int>, p: int)
    requires Distinct(wall) && AllIds(wall)
    ensures Distinct(Cut(wall, p)) && AllIds(Cut(wall, p))
  {
    var c := Cut(wall, p);
    CutPermutes(wall, p);
    forall x | x in c
      ensures IsId(x)
    {
      assert x in multiset(c);
    }
    forall a, b | 0 <= a < b < |c|
      ensures c[a] != c[b]
    {
      var j := SliceAt(|wall|, p);
      assert c == wall[j..] + wall[..j];
    }
  }

  lemma DealIds(yama: seq<int>, i: int)
    requires |yama| >= 52 && 0 <= i < 4 && AllIds(yama)
    ensures AllIds(Deal(yama, i))
  {
    DealAt(yama, i);
    forall x | x in Deal(yama, i)
      ensures IsId(x)
    {
      var q :| 0 <= q < 13 && Deal(yama, i)[q] == x;
      assert yama[DealPositions(i)[q]] in yama;
    }
  }

  /** The seat i places after the dealer. */
  function SeatAt(oya: int, i: int): int
  {
    (oya + i) % 4
  }

  /** Counting seats from the dealer visits each seat once. */
  lemma SeatsDiffer(oya: int)
    ensures forall j, k :: 0 <= j < 4 && 0 <= k < 4 && j != k ==> SeatAt(oya, j) != SeatAt(oya, k)
    ensures forall j :: 0 <= j < 4 ==> 0 <= SeatAt(oya, j) < 4
    ensures forall k :: 0 <= k < 4 ==> 0 <= PlaceOf(oya, k) < 4 && SeatAt(oya, PlaceOf(oya, k)) == k
  {
  }

  /** How many places after the dealer seat k sits. */
  function PlaceOf(oya: int, k: int): int
  {
    (k - oya) % 4
  }
}
