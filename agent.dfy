/** The seat of mahjong/agent.py: its concealed tile ids, their count by
    kind, its discards and calls ("furo"), and the riichi and furiten
    flags that change as tiles are drawn, discarded and claimed. */
module AgentModel {
  import opened Common
  import opened Utils
  import opened CheckAgari

  /** A tile id of the 136-tile set. */
  predicate IsId(x: int) { 0 <= x < 136 }

  /** The kinds of the listed ids. */
  function KindsOf(ids: seq<int>): set<int>
  {
    set x | x in ids :: x / 4
  }

  /** The ids of a list as a set (`set(tile_id_list)`). */
  function IdSet(ids: seq<int>): set<int>
  {
    set x | x in ids
  }

  /** `machi(counter)`: the kinds, other than those already held four
      times, whose addition completes the hand. */
  function Waits(t: AgariTables, c: Counter): set<int>
  {
    var v := Dense(c);
    set k | 0 <= k < 34 && v[k] != 4 && IsAgari(t, Raised(v, k)) != NoAgari
  }

  lemma KindOfId(x: int)
    requires IsId(x)
    ensures 0 <= x / 4 < 34
  {
  }

  /** Every stored count is of a tile kind. */
  ghost predicate KindsStored(c: Counter)
  {
    forall k :: k in c.counts ==> 0 <= k < 34
  }

  lemma StoredKeysAreKinds(c: Counter)
    requires c.Valid() && KindsStored(c)
    ensures AllKinds(c.keys)
  {
    forall q | 0 <= q < |c.keys|
      ensures 0 <= c.keys[q] < 34
    {
      assert c.keys[q] in c.keys;
    }
  }

  /** A list without x is its own removal. */
  lemma {:induction false} RemoveAbsent(s: seq<int>, x: int)
    requires x !in s
    ensures Remove(s, x) == s
  {
    if s != [] {
      RemoveAbsent(s[..|s| - 1], x);
      assert s[..|s| - 1] + [s[|s| - 1]] == s;
    }
  }

  /** Drawing a tile and discarding it again restores the counts; the
      key order too, unless the kind's count was negative. */
  lemma DrawDiscardRestores(c: Counter, k: int)
    requires c.Valid() && c.NoZero()
    ensures var d := c.CleanPut(k, c.Get(k) + 1);
      var e := d.CleanPut(k, d.Get(k) - 1);
      e.counts == c.counts && (c.Get(k) >= 0 ==> e == c)
  {
    var d := c.CleanPut(k, c.Get(k) + 1);
    if k !in c.counts {
      assert k !in c.keys;
      assert d.keys == c.keys + [k];
      assert (c.keys + [k])[..|c.keys|] == c.keys;
      RemoveAbsent(c.keys, k);
    }
  }

  // ---------------------------------------------------------------------
  // The ordered call map

  /** The position of the first call with this key, or |f| when there is
      none. */
  function FindKey(f: seq<Furo>, key: FuroKey): (i: nat)
    ensures i <= |f| && (i < |f| ==> f[i].key == key)
    ensures forall j :: 0 <= j < i ==> f[j].key != key
  {
    if f == [] then 0
    else if f[0].key == key then 0
    else 1 + FindKey(f[1..], key)
  }

  /** `furo.get(key)` */
  function Lookup(f: seq<Furo>, key: FuroKey): Option<seq<int>>
  {
    var i := FindKey(f, key);
    if i < |f| then Some(f[i].tiles) else None
  }

  ghost predicate DistinctKeys(f: seq<Furo>)
  {
    forall i, j :: 0 <= i < j < |f| ==> f[i].key != f[j].key
  }

  /** `furo[key] = tiles` on an OrderedDict: an existing key keeps its
      place and takes the new value, a new key goes last. */
  function PutFuro(f: seq<Furo>, key: FuroKey, tiles: seq<int>): seq<Furo>
  {
    var i := FindKey(f, key);
    if i < |f| then f[i := Furo(key, tiles)] else f + [Furo(key, tiles)]
  }

  /** The assignment behaves as a dictionary update: the key now maps to
      the new value, every other key to what it mapped to, no key moves,
      and the map grows by one exactly when the key is new. */
  lemma PutFuroLookup(f: seq<Furo>, key: FuroKey, tiles: seq<int>)
    ensures Lookup(PutFuro(f, key, tiles), key) == Some(tiles)
    ensures forall k :: k != key ==> Lookup(PutFuro(f, key, tiles), k) == Lookup(f, k)
    ensures DistinctKeys(f) ==> DistinctKeys(PutFuro(f, key, tiles))
    ensures |PutFuro(f, key, tiles)| == |f| + (if Lookup(f, key).None? then 1 else 0)
    ensures forall j :: 0 <= j < |f| ==> PutFuro(f, key, tiles)[j].key == f[j].key
  {
    var g := PutFuro(f, key, tiles);
    var i := FindKey(f, key);
    assert g[i].key == key;
    assert forall j :: 0 <= j < i ==> g[j].key != key;
    FindKeyIs(g, key, i);
    forall k | k != key
      ensures Lookup(g, k) == Lookup(f, k)
    {
      var a := FindKey(f, k);
      assert forall j :: 0 <= j < |f| && j != i ==> g[j] == f[j];
      if a < |f| {
        assert a != i;
        FindKeyIs(g, k, a);
      } else {
        assert forall j :: 0 <= j < |g| ==> g[j].key != k;
        FindKeyIs(g, k, |g|);
      }
    }
  }

  /** The first position holding a key is the one FindKey returns. */
  lemma FindKeyIs(f: seq<Furo>, key: FuroKey, i: nat)
    requires i <= |f| && (i < |f| ==> f[i].key == key)
    requires forall j :: 0 <= j < i ==> f[j].key != key
    ensures FindKey(f, key) == i
  {
  }

  /** `OrderedDict(items)`: the items assigned in turn, so a repeated key
      keeps its first place and its last value. */
  function FromItems(items: seq<Furo>): (r: seq<Furo>)
    ensures DistinctKeys(r) && |r| <= |items|
  {
    if items == [] then []
    else
      var n := |items| - 1;
      PutFuroLookup(FromItems(items[..n]), items[n].key, items[n].tiles);
      PutFuro(FromItems(items[..n]), items[n].key, items[n].tiles)
  }

  /** Items with distinct keys come back unchanged. */
  lemma {:induction false} FromItemsDistinct(items: seq<Furo>)
    requires DistinctKeys(items)
    ensures FromItems(items) == items
  {
    if items != [] {
      var n := |items| - 1;
      FromItemsDistinct(items[..n]);
      FindKeyIs(items[..n], items[n].key, n);
    }
  }

  /** The items of the call map with the first pon of kind ptn turned
      into an open kan that also holds the added id; unchanged when there
      is no such pon. */
  function Upgraded(f: seq<Furo>, ptn: int, add: int): seq<Furo>
  {
    var i := FindKey(f, FuroKey(1, KindPtn(ptn)));
    if i < |f| then f[i := Furo(FuroKey(3, KindPtn(ptn)), f[i].tiles + [add])] else f
  }

  /** An added kan keeps the pon's place: when the map holds the pon and
      no open kan of that kind, the rebuilt map has the open kan, holding
      the pon's ids and the added one, where the pon was, and every other
      call where it was. */
  lemma AddedKanPosition(f: seq<Furo>, ptn: int, add: int)
    requires DistinctKeys(f) && Lookup(f, FuroKey(3, KindPtn(ptn))).None?
    requires Lookup(f, FuroKey(1, KindPtn(ptn))).Some?
    ensures var g := FromItems(Upgraded(f, ptn, add));
      var i := FindKey(f, FuroKey(1, KindPtn(ptn)));
      |g| == |f| && g[i] == Furo(FuroKey(3, KindPtn(ptn)), f[i].tiles + [add]) &&
      forall j :: 0 <= j < |f| && j != i ==> g[j] == f[j]
  {
    var i := FindKey(f, FuroKey(1, KindPtn(ptn)));
    var u := Upgraded(f, ptn, add);
    assert forall j :: 0 <= j < |f| ==> f[j].key != FuroKey(3, KindPtn(ptn));
    assert DistinctKeys(u);
    FromItemsDistinct(u);
  }

  // ---------------------------------------------------------------------
  // Offered kans

  /** A kan the seat may declare: `(mode, kind, id)`, mode 0 concealed,
      1 open, 2 added. */
  datatype KanOption = KanOption(mode: int, kind: int, id: int)

  /** The concealed kans of the counter's items, in key order. */
  function ConcealedKans(c: Counter, ks: seq<int>): (r: seq<KanOption>)
    ensures forall o :: o in r <==> o.mode == 0 && o.kind in ks && c.Get(o.kind) == 4 && o.id == o.kind * 4
  {
    if ks == [] then []
    else
      var n := |ks| - 1;
      assert forall x :: x in ks <==> x in ks[..n] || x == ks[n];
      ConcealedKans(c, ks[..n]) + (if c.Get(ks[n]) == 4 then [KanOption(0, ks[n], ks[n] * 4)] else [])
  }

  /** The least id of the kind that a call's ids lack: the id that
      `{ptn*4 + j} - tiles` pops. */
  function MissingId(kind: int, tiles: seq<int>): (r: Option<int>)
    ensures r.Some? ==> r.value / 4 == kind && r.value !in tiles
    ensures r.None? <==> kind * 4 in tiles && kind * 4 + 1 in tiles && kind * 4 + 2 in tiles && kind * 4 + 3 in tiles
  {
    QuarterOf(kind);
    if kind * 4 !in tiles then Some(kind * 4)
    else if kind * 4 + 1 !in tiles then Some(kind * 4 + 1)
    else if kind * 4 + 2 !in tiles then Some(kind * 4 + 2)
    else if kind * 4 + 3 !in tiles then Some(kind * 4 + 3)
    else None
  }

  /** The four ids of a kind divide back to it. */
  lemma QuarterOf(kind: int)
    ensures kind * 4 / 4 == kind && (kind * 4 + 1) / 4 == kind
    ensures (kind * 4 + 2) / 4 == kind && (kind * 4 + 3) / 4 == kind
  {
  }

  /** A pon whose kind is still held can be extended. */
  predicate Extendable(e: Furo, c: Counter)
  {
    e.key.furoType == 1 && e.key.ptn.KindPtn? && c.Get(e.key.ptn.kind) != 0
  }

  /** Every extendable pon lacks some id of its kind (otherwise `pop`
      raises on an empty set). */
  predicate PonsOpen(f: seq<Furo>, c: Counter)
  {
    forall i :: 0 <= i < |f| && Extendable(f[i], c) ==> MissingId(f[i].key.ptn.kind, f[i].tiles).Some?
  }

  /** The added kan a call offers, if it is an extendable pon. */
  function AddedKanOf(e: Furo, c: Counter): (r: Option<KanOption>)
    requires Extendable(e, c) ==> MissingId(e.key.ptn.kind, e.tiles).Some?
  {
    if Extendable(e, c) then Some(KanOption(2, e.key.ptn.kind, MissingId(e.key.ptn.kind, e.tiles).value))
    else None
  }

  /** The added kans: one per extendable pon, in call order. */
  function AddedKans(f: seq<Furo>, c: Counter): (r: seq<KanOption>)
    requires PonsOpen(f, c)
  {
    if f == [] then []
    else
      var n := |f| - 1;
      assert forall i :: 0 <= i < n ==> f[..n][i] == f[i];
      var o := AddedKanOf(f[n], c);
      AddedKans(f[..n], c) + (if o.Some? then [o.value] else [])
  }

  /** Each added kan extends a pon of a kind still held with an id of
      that kind the pon lacks, and every such pon gives one. */
  lemma {:induction false} AddedKansSpec(f: seq<Furo>, c: Counter)
    requires PonsOpen(f, c)
    ensures |AddedKans(f, c)| <= |f|
    ensures forall o :: o in AddedKans(f, c) ==> (o.mode == 2 && c.Get(o.kind) != 0 && o.id / 4 == o.kind &&
      exists i :: 0 <= i < |f| && f[i].key == FuroKey(1, KindPtn(o.kind)) && o.id !in f[i].tiles)
    ensures forall i :: 0 <= i < |f| && Extendable(f[i], c) ==>
      exists o :: o in AddedKans(f, c) && o.kind == f[i].key.ptn.kind
  {
    if f != [] {
      var n := |f| - 1;
      assert forall i :: 0 <= i < n ==> f[..n][i] == f[i];
      AddedKansSpec(f[..n], c);
      var rest := AddedKans(f[..n], c);
      var o := AddedKanOf(f[n], c);
      assert AddedKans(f, c) == rest + (if o.Some? then [o.value] else []);
      forall x | x in AddedKans(f, c)
        ensures x.mode == 2 && c.Get(x.kind) != 0 && x.id / 4 == x.kind &&
          exists i :: 0 <= i < |f| && f[i].key == FuroKey(1, KindPtn(x.kind)) && x.id !in f[i].tiles
      {
        if x in rest {
          var i :| 0 <= i < n && f[..n][i].key == FuroKey(1, KindPtn(x.kind)) && x.id !in f[..n][i].tiles;
          assert f[i] == f[..n][i];
        } else {
          assert x == o.value;
          assert f[n].key == FuroKey(1, KindPtn(x.kind));
        }
      }
      forall i | 0 <= i < |f| && Extendable(f[i], c)
        ensures exists x :: x in AddedKans(f, c) && x.kind == f[i].key.ptn.kind
      {
        if i < n {
          assert Extendable(f[..n][i], c);
          var x :| x in rest && x.kind == f[..n][i].key.ptn.kind;
          assert x in AddedKans(f, c);
        } else {
          assert o.value in AddedKans(f, c);
        }
      }
    }
  }

  // ---------------------------------------------------------------------
  // Chi

  /** The kinds, in order, of the ids other than the claimed one. */
  function OwnKinds(ids: seq<int>, kuiTile: int): seq<int>
  {
    if ids == [] then []
    else
      var n := |ids| - 1;
      OwnKinds(ids[..n], kuiTile) + (if ids[n] != kuiTile then [ids[n] / 4] else [])
  }

  /** The counter after `chi` lowers the kind of each id but the claimed
      one. */
  function ChiLowered(c: Counter, ids: seq<int>, kuiTile: int): Counter
  {
    if ids == [] then c
    else
      var n := |ids| - 1;
      var p := ChiLowered(c, ids[..n], kuiTile);
      if ids[n] != kuiTile then p.CleanPut(ids[n] / 4, p.Get(ids[n] / 4) - 1) else p
  }

  /** Each kind drops by the number of its ids the seat gave up, no other
      count changes, and no zero is stored. */
  lemma {:induction false} ChiLoweredCounts(c: Counter, ids: seq<int>, kuiTile: int)
    requires c.Valid() && c.NoZero()
    ensures var r := ChiLowered(c, ids, kuiTile);
      r.Valid() && r.NoZero() &&
      (KindsStored(c) && (forall x :: x in ids ==> IsId(x)) ==> KindsStored(r)) &&
      forall k :: r.Get(k) == c.Get(k) - multiset(OwnKinds(ids, kuiTile))[k]
  {
    if ids != [] {
      var n := |ids| - 1;
      var pre, x := ids[..n], ids[n];
      var stored := KindsStored(c) && (forall y :: y in ids ==> IsId(y));
      assert stored ==> forall y :: y in pre ==> IsId(y) by {
        assert forall y :: y in pre ==> y in ids;
      }
      assert stored ==> IsId(x) by {
        assert x in ids;
      }
      ChiLoweredCounts(c, pre, kuiTile);
      ChiLoweredStep(c, ids, kuiTile, stored);
    }
  }

  /** One id of ChiLoweredCounts: the last id's kind, unless it is the
      claimed id, drops by one. */
  lemma ChiLoweredStep(c: Counter, ids: seq<int>, kuiTile: int, stored: bool)
    requires ids != []
    requires var p := ChiLowered(c, ids[..|ids| - 1], kuiTile);
      p.Valid() && p.NoZero() && (stored ==> KindsStored(p) && IsId(ids[|ids| - 1])) &&
      forall k :: p.Get(k) == c.Get(k) - multiset(OwnKinds(ids[..|ids| - 1], kuiTile))[k]
    ensures var r := ChiLowered(c, ids, kuiTile);
      r.Valid() && r.NoZero() && (stored ==> KindsStored(r)) &&
      forall k :: r.Get(k) == c.Get(k) - multiset(OwnKinds(ids, kuiTile))[k]
  {
    var n := |ids| - 1;
    var p, x, own := ChiLowered(c, ids[..n], kuiTile), ids[n], OwnKinds(ids[..n], kuiTile);
    var r := if x != kuiTile then p.CleanPut(x / 4, p.Get(x / 4) - 1) else p;
    assert ChiLowered(c, ids, kuiTile) == r;
    assert OwnKinds(ids, kuiTile) == own + (if x != kuiTile then [x / 4] else []);
    LowerOne(c, p, x, kuiTile, own, stored);
  }

  lemma LowerOne(c: Counter, p: Counter, x: int, kuiTile: int, own: seq<int>, stored: bool)
    requires p.Valid() && p.NoZero()
    requires stored ==> KindsStored(p) && IsId(x)
    requires forall k :: p.Get(k) == c.Get(k) - multiset(own)[k]
    ensures var r := if x != kuiTile then p.CleanPut(x / 4, p.Get(x / 4) - 1) else p;
      r.Valid() && r.NoZero() && (stored ==> KindsStored(r)) &&
      forall k :: r.Get(k) == c.Get(k) - multiset(own + (if x != kuiTile then [x / 4] else []))[k]
  {
  }

  /** The least element of a non-empty list. */
  function Min(s: seq<int>): (m: int)
    requires s != []
    ensures m in s && forall x :: x in s ==> m <= x
  {
    if |s| == 1 then s[0]
    else
      var m := Min(s[1..]);
      assert forall x :: x in s ==> x == s[0] || x in s[1..];
      if s[0] <= m then s[0] else m
  }

  /** A pattern is ascending (or descending) without repeats. */
  predicate Ascending(s: seq<int>) { forall i, j :: 0 <= i < j < |s| ==> s[i] < s[j] }
  predicate Descending(s: seq<int>) { forall i, j :: 0 <= i < j < |s| ==> s[i] > s[j] }

  // ---------------------------------------------------------------------
  // The seat

  /** One entry of `kui_info`: the claimed id and the seat it came from,
      with the added id in front after an added kan. */
  type KuiEntry = seq<Option<int>>

  class Agent {
    /** The winning and waiting tables `is_agari`, `machi` and
        `check_machi` consult. */
    const agari: AgariTables
    const waiting: MachiTables
    const isPlayback: bool
    const menfon: int

    var score: int
    var tiles: set<int>
    var counter: Counter
    var counterBak: Counter
    var discardTiles: seq<int>
    var river: seq<int>
    var furo: seq<Furo>
    var kuiInfo: seq<KuiEntry>
    var declareRiichi: int
    var riichiStatus: int
    var riichiRound: int
    var riichiTile: int
    var ippatsuStatus: int
    var kui: bool
    var machi: set<int>
    var nagashimangan: int
    var discardFuriten: bool
    var riichiFuriten: bool
    var roundFuriten: bool

    /** The counter holds kinds and no zero, the calls have distinct keys,
        and every call has its `kui_info` entry. */
    ghost predicate Valid()
      reads this
    {
      counter.Valid() && counter.NoZero() && KindsStored(counter) &&
      DistinctKeys(furo) && |kuiInfo| >= |furo|
    }

    /** `furiten`: the seat may not win on a discard. */
    predicate Furiten()
      reads this
    {
      discardFuriten || riichiFuriten || roundFuriten
    }

    /** `is_agari()` */
    function HandAgari(): Agari
      reads this
    {
      IsAgari(agari, Dense(counter))
    }

    /** `Agent(score, tiles, seat, is_playback)`. The deal is the set's
        ids in the order the set yields them. A negative seat counts
        from the end of the wind list, as Python indexing does. */
    constructor (score: int, deal: seq<int>, seat: int, isPlayback: bool, agari: AgariTables, waiting: MachiTables)
      requires Distinct(deal) && forall x :: x in deal ==> IsId(x)
      requires -4 <= seat < 4
      ensures Valid()
      ensures this.score == score && tiles == IdSet(deal) && this.isPlayback == isPlayback
      ensures this.agari == agari && this.waiting == waiting
      ensures counter == FromList(seq(|deal|, i requires 0 <= i < |deal| => deal[i] / 4)) && counterBak == counter
      ensures discardTiles == [] && river == [] && furo == [] && kuiInfo == []
      ensures declareRiichi == 0 && riichiStatus == 0 && riichiRound == 100 && riichiTile == -1
      ensures ippatsuStatus == 0 && !kui && nagashimangan == 1
      ensures menfon == 27 + seat % 4
      ensures !discardFuriten && !riichiFuriten && !roundFuriten
      ensures machi == if isPlayback then {} else Waits(agari, counter)
    {
      this.agari := agari;
      this.waiting := waiting;
      this.isPlayback := isPlayback;
      this.score := score;
      tiles := IdSet(deal);
      counter := CountKinds(deal);
      counterBak := counter;
      discardTiles := [];
      river := [];
      furo := [];
      kuiInfo := [];
      declareRiichi := 0;
      riichiStatus := 0;
      riichiRound := 100;
      riichiTile := -1;
      ippatsuStatus := 0;
      kui := false;
      machi := {};
      menfon := [27, 28, 29, 30][seat % 4];
      nagashimangan := 1;
      discardFuriten := false;
      riichiFuriten := false;
      roundFuriten := false;
      new;
      if isPlayback {
        return;
      }
      var m := Machi(agari, Dense(counter));
      if m != {} {
        machi := m;
      }
    }

    /** `AutoCleanCounter(map(lambda x: x // 4, tiles))` */
    static function CountKinds(deal: seq<int>): (c: Counter)
      requires forall x :: x in deal ==> IsId(x)
      ensures c.Valid() && c.NoZero() && KindsStored(c)
      ensures c == FromList(seq(|deal|, i requires 0 <= i < |deal| => deal[i] / 4))
    {
      var kinds := seq(|deal|, i requires 0 <= i < |deal| => deal[i] / 4);
      FromListCounts(kinds);
      assert forall k :: k in FromList(kinds).counts ==> 0 <= k < 34 by {
        forall k | k in FromList(kinds).counts
          ensures 0 <= k < 34
        {
          assert multiset(kinds)[k] != 0;
          assert k in kinds;
          var i :| 0 <= i < |kinds| && kinds[i] == k;
          assert deal[i] in deal && kinds[i] == deal[i] / 4;
          KindOfId(deal[i]);
        }
      }
      FromList(kinds)
    }

    /** `draw(tile_id)` */
    method Draw(tileId: int)
      requires Valid() && IsId(tileId)
      modifies this`tiles, this`counter
      ensures Valid()
      ensures tiles == old(tiles) + {tileId}
      ensures counter == old(counter).CleanPut(tileId / 4, old(counter).Get(tileId / 4) + 1)
    {
      tiles := tiles + {tileId};
      counter := counter.CleanPut(tileId / 4, counter.Get(tileId / 4) + 1);
    }

    /** `discard(tile_id)`: the id leaves the hand for the discards and
        the river; outside playback the furiten flags and the waits are
        brought up to date. */
    method Discard(tileId: int)
      requires Valid() && IsId(tileId) && tileId in tiles
      modifies this`tiles, this`discardTiles, this`river, this`counter, this`roundFuriten,
        this`counterBak, this`machi, this`discardFuriten
      ensures Valid()
      ensures tiles == old(tiles) - {tileId}
      ensures discardTiles == old(discardTiles) + [tileId] && river == old(river) + [tileId]
      ensures counter == old(counter).CleanPut(tileId / 4, old(counter).Get(tileId / 4) - 1)
      ensures isPlayback ==> (roundFuriten == old(roundFuriten) && counterBak == old(counterBak) &&
        machi == old(machi) && discardFuriten == old(discardFuriten))
      ensures !isPlayback ==> !roundFuriten && (Furiten() <==> discardFuriten || riichiFuriten)
      // The counts are those of the last discard: a tile drawn and thrown
      // straight back. A wait thrown this way bars winning on discards.
      ensures !isPlayback && counter.counts == old(counterBak).counts ==>
        counterBak == old(counterBak) && machi == old(machi) &&
        discardFuriten == (old(discardFuriten) || tileId / 4 in old(machi))
      ensures !isPlayback && counter.counts != old(counterBak).counts ==> counterBak == counter
      ensures !isPlayback && counter.counts != old(counterBak).counts && riichiStatus != 0 ==>
        machi == old(machi) && discardFuriten == old(discardFuriten)
      // Outside riichi the waits are recomputed, and the seat is furiten
      // exactly when it has already discarded one of them.
      ensures !isPlayback && counter.counts != old(counterBak).counts && riichiStatus == 0 ==>
        machi == (if CheckMachi(waiting, Dense(counter)) then Waits(agari, counter) else {}) &&
        (discardFuriten <==> machi * KindsOf(discardTiles) != {})
    {
      var tile := tileId / 4;
      tiles := tiles - {tileId};
      discardTiles := discardTiles + [tileId];
      river := river + [tileId];
      counter := counter.CleanPut(tile, counter.Get(tile) - 1);
      if !isPlayback {
        RefreshWaits(tile);
      }
    }

    /** The part of `discard` after the tile has left the hand (outside
        playback): furiten and the waits, for a discard of kind `tile`. */
    method RefreshWaits(tile: int)
      modifies this`roundFuriten, this`counterBak, this`machi, this`discardFuriten
      ensures !roundFuriten && (Furiten() <==> discardFuriten || riichiFuriten)
      ensures counter.counts == old(counterBak).counts ==>
        counterBak == old(counterBak) && machi == old(machi) &&
        discardFuriten == (old(discardFuriten) || tile in old(machi))
      ensures counter.counts != old(counterBak).counts ==> counterBak == counter
      ensures counter.counts != old(counterBak).counts && riichiStatus != 0 ==>
        machi == old(machi) && discardFuriten == old(discardFuriten)
      ensures counter.counts != old(counterBak).counts && riichiStatus == 0 ==>
        machi == (if CheckMachi(waiting, Dense(counter)) then Waits(agari, counter) else {}) &&
        (discardFuriten <==> machi * KindsOf(discardTiles) != {})
    {
      roundFuriten := false;
      if counter.counts == counterBak.counts {
        if tile in machi {
          discardFuriten := true;
        }
        return;
      }
      counterBak := counter;
      if riichiStatus == 0 {
        var tenpai, waits := Rewait(agari, waiting, counter);
        if tenpai {
          machi := waits;
          discardFuriten := machi * KindsOf(discardTiles) != {};
        } else {
          machi := {};
          discardFuriten := false;
        }
      }
    }

    /** `check_machi(counter)`, and `machi(counter)` for a tenpai hand. */
    static method Rewait(t: AgariTables, mt: MachiTables, c: Counter) returns (tenpai: bool, waits: set<int>)
      ensures tenpai == CheckMachi(mt, Dense(c))
      ensures tenpai ==> waits == Waits(t, c)
    {
      tenpai := CheckMachi(mt, Dense(c));
      waits := {};
      if tenpai {
        waits := Machi(t, Dense(c));
      }
    }

    /** `riichi(double_riichi)` */
    method Riichi(double: bool) returns (ok: bool)
      modifies this`riichiStatus, this`ippatsuStatus, this`riichiRound, this`score, this`machi
      ensures ok <==> old(riichiStatus) == 0
      ensures !ok ==> (riichiStatus == old(riichiStatus) && ippatsuStatus == old(ippatsuStatus) &&
        riichiRound == old(riichiRound) && score == old(score) && machi == old(machi))
      ensures ok ==> (riichiStatus == (if double then 2 else 1) && ippatsuStatus == 1 &&
        riichiRound == |discardTiles| && score == old(score) - 10 && machi == Waits(agari, counter))
    {
      if riichiStatus != 0 {
        return false;
      }
      riichiStatus := if double then 2 else 1;
      ippatsuStatus := 1;
      riichiRound := |discardTiles|;
      score := score - 10;
      machi := Machi(agari, Dense(counter));
      return true;
    }

    /** `check_pon(tile_id)`: a pon is offered outside riichi on a pair. */
    method CheckPon(tileId: int) returns (ok: bool, kind: Option<int>)
      ensures ok <==> riichiStatus == 0 && counter.Get(tileId / 4) >= 2
      ensures ok ==> kind == Some(tileId / 4)
      ensures !ok ==> kind == None
    {
      if riichiStatus != 0 {
        return false, None;
      }
      var tile := tileId / 4;
      if counter.Get(tile) >= 2 {
        return true, Some(tile);
      }
      return false, None;
    }

    /** The chi on the discarded id with lowest kind p is allowed: the
        seat is not in riichi, the discard is a suit tile, keeping it
        would not leave only that kind in hand, the run p..p+2 lies in the
        discard's suit and contains it, the other two kinds are held, and
        the tile at the far end of the run, together with the discarded
        kind, is not all the hand would keep (kuikae). */
    predicate ChiAllowed(tileId: int, p: int)
      reads this
    {
      var k := tileId / 4;
      var n := |tiles|;
      riichiStatus == 0 && k / 9 != 3 && counter.Get(k) != n - 2 &&
      k - 2 <= p <= k && p / 9 == k / 9 && (p + 2) / 9 == k / 9 &&
      (forall q :: p <= q <= p + 2 && q != k ==> counter.Get(q) != 0) &&
      (p == k - 2 ==> counter.Get(k) + counter.Get(k - 3) != n - 2) &&
      (p == k ==> counter.Get(k) + counter.Get(k + 3) != n - 2)
    }

    /** `check_chi(tile_id)`: the lowest kinds of the runs the discard may
        be claimed into, ascending except for a discarded 8, where the
        middle run comes first. */
    method CheckChi(tileId: int) returns (ok: bool, patterns: seq<int>)
      ensures ok <==> patterns != []
      ensures forall p :: p in patterns <==> ChiAllowed(tileId, p)
      ensures forall p :: p in patterns ==>
        p % 9 <= 6 && p <= tileId / 4 <= p + 2 && p / 9 == tileId / 4 / 9 != 3
      ensures counter.Get(tileId / 4) == |tiles| - 2 ==> patterns == []
      ensures tileId / 4 % 9 != 7 ==> Ascending(patterns)
      ensures tileId / 4 % 9 == 7 ==> Descending(patterns)
    {
      if riichiStatus != 0 {
        return false, [];
      }
      var tile := tileId / 4;
      if tile / 9 == 3 {
        return false, [];
      }
      var n := |tiles|;
      var c := counter;
      if c.Get(tile) == n - 2 {
        return false, [];
      }
      var d := tile % 9;
      patterns := [];
      if d == 0 {
        if c.Get(tile + 1) != 0 && c.Get(tile + 2) != 0 {
          if c.Get(tile) + c.Get(tile + 3) == n - 2 {
            return false, [];
          }
          assert ChiAllowed(tileId, tile);
          return true, [tile];
        }
        return false, [];
      }
      if d == 8 {
        if c.Get(tile - 1) != 0 && c.Get(tile - 2) != 0 {
          if c.Get(tile) + c.Get(tile - 3) == n - 2 {
            return false, [];
          }
          assert ChiAllowed(tileId, tile - 2);
          return true, [tile - 2];
        }
        return false, [];
      }
      if d == 1 {
        if c.Get(tile - 1) != 0 && c.Get(tile + 1) != 0 {
          patterns := patterns + [tile - 1];
        }
        if c.Get(tile + 1) != 0 && c.Get(tile + 2) != 0 {
          if c.Get(tile) + c.Get(tile + 3) != n - 2 {
            patterns := patterns + [tile];
          }
        }
        return patterns != [], patterns;
      }
      if d == 7 {
        if c.Get(tile - 1) != 0 && c.Get(tile + 1) != 0 {
          patterns := patterns + [tile - 1];
        }
        if c.Get(tile - 1) != 0 && c.Get(tile - 2) != 0 {
          if c.Get(tile) + c.Get(tile - 3) != n - 2 {
            patterns := patterns + [tile - 2];
          }
        }
        return patterns != [], patterns;
      }
      if c.Get(tile - 1) != 0 && c.Get(tile - 2) != 0 {
        if c.Get(tile) + c.Get(tile - 3) != n - 2 {
          patterns := patterns + [tile - 2];
        }
      }
      if c.Get(tile - 1) != 0 && c.Get(tile + 1) != 0 {
        patterns := patterns + [tile - 1];
      }
      if c.Get(tile + 1) != 0 && c.Get(tile + 2) != 0 {
        if c.Get(tile) + c.Get(tile + 3) != n - 2 {
          patterns := patterns + [tile];
        }
      }
      return patterns != [], patterns;
    }

    /** `check_kan(tile_id, mode)`, mode 1 open, 0 concealed, anything else
        added. An open kan is offered outside riichi on a triplet; under
        riichi a concealed kan only on the drawn kind, and only when the
        waits stay as they are; otherwise every kind held four times; an
        added kan on each pon whose kind is still held. */
    method CheckKan(tileId: int, mode: int) returns (ok: bool, options: seq<KanOption>)
      requires Valid()
      requires mode != 0 && mode != 1 ==> PonsOpen(furo, counter)
      ensures ok <==> options != []
      ensures mode == 1 ==> (options ==
        if riichiStatus == 0 && counter.Get(tileId / 4) == 3 then [KanOption(1, tileId / 4, tileId)] else [])
      ensures mode == 0 && riichiStatus != 0 ==> (options ==
        if counter.Get(tileId / 4) == 4 && machi == Waits(agari, counter.CleanPut(tileId / 4, 0))
        then [KanOption(0, tileId / 4, tileId)] else [])
      ensures mode == 0 && riichiStatus == 0 ==> options == ConcealedKans(counter, counter.keys)
      ensures mode != 0 && mode != 1 ==> options == AddedKans(furo, counter)
    {
      var pattern := tileId / 4;
      if mode == 1 {
        if riichiStatus != 0 {
          return false, [];
        }
        if counter.Get(pattern) == 3 {
          return true, [KanOption(1, pattern, tileId)];
        }
        return false, [];
      }
      if mode == 0 {
        if riichiStatus != 0 {
          if counter.Get(pattern) == 4 {
            var lowered := counter.CleanPut(pattern, 0);
            var newMachi := Machi(agari, Dense(lowered));
            if machi == newMachi {
              return true, [KanOption(0, pattern, tileId)];
            }
          }
          return false, [];
        }
        options := ConcealedKans(counter, counter.keys);
        return options != [], options;
      }
      options := AddedKans(furo, counter);
      return options != [], options;
    }

    /** `can_declare_riichi()`: a closed hand, not yet in riichi, with at
        least 1000 points, one discard away from tenpai. */
    method CanDeclareRiichi() returns (ok: bool)
      requires Valid()
      ensures ok <==> (!kui && riichiStatus == 0 && score >= 10 &&
        exists k :: 0 <= k < 34 && counter.Get(k) > 0 && CheckMachi(waiting, Lowered(counter, k)))
    {
      if kui || riichiStatus != 0 || score < 10 {
        return false;
      }
      StoredKeysAreKinds(counter);
      RiichiKindsSpec(waiting, counter, counter.keys);
      var r := CheckRiichi(waiting, counter, false);
      ok := r.b;
      if ok {
        var k := RiichiKinds(waiting, counter, counter.keys)[0];
        assert k in RiichiKinds(waiting, counter, counter.keys);
      } else {
        forall k | 0 <= k < 34 && counter.Get(k) > 0
          ensures !CheckMachi(waiting, Lowered(counter, k))
        {
          assert k in counter.counts;
        }
      }
    }

    /** `pon(tile_id_list, kui_tile, from_who)` */
    method Pon(ids: seq<int>, kuiTile: int, fromWho: Option<int>)
      requires Valid() && IsId(kuiTile)
      modifies this`tiles, this`furo, this`kuiInfo, this`kui, this`counter
      ensures Valid()
      ensures tiles == old(tiles) - IdSet(ids)
      ensures furo == PutFuro(old(furo), FuroKey(1, KindPtn(kuiTile / 4)), ids)
      ensures kuiInfo == old(kuiInfo) + [[Some(kuiTile), fromWho]] && kui
      ensures counter == old(counter).CleanPut(kuiTile / 4, old(counter).Get(kuiTile / 4) - 2)
    {
      tiles := tiles - IdSet(ids);
      var ptn := kuiTile / 4;
      PutFuroLookup(furo, FuroKey(1, KindPtn(ptn)), ids);
      furo := PutFuro(furo, FuroKey(1, KindPtn(ptn)), ids);
      kuiInfo := kuiInfo + [[Some(kuiTile), fromWho]];
      kui := true;
      counter := counter.CleanPut(ptn, counter.Get(ptn) - 2);
    }

    /** `chi(tile_id_list, kui_tile, from_who)`: the key is the run's
        lowest kind with the number of calls made before it. */
    method Chi(ids: seq<int>, kuiTile: int, fromWho: Option<int>)
      requires Valid() && ids != [] && forall x :: x in ids ==> IsId(x)
      modifies this`tiles, this`furo, this`kuiInfo, this`kui, this`counter
      ensures Valid()
      ensures counter == ChiLowered(old(counter), ids, kuiTile)
      ensures tiles == old(tiles) - IdSet(ids)
      ensures furo == PutFuro(old(furo), FuroKey(0, ChiPtn(Min(ids) / 4, |old(furo)|)), ids)
      ensures kuiInfo == old(kuiInfo) + [[Some(kuiTile), fromWho]] && kui
    {
      counter := LowerOwn(counter, ids, kuiTile);
      tiles := tiles - IdSet(ids);
      var key := FuroKey(0, ChiPtn(Min(ids) / 4, |furo|));
      PutFuroLookup(furo, key, ids);
      furo := PutFuro(furo, key, ids);
      kuiInfo := kuiInfo + [[Some(kuiTile), fromWho]];
      kui := true;
    }

    /** The loop of `chi` that lowers the count of every id but the
        claimed one. */
    static method LowerOwn(c: Counter, ids: seq<int>, kuiTile: int) returns (r: Counter)
      requires c.Valid() && c.NoZero() && KindsStored(c) && forall x :: x in ids ==> IsId(x)
      ensures r == ChiLowered(c, ids, kuiTile)
      ensures r.Valid() && r.NoZero() && KindsStored(r)
    {
      r := c;
      var i := 0;
      while i < |ids|
        invariant 0 <= i <= |ids|
        invariant r == ChiLowered(c, ids[..i], kuiTile)
      {
        assert ids[..i + 1][..i] == ids[..i];
        if ids[i] != kuiTile {
          r := r.CleanPut(ids[i] / 4, r.Get(ids[i] / 4) - 1);
        }
        i := i + 1;
      }
      assert ids[..i] == ids;
      ChiLoweredCounts(c, ids, kuiTile);
    }

    /** `kan(tile_id_list, add, mode, kui_tile, from_who)`: mode 0
        concealed, 1 open, anything else added to a pon. */
    method Kan(ids: seq<int>, add: Option<int>, mode: int, kuiTile: Option<int>, fromWho: Option<int>)
      requires Valid() && ids != []
      requires mode != 0 && mode != 1 ==> add.Some?
      modifies this`tiles, this`furo, this`kuiInfo, this`kui, this`counter
      ensures Valid()
      ensures counter == old(counter).CleanPut(ids[0] / 4, 0)
      ensures mode == 0 ==> (tiles == old(tiles) - IdSet(ids) && kui == old(kui) &&
        furo == PutFuro(old(furo), FuroKey(2, KindPtn(ids[0] / 4)), ids) &&
        kuiInfo == old(kuiInfo) + [[kuiTile, fromWho]])
      ensures mode == 1 ==> (tiles == old(tiles) - IdSet(ids) && kui &&
        furo == PutFuro(old(furo), FuroKey(3, KindPtn(ids[0] / 4)), ids) &&
        kuiInfo == old(kuiInfo) + [[kuiTile, fromWho]])
      ensures mode != 0 && mode != 1 ==> (tiles == old(tiles) - {add.value} && kui == old(kui) &&
        furo == FromItems(Upgraded(old(furo), ids[0] / 4, add.value)) &&
        var i := FindKey(old(furo), FuroKey(1, KindPtn(ids[0] / 4)));
        kuiInfo == if i < |old(furo)| then old(kuiInfo)[i := [add]+ old(kuiInfo)[i]] else old(kuiInfo))
    {
      var ptn := ids[0] / 4;
      if mode == 0 {
        tiles := tiles - IdSet(ids);
        PutFuroLookup(furo, FuroKey(2, KindPtn(ptn)), ids);
        furo := PutFuro(furo, FuroKey(2, KindPtn(ptn)), ids);
        counter := counter.CleanPut(ptn, 0);
        kuiInfo := kuiInfo + [[kuiTile, fromWho]];
      } else if mode == 1 {
        tiles := tiles - IdSet(ids);
        PutFuroLookup(furo, FuroKey(3, KindPtn(ptn)), ids);
        furo := PutFuro(furo, FuroKey(3, KindPtn(ptn)), ids);
        kui := true;
        counter := counter.CleanPut(ptn, 0);
        kuiInfo := kuiInfo + [[kuiTile, fromWho]];
      } else {
        var added := add.value;
        tiles := tiles - {added};
        var oldKey := FuroKey(1, KindPtn(ptn));
        var items := furo;
        var i := 0;
        while i < |items|
          invariant 0 <= i <= |items| && items == furo
          invariant forall j :: 0 <= j < i ==> items[j].key != oldKey
        {
          if items[i].key == oldKey {
            FindKeyIs(furo, oldKey, i);
            items := items[i := Furo(FuroKey(3, KindPtn(ptn)), items[i].tiles + [added])];
            kuiInfo := kuiInfo[i := [add] + kuiInfo[i]];
            break;
          }
          i := i + 1;
        }
        if i == |furo| {
          FindKeyIs(furo, oldKey, i);
        }
        furo := FromItems(items);
        counter := counter.CleanPut(ptn, 0);
      }
    }
  }
}
