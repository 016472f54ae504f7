/** The pure helpers of the web client's table renderer
    (online_game/web_client/js/src/render.js): JavaScript's modulo fix-up,
    splitting a list of tiles into rows, the sprite frame of a tile, and
    the layout of a call's tiles with the claimed tile turned sideways. */
module Render {
  import opened Common
  import AgariTable
  import AgentModel

  // ---------------------------------------------------------------------
  // Arithmetic

  function Abs(n: int): nat
  {
    if n < 0 then -n else n
  }

  /** JavaScript's `n % m`: the remainder of division truncated toward
      zero, which takes the sign of n. */
  function JsRem(n: int, m: int): (r: int)
    requires m != 0
    ensures n >= 0 ==> 0 <= r < Abs(m)
    ensures n < 0 ==> r <= 0 && -r < Abs(m)
  {
    var a := Abs(n) % Abs(m);
    if n < 0 then -a else a
  }

  /** A remainder is determined by any division that leaves it. */
  lemma ModUnique(n: int, m: int, k: int, r: int)
    requires m > 0 && 0 <= r < m && n == k * m + r
    ensures n % m == r
  {
    var q := n / m;
    var d := k - q;
    assert d * m == n % m - r;
    if d > 0 {
      MulMono(1, d, m);
    } else if d < 0 {
      MulMono(d, -1, m);
    }
  }

  /** Multiplying by a non-negative number keeps an order. */
  lemma MulMono(a: int, b: int, n: int)
    requires a <= b && n >= 0
    ensures n * a <= n * b
  {
    assert n * b - n * a == n * (b - a);
  }

  /** `mod(n, m)`: the remainder of n by m brought into 0 to m-1. */
  function Mod(n: int, m: int): (r: int)
    requires m != 0
  {
    JsRem(JsRem(n, m) + m, m)
  }

  /** For a positive m, `mod` is the mathematical remainder: it lies in
      0 to m-1 and differs from n by a multiple of m. */
  lemma ModIsRemainder(n: int, m: int)
    requires m > 0
    ensures 0 <= Mod(n, m) < m && Mod(n, m) == n % m
  {
    var q := Abs(n) / m;
    var a := Abs(n) % m;
    if n >= 0 {
      ModUnique(a + m, m, 1, a);
      ModUnique(n, m, q, a);
    } else if a == 0 {
      ModUnique(m, m, 1, 0);
      ModUnique(n, m, -q, 0);
    } else {
      ModUnique(m - a, m, 0, m - a);
      ModUnique(n, m, -q - 1, m - a);
    }
  }

  // ---------------------------------------------------------------------
  // Rows of tiles

  /** `splitArray`'s result: the error text, or the rows. */
  datatype Split<T> = Invalid(message: string) | Rows(rows: seq<seq<T>>)

  /** `Math.ceil(a / b)` for integers. */
  function CeilDiv(a: int, b: int): int
    requires b > 0
  {
    (a + b - 1) / b
  }

  lemma CeilDivBounds(a: int, b: int)
    requires a >= 0 && b > 0
    ensures b * (CeilDiv(a, b) - 1) < a <= b * CeilDiv(a, b)
  {
  }

  /** `splitArray`: at most 16 tiles in at most four rows of at most four,
      the longer rows first and no two rows differing by more than one. */
  method SplitArray<T>(arr: seq<T>) returns (r: Split<T>)
    ensures r.Invalid? <==> |arr| > 16 || |arr| < 1
    ensures r.Invalid? ==> r.message == "Invalid array length"
    ensures r.Rows? ==> Flatten(r.rows) == arr && |r.rows| == CeilDiv(|arr|, 4)
    ensures r.Rows? ==> forall i :: 0 <= i < |r.rows| ==> 1 <= |r.rows[i]| <= 4
    ensures r.Rows? ==> forall i, j :: 0 <= i < j < |r.rows| ==>
      |r.rows[j]| <= |r.rows[i]| <= |r.rows[j]| + 1
  {
    var len := |arr|;
    if len > 16 || len < 1 {
      return Invalid("Invalid array length");
    }
    var remaining := len;
    var numSubArrays := if CeilDiv(len, 4) < 4 then CeilDiv(len, 4) else 4;
    var n0 := numSubArrays;
    FirstRow(len);
    var first := CeilDiv(len, n0);
    var result: seq<seq<T>> := [];
    ghost var last := first;
    while remaining > 0
      invariant 0 <= remaining <= len && 0 <= numSubArrays <= n0
      invariant Flatten(result) == arr[..len - remaining]
      invariant |result| == n0 - numSubArrays
      invariant remaining >= numSubArrays
      invariant remaining >= Times(first - 1, numSubArrays)
      invariant result == [] ==> remaining == len && numSubArrays == n0
      invariant 1 <= last <= first && remaining <= Times(last, numSubArrays)
      invariant result != [] ==> last == |result[|result| - 1]|
      invariant Balanced(result, first)
    {
      var cur := if numSubArrays > 0 then CeilDiv(remaining, numSubArrays) else 0;
      var rest, left := remaining - cur, numSubArrays - 1;
      StepBounds(remaining, numSubArrays, first, last, cur, rest, left);
      var start := len - remaining;
      FlattenStep(arr, result, start, cur);
      BalancedStep(result, first, arr[start..start + cur]);
      result := result + [arr[start..start + cur]];
      remaining := rest;
      numSubArrays := left;
      last := cur;
    }
    assert arr[..len] == arr;
    return Rows(result);
  }

  /** Rows of one to four tiles, of the first row's length or one less,
      the longer ones first. */
  predicate Balanced<T>(rows: seq<seq<T>>, first: int)
  {
    (forall i :: 0 <= i < |rows| ==> first - 1 <= |rows[i]| <= first && |rows[i]| >= 1)
    && forall i, j :: 0 <= i < j < |rows| ==> |rows[j]| <= |rows[i]|
  }

  lemma BalancedStep<T>(rows: seq<seq<T>>, first: int, row: seq<T>)
    requires Balanced(rows, first) && first - 1 <= |row| <= first && |row| >= 1
    requires rows != [] ==> |row| <= |rows[|rows| - 1]|
    ensures Balanced(rows + [row], first)
  {
  }

  /** At most 16 tiles need at most four rows of at most four; the first
      row's length bounds what the rows hold. */
  lemma FirstRow(len: int)
    requires 1 <= len <= 16
    ensures 1 <= CeilDiv(len, 4) <= 4 && CeilDiv(len, 4) <= len
    ensures var n0 := CeilDiv(len, 4);
      var first := CeilDiv(len, n0);
      1 <= first <= 4 && Times(first - 1, n0) <= len <= Times(first, n0)
  {
    var n0 := CeilDiv(len, 4);
    CeilDivBounds(len, 4);
    var first := CeilDiv(len, n0);
    CeilDivBounds(len, n0);
    assert 1 <= first <= 4 by {
      if n0 == 1 {} else if n0 == 2 {} else if n0 == 3 {} else {}
    }
    TimesIsProduct(first - 1, n0);
    TimesIsProduct(first, n0);
  }

  /** Appending the next slice as a row extends the covered prefix. */
  lemma FlattenStep<T>(arr: seq<T>, rows: seq<seq<T>>, start: int, n: int)
    requires 0 <= start <= start + n <= |arr| && Flatten(rows) == arr[..start]
    ensures Flatten(rows + [arr[start..start + n]]) == arr[..start + n]
  {
    FlattenAppend(rows, [arr[start..start + n]]);
    assert arr[..start + n] == arr[..start] + arr[start..start + n];
    assert Flatten([arr[start..start + n]]) == arr[start..start + n] by {
      assert [arr[start..start + n]][..0] == [];
    }
  }

  /** One step of `splitArray`'s loop keeps its bounds: a row is left
      to fill, the next row is no longer than the last one and no shorter
      than one less than the first, and what remains still fits the rows
      left. */
  lemma StepBounds(rem: int, num: nat, first: int, last: int, cur: int, rest: int, left: int)
    requires 1 <= rem && 1 <= last <= first
    requires rem >= num && rem >= Times(first - 1, num) && rem <= Times(last, num)
    requires num > 0 ==> cur == CeilDiv(rem, num)
    requires rest == rem - cur && left == num - 1
    ensures num >= 1 && left >= 0
    ensures 1 <= cur <= rem && first - 1 <= cur <= last
    ensures rest >= left && rest >= Times(first - 1, left) && rest <= Times(cur, left)
  {
    TimesIsProduct(first - 1, num);
    TimesIsProduct(last, num);
    if num == 0 {
      assert false;
    }
    TimesIsProduct(first - 1, num - 1);
    TimesIsProduct(cur, num - 1);
    CeilDivBounds(rem, num);
    RowBounds(rem, num, cur, first, last);
    RemainBounds(rem, num, cur, first, last);
  }

  /** k * n as n additions of k, which keeps `splitArray`'s loop bounds
      linear. */
  function Times(k: int, n: nat): int
  {
    if n == 0 then 0 else Times(k, n - 1) + k
  }

  lemma {:induction false} TimesIsProduct(k: int, n: nat)
    ensures Times(k, n) == k * n
  {
    if n > 0 {
      TimesIsProduct(k, n - 1);
    }
  }

  lemma {:induction false} RowBounds(rem: int, num: int, cur: int, first: int, last: int)
    requires 1 <= rem && 1 <= num && 1 <= last <= first
    requires rem >= (first - 1) * num && rem <= last * num
    requires num * (cur - 1) < rem <= num * cur
    ensures 1 <= cur <= rem && first - 1 <= cur <= last
  {
    if cur < 1 {
      MulMono(cur, 0, num);
    }
    if cur > last {
      MulMono(last, cur - 1, num);
    }
    if cur < first - 1 {
      MulMono(cur, first - 2, num);
    }
    MulMono(0, cur - 1, num - 1);
  }

  lemma RemainBounds(rem: int, num: int, cur: int, first: int, last: int)
    requires 1 <= num && 1 <= cur && first - 1 <= cur <= last <= first
    requires rem >= num && rem >= (first - 1) * num && num * (cur - 1) < rem <= num * cur
    ensures rem - cur >= num - 1
    ensures rem - cur >= (first - 1) * (num - 1)
    ensures rem - cur <= cur * (num - 1)
  {
    if cur >= 2 {
      MulMono(0, cur - 2, num - 1);
    }
  }

  // ---------------------------------------------------------------------
  // Tile sprites

  /** `getTileFrameIndex`: the frame of a tile id on the sprite sheet, ten
      frames to a suit's row; a red five takes column 0 of its suit's
      row, any other tile column 1 + its rank. */
  function FrameIndex(tileId: int): int
  {
    if tileId in AkaIds then IndexOf(AkaIds, tileId) * 10
    else
      var tile := tileId / 4;
      (tile / 9) * 10 + (JsRem(tile, 9) + 1)
  }

  /** The face-down frame. */
  const FaceDown := 30

  /** Every tile shows in its suit's row (the honors in the fourth), in
      column 0 exactly when it is a red five, and never face down. */
  lemma FrameIndexLayout(tileId: int)
    requires 0 <= tileId < 136
    ensures FrameIndex(tileId) / 10 == tileId / 4 / 9
    ensures FrameIndex(tileId) % 10 == (if tileId in AkaIds then 0 else tileId / 4 % 9 + 1)
    ensures 0 <= FrameIndex(tileId) < 38 && FrameIndex(tileId) != FaceDown
  {
    if tileId in AkaIds {
      assert tileId == 16 || tileId == 52 || tileId == 88;
    }
  }

  /** Tiles other than the red fives share a frame exactly when they are
      of the same kind. */
  lemma FrameIndexKind(x: int, y: int)
    requires 0 <= x < 136 && 0 <= y < 136 && x !in AkaIds && y !in AkaIds
    ensures FrameIndex(x) == FrameIndex(y) <==> x / 4 == y / 4
  {
    FrameIndexLayout(x);
    FrameIndexLayout(y);
  }

  // ---------------------------------------------------------------------
  // Calls

  /** A call's record in the client: an added kan (the added id, the
      claimed id and the seat it came from), or any other call (the
      claimed id and the seat it came from, the caller's own seat for a
      concealed kan, whose claimed id is ignored). */
  datatype KuiInfo =
    | AddedKan(added: int, kuiTile: int, fromWho: int)
    | Called(kuiTile: int, fromWho: int)

  /** `parseFuro`'s result: the frames laid out, the position of the
      sideways tile, and the frame stacked on top for a kan. */
  datatype FuroLayout = FuroLayout(frames: seq<int>, kuiPos: int, extra: Option<int>)

  /** The tiles of s other than x, in order: JavaScript's
      `s.filter(item => item !== x)`. */
  function Without(s: seq<int>, x: int): (r: seq<int>)
    ensures multiset(r) == multiset(s)[x := 0]
    ensures |r| == |s| - multiset(s)[x]
  {
    if s == [] then []
    else
      assert s == [s[0]] + s[1..];
      if s[0] == x then Without(s[1..], x)
      else [s[0]] + Without(s[1..], x)
  }

  /** In a list of distinct tiles, a tile present occurs once. */
  lemma {:induction false} DistinctOnce(s: seq<int>, x: int)
    requires Distinct(s) && x in s
    ensures multiset(s)[x] == 1
  {
    assert s == [s[0]] + s[1..];
    assert Distinct(s[1..]) by {
      forall i, j | 0 <= i < j < |s| - 1
        ensures s[1..][i] != s[1..][j]
      {
        assert s[i + 1] != s[j + 1];
      }
    }
    if s[0] == x {
      assert x !in s[1..] by {
        forall k | 1 <= k < |s| ensures s[k] != x {
          assert s[0] != s[k];
        }
      }
    } else {
      DistinctOnce(s[1..], x);
    }
  }

  /** The frames of a list of tiles. */
  function Frames(s: seq<int>): (r: seq<int>)
    ensures |r| == |s| && forall i :: 0 <= i < |s| ==> r[i] == FrameIndex(s[i])
  {
    if s == [] then [] else [FrameIndex(s[0])] + Frames(s[1..])
  }

  /** JavaScript's `list.splice(start, 0, x)`: x inserted before index
      start, a negative start counting from the end, clamped to the list. */
  function Splice(list: seq<int>, start: int, x: int): (r: seq<int>)
  {
    var at := if start < 0 then (if |list| + start < 0 then 0 else |list| + start)
              else if start > |list| then |list| else start;
    list[..at] + [x] + list[at..]
  }

  /** What `parseFuro` lays out for the call, given the call's tiles after
      sorting. */
  function Layout(who: int, tiles: seq<int>, info: KuiInfo): FuroLayout
    requires info.Called? && info.fromWho == who ==> tiles != []
  {
    match info
    case AddedKan(added, kuiTile, fromWho) =>
      var kuiPos := 3 - Mod(fromWho - who, 4);
      var frames := Frames(Without(Without(tiles, added), kuiTile));
      FuroLayout(Splice(frames, kuiPos, FrameIndex(kuiTile)), kuiPos, Some(FrameIndex(added)))
    case Called(kuiTile, fromWho) =>
      if fromWho == who then
        var low := AgentModel.Min(tiles);
        FuroLayout([FaceDown, FrameIndex(low), FaceDown], 1, Some(FrameIndex(low + 1)))
      else
        var kuiPos := 3 - Mod(fromWho - who, 4);
        var frames := Frames(Without(tiles, kuiTile));
        if |tiles| == 4 then
          var extra := if frames == [] then None else Some(frames[0]);
          var rest := if frames == [] then [] else frames[1..];
          FuroLayout(Splice(rest, kuiPos, FrameIndex(kuiTile)), kuiPos, extra)
        else
          FuroLayout(Splice(frames, kuiPos, FrameIndex(kuiTile)), kuiPos, None)
  }

  /** Sort a call's tiles in place, ascending, as `tileList.sort` with a
      numeric comparator does. */
  method SortTiles(a: array<int>)
    modifies a
    ensures AgariTable.Sorted(a[..]) && multiset(a[..]) == multiset(old(a[..]))
  {
    for i := 0 to a.Length
      invariant AgariTable.Sorted(a[..i]) && multiset(a[..]) == multiset(old(a[..]))
    {
      SinkLast(a, i);
    }
    assert a[..a.Length] == a[..];
  }

  /** Move a[i] down past the larger tiles before it, so that the first
      i + 1 tiles are sorted. */
  method SinkLast(a: array<int>, i: int)
    requires 0 <= i < a.Length && AgariTable.Sorted(a[..i])
    modifies a
    ensures AgariTable.Sorted(a[..i + 1]) && multiset(a[..]) == multiset(old(a[..]))
  {
    var j := i;
    while j > 0 && a[j - 1] > a[j]
      invariant 0 <= j <= i && multiset(a[..]) == multiset(old(a[..]))
      invariant forall k, l :: 0 <= k < l <= i && k != j && l != j ==> a[k] <= a[l]
      invariant forall l :: j < l <= i ==> a[j] <= a[l]
    {
      Swap(a, j - 1, j);
      j := j - 1;
    }
  }

  /** Exchange two tiles of the list. */
  method Swap(a: array<int>, x: int, y: int)
    requires 0 <= x < a.Length && 0 <= y < a.Length
    modifies a
    ensures a[..] == old(a[..])[x := old(a[y])][y := old(a[x])]
    ensures multiset(a[..]) == multiset(old(a[..]))
  {
    a[x], a[y] := a[y], a[x];
  }

  /** `parseFuro`: sorts the call's tiles in place and lays them out. */
  method ParseFuro(who: int, tileList: array<int>, info: KuiInfo) returns (r: FuroLayout)
    requires info.Called? && info.fromWho == who ==> tileList.Length > 0
    modifies tileList
    ensures AgariTable.Sorted(tileList[..])
    ensures multiset(tileList[..]) == multiset(old(tileList[..]))
    ensures r == Layout(who, tileList[..], info)
  {
    SortTiles(tileList);
    r := Layout(who, tileList[..], info);
  }

  /** A call's tiles as the client receives them: three or four distinct
      ids, holding the claimed one (and, for an added kan, the added one),
      claimed from another seat. */
  predicate ProperCall(who: int, tiles: seq<int>, info: KuiInfo)
  {
    Distinct(tiles) && 0 <= who < 4 && 0 <= info.fromWho < 4 && info.fromWho != who
    && info.kuiTile in tiles
    && match info
       case AddedKan(added, kuiTile, _) => |tiles| == 4 && added in tiles && added != kuiTile
       case Called(_, _) => |tiles| == 3 || |tiles| == 4
  }

  /** A call claimed from another seat lays out three frames with the
      claimed tile at the position facing that seat, 3 - mod(fromWho -
      who, 4), and a kan's fourth tile as the extra frame. */
  lemma ClaimedLayout(who: int, tiles: seq<int>, info: KuiInfo)
    requires ProperCall(who, tiles, info)
    ensures var l := Layout(who, tiles, info);
      && |l.frames| == 3
      && l.kuiPos == 3 - Mod(info.fromWho - who, 4)
      && 0 <= l.kuiPos <= 2
      && l.frames[l.kuiPos] == FrameIndex(info.kuiTile)
      && l.frames[..l.kuiPos] + l.frames[l.kuiPos + 1..] == OtherFrames(tiles, info)
      && (l.extra.Some? <==> |tiles| == 4)
  {
    var pos := 3 - Mod(info.fromWho - who, 4);
    FacingPosition(who, info.fromWho);
    var extra := LayoutParts(who, tiles, info);
    SpliceAt(OtherFrames(tiles, info), pos, FrameIndex(info.kuiTile));
  }

  /** The sideways tile faces the seat it came from: position 0 for the
      seat before the caller in turn order, 1 for the seat opposite, 2 for
      the seat after it. */
  lemma FacingPosition(who: int, fromWho: int)
    requires 0 <= who < 4 && 0 <= fromWho < 4 && who != fromWho
    ensures 0 <= 3 - Mod(fromWho - who, 4) <= 2
  {
    ModIsRemainder(fromWho - who, 4);
    var d := fromWho - who;
    assert d == -3 || d == -2 || d == -1 || d == 1 || d == 2 || d == 3;
  }

  /** A call claimed from another seat is two flat frames with the
      sideways one spliced in, and an extra frame for a kan. */
  lemma LayoutParts(who: int, tiles: seq<int>, info: KuiInfo) returns (extra: Option<int>)
    requires ProperCall(who, tiles, info)
    ensures |OtherFrames(tiles, info)| == 2
    ensures extra.Some? <==> |tiles| == 4
    ensures Layout(who, tiles, info) == FuroLayout(
      Splice(OtherFrames(tiles, info), 3 - Mod(info.fromWho - who, 4), FrameIndex(info.kuiTile)),
      3 - Mod(info.fromWho - who, 4), extra)
  {
    DistinctOnce(tiles, info.kuiTile);
    match info {
      case AddedKan(added, kuiTile, _) =>
        DistinctOnce(tiles, added);
        extra := Some(FrameIndex(added));
      case Called(kuiTile, _) =>
        var frames := Frames(Without(tiles, kuiTile));
        extra := if |tiles| == 4 then Some(frames[0]) else None;
    }
  }

  /** The frames laid flat beside the sideways tile: those of the call's
      other tiles in ascending order, less the one stacked on top of an
      open kan. */
  function OtherFrames(tiles: seq<int>, info: KuiInfo): seq<int>
  {
    match info
    case AddedKan(added, kuiTile, _) => Frames(Without(Without(tiles, added), kuiTile))
    case Called(kuiTile, _) =>
      var frames := Frames(Without(tiles, kuiTile));
      if |tiles| == 4 && frames != [] then frames[1..] else frames
  }

  /** Inserting inside the list puts the tile exactly there. */
  lemma SpliceAt(list: seq<int>, pos: int, x: int)
    requires 0 <= pos <= |list|
    ensures var r := Splice(list, pos, x);
      |r| == |list| + 1 && r[pos] == x && r[..pos] + r[pos + 1..] == list
  {
    var r := Splice(list, pos, x);
    assert r[..pos] == list[..pos];
    assert r[pos + 1..] == list[pos..];
  }

  /** A concealed kan shows its lowest tile face up between two face-down
      ones, with the next id stacked on top. */
  lemma ConcealedLayout(who: int, tiles: seq<int>, kuiTile: int)
    requires AgariTable.Sorted(tiles) && tiles != []
    ensures Layout(who, tiles, Called(kuiTile, who)) ==
      FuroLayout([FaceDown, FrameIndex(tiles[0]), FaceDown], 1, Some(FrameIndex(tiles[0] + 1)))
  {
    var low := AgentModel.Min(tiles);
    assert low == tiles[0] by {
      var k :| 0 <= k < |tiles| && tiles[k] == low;
      assert low <= tiles[0] && tiles[0] <= tiles[k];
    }
  }
}
