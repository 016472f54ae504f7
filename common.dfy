/** Small definitions shared by every part of the model: Python's None as
    an Option, list sums and `list.index`, and the tile numbering.

    Tiles are numbered 0..135 ("ids"); `id / 4` is the tile kind 0..33:
    0..8, 9..17 and 18..26 are the three suits, 27..30 the winds and 31..33
    the dragons. */
module Common {

  datatype Option<T> = None | Some(value: T)

  /** Python's `sum(s)` */
  function Sum(s: seq<int>): int
  {
    if s == [] then 0 else Sum(s[..|s| - 1]) + s[|s| - 1]
  }

  lemma SumAppend(s: seq<int>, t: seq<int>)
    ensures Sum(s + t) == Sum(s) + Sum(t)
  {
    if t == [] {
      assert s + t == s;
    } else {
      SumAppend(s, t[..|t| - 1]);
      assert (s + t)[..|s + t| - 1] == s + t[..|t| - 1];
    }
  }

  lemma SumNonNegative(s: seq<int>)
    requires forall i :: 0 <= i < |s| ==> s[i] >= 0
    ensures Sum(s) >= 0
  {
    if s != [] { SumNonNegative(s[..|s| - 1]); }
  }

  /** Python's `s.index(x)`: the first position holding x. */
  function IndexOf(s: seq<int>, x: int): (i: nat)
    requires x in s
    ensures i < |s| && s[i] == x
    ensures forall j :: 0 <= j < i ==> s[j] != x
  {
    if s[0] == x then 0 else 1 + IndexOf(s[1..], x)
  }

  /** The first index holding the largest value, and 0 for an empty
      list: what a left-to-right scan keeping the first strict maximum
      finds. */
  function ArgMax(s: seq<int>): (r: int)
    ensures s == [] ==> r == 0
    ensures s != [] ==> (0 <= r < |s|
      && (forall j :: 0 <= j < |s| ==> s[j] <= s[r])
      && (forall j :: 0 <= j < r ==> s[j] < s[r]))
  {
    if |s| <= 1 then 0
    else
      var n := |s| - 1;
      var m := ArgMax(s[..n]);
      if s[n] > s[m] then n else m
  }

  predicate Distinct(s: seq<int>)
  {
    forall i, j :: 0 <= i < j < |s| ==> s[i] != s[j]
  }

  /** The thirteen terminal and honor kinds, in the order `utils.py` lists
      them. */
  const Orphans: seq<int> := [0, 8, 9, 17, 18, 26, 27, 28, 29, 30, 31, 32, 33]

  /** The ids of the red ("aka") fives. */
  const AkaIds: seq<int> := [16, 52, 88]

  predicate IsHonor(kind: int) { kind >= 27 }

  /** A terminal (rank 1 or 9) or an honor. */
  predicate IsYaochu(kind: int) { kind >= 27 || kind % 9 == 0 || kind % 9 == 8 }

  /** Python's `sum(a, [])`: the groups of a pattern laid end to end. */
  function Flatten<T>(a: seq<seq<T>>): seq<T>
  {
    if a == [] then [] else Flatten(a[..|a| - 1]) + a[|a| - 1]
  }

  lemma FlattenAppend<T>(a: seq<seq<T>>, b: seq<seq<T>>)
    ensures Flatten(a + b) == Flatten(a) + Flatten(b)
  {
    if b != [] {
      FlattenAppend(a, b[..|b| - 1]);
      assert (a + b)[..|a + b| - 1] == a + b[..|b| - 1];
    } else {
      assert a + b == a;
    }
  }

  /** The pattern part of a key in a seat's ordered call map: the kind for
      a pon or a kan, and (lowest kind, position among the calls) for a
      chi. */
  datatype FuroPtn = KindPtn(kind: int) | ChiPtn(low: int, nth: int)

  /** A key of the call map: the call type (0 chi, 1 pon, 2 concealed kan,
      3 open kan) and its pattern. */
  datatype FuroKey = FuroKey(furoType: int, ptn: FuroPtn)

  /** One entry of the call map: its key and the tile ids it holds. */
  datatype Furo = Furo(key: FuroKey, tiles: seq<int>)
}
