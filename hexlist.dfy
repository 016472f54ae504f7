/** How the winning-shape table stores the payloads of one shape: Python's
    `','.join(map(hex, values))`, read back by `value.split(',')` and
    `int(_, 16)` on each piece. */
module HexList {
  import opened Common

  /** The lower-case hexadecimal digit for 0..15. */
  function Digit(d: nat): char
    requires d < 16
  {
    "0123456789abcdef"[d]
  }

  /** The value of a hexadecimal digit in either case, as `int(_, 16)`
      reads it. */
  function DigitValue(c: char): Option<nat>
  {
    if '0' <= c <= '9' then Some(c as int - '0' as int)
    else if 'a' <= c <= 'f' then Some(c as int - 'a' as int + 10)
    else if 'A' <= c <= 'F' then Some(c as int - 'A' as int + 10)
    else None
  }

  /** The digits of n without leading zeros ("0" for 0). */
  function HexDigits(n: nat): (s: string)
    ensures |s| >= 1
  {
    if n < 16 then [Digit(n)] else HexDigits(n / 16) + [Digit(n % 16)]
  }

  /** Python's `hex(n)` for n >= 0. */
  function Hex(n: nat): string
  {
    "0x" + HexDigits(n)
  }

  /** Reading a run of hexadecimal digits; None if empty or if a character
      is not a digit. */
  function ParseDigits(s: string): Option<nat>
  {
    if s == [] then None
    else
      var last := DigitValue(s[|s| - 1]);
      if last.None? then None
      else if |s| == 1 then last
      else
        var front := ParseDigits(s[..|s| - 1]);
        if front.None? then None else Some(16 * front.value + last.value)
  }

  /** Python's `int(s, 16)` on a non-negative literal, with or without
      the "0x" prefix; None where Python raises ValueError. Signs,
      underscores and surrounding blanks, which `hex` never writes, are not
      modelled. */
  function ParseHex(s: string): Option<nat>
  {
    if |s| >= 2 && s[..2] == "0x" then ParseDigits(s[2..]) else ParseDigits(s)
  }

  lemma {:induction false} DigitsRoundTrip(n: nat)
    ensures ParseDigits(HexDigits(n)) == Some(n)
  {
    if n < 16 {
      assert DigitValue(Digit(n)) == Some(n);
    } else {
      var s := HexDigits(n);
      assert s[..|s| - 1] == HexDigits(n / 16);
      assert DigitValue(Digit(n % 16)) == Some(n % 16);
      DigitsRoundTrip(n / 16);
    }
  }

  /** `int(hex(n), 16) == n` */
  lemma HexRoundTrip(n: nat)
    ensures ParseHex(Hex(n)) == Some(n)
  {
    assert Hex(n)[..2] == "0x" && Hex(n)[2..] == HexDigits(n);
    DigitsRoundTrip(n);
  }

  lemma {:induction false} NoCommaInDigits(n: nat)
    ensures ',' !in HexDigits(n)
  {
    if n >= 16 {
      NoCommaInDigits(n / 16);
    }
  }

  /** `','.join(map(hex, vs))` */
  function JoinHex(vs: seq<nat>): string
  {
    if vs == [] then ""
    else if |vs| == 1 then Hex(vs[0])
    else Hex(vs[0]) + "," + JoinHex(vs[1..])
  }

  /** Python's `s.split(',')`: the pieces between commas, one more than
      the number of commas. */
  function SplitComma(s: string): (r: seq<string>)
    ensures |r| >= 1
  {
    if ',' !in s then [s]
    else
      var i := IndexOfChar(s, ',');
      [s[..i]] + SplitComma(s[i + 1..])
  }

  /** The first position of c in s. */
  function IndexOfChar(s: string, c: char): (i: nat)
    requires c in s
    ensures i < |s| && s[i] == c && c !in s[..i]
  {
    if s[0] == c then 0 else 1 + IndexOfChar(s[1..], c)
  }

  /** `list(map(lambda _: int(_, 16), s.split(',')))`, None if any piece
      does not parse. */
  function ParseHexList(s: string): Option<seq<nat>>
  {
    ParseEach(SplitComma(s))
  }

  function ParseEach(pieces: seq<string>): Option<seq<nat>>
  {
    if pieces == [] then Some([])
    else
      var head := ParseHex(pieces[0]);
      var tail := ParseEach(pieces[1..]);
      if head.None? || tail.None? then None else Some([head.value] + tail.value)
  }

  /** Splitting the joined string gives back one piece per value. */
  lemma {:induction false} SplitJoin(vs: seq<nat>)
    requires vs != []
    ensures SplitComma(JoinHex(vs)) == seq(|vs|, k requires 0 <= k < |vs| => Hex(vs[k]))
  {
    NoCommaInDigits(vs[0]);
    var h := Hex(vs[0]);
    assert ',' !in h by {
      assert h == ['0', 'x'] + HexDigits(vs[0]);
    }
    if |vs| == 1 {
    } else {
      var s := h + "," + JoinHex(vs[1..]);
      assert s[|h|] == ',' && s[..|h|] == h;
      var i := IndexOfChar(s, ',');
      assert i == |h|;
      assert s[|h| + 1..] == JoinHex(vs[1..]);
      SplitJoin(vs[1..]);
    }
  }

  lemma {:induction false} ParseEachHex(vs: seq<nat>)
    ensures ParseEach(seq(|vs|, k requires 0 <= k < |vs| => Hex(vs[k]))) == Some(vs)
  {
    var pieces := seq(|vs|, k requires 0 <= k < |vs| => Hex(vs[k]));
    if vs != [] {
      HexRoundTrip(vs[0]);
      assert pieces[1..] == seq(|vs| - 1, k requires 0 <= k < |vs| - 1 => Hex(vs[1..][k]));
      ParseEachHex(vs[1..]);
      assert [vs[0]] + vs[1..] == vs;
    }
  }

  /** Reading the stored string back gives the stored values, in order. */
  lemma JoinRoundTrip(vs: seq<nat>)
    requires vs != []
    ensures ParseHexList(JoinHex(vs)) == Some(vs)
  {
    SplitJoin(vs);
    ParseEachHex(vs);
  }
}
