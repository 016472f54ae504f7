/** Python's integer bit operators, for the unbounded two's-complement
    integers Python uses. Dafny's `/` and `%` by a positive divisor floor
    the quotient exactly as Python's `//` and `%` do, so halving below is
    Python's `>> 1` also for negative numbers. */
module Bits {

  function Pow2(n: nat): (r: nat)
    ensures r >= 1
  {
    if n == 0 then 1 else 2 * Pow2(n - 1)
  }

  function Abs(x: int): nat { if x < 0 then -x else x }

  /** `a | b` */
  function Or(a: int, b: int): int
    decreases Abs(a) + Abs(b)
  {
    if a == 0 then b
    else if b == 0 then a
    else if a == -1 || b == -1 then -1
    else 2 * Or(a / 2, b / 2) + (if a % 2 == 1 || b % 2 == 1 then 1 else 0)
  }

  /** `a & b` */
  function And(a: int, b: int): int
    decreases Abs(a) + Abs(b)
  {
    if a == 0 || b == 0 then 0
    else if a == -1 then b
    else if b == -1 then a
    else 2 * And(a / 2, b / 2) + (if a % 2 == 1 && b % 2 == 1 then 1 else 0)
  }

  /** `x << s` */
  function Shl(x: int, s: nat): int { x * Pow2(s) }

  /** The mask of `width` one-bits starting at bit `lo`. */
  function Mask(lo: nat, width: nat): nat { (Pow2(width) - 1) * Pow2(lo) }

  /** `(m & Mask(lo, width)) >> lo` for a non-negative m: the unsigned field
      of `width` bits at bit `lo` (see AndMaskIsField). */
  function Field(m: nat, lo: nat, width: nat): (r: nat)
    ensures r < Pow2(width)
  {
    (m / Pow2(lo)) % Pow2(width)
  }

  /** `m & (1 << b)` is truthy. */
  predicate BitSet(m: nat, b: nat) { Field(m, b, 1) == 1 }

  lemma Pow2Add(a: nat, b: nat)
    ensures Pow2(a + b) == Pow2(a) * Pow2(b)
  {
    if a > 0 { Pow2Add(a - 1, b); }
  }

  lemma Pow2Monotone(a: nat, b: nat)
    requires a <= b
    ensures Pow2(a) <= Pow2(b)
  {
    if a < b { Pow2Monotone(a, b - 1); }
  }

  lemma MulAtLeast(x: int, p: int)
    requires x >= 1 && p > 0
    ensures x * p >= p
  {
    if x > 1 {
      MulAtLeast(x - 1, p);
      assert x * p == (x - 1) * p + p;
    }
  }

  lemma DivModUnique(m: int, p: int, q: int, r: int)
    requires p > 0 && 0 <= r < p && m == q * p + r
    ensures m / p == q && m % p == r
  {
    var q0, r0 := m / p, m % p;
    assert (q - q0) * p == r0 - r by {
      assert q * p + r == q0 * p + r0;
      assert (q - q0) * p == q * p - q0 * p;
    }
    if q > q0 {
      MulAtLeast(q - q0, p);
    } else if q < q0 {
      MulAtLeast(q0 - q, p);
    }
  }

  lemma DivDiv(m: nat, q: nat)
    requires q >= 1
    ensures (m / 2) / q == m / (2 * q)
  {
    var h, b := m / 2, m % 2;
    var d, r := h / q, h % q;
    assert m == (2 * q) * d + (2 * r + b) by {
      assert h == d * q + r;
      assert m == 2 * h + b;
      assert 2 * (d * q) == (2 * q) * d;
    }
    DivModUnique(m, 2 * q, d, 2 * r + b);
  }

  lemma ModTwice(m: nat, p: nat)
    requires p >= 1
    ensures m % (2 * p) == 2 * ((m / 2) % p) + m % 2
  {
    var h, b := m / 2, m % 2;
    var d, r := h / p, h % p;
    assert m == (2 * p) * d + (2 * r + b) by {
      assert h == d * p + r;
      assert m == 2 * h + b;
      assert 2 * (d * p) == (2 * p) * d;
    }
    DivModUnique(m, 2 * p, d, 2 * r + b);
  }

  /** `m & ((2**width - 1) << lo)` is the field moved back to its place. */
  lemma {:induction false} AndMaskIsField(m: nat, lo: nat, width: nat)
    ensures And(m, Mask(lo, width)) == Field(m, lo, width) * Pow2(lo)
  {
    if width == 0 {
      assert Pow2(width) - 1 == 0;
      assert Mask(lo, width) == 0;
      assert Field(m, lo, width) == 0;
    } else if lo == 0 {
      assert Pow2(lo) == 1;
      assert Mask(lo, width) == Pow2(width) - 1;
      assert Field(m, lo, width) == m % Pow2(width);
      LowMask(m, width);
    } else {
      var x := Mask(lo - 1, width);
      var p := Pow2(lo - 1);
      var w := Pow2(width);
      var f := Field(m / 2, lo - 1, width);
      assert Pow2(lo) == 2 * p;
      assert Mask(lo, width) == 2 * x by {
        assert x == (w - 1) * p;
        assert Mask(lo, width) == (w - 1) * (2 * p);
      }
      AndMaskIsField(m / 2, lo - 1, width);
      DivDiv(m, p);
      assert Field(m, lo, width) == f by {
        assert m / Pow2(lo) == (m / 2) / p;
      }
      var lhs := And(m, Mask(lo, width));
      assert lhs == 2 * And(m / 2, x) by {
        if m != 0 {
          assert x >= 1 by {
            Pow2Monotone(1, width);
            MulAtLeast(w - 1, p);
          }
          AndDouble(m, x);
        }
      }
      assert And(m / 2, x) == f * p;
      MulTwo(f, p);
      assert lhs == f * Pow2(lo);
    }
  }

  lemma MulTwo(f: int, p: int)
    ensures f * (2 * p) == 2 * (f * p)
  {
  }

  lemma AndDouble(m: nat, x: nat)
    requires m >= 1 && x >= 1
    ensures And(m, 2 * x) == 2 * And(m / 2, x)
  {
    assert (2 * x) / 2 == x && (2 * x) % 2 == 0;
  }

  lemma AndDoublePlusOne(m: nat, x: nat)
    requires m >= 1 && x >= 1
    ensures And(m, 2 * x + 1) == 2 * And(m / 2, x) + m % 2
  {
    assert (2 * x + 1) / 2 == x && (2 * x + 1) % 2 == 1;
  }

  lemma {:induction false} LowMask(m: nat, width: nat)
    ensures And(m, Pow2(width) - 1) == m % Pow2(width)
  {
    if width == 0 || m == 0 {
    } else {
      var p := Pow2(width - 1);
      LowMask(m / 2, width - 1);
      LowMaskStep(m, p, Pow2(width));
    }
  }

  /** One bit of LowMask: the mask of 2p - 1 peels the lowest bit of m. */
  lemma LowMaskStep(m: nat, p: nat, w: nat)
    requires m >= 1 && p >= 1 && w == 2 * p
    requires And(m / 2, p - 1) == (m / 2) % p
    ensures And(m, w - 1) == m % w
  {
    ModTwice(m, p);
    if p == 1 {
      assert w - 1 == 1;
      assert And(m, 1) == 2 * And(m / 2, 0) + m % 2;
    } else {
      assert w - 1 == 2 * (p - 1) + 1;
      AndDoublePlusOne(m, p - 1);
    }
  }

  /** `a | (b << k)` is a sum when a fits below bit k. */
  lemma {:induction false} OrDisjoint(a: int, b: int, k: nat)
    requires 0 <= a < Pow2(k) && b >= 0
    ensures Or(a, Shl(b, k)) == a + Shl(b, k)
  {
    if a == 0 || b == 0 {
    } else {
      assert k >= 1;
      var y := b * Pow2(k - 1);
      assert Shl(b, k) == 2 * y;
      OrDisjoint(a / 2, b, k - 1);
      assert Or(a, 2 * y) == 2 * Or(a / 2, y) + a % 2;
    }
  }

  /** An OR with a negative operand stays negative. */
  lemma {:induction false} OrNegative(a: int, b: int)
    requires b < 0
    ensures Or(a, b) < 0
    decreases Abs(a) + Abs(b)
  {
    if a == 0 || b == -1 || a == -1 {
    } else {
      OrNegative(a / 2, b / 2);
    }
  }

  /** `h & -3` clears bit 1 of a non-negative h. */
  lemma AndMinusThree(h: nat)
    ensures And(h, -3) == 4 * (h / 4) + h % 2
  {
    if h == 0 {
    } else {
      assert And(h, -3) == 2 * And(h / 2, -2) + h % 2;
      if h / 2 == 0 {
      } else {
        assert And(h / 2, -2) == 2 * And(h / 4, -1);
      }
    }
  }
  /** A non-negative m laid out as a, then f in `w` bits at bit `lo`, then b. */
  lemma FieldOf(m: nat, lo: nat, w: nat, a: int, f: int, b: int)
    requires 0 <= a < Pow2(lo) && 0 <= f < Pow2(w) && b >= 0
    requires m == a + Pow2(lo) * (f + Pow2(w) * b)
    ensures Field(m, lo, w) == f
  {
    var p, v := Pow2(lo), Pow2(w);
    var q := f + v * b;
    MulComm(p, q);
    DivModUnique(m, p, q, a);
    MulComm(v, b);
    DivModUnique(q, v, b, f);
  }

  /** FieldOf with the upper part named. */
  lemma FieldAt(m: nat, lo: nat, w: nat, a: int, c: int, f: int, b: int)
    requires 0 <= a < Pow2(lo) && 0 <= f < Pow2(w) && b >= 0
    requires c == f + Pow2(w) * b && m == a + Pow2(lo) * c
    ensures Field(m, lo, w) == f
  {
    FieldOf(m, lo, w, a, f, b);
  }

  /** FieldOf with the two powers of two given as numbers, so that a
      caller with literal widths states a linear layout. */
  lemma FieldLit(m: nat, lo: nat, w: nat, a: int, f: int, b: int, p: int, v: int)
    requires p == Pow2(lo) && v == Pow2(w)
    requires 0 <= a < p && 0 <= f < v && b >= 0
    requires m == a + p * (f + v * b)
    ensures Field(m, lo, w) == f
  {
    FieldOf(m, lo, w, a, f, b);
  }

  lemma MulComm(x: int, y: int)
    ensures x * y == y * x
  {
  }

  lemma FieldHalf(x: nat, i: nat)
    requires i >= 1
    ensures Field(x, i, 1) == Field(x / 2, i - 1, 1)
  {
    DivDiv(x, Pow2(i - 1));
  }

  /** On non-negative operands `|` works bit by bit. */
  lemma {:induction false} OrBit(a: int, b: int, i: nat)
    requires a >= 0 && b >= 0
    ensures Or(a, b) >= 0
    ensures BitSet(Or(a, b), i) <==> BitSet(a, i) || BitSet(b, i)
    decreases Abs(a) + Abs(b)
  {
    if a == 0 {
      assert Field(0, i, 1) == 0;
    } else if b == 0 {
      assert Field(0, i, 1) == 0;
    } else {
      var o := Or(a / 2, b / 2);
      OrBit(a / 2, b / 2, if i == 0 then 0 else i - 1);
      var bit := if a % 2 == 1 || b % 2 == 1 then 1 else 0;
      assert Or(a, b) == 2 * o + bit;
      assert (2 * o + bit) / 2 == o && (2 * o + bit) % 2 == bit;
      if i == 0 {
        assert Field(Or(a, b), 0, 1) == Or(a, b) % 2;
        assert Field(a, 0, 1) == a % 2;
        assert Field(b, 0, 1) == b % 2;
      } else {
        FieldHalf(Or(a, b), i);
        FieldHalf(a, i);
        FieldHalf(b, i);
      }
    }
  }

  /** An OR with a negative left operand stays negative. */
  lemma {:induction false} OrNegativeLeft(a: int, b: int)
    requires a < 0
    ensures Or(a, b) < 0
    decreases Abs(a) + Abs(b)
  {
    if b == 0 || b == -1 || a == -1 {
    } else {
      OrNegativeLeft(a / 2, b / 2);
    }
  }

  /** `a | a == a` */
  lemma {:induction false} OrSelf(a: int)
    ensures Or(a, a) == a
    decreases Abs(a)
  {
    if a != 0 && a != -1 {
      OrSelf(a / 2);
    }
  }

  /** Only `0 | 0` is 0. */
  lemma {:induction false} OrZero(a: int, b: int)
    ensures Or(a, b) == 0 ==> a == 0 && b == 0
    decreases Abs(a) + Abs(b)
  {
    if a != 0 && b != 0 && a != -1 && b != -1 {
      OrZero(a / 2, b / 2);
    }
  }

  /** Setting the same bits twice: `(a | b) | b == a | b`. */
  lemma {:induction false} OrAbsorb(a: int, b: int)
    ensures Or(Or(a, b), b) == Or(a, b)
    decreases Abs(a) + Abs(b)
  {
    if a == 0 {
      OrSelf(b);
    } else if b == 0 || a == -1 || b == -1 {
    } else {
      var o := Or(a / 2, b / 2);
      var bit := if a % 2 == 1 || b % 2 == 1 then 1 else 0;
      var z := 2 * o + bit;
      assert Or(a, b) == z;
      OrZero(a / 2, b / 2);
      assert z != 0;
      if z != -1 {
        assert z / 2 == o && z % 2 == bit;
        OrAbsorb(a / 2, b / 2);
      }
    }
  }

  // ---------------------------------------------------------------------
  // Integers laid out as consecutive bit fields

  /** A field of `width` bits holding `value`. */
  datatype BitField = BitField(value: int, width: nat)

  /** The fields laid out from bit 0 upwards, the first field lowest. */
  function Compose(fs: seq<BitField>): int
  {
    if fs == [] then 0 else fs[0].value + Pow2(fs[0].width) * Compose(fs[1..])
  }

  /** The total width of the fields. */
  function Width(fs: seq<BitField>): nat
  {
    if fs == [] then 0 else fs[0].width + Width(fs[1..])
  }

  /** Every value fits its field. */
  predicate Fits(fs: seq<BitField>)
  {
    forall i :: 0 <= i < |fs| ==> 0 <= fs[i].value < Pow2(fs[i].width)
  }

  lemma FitsSlice(fs: seq<BitField>, lo: int, hi: int)
    requires Fits(fs) && 0 <= lo <= hi <= |fs|
    ensures Fits(fs[lo..hi])
  {
    forall x | 0 <= x < hi - lo
      ensures 0 <= fs[lo..hi][x].value < Pow2(fs[lo..hi][x].width)
    {
      assert fs[lo..hi][x] == fs[lo + x];
    }
  }

  lemma {:induction false} ComposeBound(fs: seq<BitField>)
    requires Fits(fs)
    ensures 0 <= Compose(fs) < Pow2(Width(fs))
  {
    if fs != [] {
      var v, w := fs[0].value, fs[0].width;
      FitsSlice(fs, 1, |fs|);
      assert fs[1..|fs|] == fs[1..];
      ComposeBound(fs[1..]);
      Pow2Add(w, Width(fs[1..]));
      PlaceBound(v, Pow2(w), Compose(fs[1..]), Pow2(Width(fs[1..])));
    }
  }

  lemma PlaceBound(v: int, p: int, c: int, q: int)
    requires 0 <= v < p && 0 <= c < q
    ensures 0 <= v + p * c < p * q
  {
    assert p * c <= p * (q - 1);
  }

  lemma Distribute(p: int, q: int, x: int, y: int)
    ensures p * (x + q * y) == p * x + (p * q) * y
  {
  }

  lemma {:induction false} ComposeSplit(a: seq<BitField>, b: seq<BitField>)
    ensures Compose(a + b) == Compose(a) + Pow2(Width(a)) * Compose(b)
    ensures Width(a + b) == Width(a) + Width(b)
  {
    if a == [] {
      assert a + b == b;
    } else {
      assert (a + b)[1..] == a[1..] + b;
      ComposeSplit(a[1..], b);
      Pow2Add(a[0].width, Width(a[1..]));
      Distribute(Pow2(a[0].width), Pow2(Width(a[1..])), Compose(a[1..]), Compose(b));
    }
  }

  /** Reading field i back: the mask-and-shift of its bits gives its
      value. */
  lemma ComposeField(fs: seq<BitField>, i: int)
    requires Fits(fs) && 0 <= i < |fs|
    ensures Compose(fs) >= 0
    ensures Field(Compose(fs), Width(fs[..i]), fs[i].width) == fs[i].value
  {
    ComposeBound(fs);
    var pre, mid := fs[..i], fs[i..];
    assert fs == pre + mid;
    ComposeSplit(pre, mid);
    FitsSlice(fs, 0, i);
    FitsSlice(fs, i + 1, |fs|);
    assert fs[0..i] == pre && fs[i + 1..|fs|] == mid[1..];
    ComposeBound(pre);
    ComposeBound(mid[1..]);
    var m, a, c, b := Compose(fs), Compose(pre), Compose(mid), Compose(mid[1..]);
    assert m == a + Pow2(Width(pre)) * c;
    assert mid[0] == fs[i];
    assert c == fs[i].value + Pow2(fs[i].width) * b;
    assert 0 <= fs[i].value < Pow2(fs[i].width);
    FieldAt(m, Width(pre), fs[i].width, a, c, fs[i].value, b);
  }

  /** Appending one field: `c | (v << Width(fs))` when c is the layout of
      fs and v fits. */
  lemma OrAppend(fs: seq<BitField>, v: int, w: nat)
    requires Fits(fs) && 0 <= v < Pow2(w)
    ensures Fits(fs + [BitField(v, w)])
    ensures Or(Compose(fs), Shl(v, Width(fs))) == Compose(fs + [BitField(v, w)])
    ensures Width(fs + [BitField(v, w)]) == Width(fs) + w
  {
    ComposeBound(fs);
    OrDisjoint(Compose(fs), v, Width(fs));
    ComposeSplit(fs, [BitField(v, w)]);
    assert [BitField(v, w)][1..] == [];
    MulComm(v, Pow2(Width(fs)));
  }

  /** `(m // p) // 2 == m // (2 * p)` */
  lemma DivHalf(m: nat, p: nat)
    requires p >= 1
    ensures (m / p) / 2 == m / (2 * p)
  {
    var q, r := m / p, m % p;
    var h, b := q / 2, q % 2;
    assert m == (2 * p) * h + (p * b + r) by {
      assert m == p * q + r;
      assert q == 2 * h + b;
      assert p * q == (2 * p) * h + p * b;
    }
    assert 0 <= p * b + r < 2 * p;
    DivModUnique(m, 2 * p, h, p * b + r);
  }

  /** A field is its lowest bit below the field one bit higher. */
  lemma FieldSplit(m: nat, lo: nat, w: nat)
    requires w >= 1
    ensures Field(m, lo, w) == Field(m, lo, 1) + 2 * Field(m, lo + 1, w - 1)
  {
    var q := m / Pow2(lo);
    DivHalf(m, Pow2(lo));
    assert m / Pow2(lo + 1) == q / 2;
    ModTwice(q, Pow2(w - 1));
  }

  /** Where one operand's field is clear, the field of `a | b` is the
      other operand's. */
  lemma {:induction false} FieldOr(a: nat, b: nat, lo: nat, w: nat)
    requires Field(a, lo, w) == 0 || Field(b, lo, w) == 0
    ensures Or(a, b) >= 0 && Field(Or(a, b), lo, w) == Field(a, lo, w) + Field(b, lo, w)
    decreases w
  {
    OrBit(a, b, lo);
    if w == 0 {
      assert Field(Or(a, b), lo, w) == 0 && Field(a, lo, w) == 0 && Field(b, lo, w) == 0;
    } else {
      FieldSplit(Or(a, b), lo, w);
      FieldSplit(a, lo, w);
      FieldSplit(b, lo, w);
      FieldOr(a, b, lo + 1, w - 1);
    }
  }

  /** A value shifted to bit `lo` is the field there. */
  lemma FieldShl(v: nat, lo: nat, w: nat)
    requires v < Pow2(w)
    ensures Shl(v, lo) >= 0 && Field(Shl(v, lo), lo, w) == v
  {
    var p := Pow2(lo);
    assert Shl(v, lo) == 0 + p * (v + Pow2(w) * 0) by {
      MulComm(v, p);
    }
    FieldOf(Shl(v, lo), lo, w, 0, v, 0);
  }

  /** A value shifted to bit k leaves clear every field below k. */
  lemma FieldBelowShl(v: nat, k: nat, lo: nat, w: nat)
    requires lo + w <= k
    ensures Shl(v, k) >= 0 && Field(Shl(v, k), lo, w) == 0
  {
    var p, x, y := Pow2(lo), Pow2(w), Pow2(k - lo - w);
    Pow2Add(w, k - lo - w);
    Pow2Add(lo, k - lo);
    assert Pow2(k) == p * (x * y);
    MulRegroup(v, p, x, y);
    FieldOf(Shl(v, k), lo, w, 0, 0, v * y);
  }

  lemma MulRegroup(v: int, p: int, x: int, y: int)
    ensures v * (p * (x * y)) == p * (x * (v * y))
  {
  }

  /** A value below 2^j shifted to bit k leaves clear every field from
      bit k + j up. */
  lemma FieldAboveShl(v: nat, j: nat, k: nat, lo: nat, w: nat)
    requires v < Pow2(j) && k + j <= lo
    ensures Shl(v, k) >= 0 && Field(Shl(v, k), lo, w) == 0
  {
    Pow2Add(j, k);
    Pow2Monotone(j + k, lo);
    MulLess(v, Pow2(j), Pow2(k));
    FieldOf(Shl(v, k), lo, w, Shl(v, k), 0, 0);
  }

  lemma MulLess(v: nat, x: nat, y: nat)
    requires v < x && y >= 1
    ensures v * y < x * y
  {
  }
}
