/** The status flags that are computed from the result and the operands of a raised instruction, at any width, and what
    the conditions tested on them say. */
module Eflags {
  import opened Wrappers

  /** The weight of the sign bit of a value that is `w` bits wide. */
  function Sign(w: nat): nat
    requires w > 0
  {
    Pow2(w - 1)
  }

  predicate Fits(w: nat, v: nat) {
    v < Pow2(w)
  }

  function Signed(w: nat, v: nat): int
    requires w > 0 && Fits(w, v)
  {
    if v < Sign(w) then v else v - Pow2(w)
  }

  predicate Bit(v: nat, k: nat) {
    (v / Pow2(k)) % 2 == 1
  }

  datatype Flags = Flags(cf: bool, zf: bool, sf: bool, of: bool)

  // ----- CMP and SUB, ADD

  function Subtract(w: nat, a: nat, b: nat): (r: nat)
    ensures Fits(w, r)
  {
    (a - b) % Pow2(w)
  }

  function Add(w: nat, a: nat, b: nat): (r: nat)
    ensures Fits(w, r)
  {
    (a + b) % Pow2(w)
  }

  predicate OutOfRange(w: nat, x: int)
    requires w > 0
  {
    !(0 - Sign(w) <= x < Sign(w))
  }

  /** CF and OF by the overflow intrinsics on the operands, ZF and SF by tests of the result. */
  function SubFlags(w: nat, a: nat, b: nat): Flags
    requires w > 0 && Fits(w, a) && Fits(w, b)
  {
    var r := Subtract(w, a, b);
    Flags(a < b, r == 0, Bit(r, w - 1), OutOfRange(w, Signed(w, a) - Signed(w, b)))
  }

  function AddFlags(w: nat, a: nat, b: nat): Flags
    requires w > 0 && Fits(w, a) && Fits(w, b)
  {
    var r := Add(w, a, b);
    Flags(a + b >= Pow2(w), r == 0, Bit(r, w - 1), OutOfRange(w, Signed(w, a) + Signed(w, b)))
  }

  datatype Cond = E | NE | B | AE | A | BE | L | GE | G | LE | S | NS

  /** The test of the flags that is raised for a conditional jump. */
  predicate Taken(cc: Cond, f: Flags) {
    match cc
    case E => f.zf
    case NE => !f.zf
    case B => f.cf
    case AE => !f.cf
    case A => !f.zf && !f.cf
    case BE => f.zf || f.cf
    case L => f.sf != f.of
    case GE => f.sf == f.of
    case G => !f.zf && f.sf == f.of
    case LE => f.zf || f.sf != f.of
    case S => f.sf
    case NS => !f.sf
  }

  /** What the condition says about the compared values. */
  predicate Relation(cc: Cond, w: nat, a: nat, b: nat)
    requires w > 0 && Fits(w, a) && Fits(w, b)
  {
    var x, y := Signed(w, a), Signed(w, b);
    match cc
    case E => a == b
    case NE => a != b
    case B => a < b
    case AE => a >= b
    case A => a > b
    case BE => a <= b
    case L => x < y
    case GE => x >= y
    case G => x > y
    case LE => x <= y
    case S => Signed(w, Subtract(w, a, b)) < 0
    case NS => Signed(w, Subtract(w, a, b)) >= 0
  }

  lemma Doubles(w: nat)
    requires w > 0
    ensures Pow2(w) == 2 * Sign(w)
  {
  }

  /** The sign bit, as the tests find it. */
  lemma SignBit(w: nat, v: nat)
    requires w > 0 && Fits(w, v)
    ensures Bit(v, w - 1) <==> v >= Sign(w)
    ensures Bit(v, w - 1) <==> Signed(w, v) < 0
  {
    Doubles(w);
    var h := Sign(w);
    Halves(v, h);
  }

  lemma Halves(v: nat, h: nat)
    requires h > 0 && v < 2 * h
    ensures v / h == if v < h then 0 else 1
  {
  }

  lemma Reduced(x: int, m: nat)
    requires m > 0 && 0 - m <= x < m
    ensures x % m == if x < 0 then x + m else x
  {
  }

  /** After a compare, every condition decides the relation it is named for, at every width. */
  lemma CompareDecides(w: nat, a: nat, b: nat, cc: Cond)
    requires w > 0 && Fits(w, a) && Fits(w, b)
    ensures Taken(cc, SubFlags(w, a, b)) <==> Relation(cc, w, a, b)
  {
    Doubles(w);
    Reduced(a - b, Pow2(w));
    SignBit(w, Subtract(w, a, b));
  }

  /** After an addition, CF is the bit that the result has lost, ZF says whether the sum is 0 or 2^w, SF
      whether the result is negative, and OF whether it has the wrong sign. */
  lemma AddFlagsMean(w: nat, a: nat, b: nat)
    requires w > 0 && Fits(w, a) && Fits(w, b)
    ensures var f, r := AddFlags(w, a, b), Add(w, a, b);
            && a + b == r + (if f.cf then Pow2(w) else 0)
            && (f.zf <==> a + b == 0 || a + b == Pow2(w))
            && (f.sf <==> Signed(w, r) < 0)
            && (f.of <==> Signed(w, r) != Signed(w, a) + Signed(w, b))
            && (f.sf != f.of <==> Signed(w, a) + Signed(w, b) < 0)
  {
    Doubles(w);
    SignBit(w, Add(w, a, b));
    var s, m := a + b, Pow2(w);
    if s < m {
      Reduced(s, m);
    } else {
      Reduced(s - m, m);
      assert s % m == (s - m) % m by { OneLess(s, m); }
    }
  }

  lemma OneLess(s: nat, m: nat)
    requires 0 < m <= s < 2 * m
    ensures s % m == s - m && (s - m) % m == s - m
  {
    assert s / m == 1;
  }

  // ----- rotates by one

  function RotateLeft(w: nat, v: nat): nat
    requires w > 0
  {
    2 * v % Pow2(w) + v / Sign(w)
  }

  function RotateRight(w: nat, v: nat): nat
    requires w > 0
  {
    v / 2 + if v % 2 == 1 then Sign(w) else 0
  }

  lemma RotateLeftIs(w: nat, v: nat)
    requires w > 0 && Fits(w, v)
    ensures RotateLeft(w, v) == if v < Sign(w) then 2 * v else 2 * v - Pow2(w) + 1
    ensures Fits(w, RotateLeft(w, v))
  {
    Doubles(w);
    Halves(v, Sign(w));
    if v < Sign(w) {
      Reduced(2 * v, Pow2(w));
    } else {
      OneLess(2 * v, Pow2(w));
    }
  }

  /** The flags of a rotate are computed from the result alone. For a rotate to the left CF is its lowest bit. */
  function RolFlags(w: nat, r: nat): (bool, bool)
    requires w > 0
  {
    var cf := r % 2 == 1;
    (cf, cf != Bit(r, w - 1))
  }

  /** For a rotate to the right CF is its highest bit. */
  function RorFlags(w: nat, r: nat): (bool, bool)
    requires w > 1
  {
    (Bit(r, w - 1), Bit(r, w - 1) != Bit(r, w - 2))
  }

  /** CF is the bit that was rotated out, and OF says whether the sign has changed. */
  lemma RolFlagsMean(w: nat, v: nat)
    requires w > 0 && Fits(w, v)
    ensures var r := RotateLeft(w, v);
            && Fits(w, r)
            && RolFlags(w, r).0 == Bit(v, w - 1)
            && RolFlags(w, r).1 == (Bit(v, w - 1) != Bit(r, w - 1))
  {
    RotateLeftIs(w, v);
    SignBit(w, v);
    Doubles(w);
  }

  lemma RorFlagsMean(w: nat, v: nat)
    requires w > 1 && Fits(w, v)
    ensures var r := RotateRight(w, v);
            && Fits(w, r)
            && RorFlags(w, r).0 == (v % 2 == 1)
            && RorFlags(w, r).1 == (Bit(v, w - 1) != Bit(r, w - 1))
  {
    var r := RotateRight(w, v);
    Doubles(w);
    Doubles(w - 1);
    SignBit(w, r);
    SignBit(w, v);
    NextBit(r, Pow2(w - 2));
    assert Bit(r, w - 2) == Bit(v, w - 1);
  }

  lemma NextBit(r: nat, q: nat)
    requires q > 0 && r < 4 * q
    ensures ((r / q) % 2 == 1) <==> (q <= r < 2 * q || 3 * q <= r)
  {
    if r < q {
      assert r / q == 0;
    } else if r < 2 * q {
      assert r / q == 1;
    } else if r < 3 * q {
      assert r / q == 2;
    } else {
      assert r / q == 3;
    }
  }

  // ----- a flag that is not always right. (Another is CF after NEG: the constant minuend 0 is tested in place of the
  // value, so CF is always clear, though NEG clears it for 0 only.)

  /** CF after SHL: the bit of the operand that is shifted out last is masked, and the masked value is tested for being
      positive as a signed value. */
  function ShlCarry(w: nat, v: nat, count: nat): bool
    requires w > 0 && 1 <= count <= w
  {
    var masked := if Bit(v, w - count) then Pow2(w - count) else 0;
    masked > 0 && masked < Sign(w)
  }

  lemma {:induction false} PowersGrow(i: nat, j: nat)
    requires i < j
    ensures Pow2(i) < Pow2(j)
  {
    if i + 1 < j {
      PowersGrow(i, j - 1);
    }
  }

  /** It is the bit shifted out last, unless that is the sign bit. */
  lemma ShlCarryIff(w: nat, v: nat, count: nat)
    requires w > 0 && 1 <= count <= w && Fits(w, v)
    ensures ShlCarry(w, v, count) == Bit(v, w - count) <==> !(count == 1 && v >= Sign(w))
  {
    SignBit(w, v);
    if count > 1 {
      PowersGrow(w - count, w - 1);
    }
  }
}
