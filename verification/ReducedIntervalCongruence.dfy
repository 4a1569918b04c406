/** Strided intervals, and what the operations on them do to the sets of values they stand for. An interval is copied
    wherever it is passed or stored, so it is a value here too. */
module ReducedIntervalCongruence {

  datatype BoundState = SET | NEG_INF | INF | UNSURE

  datatype RIC = RIC(alignment: nat, lo: int, hi: int, offset: int, loState: BoundState, hiState: BoundState)

  /** The index `i` lies between the bounds that are set. */
  predicate InRange(r: RIC, i: int) {
    (r.loState.SET? ==> r.lo <= i) && (r.hiState.SET? ==> i <= r.hi)
  }

  function ValueAt(r: RIC, i: int): int {
    r.alignment * i + r.offset
  }

  /** The values of the interval. */
  ghost predicate Member(r: RIC, v: int) {
    exists i: int :: InRange(r, i) && ValueAt(r, i) == v
  }

  function Constant(v: int): RIC {
    RIC(1, 0, 0, v, SET, SET)
  }

  lemma ConstantMembers(v: int, w: int)
    ensures Member(Constant(v), w) <==> w == v
  {
    assert InRange(Constant(v), 0) && ValueAt(Constant(v), 0) == v;
  }

  function AdjustRIC(r: RIC, value: int): RIC {
    r.(offset := r.offset + value)
  }

  function MultiplyRIC(r: RIC, times: int): RIC {
    r.(offset := r.offset * times, lo := r.lo * times, hi := r.hi * times)
  }

  /** Adjusting adds the value to every member, and to nothing else. */
  lemma AdjustExact(r: RIC, value: int, v: int)
    ensures Member(AdjustRIC(r, value), v) <==> Member(r, v - value)
  {
    var a := AdjustRIC(r, value);
    if Member(a, v) {
      var i: int :| InRange(a, i) && ValueAt(a, i) == v;
      assert InRange(r, i) && ValueAt(r, i) == v - value;
    }
    if Member(r, v - value) {
      var i: int :| InRange(r, i) && ValueAt(r, i) == v - value;
      assert InRange(a, i) && ValueAt(a, i) == v;
    }
  }

  lemma Scales(a: int, b: int, times: int)
    requires a <= b && times >= 0
    ensures a * times <= b * times
  {
    assert (b - a) * times >= 0;
  }

  lemma Flips(a: int, b: int, times: int)
    requires a < b && times < 0
    ensures a * times > b * times
  {
    assert (b - a) * (-times) > 0;
  }

  lemma MultipliedValue(r: RIC, i: int, times: int)
    ensures ValueAt(MultiplyRIC(r, times), i * times) == ValueAt(r, i) * times
  {
    assert r.alignment * (i * times) == (r.alignment * i) * times;
  }

  /** The multiple of every member is a member of the multiplied interval. */
  ghost predicate Covers(r: RIC, times: int) {
    forall v: int :: Member(r, v) ==> Member(MultiplyRIC(r, times), v * times)
  }

  /** Multiplying by a number that is not negative never loses a value, whatever the alignment and the bounds are. */
  lemma MultiplyCovers(r: RIC, times: int)
    requires times >= 0
    ensures Covers(r, times)
  {
    var m := MultiplyRIC(r, times);
    forall v: int | Member(r, v) ensures Member(m, v * times) {
      var i: int :| InRange(r, i) && ValueAt(r, i) == v;
      MultipliedValue(r, i, times);
      if r.loState.SET? { Scales(r.lo, i, times); }
      if r.hiState.SET? { Scales(i, r.hi, times); }
      assert InRange(m, i * times);
    }
  }

  ghost predicate Least(r: RIC, v: int) {
    Member(r, v) && forall w: int :: Member(r, w) ==> v <= w
  }

  ghost predicate Greatest(r: RIC, v: int) {
    Member(r, v) && forall w: int :: Member(r, w) ==> w <= v
  }

  /** For a positive number the multiplied interval is no wider than it must be: it begins and ends with the multiples
      of the least and the greatest member. */
  lemma MultiplyTight(r: RIC, times: int, v: int)
    requires times > 0
    ensures Least(r, v) ==> Least(MultiplyRIC(r, times), v * times)
    ensures Greatest(r, v) ==> Greatest(MultiplyRIC(r, times), v * times)
  {
    MultiplyCovers(r, times);
    hide MultiplyRIC, Member;
    forall w: int | Member(MultiplyRIC(r, times), w)
      ensures Least(r, v) ==> v * times <= w
      ensures Greatest(r, v) ==> w <= v * times
    {
      if Least(r, v) {
        NothingBelow(r, times, v, w);
      }
      if Greatest(r, v) {
        NothingAbove(r, times, v, w);
      }
    }
  }

  lemma NothingBelow(r: RIC, times: int, v: int, w: int)
    requires times > 0 && Least(r, v) && Member(MultiplyRIC(r, times), w)
    ensures v * times <= w
  {
    var m := MultiplyRIC(r, times);
    var i: int :| InRange(r, i) && ValueAt(r, i) == v;
    var j: int :| InRange(m, j) && ValueAt(m, j) == w;
    MultipliedValue(r, i, times);
    if r.alignment > 0 {
      LeastIsBound(r, i, v);
      ValuesOrdered(m, i * times, j);
    }
  }

  lemma NothingAbove(r: RIC, times: int, v: int, w: int)
    requires times > 0 && Greatest(r, v) && Member(MultiplyRIC(r, times), w)
    ensures w <= v * times
  {
    var m := MultiplyRIC(r, times);
    var i: int :| InRange(r, i) && ValueAt(r, i) == v;
    var j: int :| InRange(m, j) && ValueAt(m, j) == w;
    MultipliedValue(r, i, times);
    if r.alignment > 0 {
      GreatestIsBound(r, i, v);
      ValuesOrdered(m, j, i * times);
    }
  }

  lemma ValuesOrdered(r: RIC, i: int, j: int)
    requires i <= j
    ensures ValueAt(r, i) <= ValueAt(r, j)
  {
    Scales(i, j, r.alignment);
  }

  lemma LeastIsBound(r: RIC, i: int, v: int)
    requires r.alignment > 0 && InRange(r, i) && ValueAt(r, i) == v && Least(r, v)
    ensures r.loState.SET? && i == r.lo
  {
    assert ValueAt(r, i - 1) == v - r.alignment;
    assert !Member(r, v - r.alignment);
    assert !InRange(r, i - 1);
  }

  lemma GreatestIsBound(r: RIC, i: int, v: int)
    requires r.alignment > 0 && InRange(r, i) && ValueAt(r, i) == v && Greatest(r, v)
    ensures r.hiState.SET? && i == r.hi
  {
    assert ValueAt(r, i + 1) == v + r.alignment;
    assert !Member(r, v + r.alignment);
    assert !InRange(r, i + 1);
  }

  /** The intervals that lose no value to a negative number: the bounds hold at most one index, or none is set, or all
      indices have the same value and there is one in range. */
  predicate Robust(r: RIC) {
    || (r.loState.SET? && r.hiState.SET? && r.lo >= r.hi)
    || (!r.loState.SET? && !r.hiState.SET?)
    || (r.alignment == 0 && !(r.loState.SET? && r.hiState.SET?))
  }

  /** Multiplying loses no value exactly if the number is not negative or the interval is robust: the bounds are not
      swapped for a negative number. */
  lemma MultiplyCoversIff(r: RIC, times: int)
    ensures Covers(r, times) <==> times >= 0 || Robust(r)
  {
    if times >= 0 {
      MultiplyCovers(r, times);
    } else if Robust(r) {
      RobustCovers(r, times);
    } else {
      NegativeLoses(r, times);
    }
  }

  lemma RobustCovers(r: RIC, times: int)
    requires times < 0 && Robust(r)
    ensures Covers(r, times)
  {
    var m := MultiplyRIC(r, times);
    forall v: int | Member(r, v) ensures Member(m, v * times) {
      var i: int :| InRange(r, i) && ValueAt(r, i) == v;
      MultipliedValue(r, i, times);
      if r.alignment == 0 && !(r.loState.SET? && r.hiState.SET?) {
        var k := if r.loState.SET? then m.lo else m.hi;
        assert InRange(m, k) && ValueAt(m, k) == v * times;
      } else {
        assert InRange(m, i * times);
      }
    }
  }

  /** The value at a bound that is set, or next to it, is lost. */
  lemma NegativeLoses(r: RIC, times: int)
    requires times < 0 && !Robust(r)
    ensures !Covers(r, times)
  {
    var m := MultiplyRIC(r, times);
    if r.loState.SET? && r.hiState.SET? {
      Flips(r.lo, r.hi, times);
      assert InRange(r, r.lo);
      assert Member(r, ValueAt(r, r.lo));
      assert forall i: int :: !InRange(m, i);
    } else {
      var i := if r.loState.SET? then r.lo + 1 else r.hi - 1;
      assert InRange(r, i) && Member(r, ValueAt(r, i));
      MultipliedValue(r, i, times);
      if r.loState.SET? { Flips(r.lo, i, times); } else { Flips(i, r.hi, times); }
      forall k: int | ValueAt(m, k) == ValueAt(r, i) * times
        ensures k == i * times
      {
        SameProduct(r.alignment, k, i * times);
      }
      assert !InRange(m, i * times);
      assert !Member(m, ValueAt(r, i) * times);
    }
  }

  lemma SameProduct(a: nat, x: int, y: int)
    requires a > 0 && a * x == a * y
    ensures x == y
  {
    assert a * (x - y) == 0;
  }

  // ----- the membership test

  const WORD := 0x1_0000_0000_0000_0000
  const HALF := 0x8000_0000_0000_0000

  predicate IsInt64(x: int) {
    -HALF <= x < HALF
  }

  /** The value that an unsigned word has as a signed one. */
  function AsSigned(u: nat): int {
    if u < HALF then u else u - WORD
  }

  /** The test as it is computed: the alignment is unsigned, so the remainder and the quotient are unsigned too. */
  function ContainsValue(r: RIC, v: int): bool
    requires r.alignment > 0 && IsInt64(v - r.offset)
  {
    var d := (v - r.offset) % WORD;
    d % r.alignment == 0 && InRange(r, AsSigned(d / r.alignment))
  }

  lemma SmallMultiple(x: int, a: nat)
    requires 0 <= x * a < a
    ensures x == 0
  {
  }

  lemma QuotientIs(a: nat, d: int, i: int)
    requires a > 0 && d == a * i
    ensures d % a == 0 && d / a == i
  {
    var q, s := d / a, d % a;
    assert d == a * q + s && 0 <= s < a;
    assert (i - q) * a == a * i - a * q;
    SmallMultiple(i - q, a);
  }

  /** A member is the offset and a multiple of the alignment, whose index is in range. */
  lemma MemberIff(r: RIC, v: int)
    requires r.alignment > 0
    ensures Member(r, v) <==> (v - r.offset) % r.alignment == 0 && InRange(r, (v - r.offset) / r.alignment)
  {
    var d := v - r.offset;
    if d % r.alignment == 0 {
      var i := d / r.alignment;
      assert ValueAt(r, i) == v;
    }
    if Member(r, v) {
      var i: int :| InRange(r, i) && ValueAt(r, i) == v;
      QuotientIs(r.alignment, d, i);
    }
  }

  /** The test is exact for values that are not below the offset, and for alignment 1. */
  lemma ContainsExact(r: RIC, v: int)
    requires r.alignment > 0 && IsInt64(v - r.offset) && (v >= r.offset || r.alignment == 1)
    ensures ContainsValue(r, v) <==> Member(r, v)
  {
    hide Member;
    var d := v - r.offset;
    MemberIff(r, v);
    if v >= r.offset {
      assert d % WORD == d;
      QuotientBelow(d, r.alignment);
    } else {
      assert d % WORD == d + WORD;
    }
  }

  lemma Grows(q: nat, a: nat)
    requires a > 0
    ensures q <= a * q
  {
  }

  lemma QuotientBelow(d: nat, a: nat)
    requires a > 0
    ensures 0 <= d / a <= d
  {
    Grows(d / a, a);
  }

  /** The test is right for the value, whatever the bounds of the interval are. */
  ghost predicate ExactFor(a: nat, offset: int, v: int)
    requires a > 0 && IsInt64(v - offset)
  {
    forall r: RIC :: r.alignment == a && r.offset == offset && IsInt64(r.lo) && IsInt64(r.hi) ==>
                     (ContainsValue(r, v) <==> Member(r, v))
  }

  /** Exactly these values are tested rightly: those that are not below the offset, all of them for alignment 1, and
      those that the alignment divides neither as they are nor as unsigned words. */
  predicate Testable(a: nat, offset: int, v: int)
    requires a > 0
  {
    v >= offset || a == 1 || ((v - offset) % a != 0 && (v - offset + WORD) % a != 0)
  }

  /** The values that are not in the interval because no index gives them. */
  lemma NoMultiple(r: RIC, v: int)
    requires r.alignment > 0 && Member(r, v)
    ensures (v - r.offset) % r.alignment == 0
  {
    var i: int :| InRange(r, i) && ValueAt(r, i) == v;
    QuotientIs(r.alignment, v - r.offset, i);
  }

  lemma TwiceBelow(a: nat, q: nat)
    requires a > 1
    ensures 2 * q <= a * q
  {
    assert (a - 2) * q >= 0;
  }

  lemma HalfBelow(d: nat, a: nat)
    requires a > 1 && d < WORD
    ensures 0 <= d / a < HALF
  {
    var q, s := d / a, d % a;
    assert d == a * q + s && 0 <= s;
    ProductSign(a, q);
    assert q >= 0;
    TwiceBelow(a, q);
  }

  lemma ExactIffTestable(a: nat, offset: int, v: int)
    requires a > 0 && IsInt64(v - offset)
    ensures ExactFor(a, offset, v) <==> Testable(a, offset, v)
  {
    if Testable(a, offset, v) {
      forall r: RIC | r.alignment == a && r.offset == offset
        ensures ContainsValue(r, v) <==> Member(r, v)
      {
        if v >= offset || a == 1 {
          ContainsExact(r, v);
        } else {
          assert (v - offset) % WORD == v - offset + WORD;
          if Member(r, v) {
            NoMultiple(r, v);
          }
        }
      }
    } else {
      BelowIsInexact(a, offset, v);
    }
  }

  /** Otherwise the interval of just the one index fails: the true quotient's, or that of the unsigned word. */
  lemma BelowIsInexact(a: nat, offset: int, v: int)
    requires a > 0 && IsInt64(v - offset) && !Testable(a, offset, v)
    ensures !ExactFor(a, offset, v)
  {
    var d := v - offset + WORD;
    assert (v - offset) % WORD == d;
    HalfBelow(d, a);
    if (v - offset) % a == 0 {
      var q := (v - offset) / a;
      var r := RIC(a, q, q, offset, SET, SET);
      assert v - offset == a * q;
      assert InRange(r, q) && ValueAt(r, q) == v;
      NegativeQuotient(a, v - offset, q);
      assert Member(r, v) && !ContainsValue(r, v);
    } else {
      var q := d / a;
      var r := RIC(a, q, q, offset, SET, SET);
      assert ContainsValue(r, v);
      if Member(r, v) {
        NoMultiple(r, v);
      }
    }
  }

  lemma ProductSign(a: nat, q: int)
    requires a > 0
    ensures q >= 0 ==> a * q >= 0
    ensures q <= 0 ==> a * q <= q
  {
    if q >= 0 {
      assert a * q >= 0;
    } else {
      assert (a - 1) * q <= 0;
    }
  }

  lemma NegativeQuotient(a: nat, d: int, q: int)
    requires a > 0 && d == a * q && -HALF <= d < 0
    ensures -HALF <= q < 0
  {
    ProductSign(a, q);
  }
}
