/** Values of SSE registers, which are reinterpreted from one type to another by bit casts, integer casts and moves of
    the lowest element of a vector. */
module SseValues {
  import opened Wrappers

  datatype Kind = Integer | FloatingPoint

  datatype Type = Scalar(kind: Kind, bits: nat) | Vector(kind: Kind, bits: nat, count: nat)

  predicate ValidType(t: Type) {
    t.bits > 0 && (t.Vector? ==> t.count > 0)
  }

  function Elements(t: Type): nat {
    if t.Vector? then t.count else 1
  }

  function Size(t: Type): nat {
    Elements(t) * t.bits
  }

  /** The lowest bit first. */
  type Bits = seq<bool>

  /** A vector, or a scalar as its only element. */
  datatype Value = Value(ty: Type, elements: seq<Bits>)

  predicate WellTyped(v: Value) {
    && ValidType(v.ty)
    && |v.elements| == Elements(v.ty)
    && forall i :: 0 <= i < |v.elements| ==> |v.elements[i]| == v.ty.bits
  }

  /** The bits of a value, its first element lowest. */
  function Flat(elements: seq<Bits>): Bits {
    if elements == [] then [] else elements[0] + Flat(elements[1..])
  }

  function Cut(bits: Bits, width: nat, n: nat): (r: seq<Bits>)
    requires |bits| == n * width
    ensures |r| == n && forall i :: 0 <= i < |r| ==> |r[i]| == width
  {
    if n == 0 then [] else
      OneLess(n, width);
      [bits[..width]] + Cut(bits[width..], width, n - 1)
  }

  function Zeros(n: nat): Bits {
    seq(n, i => false)
  }

  // ----- the instructions of LLVM, and nothing where they are not valid

  function BitCast(v: Value, ty: Type): Option<Value>
    requires WellTyped(v) && ValidType(ty)
  {
    if Size(v.ty) == Size(ty) then
      FlatSize(v.elements, v.ty.bits);
      Some(Value(ty, Cut(Flat(v.elements), ty.bits, Elements(ty))))
    else None
  }

  /** Truncates or extends by zeros. */
  function IntCast(v: Value, width: nat): Option<Value>
    requires WellTyped(v)
  {
    if v.ty.Scalar? && v.ty.kind == Integer then Some(Value(Scalar(Integer, width), [Resized(v.elements[0], width)]))
        else None
  }

  /** There are vectors of scalars only. */
  function VectorOf(ty: Type, count: nat): Option<Type> {
    if ty.Scalar? && count > 0 then Some(Vector(ty.kind, ty.bits, count)) else None
  }

  function FirstElement(v: Value): Option<Value>
    requires WellTyped(v)
  {
    if v.ty.Vector? then Some(Value(Scalar(v.ty.kind, v.ty.bits), [v.elements[0]])) else None
  }

  /** A vector of zeros but for its first element. */
  function WithFirst(v: Value, ty: Type): Option<Value>
    requires WellTyped(v) && ValidType(ty)
  {
    if ty.Vector? && v.ty == Scalar(ty.kind, ty.bits)
    then Some(Value(ty, v.elements + seq(ty.count - 1, i => Zeros(ty.bits))))
    else None
  }

  /** The value in another type, if all instructions on the way are valid. */
  function Reinterpret(v: Value, ty: Type): Option<Value>
    requires WellTyped(v) && ValidType(ty)
  {
    var srcSize, dstSize := Size(v.ty), Size(ty);
    if v.ty == ty then Some(v)
    else if v.ty.Vector? && ty.Vector? && srcSize != dstSize then
      SizePositive(v.ty);
      SizePositive(ty);
      var whole := BitCast(v, Scalar(Integer, srcSize));
      if whole.None? then None else
        var cast := IntCast(whole.value, dstSize);
        if cast.None? then None else BitCast(cast.value, ty)
    else if srcSize > dstSize then
      SizePositive(ty);
      var vec := VectorOf(ty, srcSize / dstSize);
      if vec.None? then None else
        var cast := BitCast(v, vec.value);
        if cast.None? then None else FirstElement(cast.value)
    else if srcSize < dstSize then
      SizePositive(v.ty);
      var vec := VectorOf(v.ty, dstSize / srcSize);
      if vec.None? then None else
        var inserted := WithFirst(v, vec.value);
        if inserted.None? then None else
          FilledUp(v, vec.value);
          BitCast(inserted.value, ty)
    else BitCast(v, ty)
  }

  // ----- what it means

  /** The bits that fit into `width`, and zeros above. */
  function Resized(bits: Bits, width: nat): (r: Bits)
    ensures |r| == width
  {
    if width <= |bits| then bits[..width] else bits + Zeros(width - |bits|)
  }

  lemma SizePositive(t: Type)
    requires ValidType(t)
    ensures Size(t) > 0
  {
  }

  lemma {:induction false} FlatSize(elements: seq<Bits>, width: nat)
    requires forall i :: 0 <= i < |elements| ==> |elements[i]| == width
    ensures |Flat(elements)| == |elements| * width
  {
    if elements != [] {
      FlatSize(elements[1..], width);
      OneLess(|elements|, width);
    }
  }

  lemma OneLess(n: nat, width: nat)
    requires n > 0
    ensures n * width == width + (n - 1) * width
  {
  }

  lemma {:induction false} FlatCut(bits: Bits, width: nat, n: nat)
    requires |bits| == n * width
    ensures Flat(Cut(bits, width, n)) == bits
  {
    if n > 0 {
      OneLess(n, width);
      var front, rest := bits[..width], bits[width..];
      FlatCut(rest, width, n - 1);
      var cut := Cut(bits, width, n);
      assert cut[0] == front && cut[1..] == Cut(rest, width, n - 1);
      assert bits == front + rest;
    }
  }

  /** A value is determined by its type and its bits. */
  lemma {:induction false} CutFlat(elements: seq<Bits>, width: nat)
    requires forall i :: 0 <= i < |elements| ==> |elements[i]| == width
    ensures |Flat(elements)| == |elements| * width && Cut(Flat(elements), width, |elements|) == elements
  {
    FlatSize(elements, width);
    if elements != [] {
      CutFlat(elements[1..], width);
      assert Flat(elements)[..width] == elements[0] && Flat(elements)[width..] == Flat(elements[1..]);
    }
  }

  lemma {:induction false} FlatZeros(n: nat, width: nat)
    ensures Flat(seq(n, i => Zeros(width))) == Zeros(n * width)
  {
    if n > 0 {
      var zeros := seq(n, i => Zeros(width));
      assert zeros[1..] == seq(n - 1, i => Zeros(width));
      FlatZeros(n - 1, width);
      OneLess(n, width);
      assert Zeros(n * width) == Zeros(width) + Zeros((n - 1) * width);
    }
  }

  lemma FilledUp(v: Value, ty: Type)
    requires WellTyped(v) && ValidType(ty) && WithFirst(v, ty).Some?
    ensures WellTyped(WithFirst(v, ty).value)
    ensures Flat(WithFirst(v, ty).value.elements) == Resized(v.elements[0], Size(ty))
  {
    var elements := WithFirst(v, ty).value.elements;
    var rest := seq(ty.count - 1, i => Zeros(ty.bits));
    assert elements[1..] == rest && elements[0] == v.elements[0];
    FlatZeros(ty.count - 1, ty.bits);
    assert Size(ty) == ty.bits + (ty.count - 1) * ty.bits;
  }

  function BitsOf(v: Value): Bits {
    Flat(v.elements)
  }

  lemma OneElement(bits: Bits)
    ensures Flat([bits]) == bits
  {
    assert [bits][1..] == [];
  }

  lemma CastMeans(v: Value, ty: Type)
    requires WellTyped(v) && ValidType(ty)
    ensures BitCast(v, ty).Some? <==> Size(v.ty) == Size(ty)
    ensures BitCast(v, ty).Some? ==> var r := BitCast(v, ty).value; WellTyped(r) && r.ty == ty && BitsOf(r) == BitsOf(v)
  {
    FlatSize(v.elements, v.ty.bits);
    if Size(v.ty) == Size(ty) {
      FlatCut(BitsOf(v), ty.bits, Elements(ty));
    }
  }

  /** The types between which a value can be reinterpreted: vectors, types of one size, and a scalar whose size divides
      the other's. */
  predicate Convertible(from: Type, to: Type)
    requires ValidType(from) && ValidType(to)
  {
    || (from.Vector? && to.Vector?)
    || Size(from) == Size(to)
    || (to.Scalar? && Size(from) > Size(to) && Size(from) % Size(to) == 0)
    || (from.Scalar? && Size(from) < Size(to) && Size(to) % Size(from) == 0)
  }

  /** Main result: whichever way is taken, the value keeps its bits, as many as fit, with zeros above; and there is a
      valid way exactly between convertible types. */
  lemma ReinterpretMeans(v: Value, ty: Type)
    requires WellTyped(v) && ValidType(ty)
    ensures Reinterpret(v, ty).Some? <==> Convertible(v.ty, ty)
    ensures Convertible(v.ty, ty) ==>
              var r := Reinterpret(v, ty).value; WellTyped(r) && r.ty == ty && BitsOf(r) == Resized(BitsOf(v), Size(ty))
  {
    var srcSize, dstSize := Size(v.ty), Size(ty);
    FlatSize(v.elements, v.ty.bits);
    SizePositive(v.ty);
    SizePositive(ty);
    if v.ty == ty {
    } else if v.ty.Vector? && ty.Vector? && srcSize != dstSize {
      ThroughIntegers(v, ty);
    } else if srcSize > dstSize {
      Narrows(v, ty);
    } else if srcSize < dstSize {
      Widens(v, ty);
    } else {
      CastMeans(v, ty);
    }
  }

  lemma ThroughIntegers(v: Value, ty: Type)
    requires WellTyped(v) && ValidType(ty) && v.ty.Vector? && ty.Vector? && Size(v.ty) != Size(ty)
    ensures Reinterpret(v, ty).Some?
    ensures var r := Reinterpret(v, ty).value; WellTyped(r) && r.ty == ty && BitsOf(r) == Resized(BitsOf(v), Size(ty))
  {
    SizePositive(v.ty);
    SizePositive(ty);
    CastMeans(v, Scalar(Integer, Size(v.ty)));
    var whole := BitCast(v, Scalar(Integer, Size(v.ty))).value;
    OneElement(whole.elements[0]);
    assert whole.elements == [whole.elements[0]];
    var cast := IntCast(whole, Size(ty)).value;
    OneElement(cast.elements[0]);
    CastMeans(cast, ty);
  }

  lemma Multiple(a: nat, b: nat)
    requires b > 0
    ensures a / b * b == a <==> a % b == 0
  {
  }

  lemma Narrows(v: Value, ty: Type)
    requires WellTyped(v) && ValidType(ty) && Size(v.ty) > Size(ty) && !(v.ty.Vector? && ty.Vector?)
    ensures Reinterpret(v, ty).Some? <==> ty.Scalar? && Size(v.ty) % Size(ty) == 0
    ensures Reinterpret(v, ty).Some? ==>
              var r := Reinterpret(v, ty).value; WellTyped(r) && r.ty == ty && BitsOf(r) == Resized(BitsOf(v), Size(ty))
  {
    SizePositive(ty);
    FlatSize(v.elements, v.ty.bits);
    var count := Size(v.ty) / Size(ty);
    AtLeastOne(Size(v.ty), Size(ty));
    if ty.Scalar? {
      var vec := Vector(ty.kind, ty.bits, count);
      Multiple(Size(v.ty), Size(ty));
      CastMeans(v, vec);
      if BitCast(v, vec).Some? {
        var elements := BitCast(v, vec).value.elements;
        OneElement(elements[0]);
        assert Flat(elements) == elements[0] + Flat(elements[1..]);
      }
    }
  }

  lemma AtLeastOne(a: nat, b: nat)
    requires a >= b > 0
    ensures a / b > 0
  {
  }

  lemma Widens(v: Value, ty: Type)
    requires WellTyped(v) && ValidType(ty) && Size(v.ty) < Size(ty) && !(v.ty.Vector? && ty.Vector?)
    ensures Reinterpret(v, ty).Some? <==> v.ty.Scalar? && Size(ty) % Size(v.ty) == 0
    ensures Reinterpret(v, ty).Some? ==>
              var r := Reinterpret(v, ty).value; WellTyped(r) && r.ty == ty && BitsOf(r) == Resized(BitsOf(v), Size(ty))
  {
    SizePositive(v.ty);
    var count := Size(ty) / Size(v.ty);
    AtLeastOne(Size(ty), Size(v.ty));
    if v.ty.Scalar? {
      var vec := Vector(v.ty.kind, v.ty.bits, count);
      Multiple(Size(ty), Size(v.ty));
      FilledUp(v, vec);
      OneElement(v.elements[0]);
      assert v.elements == [v.elements[0]];
      CastMeans(WithFirst(v, vec).value, ty);
    }
  }

  // ----- one after the other

  lemma ResizedTwice(bits: Bits, a: nat, b: nat)
    ensures a >= b || a >= |bits| ==> Resized(Resized(bits, a), b) == Resized(bits, b)
  {
    if a >= |bits| && a < b {
      assert Zeros(a - |bits|) + Zeros(b - a) == Zeros(b - |bits|);
    }
  }

  lemma SameBits(x: Value, y: Value)
    requires WellTyped(x) && WellTyped(y) && x.ty == y.ty && BitsOf(x) == BitsOf(y)
    ensures x == y
  {
    CutFlat(x.elements, x.ty.bits);
    CutFlat(y.elements, y.ty.bits);
  }

  /** Two steps are one, unless the first loses bits that the second would keep. */
  lemma StepsCollapse(v: Value, via: Type, ty: Type)
    requires WellTyped(v) && ValidType(via) && ValidType(ty)
    requires Convertible(v.ty, via) && Convertible(via, ty) && Convertible(v.ty, ty)
    requires Size(via) >= Size(ty) || Size(via) >= Size(v.ty)
    ensures Reinterpret(v, via).Some? && WellTyped(Reinterpret(v, via).value)
    ensures Reinterpret(Reinterpret(v, via).value, ty) == Reinterpret(v, ty)
  {
    FlatSize(v.elements, v.ty.bits);
    ReinterpretMeans(v, via);
    ReinterpretMeans(Reinterpret(v, via).value, ty);
    ReinterpretMeans(v, ty);
    ResizedTwice(BitsOf(v), Size(via), Size(ty));
    SameBits(Reinterpret(Reinterpret(v, via).value, ty).value, Reinterpret(v, ty).value);
  }

  /** There and back again: the value comes back exactly if the bits that do not fit are zeros. */
  lemma RoundTripIff(v: Value, via: Type)
    requires WellTyped(v) && ValidType(via) && Convertible(v.ty, via)
    ensures Reinterpret(v, via).Some? && WellTyped(Reinterpret(v, via).value)
    ensures Reinterpret(Reinterpret(v, via).value, v.ty) == Some(v) <==>
              forall i :: Size(via) <= i < |BitsOf(v)| ==> !BitsOf(v)[i]
  {
    var bits, width := BitsOf(v), Size(via);
    FlatSize(v.elements, v.ty.bits);
    ReinterpretMeans(v, via);
    var there := Reinterpret(v, via).value;
    ReinterpretMeans(there, v.ty);
    var back := Reinterpret(there, v.ty).value;
    if width >= |bits| {
      ResizedTwice(bits, width, |bits|);
    } else {
      assert Resized(Resized(bits, width), |bits|) == bits[..width] + Zeros(|bits| - width);
      assert bits == bits[..width] + bits[width..];
      if forall i :: width <= i < |bits| ==> !bits[i] {
        assert bits[width..] == Zeros(|bits| - width);
      }
    }
    if BitsOf(back) == bits {
      SameBits(back, v);
    }
  }

  /** The type of the stack slots of SSE registers. */
  const SLOT_TYPE := Vector(Integer, 32, 4)

  /** All values of a type survive a stack slot exactly if the type is no wider than a slot, and a vector or of a size
      that divides the slot's. */
  lemma SlotKeepsIff(ty: Type)
    requires ValidType(ty)
    ensures (forall v :: WellTyped(v) && v.ty == ty ==> SurvivesSlot(v)) <==>
            Size(ty) <= 128 && (ty.Vector? || 128 % Size(ty) == 0)
  {
    SizePositive(ty);
    var ones := Value(ty, seq(Elements(ty), i => seq(ty.bits, j => true)));
    assert WellTyped(ones);
    if Size(ty) <= 128 && (ty.Vector? || 128 % Size(ty) == 0) {
      forall v | WellTyped(v) && v.ty == ty
        ensures SurvivesSlot(v)
      {
        FlatSize(v.elements, ty.bits);
        RoundTripIff(v, SLOT_TYPE);
      }
    } else if !Convertible(ty, SLOT_TYPE) {
      ReinterpretMeans(ones, SLOT_TYPE);
      assert !SurvivesSlot(ones);
    } else {
      FlatOnes(ones.elements, ty.bits);
      FlatSize(ones.elements, ty.bits);
      RoundTripIff(ones, SLOT_TYPE);
      assert BitsOf(ones)[128];
      assert !SurvivesSlot(ones);
    }
  }

  /** Stored in a stack slot and loaded again, the value is what it was. */
  predicate SurvivesSlot(v: Value)
    requires WellTyped(v)
  {
    var stored := Reinterpret(v, SLOT_TYPE);
    stored.Some? && WellTyped(stored.value) && Reinterpret(stored.value, v.ty) == Some(v)
  }

  lemma {:induction false} FlatOnes(elements: seq<Bits>, width: nat)
    requires forall i :: 0 <= i < |elements| ==> elements[i] == seq(width, j => true)
    ensures forall k :: 0 <= k < |Flat(elements)| ==> Flat(elements)[k]
  {
    if elements != [] {
      FlatOnes(elements[1..], width);
    }
  }
}
