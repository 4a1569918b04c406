/** Flag-setting logical operations under a condition. Their split form tests the condition a second time, on the flags
    of the shift: which of them are preserved nevertheless, and a state for every other. */
module ArmEntangled {
  import opened Wrappers
  import opened ArmMachine
  import opened ArmSplitting
  import opened ArmSplittingCorrect

  /** The shift cannot make the condition fail, or where it does the operation would have changed nothing. */
  predicate Exempt(x: Data) {
    var one := x.rd == x.rn && x.rn == x.rm;
    match x.sh
    case ByImm(LSR, _) => x.cc == 5
    case ByReg(LSR, _) => x.cc == 5 && x.f in {AND, ORR} && one
    case ByImm(ASR, n) => x.cc in {0, 5, 9, 13} && x.f == AND && n == 31 && one
    case ByImm(ROR, _) => x.cc == 1 && Absorbs(x)
    case ByReg(ROR, _) => x.cc == 1 && Absorbs(x)
    case _ => false
  }

  /** The operation leaves its destination at 0 if the shifted register is 0. */
  predicate Absorbs(x: Data) {
    (x.f == AND && x.rd == x.rm) || (x.f in {BIC, EOR, ORR} && x.rd == x.rn && x.rn == x.rm)
  }

  // ----- exempt instructions are preserved

  function Result(x: Data, s: State): Word
    requires ValidData(x) && |s.r| == 16
  {
    Alu(x.f, if HasRn(x.f) then s.r[x.rn] else Zeros(32), ShiftedValue(x, s), s.flags).result
  }

  /** Where the condition fails after the shift, the operation would have changed nothing that the shift does not. */
  ghost predicate Harmless(x: Data, s: State)
    requires ValidData(x) && |s.r| == 16
  {
    var y := ShiftedValue(x, s).result;
    Passes(x.cc, s.flags) && !Passes(x.cc, FlagsBetween(x, s)) ==>
      Result(x, s) == s.r[x.rd] && Negative(Result(x, s)) == Negative(y) && IsZero(Result(x, s)) == IsZero(y)
  }

  lemma HarmlessIff(x: Data, s: State)
    requires ValidData(x) && Entangled(x) && |s.r| == 16
    ensures Harmless(x, s) <==> Agree(PairMeaning(x, s), Meaning(x, s))
  {
    hide ShiftedValue, And, Or, Xor, Not, Passes;
    assert s.r[x.rd := s.r[x.rd]] == s.r;
  }

  /** An entangled instruction is preserved exactly if it is harmless in every state. */
  lemma PreservedIffHarmless(x: Data)
    requires ValidData(x) && Entangled(x)
    ensures Preserved(x) <==> forall s: State :: |s.r| == 16 ==> Harmless(x, s)
  {
    hide Harmless, PairMeaning, Meaning, ExecAll, Replacement;
    if s: State :| |s.r| == 16 && !Harmless(x, s) {
      HarmlessIff(x, s);
      NotPreserved(x, s);
    } else {
      forall ext: Ext, v: nat, s: State | |s.r| == 16
        ensures PreservedFrom(ext, x, v, s)
      {
        HarmlessIff(x, s);
        PairMeans(ext, x, v, s);
      }
    }
  }

  lemma ExemptHarmless(x: Data, s: State)
    requires ValidData(x) && Entangled(x) && Exempt(x) && |s.r| == 16
    ensures Harmless(x, s)
  {
    hide LowByte;
    var w := s.r[x.rm];
    var y := ShiftedValue(x, s).result;
    match x.sh
    case ByImm(LSR, n) =>
      assert !y[31];
    case ByReg(LSR, rs) =>
      if y[31] {
        assert y == w && And(w, w) == w && Or(w, w) == w;
      }
    case ByImm(ASR, n) =>
      assert forall k :: 0 <= k < 32 ==> y[k] == w[31];
      if w[31] {
        assert And(w, y) == w;
      } else {
        assert y == Zeros(32);
      }
    case ByImm(ROR, n) => RotatedZero(x, s, n);
    case ByReg(ROR, rs) => RotatedZero(x, s, LowByte(s.r[rs]));
  }

  lemma ZeroRotated(w: Word, amount: nat, c: bool)
    requires IsZero(ShiftC(w, ROR, amount, c).result)
    ensures w == Zeros(32)
  {
    var y := ShiftC(w, ROR, amount, c).result;
    var m := amount % 32;
    if amount != 0 {
      forall k | 0 <= k < 32
        ensures !w[k]
      {
        assert !y[if k >= m then k - m else k + 32 - m];
      }
    }
  }

  lemma ZeroOperand(a: Word)
    ensures And(a, Zeros(32)) == Zeros(32) && And(a, Not(Zeros(32))) == a && Xor(a, Zeros(32)) == a
            && Or(a, Zeros(32)) == a
  {
  }

  lemma RotatedZero(x: Data, s: State, amount: nat)
    requires ValidData(x) && Entangled(x) && x.cc == 1 && Absorbs(x) && |s.r| == 16
    requires ShiftedValue(x, s).result == ShiftC(s.r[x.rm], ROR, amount, s.flags.c).result
    ensures Harmless(x, s)
  {
    hide ShiftC, And, Or, Xor, Not, LowByte;
    if IsZero(ShiftedValue(x, s).result) {
      ZeroRotated(s.r[x.rm], amount, s.flags.c);
      ZeroOperand(s.r[x.rn]);
    }
  }

  // ----- states in which the others are not

  /** The word with these bits set. */
  function Bits(s: set<nat>): Word {
    seq(32, k requires 0 <= k < 32 => k in s)
  }

  /** Flags under which a condition holds; `neg` says what sign the shift is going to give. */
  function StartFlags(cc: nat, neg: bool): Flags {
    var v := if cc in {10, 12} then !neg else neg;
    Flags(if cc in {10, 12} then v else if cc == 11 then !v else cc == 4, cc in {0, 9, 13}, cc in {2, 8}, v)
  }

  /** What the shift has to give to make the condition fail: its sign, whether it is 0, and its carry. */
  predicate Fails(cc: nat, neg: bool, zero: bool, carry: bool) {
    match cc
    case 0 => !zero
    case 1 => zero
    case 2 => !carry
    case 3 => carry
    case 4 => !neg
    case 5 => neg
    case 8 => !carry
    case 9 => carry && !zero
    case 13 => !zero
    case _ => cc in {10, 11, 12}
  }

  lemma StartsAndFails(cc: nat, neg: bool, zero: bool, carry: bool)
    requires Fails(cc, neg, zero, carry)
    ensures Passes(cc, StartFlags(cc, neg))
    ensures !Passes(cc, Flags(neg, zero, carry, StartFlags(cc, neg).v))
  {
  }

  /** Registers that all hold `other`, but register `rm` holds `w`. */
  function Around(rm: nat, w: Word, other: Word, flags: Flags): (s: State)
    requires rm < 16
    ensures |s.r| == 16
  {
    State(seq(16, i requires 0 <= i < 16 => if i == rm then w else other), map[], map[], flags)
  }

  /** The state is one in which the shift gives `y` with carry `c`, which makes the condition fail, and the operation
      would have changed something. */
  ghost predicate Witness(x: Data, w: Word, other: Word, y: Word, c: bool)
    requires ValidData(x)
  {
    var s := Around(x.rm, w, other, StartFlags(x.cc, y[31]));
    && ShiftedValue(x, s) == Shifted(y, c)
    && Fails(x.cc, y[31], IsZero(y), c)
    && (Result(x, s) != s.r[x.rd] || Negative(Result(x, s)) != y[31] || IsZero(Result(x, s)) != IsZero(y))
  }

  lemma WitnessBreaks(x: Data, w: Word, other: Word, y: Word, c: bool)
    requires ValidData(x) && Entangled(x) && Witness(x, w, other, y, c)
    ensures !Preserved(x)
  {
    hide ShiftedValue, And, Or, Xor, Not, Passes, Fails, StartFlags, Result;
    var s := Around(x.rm, w, other, StartFlags(x.cc, y[31]));
    StartsAndFails(x.cc, y[31], IsZero(y), c);
    assert FlagsBetween(x, s) == Flags(y[31], IsZero(y), c, s.flags.v);
    assert !Harmless(x, s);
    PreservedIffHarmless(x);
  }

  /** With the same word in all registers, the operation shows if the shift changes the sign, or gives 0, or if both are
      negative and, for and and or, neither has all the bits of the other. */
  predicate Shows(f: Fam, w: Word, y: Word) {
    || f == MVN
    || w[31] != y[31]
    || (IsZero(y) && !IsZero(w))
    || (w[31] && y[31] && (f == AND ==> And(w, y) != w) && (f == ORR ==> Or(w, y) != w))
  }

  lemma ShowsDiffers(f: Fam, w: Word, y: Word, c: bool, flags: Flags)
    requires ShifterFlags(f) && Shows(f, w, y)
    ensures var res := Alu(f, if HasRn(f) then w else Zeros(32), Shifted(y, c), flags).result;
            res != w || Negative(res) != y[31] || IsZero(res) != IsZero(y)
  {
    if f != MVN && w[31] == y[31] && IsZero(y) && !IsZero(w) {
      assert Xor(w, y) == w && Or(w, y) == w && And(w, Not(y)) == w;
      assert forall k :: 0 <= k < 32 ==> !And(w, y)[k];
      assert And(w, y) == Zeros(32);
    }
  }

  /** The state with the word `w` in all registers breaks the instruction. */
  lemma UniformBreaks(x: Data, w: Word, y: Word, c: bool)
    requires ValidData(x) && Entangled(x)
    requires ShiftedValue(x, Around(x.rm, w, w, StartFlags(x.cc, y[31]))) == Shifted(y, c)
    requires Fails(x.cc, y[31], IsZero(y), c) && Shows(x.f, w, y)
    ensures !Preserved(x)
  {
    hide ShiftedValue, Shows, Fails, StartFlags, Alu;
    ShowsDiffers(x.f, w, y, c, StartFlags(x.cc, y[31]));
    assert Witness(x, w, w, y, c);
    WitnessBreaks(x, w, w, y, c);
  }

  lemma OneBit(w: Word, i: nat)
    requires i < 32 && w[i]
    ensures !IsZero(w)
  {
  }

  lemma NoBit(w: Word)
    requires forall i :: 0 <= i < 32 ==> !w[i]
    ensures IsZero(w)
  {
  }

  /** Two words that are not below each other. */
  lemma Incomparable(w: Word, y: Word, i: nat, j: nat)
    requires i < 32 && j < 32
    ensures w[i] && !y[i] ==> And(w, y) != w
    ensures y[j] && !w[j] ==> Or(w, y) != w
  {
    assert And(w, y)[i] == (w[i] && y[i]);
    assert Or(w, y)[j] == (w[j] || y[j]);
  }

  // ----- shifts by an immediate amount

  lemma UniformImm(x: Data, w: Word, flags: Flags)
    requires ValidData(x) && x.sh.ByImm? && x.sh.n > 0
    ensures ShiftedValue(x, Around(x.rm, w, w, flags)) == ShiftC(w, x.sh.t, x.sh.n, false)
  {
  }

  /** Every bit of a shifted word, and the carry. */
  lemma ShiftBits(w: Word, t: SRType, n: nat)
    requires 0 < n < 32
    ensures var s := ShiftC(w, t, n, false);
            && (forall k :: 0 <= k < 32 ==>
                  s.result[k] == match t
                                 case LSL => k >= n && w[k - n]
                                 case LSR => k + n < 32 && w[k + n]
                                 case ASR => if k + n < 32 then w[k + n] else w[31]
                                 case ROR => if k + n < 32 then w[k + n] else w[k + n - 32])
            && s.carry == match t case LSL => w[32 - n] case ROR => s.result[31] case _ => w[n - 1]
  {
    assert n % 32 == n;
  }

  /** What an entangled instruction is, without its shifter. */
  predicate EntangledCondition(x: Data) {
    x.setFlags && ShifterFlags(x.f) && x.cc !in {AL, 6, 7} && x.cc < AL && (x.sh.ByImm? ==> 0 < x.sh.n < 32)
  }

  lemma EntangledIs(x: Data)
    requires ValidData(x) && Entangled(x)
    ensures EntangledCondition(x) && !x.sh.Rrx?
  {
  }

  lemma ImmBreaks(x: Data, w: Word)
    requires ValidData(x) && Entangled(x) && x.sh.ByImm? && x.sh.n > 0
    requires var s := ShiftC(w, x.sh.t, x.sh.n, false);
             Fails(x.cc, s.result[31], IsZero(s.result), s.carry) && Shows(x.f, w, s.result)
    ensures !Preserved(x)
  {
    hide Entangled, Preserved, StartFlags, Fails, Shows, ShiftC, Around;
    var s := ShiftC(w, x.sh.t, x.sh.n, false);
    UniformImm(x, w, StartFlags(x.cc, s.result[31]));
    UniformBreaks(x, w, s.result, s.carry);
  }

  lemma LslBreaks(x: Data)
    requires ValidData(x) && Entangled(x) && x.sh.ByImm? && x.sh.t == LSL
    ensures !Preserved(x)
  {
    hide Entangled, Preserved, ValidData, ShiftC, And, Or;
    EntangledIs(x);
    var n, cc := x.sh.n, x.cc;
    var w := Bits(if cc in {2, 5, 8} then {31 - n}
                  else if cc in {1, 4} then {31}
                  else if n == 1 then {0, 31}
                  else {32 - n, 31 - n});
    ShiftBits(w, LSL, n);
    var y := ShiftC(w, LSL, n, false).result;
    if cc in {1, 4} {
      NoBit(y);
      OneBit(w, 31);
    } else {
      OneBit(y, if n == 1 && cc !in {2, 5, 8} then 1 else 31);
    }
    ImmBreaks(x, w);
  }

  lemma LsrBreaks(x: Data)
    requires ValidData(x) && Entangled(x) && x.sh.ByImm? && x.sh.t == LSR && x.cc != 5
    ensures !Preserved(x)
  {
    hide Entangled, Preserved, ValidData, ShiftC, And, Or;
    EntangledIs(x);
    var n, cc := x.sh.n, x.cc;
    var w := Bits(if cc == 1 then {0} else if cc in {2, 4, 8} then {31} else {n - 1, 31});
    ShiftBits(w, LSR, n);
    var y := ShiftC(w, LSR, n, false).result;
    if cc == 1 {
      NoBit(y);
      OneBit(w, 0);
    } else {
      OneBit(y, 31 - n);
    }
    ImmBreaks(x, w);
  }

  lemma RorBreaks(x: Data)
    requires ValidData(x) && Entangled(x) && x.sh.ByImm? && x.sh.t == ROR && x.cc != 1
    ensures !Preserved(x)
  {
    hide Entangled, Preserved, ValidData, ShiftC, And, Or;
    EntangledIs(x);
    var n, cc := x.sh.n, x.cc;
    var w := Bits(if cc in {2, 4, 8} then {31} else {n - 1});
    ShiftBits(w, ROR, n);
    OneBit(ShiftC(w, ROR, n, false).result, if cc in {2, 4, 8} then 31 - n else 31);
    ImmBreaks(x, w);
  }

  /** An arithmetic shift to the right by less than 31, or not of an and. */
  lemma AsrBreaks(x: Data)
    requires ValidData(x) && Entangled(x) && x.sh.ByImm? && x.sh.t == ASR && (x.sh.n < 31 || x.f != AND)
    ensures !Preserved(x)
  {
    hide Entangled, Preserved, ValidData, ShiftC, And, Or;
    EntangledIs(x);
    var n, cc := x.sh.n, x.cc;
    var toZero := cc in {1, 4} || (cc in {2, 8} && n > 1);
    var w := Bits(if toZero then {0} else if cc in {2, 8} then {1, 31} else {0, n - 1, 31});
    ShiftBits(w, ASR, n);
    var y := ShiftC(w, ASR, n, false).result;
    if toZero {
      NoBit(y);
      OneBit(w, 0);
    } else {
      OneBit(y, 31);
      if cc in {2, 8} {
        Incomparable(w, y, 1, 0);
      } else {
        Incomparable(w, y, 0, if n == 31 then 1 else 30);
      }
    }
    ImmBreaks(x, w);
  }

  // ----- shifts by a register, which holds the shifted word itself

  lemma LowByteOf(w: Word, n: nat)
    requires forall k :: 0 <= k < 8 && k != n ==> !w[k]
    ensures LowByte(w) == if n < 8 && w[n] then Pow2(n) else 0
  {
    var b := w[..8];
    if n < 8 {
      ToNatOne(b, n);
    } else {
      NoBits(b);
    }
  }

  lemma {:induction false} ToNatOne(b: seq<bool>, n: nat)
    requires n < |b| && forall k :: 0 <= k < |b| && k != n ==> !b[k]
    ensures ToNat(b) == if b[n] then Pow2(n) else 0
  {
    if n == 0 {
      NoBits(b[1..]);
    } else {
      ToNatOne(b[1..], n - 1);
    }
  }

  /** Bits that make the word, as a shift amount, 1, 4 or 64. */
  lemma Amounts(w: Word)
    ensures (forall k :: 0 <= k < 8 ==> (w[k] <==> k == 0)) ==> LowByte(w) == 1
    ensures (forall k :: 0 <= k < 8 ==> (w[k] <==> k == 2)) ==> LowByte(w) == 4
    ensures (forall k :: 0 <= k < 8 ==> (w[k] <==> k == 6)) ==> LowByte(w) == 64
    ensures (forall k :: 0 <= k < 8 ==> !w[k]) ==> LowByte(w) == 0
  {
    assert Pow2(0) == 1 && Pow2(2) == 4;
    assert Pow2(4) == 16;
    assert Pow2(6) == 64;
    if forall k :: 0 <= k < 8 ==> (w[k] <==> k == 0) {
      LowByteOf(w, 0);
    }
    if forall k :: 0 <= k < 8 ==> (w[k] <==> k == 2) {
      LowByteOf(w, 2);
    }
    if forall k :: 0 <= k < 8 ==> (w[k] <==> k == 6) {
      LowByteOf(w, 6);
    }
    if forall k :: 0 <= k < 8 ==> !w[k] {
      LowByteOf(w, 8);
    }
  }

  /** In a state with one word in all registers, the word is shifted by its own low byte. */
  lemma UniformShift(x: Data, w: Word, flags: Flags)
    requires ValidData(x) && x.sh.ByReg?
    ensures ShiftedValue(x, Around(x.rm, w, w, flags)) == ShiftC(w, x.sh.t, LowByte(w), flags.c)
  {
  }

  /** A shift by 64 to 0, for the conditions that fail at 0, or without a sign or a carry. */
  lemma ShiftOutBreaks(x: Data)
    requires ValidData(x) && Entangled(x) && x.sh.ByReg? && x.sh.t != ROR && x.cc in {1, 2, 4, 8}
    ensures !Preserved(x)
  {
    hide Entangled, Preserved, StartFlags, Alu, LowByte;
    var w := Bits({6});
    Amounts(w);
    OneBit(w, 6);
    NoBit(Zeros(32));
    assert Copies(w[31], 32) == Zeros(32);
    assert EntangledCondition(x) by { EntangledIs(x); }
    UniformShift(x, w, StartFlags(x.cc, false));
    UniformBreaks(x, w, Zeros(32), false);
  }

  /** A shift by 1 of a word with its first and last bits set, for the conditions that fail for a carry or a value. */
  lemma ShiftByOneBreaks(x: Data)
    requires ValidData(x) && Entangled(x) && x.sh.ByReg? && x.cc !in {1, 2, 4, 8}
    requires x.cc == 5 ==> x.sh.t in {ASR, ROR}
    ensures !Preserved(x)
  {
    hide Entangled, Preserved, StartFlags, Alu, LowByte;
    var w := Bits({0, 31});
    Amounts(w);
    assert EntangledCondition(x) by { EntangledIs(x); }
    var y: Word := match x.sh.t
      case LSL => Zeros(1) + w[..31]
      case LSR => w[1..] + Zeros(1)
      case ASR => w[1..] + Copies(w[31], 1)
      case ROR => w[1..] + w[..1];
    UniformShift(x, w, StartFlags(x.cc, y[31]));
    OneBit(y, if x.sh.t == LSL then 1 else 30);
    Incomparable(w, y, 0, 30);
    UniformBreaks(x, w, y, true);
  }

  /** The conditions that a sign makes fail, after a shift to the left. */
  lemma ShiftLeftToSignBreaks(x: Data)
    requires ValidData(x) && Entangled(x) && x.sh.ByReg? && x.sh.t == LSL && x.cc == 5
    ensures !Preserved(x)
  {
    hide Entangled, Preserved, StartFlags, Alu, LowByte;
    var w := Bits({0, 30});
    Amounts(w);
    assert EntangledCondition(x) by { EntangledIs(x); }
    var y: Word := Zeros(1) + w[..31];
    UniformShift(x, w, StartFlags(x.cc, y[31]));
    OneBit(y, 31);
    UniformBreaks(x, w, y, false);
  }

  /** A rotation by 4 that clears the sign and the carry. */
  lemma RotateByFourBreaks(x: Data)
    requires ValidData(x) && Entangled(x) && x.sh.ByReg? && x.sh.t == ROR && x.cc in {2, 4, 8}
    ensures !Preserved(x)
  {
    hide Entangled, Preserved, StartFlags, Alu, LowByte;
    var w := Bits({2, 31});
    Amounts(w);
    assert EntangledCondition(x) by { EntangledIs(x); }
    var y: Word := w[4..] + w[..4];
    UniformShift(x, w, StartFlags(x.cc, y[31]));
    OneBit(y, 30);
    UniformBreaks(x, w, y, false);
  }

  // ----- the remaining cases, in most of which the registers have to differ

  /** The state in which one register is 0 and all others have bit 29. */
  lemma ZeroStateShows(x: Data, c: bool, flags: Flags)
    requires ValidData(x) && ShifterFlags(x.f) && !Absorbs(x)
    ensures var s := Around(x.rm, Zeros(32), Bits({29}), flags);
            var res := Alu(x.f, if HasRn(x.f) then s.r[x.rn] else Zeros(32), Shifted(Zeros(32), c), flags).result;
            res != s.r[x.rd] || !IsZero(res)
  {
    hide And, Or, Xor, Not;
    var w, other := Zeros(32), Bits({29});
    OneBit(other, 29);
    ZeroOperand(other);
    ZeroOperand(w);
    assert Not(w)[0] by { NotZero(); }
    OneBit(Not(w), 0);
  }

  lemma NotZero()
    ensures Not(Zeros(32))[0]
  {
  }

  /** A rotation gives 0 only for 0, and then the operation shows in its destination or in the other registers. */
  lemma RotateZeroBreaks(x: Data)
    requires ValidData(x) && Entangled(x) && !x.sh.Rrx? && x.sh.t == ROR && x.cc == 1 && !Absorbs(x)
    ensures !Preserved(x)
  {
    hide Preserved, StartFlags, LowByte, Alu, Absorbs;
    var w, other := Zeros(32), Bits({29});
    var s := Around(x.rm, w, other, StartFlags(1, false));
    var amount := if x.sh.ByImm? then x.sh.n else LowByte(s.r[x.sh.rs]);
    var shifted := ShiftC(w, ROR, amount, s.flags.c);
    assert ShiftedValue(x, s) == shifted;
    assert shifted.result == w;
    ZeroStateShows(x, shifted.carry, s.flags);
    WitnessBreaks(x, w, other, w, shifted.carry);
  }

  /** The state in which one register has bits 30 and 31 and all others have bit 29. */
  lemma SignStateShows(x: Data, y: Word, c: bool, flags: Flags)
    requires ValidData(x) && x.f in {AND, ORR} && !(x.rd == x.rn && x.rn == x.rm)
    requires y == Bits({30, 31}) || (y == Copies(true, 32) && x.f == AND)
    ensures var s := Around(x.rm, Bits({30, 31}), Bits({29}), flags);
            var res := Alu(x.f, s.r[x.rn], Shifted(y, c), flags).result;
            res != s.r[x.rd] || Negative(res) != y[31]
  {
    var s := Around(x.rm, Bits({30, 31}), Bits({29}), flags);
    var res := Alu(x.f, s.r[x.rn], Shifted(y, c), flags).result;
    assert res[29] == if x.f == AND then s.r[x.rn][29] && y[29] else s.r[x.rn][29] || y[29];
    assert res[31] == if x.f == AND then s.r[x.rn][31] && y[31] else s.r[x.rn][31] || y[31];
  }

  /** An and with the copies of the sign: unless all registers are one, for the conditions that a value makes fail. */
  lemma SignMaskBreaks(x: Data)
    requires ValidData(x) && Entangled(x) && x.sh == ByImm(ASR, 31) && x.f == AND && !Exempt(x)
    ensures !Preserved(x)
  {
    hide Preserved, StartFlags, Alu, And;
    if x.cc in {0, 5, 9, 13} {
      var w, y := Bits({30, 31}), Copies(true, 32);
      assert ShiftC(w, ASR, 31, false) == Shifted(y, true);
      OneBit(y, 31);
      SignStateShows(x, y, true, StartFlags(x.cc, true));
      WitnessBreaks(x, w, Bits({29}), y, true);
    } else {
      var w := Bits(if x.cc in {1, 2, 4, 8} then {0} else {30});
      ShiftBits(w, ASR, 31);
      NoBit(ShiftC(w, ASR, 31, false).result);
      OneBit(w, if x.cc in {1, 2, 4, 8} then 0 else 30);
      ImmBreaks(x, w);
    }
  }

  /** A shift to the right by register gives a negative value only if it shifts by 0. */
  lemma NoShiftBreaks(x: Data)
    requires ValidData(x) && Entangled(x) && x.sh.ByReg? && x.sh.t == LSR && x.cc == 5 && !Exempt(x)
    ensures !Preserved(x)
  {
    hide Preserved, Alu, And, Or, LowByte, Entangled;
    EntangledIs(x);
    if x.f in {AND, ORR} {
      var w := Bits({30, 31});
      Amounts(w);
      Amounts(Bits({29}));
      OneBit(w, 31);
      SignStateShows(x, w, false, StartFlags(5, true));
      WitnessBreaks(x, w, Bits({29}), w, false);
    } else {
      var w := Bits({31});
      Amounts(w);
      OneBit(w, 31);
      UniformShift(x, w, StartFlags(5, true));
      UniformBreaks(x, w, w, false);
    }
  }

  /** Every entangled instruction that is not exempt goes wrong in some state. */
  lemma EntangledBreaks(x: Data)
    requires ValidData(x) && Entangled(x) && !Exempt(x)
    ensures !Preserved(x)
  {
    hide Preserved, Entangled;
    EntangledIs(x);
    match x.sh
    case ByImm(LSL, _) => LslBreaks(x);
    case ByImm(LSR, _) => LsrBreaks(x);
    case ByImm(ASR, n) =>
      if n < 31 || x.f != AND { AsrBreaks(x); } else { SignMaskBreaks(x); }
    case ByImm(ROR, _) =>
      if x.cc == 1 { RotateZeroBreaks(x); } else { RorBreaks(x); }
    case ByReg(t, _) => RegBreaks(x);
  }

  lemma RegBreaks(x: Data)
    requires ValidData(x) && Entangled(x) && x.sh.ByReg? && !Exempt(x)
    ensures !Preserved(x)
  {
    hide Preserved, Entangled, ValidData;
    if x.sh.t == ROR && x.cc == 1 {
      RotateZeroBreaks(x);
    } else if x.sh.t == ROR && x.cc in {2, 4, 8} {
      RotateByFourBreaks(x);
    } else if x.cc in {1, 2, 4, 8} {
      ShiftOutBreaks(x);
    } else if x.cc == 5 && x.sh.t == LSL {
      ShiftLeftToSignBreaks(x);
    } else if x.cc == 5 && x.sh.t == LSR {
      NoShiftBreaks(x);
    } else {
      ShiftByOneBreaks(x);
    }
  }

  /** The entangled class: preserved exactly if exempt. */
  lemma EntangledIff(x: Data)
    requires ValidData(x) && Entangled(x)
    ensures Preserved(x) <==> Exempt(x)
  {
    hide Preserved, Entangled, Harmless, Exempt;
    if Exempt(x) {
      forall s: State | |s.r| == 16
        ensures Harmless(x, s)
      {
        ExemptHarmless(x, s);
      }
      PreservedIffHarmless(x);
    } else {
      EntangledBreaks(x);
    }
  }

  /** Main result on splitting: the pass preserves a shifted data-processing instruction, from every state, exactly when
      it is of a supported kind or exempt. */
  lemma PreservedIff(x: Data)
    requires ValidData(x)
    ensures Preserved(x) <==> Supported(x) || (Entangled(x) && Exempt(x))
  {
    hide Preserved, Exempt;
    if Entangled(x) {
      EntangledIff(x);
    } else {
      PreservedIffSupported(x);
    }
  }

  // ----- conditions

  /** A flag-setting logical operation with a plain shift, under condition `cc`. */
  predicate LogicalUnder(x: Data, cc: nat) {
    ValidData(x) && x.cc == cc && x.setFlags && ShifterFlags(x.f) && !x.sh.Rrx? && (x.sh.ByImm? ==> x.sh.n != 0)
  }

  /** A condition lets every flag-setting logical operation with a plain shift through exactly when the shift
      cannot change it: always, overflow set, overflow clear. */
  lemma ConditionPreservedIff(cc: nat)
    requires cc <= AL
    ensures (forall x: Data :: LogicalUnder(x, cc) ==> Preserved(x)) <==> cc in {AL, 6, 7}
  {
    hide Preserved;
    if cc in {AL, 6, 7} {
      forall x: Data | LogicalUnder(x, cc)
        ensures Preserved(x)
      {
        SupportedPreserved(x);
      }
    } else {
      var x := Data(EOR, 0, 1, 2, ByImm(LSL, 1), true, cc);
      assert LogicalUnder(x, cc);
      EntangledBreaks(x);
    }
  }
}
