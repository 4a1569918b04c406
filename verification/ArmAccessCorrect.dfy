/** Splitting of loads and stores preserves their meaning. */
module ArmAccessCorrect {
  import opened Wrappers
  import opened ArmMachine
  import opened ArmSplitting
  import opened ArmSplittingCorrect

  /** The offset from the base: a shifted register, added or subtracted, or an immediate. */
  datatype Index = RegIndex(rm: nat, code: ShiftCode, amount: nat, subtract: bool) | ImmIndex(imm: int)

  /** A load or store, plain or pre-indexed with write-back. */
  datatype Access = Access(load: bool, byte: bool, rt: nat, rn: nat, index: Index, pre: bool, cc: nat)

  /** Registers are general registers; an amount fits in five bits and is zero without a shift; rotating by zero
      is the encoding of rotate with extend; and a pre-indexed access transfers a register other than its base. */
  predicate ValidAccess(x: Access) {
    && x.rt < 16 && x.rn < 16 && x.cc <= AL
    && (x.pre ==> x.rt != x.rn)
    && (x.index.RegIndex? ==>
          && x.index.rm < 16 && x.index.amount < 32
          && (!x.index.code.Sh? ==> x.index.amount == 0)
          && (x.index.code == Sh(ROR) ==> x.index.amount != 0))
  }

  function CodeNumber(c: ShiftCode): nat {
    match c
    case NoShift => 0
    case Sh(t) => ShiftNumber(t)
    case ShRrx => 5
  }

  function Am2Imm(i: Index): int
    requires i.RegIndex?
  {
    i.amount + (if i.subtract then 0x1000 else 0) + 0x2000 * CodeNumber(i.code)
  }

  function IndexOperands(i: Index): seq<Operand> {
    match i
    case RegIndex(rm, _, _, _) => [R(rm), ImmOp(Am2Imm(i))]
    case ImmIndex(imm) => [ImmOp(imm)]
  }

  function AccessOp(x: Access): Opcode {
    Mem(x.load, x.byte, if x.pre then if x.index.RegIndex? then PreReg else PreImm else if x.index.RegIndex? then RS
        else I12)
  }

  function AccessOperands(x: Access): seq<Operand> {
    var front := if !x.pre then [R(x.rt), R(x.rn)]
                 else if x.load then [R(x.rt), R(x.rn), R(x.rn)] else [R(x.rn), R(x.rt), R(x.rn)];
    front + IndexOperands(x.index)
  }

  function AccessTail(x: Access): seq<Operand> {
    [ImmOp(x.cc), RegOp(if x.cc == AL then NoReg else CPSR)]
  }

  function EncodeAccess(x: Access): MI {
    MI(AccessOp(x), AccessOperands(x) + AccessTail(x))
  }

  /** The address the access uses. */
  function Address(x: Access, s: State): Word
    requires ValidAccess(x) && |s.r| == 16
  {
    match x.index
    case RegIndex(rm, code, amount, subtract) =>
      Offset(s.r[x.rn], ShiftByCode(s.r[rm], code, amount, s.flags.c).result, subtract)
    case ImmIndex(imm) => Offset(s.r[x.rn], FromInt(imm), false)
  }

  /** The access at a given address. */
  function AccessAt(x: Access, addr: Word, s: State): State
    requires ValidAccess(x) && |s.r| == 16
  {
    if !Passes(x.cc, s.flags) then s else
      if !x.pre then Transfer(s, R(x.rt), addr, x.load, x.byte)
      else if x.load then Write(Write(s, R(x.rn), addr), R(x.rt), Load(s.mem, addr, x.byte))
      else Write(s.(mem := StoreTo(s.mem, addr, s.r[x.rt], x.byte)), R(x.rn), addr)
  }

  /** What the instruction means. */
  function AccessMeaning(x: Access, s: State): State
    requires ValidAccess(x) && |s.r| == 16
  {
    AccessAt(x, Address(x, s), s)
  }

  lemma Am2Decodes(i: Index)
    requires i.RegIndex? && i.amount < 32
    ensures Am2Amount(Am2Imm(i)) == i.amount && Am2Subtracts(Am2Imm(i)) == i.subtract && Am2Code(Am2Imm(i)) == i.code
  {
  }

  lemma AccessMeans(ext: Ext, x: Access, s: State)
    requires ValidAccess(x) && |s.r| == 16
    ensures Exec(ext, EncodeAccess(x), s) == Some(AccessMeaning(x, s))
  {
    hide Load, StoreTo, Offset, ShiftByCode, FromInt, ControlOf, Passes, Am2Imm, Am2Amount, Am2Subtracts, Am2Code,
         SoCode;
    var d, tail := AccessOperands(x), AccessTail(x);
    if x.index.RegIndex? {
      Am2Decodes(x.index);
    }
    assert DataOk(AccessOp(x), d);
    ControlOfTail(d, tail);
    ExecGiven(ext, AccessOp(x), d, tail, s);
    AlwaysPasses(s.flags);
  }

  // ----- the sequence that the pass puts in its place

  /** The control operands of the new instructions. */
  function NewTail(cc: nat): seq<Operand> {
    if cc == AL then [] else [ImmOp(cc), RegOp(CPSR)]
  }

  lemma AccessMemTail(x: Access)
    requires ValidAccess(x)
    ensures MemTail(EncodeAccess(x).ops) == NewTail(x.cc)
  {
    var d, tail := AccessOperands(x), AccessTail(x);
    var ops := d + tail;
    assert forall i :: 0 <= i < |d| ==> ops[i] == d[i] && d[i] != RegOp(CPSR);
    assert ops[|d|] == tail[0] && ops[|d| + 1] == tail[1];
    assert CpsrIdx(ops) == if x.cc != AL then Some(|d| + 1) else None;
  }

  /** Accesses off the stack pointer or program counter, or without an offset, are left alone. */
  predicate IsSplit(x: Access) {
    && (!x.pre ==> x.rn != 13 && x.rn != 15)
    && (x.index.ImmIndex? ==> x.index.imm != 0)
  }

  /** The register that receives the address. */
  function SumOperand(x: Access, v: nat): Operand {
    if x.pre then R(x.rn) else RegOp(Virt(if x.index.RegIndex? then v + 1 else v))
  }

  function AccessSequence(x: Access, v: nat): seq<MI> {
    var newOp := Mem(x.load, x.byte, I12);
    match x.index
    case RegIndex(rm, _, _, _) => AddressSequence(newOp, R(x.rt), SumOperand(x, v), R(x.rn), R(rm), Am2Imm(x.index), v,
                                                  NewTail(x.cc))
    case ImmIndex(imm) => ImmSequence(newOp, R(x.rt), SumOperand(x, v), R(x.rn), ImmOp(imm), NewTail(x.cc))
  }

  lemma AccessSplits(x: Access, v: nat)
    requires ValidAccess(x)
    ensures Replacement(EncodeAccess(x), v) == if IsSplit(x) then AccessSequence(x, v) else [EncodeAccess(x)]
  {
    hide AddressSequence, ImmSequence, MemTail, Am2Imm, NewTail;
    AccessMemTail(x);
    var d := AccessOperands(x);
    var ops := EncodeAccess(x).ops;
    assert forall i :: 0 <= i < |d| ==> ops[i] == d[i];
  }

  // ----- what each new instruction does

  lemma StepMeans(ext: Ext, op: Opcode, d: seq<Operand>, cc: nat, s: State)
    requires |s.r| == 16 && !op.Other? && |d| >= 2 && |d| == Arity(op, |d|) && (op.Mem? ==> |d| == 2) && DataOk(op, d)
             && NoCpsr(d) && cc <= AL && Implicit(op) == []
    ensures Exec(ext, MI(op, d + NewTail(cc)), s) == Some(if Passes(cc, s.flags) then Effect(op, d, s, false) else s)
  {
    hide Passes, Effect, DataOk;
    ControlOfTail(d, NewTail(cc));
    ExecGiven(ext, op, d, NewTail(cc), s);
    AlwaysPasses(s.flags);
  }

  lemma ShiftStep(ext: Ext, t: SRType, sv: nat, rm: nat, amount: nat, cc: nat, s: State)
    requires |s.r| == 16 && rm < 16 && amount != 0 && cc <= AL
    ensures Exec(ext, MI(ShiftI(t), [RegOp(Virt(sv)), R(rm), ImmOp(amount)] + NewTail(cc)), s) ==
              Some(if Passes(cc, s.flags) then s.(virt := s.virt[sv := ShiftByCode(s.r[rm], Sh(t), amount,
                                                                                   s.flags.c).result]) else s)
  {
    hide Passes, ShiftC, NewTail;
    StepMeans(ext, ShiftI(t), [RegOp(Virt(sv)), R(rm), ImmOp(amount)], cc, s);
  }

  /** The rotate through carry gets no condition; it only writes a fresh register. */
  lemma RotateStep(ext: Ext, sv: nat, rm: nat, s: State)
    requires |s.r| == 16 && rm < 16
    ensures Exec(ext, MI(RRX, [RegOp(Virt(sv)), R(rm)]), s)
            == Some(s.(virt := s.virt[sv := RrxC(s.r[rm], s.flags.c).result]))
  {
    hide RrxC;
    var d := [RegOp(Virt(sv)), R(rm)];
    assert d + NewTail(AL) == d;
    StepMeans(ext, RRX, d, AL, s);
    AlwaysPasses(s.flags);
  }

  lemma AddStep(ext: Ext, sum: Operand, rn: nat, addend: Operand, cc: nat, s: State)
    requires |s.r| == 16 && rn < 16 && IsGeneral(sum) && (IsGeneral(addend) || addend.ImmOp?) && cc <= AL
    ensures Exec(ext, MI(Base(ADD), [sum, R(rn), addend] + NewTail(cc)), s) ==
              Some(if Passes(cc, s.flags) then Write(s, sum, Offset(s.r[rn], Read(s, addend), false)) else s)
  {
    hide Passes, AddWithCarry, NewTail, FromInt;
    StepMeans(ext, Base(ADD), [sum, R(rn), addend], cc, s);
    assert ShifterOperand(Base(ADD), [sum, R(rn), addend], s).result == Read(s, addend);
  }

  lemma TransferStep(ext: Ext, load: bool, byte: bool, rt: nat, sum: Operand, cc: nat, s: State)
    requires |s.r| == 16 && rt < 16 && IsGeneral(sum) && cc <= AL
    ensures Exec(ext, MI(Mem(load, byte, I12), [R(rt), sum] + NewTail(cc)), s) ==
              Some(if Passes(cc, s.flags) then Transfer(s, R(rt), Read(s, sum), load, byte) else s)
  {
    hide Passes, Load, StoreTo, NewTail;
    StepMeans(ext, Mem(load, byte, I12), [R(rt), sum], cc, s);
  }

  /** The address computation and the transfer, once the offset is in an operand. */
  lemma AddAndTransfer(ext: Ext, x: Access, v: nat, addend: Operand, s: State)
    requires ValidAccess(x) && |s.r| == 16 && (IsGeneral(addend) || addend.ImmOp?)
    ensures var t := ExecAll(ext, [MI(Base(ADD), [SumOperand(x, v), R(x.rn), addend] + NewTail(x.cc)),
                                   MI(Mem(x.load, x.byte, I12), [R(x.rt), SumOperand(x, v)] + NewTail(x.cc))], s);
            t.Some? && Agree(t.value, AccessAt(x, Offset(s.r[x.rn], Read(s, addend), false), s))
  {
    hide Passes, Load, StoreTo, NewTail, Exec, Offset;
    var a := MI(Base(ADD), [SumOperand(x, v), R(x.rn), addend] + NewTail(x.cc));
    var b := MI(Mem(x.load, x.byte, I12), [R(x.rt), SumOperand(x, v)] + NewTail(x.cc));
    AddStep(ext, SumOperand(x, v), x.rn, addend, x.cc, s);
    var t := Exec(ext, a, s).value;
    TransferStep(ext, x.load, x.byte, x.rt, SumOperand(x, v), x.cc, t);
    ExecAllTwo(ext, a, b, s);
  }

  lemma ExecAllCons(ext: Ext, a: MI, rest: seq<MI>, s: State)
    requires |s.r| == 16
    ensures ExecAll(ext, [a] + rest, s) == match Exec(ext, a, s) case None => None case Some(t) => ExecAll(ext, rest, t)
  {
    assert ([a] + rest)[1..] == rest;
  }

  /** The offset that the split form adds: the subtract bit is dropped, and an amount of zero means no shift. */
  function SplitAddress(x: Access, s: State): Word
    requires ValidAccess(x) && |s.r| == 16
  {
    match x.index
    case RegIndex(rm, code, amount, _) =>
      var w := s.r[rm];
      Offset(s.r[x.rn], if amount == 0 && code != ShRrx then w else ShiftByCode(w, code, amount, s.flags.c).result,
             false)
    case ImmIndex(imm) => Offset(s.r[x.rn], FromInt(imm), false)
  }

  /** A state differs from another in virtual registers only: the access does the same. */
  lemma AccessDepends(x: Access, addr: Word, s: State, t: State)
    requires ValidAccess(x) && |s.r| == 16 && Agree(s, t)
    ensures Agree(AccessAt(x, addr, s), AccessAt(x, addr, t))
  {
    hide Load, StoreTo, Passes;
  }

  lemma RegSequenceMeans(ext: Ext, x: Access, v: nat, s: State)
    requires ValidAccess(x) && x.index.RegIndex? && |s.r| == 16
    ensures var t := ExecAll(ext, AccessSequence(x, v), s);
            t.Some? && Agree(t.value, AccessAt(x, SplitAddress(x, s), s))
  {
    hide Passes, Load, StoreTo, NewTail, Exec, Offset, ShiftC, RrxC, AccessAt, Am2Imm, Am2Amount, Am2Code, ExecAll;
    var i := x.index;
    Am2Decodes(i);
    var sv := RegOp(Virt(v));
    var access := MI(Mem(x.load, x.byte, I12), [R(x.rt), SumOperand(x, v)] + NewTail(x.cc));
    var add := MI(Base(ADD), [SumOperand(x, v), R(x.rn), sv] + NewTail(x.cc));
    if i.amount > 0 {
      var shift := MI(ShiftI(i.code.t), [sv, R(i.rm), ImmOp(i.amount)] + NewTail(x.cc));
      assert AccessSequence(x, v) == [shift, add, access] == [shift] + [add, access];
      ShiftStep(ext, i.code.t, v, i.rm, i.amount, x.cc, s);
      var t := Exec(ext, shift, s).value;
      ExecAllCons(ext, shift, [add, access], s);
      AddAndTransfer(ext, x, v, sv, t);
      if Passes(x.cc, s.flags) {
        AccessDepends(x, SplitAddress(x, s), s, t);
      } else {
        AccessSkips(x, Offset(t.r[x.rn], Read(t, sv), false), SplitAddress(x, s), s);
      }
    } else if i.code == ShRrx {
      var rotate := MI(RRX, [sv, R(i.rm)]);
      assert AccessSequence(x, v) == [rotate, add, access] == [rotate] + [add, access];
      RotateStep(ext, v, i.rm, s);
      var t := Exec(ext, rotate, s).value;
      ExecAllCons(ext, rotate, [add, access], s);
      AddAndTransfer(ext, x, v, sv, t);
      AccessDepends(x, SplitAddress(x, s), s, t);
    } else {
      AddAndTransfer(ext, x, v, R(i.rm), s);
    }
  }

  lemma AccessSkips(x: Access, a: Word, b: Word, s: State)
    requires ValidAccess(x) && |s.r| == 16 && !Passes(x.cc, s.flags)
    ensures AccessAt(x, a, s) == AccessAt(x, b, s)
  {
  }

  lemma SequenceMeans(ext: Ext, x: Access, v: nat, s: State)
    requires ValidAccess(x) && IsSplit(x) && |s.r| == 16
    ensures var t := ExecAll(ext, Replacement(EncodeAccess(x), v), s);
            t.Some? && Agree(t.value, AccessAt(x, SplitAddress(x, s), s))
  {
    hide AccessAt, Exec, ExecAll, NewTail, FromInt, Offset;
    AccessSplits(x, v);
    if x.index.RegIndex? {
      RegSequenceMeans(ext, x, v, s);
    } else {
      AddAndTransfer(ext, x, v, ImmOp(x.index.imm), s);
    }
  }

  // ----- main result

  ghost predicate AccessPreservedFrom(ext: Ext, x: Access, v: nat, s: State)
    requires ValidAccess(x) && |s.r| == 16
  {
    var t := ExecAll(ext, Replacement(EncodeAccess(x), v), s);
    t.Some? && Agree(t.value, AccessMeaning(x, s))
  }

  ghost predicate AccessPreserved(x: Access)
    requires ValidAccess(x)
  {
    forall ext: Ext, v: nat, s: State :: |s.r| == 16 ==> AccessPreservedFrom(ext, x, v, s)
  }

  /** The accesses that come through: those left alone, and those whose offset is added and is not a shift by 32
      encoded as 0. Subtracting a register shifted left by 31 is adding it. */
  predicate SupportedAccess(x: Access) {
    IsSplit(x) && x.index.RegIndex? ==>
      && (x.index.subtract ==> x.index.code == Sh(LSL) && x.index.amount == 31)
      && (x.index.amount == 0 ==> x.index.code != Sh(LSR) && x.index.code != Sh(ASR))
  }

  /** If all bits of `b` but the last are clear, adding and subtracting it are the same. */
  lemma {:induction false} AddIsSubtract(a: seq<bool>, b: seq<bool>, nb: seq<bool>)
    requires |a| == |b| == |nb| && |a| > 0
    requires forall i :: 0 <= i < |b| ==> nb[i] == !b[i]
    requires forall i :: 0 <= i < |b| - 1 ==> !b[i]
    ensures Sum(a, b, false)[..|a|] == Sum(a, nb, true)[..|a|]
  {
    if |a| > 1 {
      AddIsSubtract(a[1..], b[1..], nb[1..]);
      assert forall i :: 0 < i < |a| ==> Sum(a, b, false)[i] == Sum(a[1..], b[1..], false)[..|a| - 1][i - 1];
      assert forall i :: 0 < i < |a| ==> Sum(a, nb, true)[i] == Sum(a[1..], nb[1..], true)[..|a| - 1][i - 1];
    }
  }

  /** If bit `j` is the lowest set bit of `b`, adding and subtracting `b` differ in bit `j + 1`. */
  lemma {:induction false} AddIsNotSubtract(a: seq<bool>, b: seq<bool>, nb: seq<bool>, j: nat)
    requires |a| == |b| == |nb| && j + 1 < |a|
    requires forall i :: 0 <= i < |b| ==> nb[i] == !b[i]
    requires b[j] && forall i :: 0 <= i < j ==> !b[i]
    ensures Sum(a, b, false)[j + 1] != Sum(a, nb, true)[j + 1]
  {
    if j > 0 {
      AddIsNotSubtract(a[1..], b[1..], nb[1..], j - 1);
    } else {
      var ca := (a[0] && b[0]) || (a[0] && false) || (b[0] && false);
      var cs := (a[0] && nb[0]) || (a[0] && true) || (nb[0] && true);
      assert Sum(a, b, false)[1] == Sum(a[1..], b[1..], ca)[0];
      assert Sum(a, nb, true)[1] == Sum(a[1..], nb[1..], cs)[0];
    }
  }

  lemma SupportedAddress(x: Access, s: State)
    requires ValidAccess(x) && SupportedAccess(x) && IsSplit(x) && |s.r| == 16
    ensures Address(x, s) == SplitAddress(x, s)
  {
    if x.index.RegIndex? && x.index.subtract {
      var y := ShiftByCode(s.r[x.index.rm], x.index.code, x.index.amount, s.flags.c).result;
      AddIsSubtract(s.r[x.rn], y, Not(y));
    }
  }

  lemma SupportedAccessPreserved(x: Access)
    requires ValidAccess(x) && SupportedAccess(x)
    ensures AccessPreserved(x)
  {
    hide AccessSequence, AccessAt, Address, SplitAddress, Exec, SupportedAccess;
    forall ext: Ext, v: nat, s: State | |s.r| == 16
      ensures AccessPreservedFrom(ext, x, v, s)
    {
      if IsSplit(x) {
        SupportedAddress(x, s);
        SequenceMeans(ext, x, v, s);
      } else {
        AccessSplits(x, v);
        AccessMeans(ext, x, s);
        assert [EncodeAccess(x)] == [EncodeAccess(x)] + [];
        ExecAllCons(ext, EncodeAccess(x), [], s);
      }
    }
  }

  // ----- and when it is not: a register value for which the two addresses differ

  function OffsetWord(i: Index): Word
    requires i.RegIndex?
  {
    match i.code
    case ShRrx => TwoBits(1, 1)
    case NoShift => TwoBits(0, 0)
    case Sh(t) => if t == LSL then TwoBits(0, 0) else TwoBits(i.amount, i.amount)
  }

  lemma {:induction false} SumZero(a: seq<bool>)
    ensures Sum(a, Zeros(|a|), false) == a + [false]
  {
    if a != [] {
      assert Zeros(|a|)[1..] == Zeros(|a| - 1);
      SumZero(a[1..]);
    }
  }

  lemma SecondBit(a: seq<bool>, b: seq<bool>, c: bool)
    requires |a| == |b| && |a| > 1
    ensures Sum(a, b, c)[1] == ((a[1] != b[1]) != ((a[0] && b[0]) || (a[0] && c) || (b[0] && c)))
  {
    var carry := (a[0] && b[0]) || (a[0] && c) || (b[0] && c);
    assert Sum(a, b, c)[1] == Sum(a[1..], b[1..], carry)[0];
  }

  /** The lowest set bit of the offset, where it is subtracted. */
  lemma LowestBit(i: Index, c: bool)
    requires i.RegIndex? && i.amount < 32 && (!i.code.Sh? ==> i.amount == 0) && (i.code == Sh(ROR) ==> i.amount != 0)
    requires i.amount == 0 ==> i.code != Sh(LSR) && i.code != Sh(ASR)
    requires !(i.code == Sh(LSL) && i.amount == 31)
    ensures var y := ShiftByCode(OffsetWord(i), i.code, i.amount, c).result;
            var j := if i.code == Sh(LSL) then i.amount else 0;
            j < 31 && y[j] && forall k :: 0 <= k < j ==> !y[k]
  {
    var w := OffsetWord(i);
    var y := ShiftByCode(w, i.code, i.amount, c).result;
    match i.code
    case NoShift => assert y == w;
    case ShRrx => assert y[0] == w[1];
    case Sh(t) =>
      if t == LSL {
        assert y == if i.amount == 0 then w else Zeros(i.amount) + w[..32 - i.amount];
      } else {
        assert y[0] == w[i.amount];
      }
  }

  lemma ShiftedOut(i: Index, c: bool)
    requires i.RegIndex? && i.amount == 0 && i.code in {Sh(LSR), Sh(ASR)}
    ensures OffsetWord(i) == TwoBits(0, 0) && ShiftByCode(OffsetWord(i), i.code, 0, c).result == Zeros(32)
  {
  }

  lemma ShiftedOutDiffers(i: Index, c: bool)
    requires i.RegIndex? && i.amount == 0 && i.code in {Sh(LSR), Sh(ASR)}
    ensures var w := OffsetWord(i); Offset(w, ShiftByCode(w, i.code, 0, c).result, i.subtract) != Offset(w, w, false)
  {
    hide ShiftByCode, OffsetWord;
    var w := OffsetWord(i);
    var y := ShiftByCode(w, i.code, 0, c).result;
    ShiftedOut(i, c);
    SecondBit(w, w, false);
    if i.subtract {
      SecondBit(w, Not(y), true);
      assert Offset(w, y, true)[1] != Offset(w, w, false)[1];
    } else {
      SecondBit(w, y, false);
      assert Offset(w, y, false)[1] != Offset(w, w, false)[1];
    }
  }

  lemma SubtractedDiffers(i: Index, c: bool)
    requires i.RegIndex? && i.amount < 32 && (!i.code.Sh? ==> i.amount == 0) && (i.code == Sh(ROR) ==> i.amount != 0)
    requires i.amount == 0 ==> i.code != Sh(LSR) && i.code != Sh(ASR)
    requires !(i.code == Sh(LSL) && i.amount == 31)
    ensures var w := OffsetWord(i); var y := ShiftByCode(w, i.code, i.amount, c).result;
            Offset(w, y, true) != Offset(w, y, false)
  {
    hide ShiftByCode, OffsetWord, Sum;
    var w := OffsetWord(i);
    var y := ShiftByCode(w, i.code, i.amount, c).result;
    LowestBit(i, c);
    var j := if i.code == Sh(LSL) then i.amount else 0;
    AddIsNotSubtract(w, y, Not(y), j);
    assert Offset(w, y, true)[j + 1] != Offset(w, y, false)[j + 1];
  }

  /** Where all registers hold the same suitable word, the split form computes another address. */
  lemma AddressesDiffer(x: Access, flags: Flags, mem: Memory)
    requires ValidAccess(x) && IsSplit(x) && !SupportedAccess(x)
    ensures var s := Uniform(OffsetWord(x.index), flags).(mem := mem); Address(x, s) != SplitAddress(x, s)
  {
    hide ShiftByCode, OffsetWord, Offset;
    var i := x.index;
    var w := OffsetWord(i);
    if i.amount == 0 && i.code in {Sh(LSR), Sh(ASR)} {
      ShiftedOutDiffers(i, flags.c);
    } else {
      SubtractedDiffers(i, flags.c);
      PlainOffset(w, i, flags.c);
    }
  }

  lemma PlainOffset(w: Word, i: Index, c: bool)
    requires i.RegIndex? && (i.amount == 0 ==> i.code !in {Sh(LSR), Sh(ASR)})
    ensures i.amount == 0 && i.code != ShRrx ==> ShiftByCode(w, i.code, i.amount, c).result == w
  {
  }

  lemma NextZero(a: Word)
    ensures Next(a, 0) == a
  {
    assert FromInt(0) == Zeros(32);
    SumZero(a);
  }

  lemma LoadFirstBit(m: Memory, a: Word, byte: bool)
    ensures Load(m, a, byte)[0] == LoadByte(m, a)[0]
  {
    NextZero(a);
    var n := if byte then 1 else 4;
    assert LoadBytes(m, a, 0, n) == LoadByte(m, Next(a, 0)) + LoadBytes(m, a, 1, n);
  }

  // Two different addresses do not have the same four bytes.

  lemma {:induction false} SumAdds(a: seq<bool>, b: seq<bool>, c: bool)
    requires |a| == |b|
    ensures ToNat(Sum(a, b, c)) == ToNat(a) + ToNat(b) + if c then 1 else 0
  {
    if a != [] {
      SumAdds(a[1..], b[1..], (a[0] && b[0]) || (a[0] && c) || (b[0] && c));
    }
  }

  lemma {:induction false} ToNatLast(a: seq<bool>, x: bool)
    ensures ToNat(a + [x]) == ToNat(a) + if x then Pow2(|a|) else 0
  {
    if a == [] {
      assert a + [x] == [x];
    } else {
      assert (a + [x])[1..] == a[1..] + [x];
      ToNatLast(a[1..], x);
    }
  }

  lemma {:induction false} ToNatInjective(a: seq<bool>, b: seq<bool>)
    requires |a| == |b| && ToNat(a) == ToNat(b)
    ensures a == b
  {
    if a != [] {
      ToNatInjective(a[1..], b[1..]);
      assert a == [a[0]] + a[1..] && b == [b[0]] + b[1..];
    }
  }

  lemma {:induction false} Pow2Grows(i: nat)
    requires i >= 3
    ensures Pow2(i) >= 8
    decreases i
  {
    if i == 3 {
      assert Pow2(1) == 2 && Pow2(2) == 4;
    } else {
      Pow2Grows(i - 1);
    }
  }

  lemma SmallBits(k: nat)
    requires k < 4
    ensures FromInt(k)[0] == (k % 2 == 1) && FromInt(k)[1] == (k >= 2)
    ensures forall i :: 2 <= i < 32 ==> !FromInt(k)[i]
  {
    assert Pow2(0) == 1 && Pow2(1) == 2 && Pow2(2) == 4;
    forall i | 2 <= i < 32
      ensures k / Pow2(i) == 0
    {
      if i > 2 {
        Pow2Grows(i);
      }
    }
  }

  lemma SmallInt(k: nat)
    requires k < 4
    ensures ToNat(FromInt(k)) == k
  {
    hide FromInt;
    var w := FromInt(k);
    SmallBits(k);
    NoBits(w[2..]);
    assert w[1..][1..] == w[2..];
  }

  lemma NextAdds(a: Word, k: nat)
    requires k < 4
    ensures ToNat(Next(a, k)) == ToNat(a) + k || ToNat(Next(a, k)) == ToNat(a) + k - Pow2(32)
  {
    hide FromInt, Pow2;
    SmallInt(k);
    var sum := Sum(a, FromInt(k), false);
    SumAdds(a, FromInt(k), false);
    assert sum == sum[..32] + [sum[32]];
    ToNatLast(sum[..32], sum[32]);
  }

  lemma {:induction false} StoreKeys(m: Memory, a: Word, w: Word, k: nat, n: nat, key: Word)
    requires k <= n <= 4
    ensures key in StoreBytes(m, a, w, k, n) <==> key in m || exists j: nat :: k <= j < n && key == Next(a, j)
    decreases n - k
  {
    hide Next;
    if k < n {
      StoreKeys(m[Next(a, k) := w[8 * k..8 * k + 8]], a, w, k + 1, n, key);
    }
  }

  lemma StoresDiffer(a: Word, b: Word, w: Word, n: nat)
    requires a != b && 0 < n <= 4
    ensures StoreBytes(map[], a, w, 0, n) != StoreBytes(map[], b, w, 0, n)
  {
    hide Next, StoreBytes, Pow2;
    NextZero(a);
    NextZero(b);
    StoreKeys(map[], a, w, 0, n, a);
    StoreKeys(map[], a, w, 0, n, b);
    StoreKeys(map[], b, w, 0, n, a);
    StoreKeys(map[], b, w, 0, n, b);
    if StoreBytes(map[], a, w, 0, n) == StoreBytes(map[], b, w, 0, n) {
      var k: nat :| k < n && a == Next(b, k);
      var l: nat :| l < n && b == Next(a, l);
      NextAdds(b, k);
      NextAdds(a, l);
      Pow2Grows(32);
      ToNatInjective(a, b);
    }
  }

  /** Every access shows which address it used. */
  lemma AddressShows(x: Access, a: Word, b: Word, s: State)
    requires ValidAccess(x) && |s.r| == 16 && a != b && Passes(x.cc, s.flags)
    requires s.mem == if x.load then map[a := Copies(true, 8)] else map[]
    ensures !Agree(AccessAt(x, a, s), AccessAt(x, b, s))
  {
    hide Passes, Load, StoreBytes;
    if x.pre {
      assert AccessAt(x, a, s).r[x.rn] == a && AccessAt(x, b, s).r[x.rn] == b;
    } else if x.load {
      LoadFirstBit(s.mem, a, x.byte);
      LoadFirstBit(s.mem, b, x.byte);
      assert AccessAt(x, a, s).r[x.rt][0] && !AccessAt(x, b, s).r[x.rt][0];
    } else {
      StoresDiffer(a, b, s.r[x.rt], if x.byte then 1 else 4);
    }
  }

  lemma AddressIgnoresMemory(x: Access, s: State, mem: Memory)
    requires ValidAccess(x) && |s.r| == 16
    ensures Address(x, s.(mem := mem)) == Address(x, s)
  {
  }

  lemma UnsupportedBreaks(x: Access)
    requires ValidAccess(x) && !SupportedAccess(x) && IsSplit(x)
    ensures !AccessPreserved(x)
  {
    hide AccessAt, Exec, Address, SplitAddress, Replacement, Passes, SupportedAccess, IsSplit, ValidAccess, ExecAll,
         OffsetWord;
    var ext: Ext := (id, r, m, f) => State(r, map[], m, f);
    var flags := PassingFlags(x.cc, false);
    ConditionRange(x);
    PassingFlagsPass(x.cc, false);
    IndexKind(x);
    var s0 := Uniform(OffsetWord(x.index), flags);
    var a := Address(x, s0);
    var mem: Memory := if x.load then map[a := Copies(true, 8)] else map[];
    var s := s0.(mem := mem);
    AddressesDiffer(x, flags, mem);
    AddressIgnoresMemory(x, s0, mem);
    AddressShows(x, a, SplitAddress(x, s), s);
    SequenceMeans(ext, x, 0, s);
    assert !AccessPreservedFrom(ext, x, 0, s);
  }

  lemma ConditionRange(x: Access)
    requires ValidAccess(x)
    ensures x.cc <= AL
  {
  }

  lemma IndexKind(x: Access)
    requires !SupportedAccess(x)
    ensures x.index.RegIndex?
  {
  }

  /** Main result on loads and stores: the pass preserves an access exactly when it is of a supported
      kind. */
  lemma AccessPreservedIffSupported(x: Access)
    requires ValidAccess(x)
    ensures AccessPreserved(x) <==> SupportedAccess(x)
  {
    if SupportedAccess(x) {
      SupportedAccessPreserved(x);
    } else {
      UnsupportedBreaks(x);
    }
  }
}
