/** The splitting pass: compound instructions become short sequences through fresh virtual registers. */
module ArmSplitting {
  import opened Wrappers
  import opened ArmMachine

  // ----- opcode tables

  function CheckIsShifter(op: Opcode): Option<Opcode> {
    match op
    case ShiftedImm(f) => Some(Base(f))
    case ShiftedReg(f) => Some(Base(f))
    case _ => None
  }

  /** The opcode of the shift itself: by immediate if there is an amount, by register otherwise. */
  function ShiftOpcode(code: ShiftCode, amount: int): Option<Opcode> {
    match code
    case NoShift => None
    case Sh(t) => Some(if amount != 0 then ShiftI(t) else ShiftR(t))
    case ShRrx => Some(RRX)
  }

  /** The families whose flag-setting form takes the carry from the shifter, as the pass sees them. */
  predicate IsShiftC(op: Opcode) {
    FamOf(op).Some? && FamOf(op).value in {AND, BIC, EOR, ORR, MVN}
  }

  // ----- data-processing instructions

  predicate IsShifter(o: Operand) {
    o.ImmOp? && ShiftOpcode(SoCode(o.imm), SoAmount(o.imm)).Some?
  }

  /** The first immediate operand that encodes a shift. */
  function ShifterIdx(ops: seq<Operand>): (r: nat)
    ensures r <= |ops|
    ensures forall i :: 0 <= i < r ==> !IsShifter(ops[i])
    ensures r < |ops| ==> IsShifter(ops[r])
  {
    if ops == [] then 0
    else if IsShifter(ops[0]) then 0
    else 1 + ShifterIdx(ops[1..])
  }

  function Between(ops: seq<Operand>, lo: nat, hi: int): seq<Operand>
    requires hi <= |ops|
  {
    if lo < hi then ops[lo..hi] else []
  }

  /** The shift into virtual register `v`, then the plain operation on it; `first` and `second` are the control
      operands of the two. A rotate through carry gets none. */
  function ShiftPair(mi: MI, newOp: Opcode, k: nat, v: nat, first: seq<Operand>, second: seq<Operand>): seq<MI>
    requires 2 <= k < |mi.ops| && IsShifter(mi.ops[k])
  {
    var last := second + Implicit(newOp);
    var amount := SoAmount(mi.ops[k].imm);
    var shift := ShiftOpcode(SoCode(mi.ops[k].imm), amount).value;
    var dst := RegOp(Virt(v));
    if amount != 0 then
      [MI(shift, [dst, mi.ops[k - 1], ImmOp(amount)] + first),
       MI(newOp, [mi.ops[0]] + Between(mi.ops, 1, k - 1) + [dst] + last)]
    else if shift == RRX then
      [MI(shift, [dst, mi.ops[k - 1]]),
       MI(newOp, [mi.ops[0]] + Between(mi.ops, 1, k - 1) + [dst] + last)]
    else
      [MI(shift, [dst, mi.ops[k - 2], mi.ops[k - 1]] + first),
       MI(newOp, [mi.ops[0]] + Between(mi.ops, 1, k - 2) + [dst] + last)]
  }

  datatype Tails = Tails(first: seq<Operand>, second: seq<Operand>)

  /** The control operands of the two new instructions. */
  function TailsOf(mi: MI): Tails {
    var idx := CpsrIdx(mi.ops);
    if idx.None? then Tails([], []) else
      var k := idx.value;
      var cc := if k > 0 then mi.ops[k - 1] else ImmOp(AL);
      var cpsr := RegOp(CPSR);
      if k + 1 < |mi.ops| && mi.ops[k + 1] == cpsr then
        if IsShiftC(mi.op) then Tails([cc, cpsr, cpsr], [cc, cpsr, cpsr]) else Tails([cc, cpsr], [cc, cpsr, cpsr])
      else if cc.ImmOp? && cc.imm != AL then Tails([cc, cpsr], [cc, cpsr])
      else if IsShiftC(mi.op) then Tails([ImmOp(AL), cpsr], [ImmOp(AL), cpsr])
      else Tails([], [ImmOp(AL), cpsr])
  }

  function ImmCount(ops: seq<Operand>): nat {
    if ops == [] then 0 else (if ops[0].ImmOp? then 1 else 0) + ImmCount(ops[1..])
  }

  /** The outcome for one instruction: its replacement, if it is split, and the next free virtual register. Every
      immediate operand that is looked at uses up a virtual register. */
  datatype Outcome = Outcome(out: Option<seq<MI>>, next: nat)

  function SplitData(mi: MI, newOp: Opcode, v: nat): Outcome {
    var k := ShifterIdx(mi.ops);
    var used := v + ImmCount(mi.ops[..k]);
    if k == |mi.ops| then Outcome(None, used)
    else if k < 2 then Outcome(None, used + 1)
    else Outcome(Some(ShiftPair(mi, newOp, k, used, TailsOf(mi).first, TailsOf(mi).second)), used + 1)
  }

  // ----- loads and stores

  /** The condition operands that every new instruction of a load or store gets. */
  function MemTail(ops: seq<Operand>): seq<Operand> {
    var idx := CpsrIdx(ops);
    if idx.Some? && idx.value > 0 then [ops[idx.value - 1], ops[idx.value]] else []
  }

  function ShiftOrPhi(code: ShiftCode, amount: int): Opcode {
    var op := ShiftOpcode(code, amount);
    if op.Some? then op.value else Other(0)
  }

  /** Shifts the offset register if need be, adds it to the base, and transfers at the sum. */
  function AddressSequence(newOp: Opcode, rt: Operand, sum: Operand, base: Operand, rm: Operand, imm: int, sv: nat,
                           tail: seq<Operand>): seq<MI>
  {
    var amount := Am2Amount(imm);
    var shift := ShiftOrPhi(Am2Code(imm), amount);
    var shifted := RegOp(Virt(sv));
    var access := MI(newOp, [rt, sum] + tail);
    if amount > 0 then
      [MI(shift, [shifted, rm, ImmOp(amount)] + tail), MI(Base(ADD), [sum, base, shifted] + tail), access]
    else if shift == RRX then
      [MI(shift, [shifted, rm]), MI(Base(ADD), [sum, base, shifted] + tail), access]
    else
      [MI(Base(ADD), [sum, base, rm] + tail), access]
  }

  function ImmSequence(newOp: Opcode, rt: Operand, sum: Operand, base: Operand, imm: Operand,
                       tail: seq<Operand>): seq<MI> {
    [MI(Base(ADD), [sum, base, imm] + tail), MI(newOp, [rt, sum] + tail)]
  }

  function SplitMem(mi: MI, v: nat): Outcome
    requires mi.op.Mem?
  {
    var newOp := Mem(mi.op.load, mi.op.byte, I12);
    var ops := mi.ops;
    var tail := MemTail(ops);
    if mi.op.form == PreReg || mi.op.form == PreImm then
      if |ops| < 4 then Outcome(None, v) else
        var rt := if mi.op.load then ops[0] else ops[1];
        if ops[3].RegOp? then
          if |ops| > 4 && ops[4].ImmOp? then Outcome(Some(AddressSequence(newOp, rt, ops[2], ops[2], ops[3],
                                                                          ops[4].imm, v, tail)), v + 1)
          else Outcome(None, v)
        else if ops[3].imm != 0 then Outcome(Some(ImmSequence(newOp, rt, ops[2], ops[2], ops[3], tail)), v)
        else Outcome(None, v)
    else if |ops| >= 3 && ops[1].RegOp? && ops[1] != RegOp(SP) && ops[1] != RegOp(PC) then
      if ops[2].RegOp? then
        if |ops| > 3 && ops[3].ImmOp? then
          Outcome(Some(AddressSequence(newOp, ops[0], RegOp(Virt(v + 1)), ops[1], ops[2], ops[3].imm, v, tail)), v + 2)
        else Outcome(None, v)
      else if ops[2].imm != 0 then Outcome(Some(ImmSequence(newOp, ops[0], RegOp(Virt(v)), ops[1], ops[2], tail)),
                                           v + 1)
      else Outcome(None, v)
    else Outcome(None, v)
  }

  /** What the pass does with one instruction. */
  function SplitOne(mi: MI, v: nat): Outcome {
    if mi.op.Mem? then SplitMem(mi, v)
    else match CheckIsShifter(mi.op)
         case None => Outcome(None, v)
         case Some(newOp) => SplitData(mi, newOp, v)
  }

  /** What is left in place of one instruction. */
  function Replacement(mi: MI, v: nat): seq<MI> {
    var o := SplitOne(mi, v).out;
    if o.Some? then o.value else [mi]
  }

  /** What the pass makes of a block. */
  function SplitAll(ms: seq<MI>, v: nat): seq<MI> {
    if ms == [] then [] else Replacement(ms[0], v) + SplitAll(ms[1..], SplitOne(ms[0], v).next)
  }
}
