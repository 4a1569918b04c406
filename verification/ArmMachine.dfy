/** A small ARM machine: 32-bit words as bit strings, sixteen registers, virtual registers, memory and the NZCV
    flags, and the meaning of the machine instructions that the splitting pass reads and writes. */
module ArmMachine {
  import opened Wrappers

  // ----- words; bit 0 comes first

  type Word = w: seq<bool> | |w| == 32 witness seq(32, _ => false)

  function Zeros(n: nat): seq<bool> {
    seq(n, _ => false)
  }

  function Copies(b: bool, n: nat): seq<bool> {
    seq(n, _ => b)
  }

  function ToNat(bits: seq<bool>): nat {
    if bits == [] then 0 else (if bits[0] then 1 else 0) + 2 * ToNat(bits[1..])
  }

  /** The low 32 bits of `i`. */
  function FromInt(i: int): Word {
    seq(32, k requires 0 <= k < 32 => i / Pow2(k) % 2 == 1)
  }

  function Negative(w: Word): bool {
    w[31]
  }

  function IsZero(w: Word): bool {
    w == Zeros(32)
  }

  function Not(w: Word): Word {
    seq(32, i requires 0 <= i < 32 => !w[i])
  }

  function And(a: Word, b: Word): Word {
    seq(32, i requires 0 <= i < 32 => a[i] && b[i])
  }

  function Or(a: Word, b: Word): Word {
    seq(32, i requires 0 <= i < 32 => a[i] || b[i])
  }

  function Xor(a: Word, b: Word): Word {
    seq(32, i requires 0 <= i < 32 => a[i] != b[i])
  }

  /** Ripple-carry sum of two bit strings; the last bit of the result is the carry out. */
  function Sum(a: seq<bool>, b: seq<bool>, carry: bool): (r: seq<bool>)
    requires |a| == |b|
    ensures |r| == |a| + 1
  {
    if a == [] then [carry] else
      [(a[0] != b[0]) != carry] + Sum(a[1..], b[1..], (a[0] && b[0]) || (a[0] && carry) || (b[0] && carry))
  }

  datatype Added = Added(result: Word, carry: bool, overflow: bool)

  /** AddWithCarry of section A2.2.1 of the ARM Architecture Reference Manual. */
  function AddWithCarry(a: Word, b: Word, carry: bool): Added {
    var s := Sum(a, b, carry);
    Added(s[..32], s[32], a[31] == b[31] && s[31] != a[31])
  }

  // ----- shifts, sections A2.2.1 and A8.4.3 of the ARM Architecture Reference Manual

  datatype SRType = LSL | LSR | ASR | ROR

  datatype Shifted = Shifted(result: Word, carry: bool)

  function ShiftC(w: Word, t: SRType, amount: nat, carry: bool): Shifted {
    if amount == 0 then Shifted(w, carry) else
      match t
      case LSL =>
        if amount <= 32 then Shifted(Zeros(amount) + w[..32 - amount], w[32 - amount]) else Shifted(Zeros(32), false)
      case LSR =>
        if amount <= 32 then Shifted(w[amount..] + Zeros(amount), w[amount - 1]) else Shifted(Zeros(32), false)
      case ASR =>
        if amount <= 32 then Shifted(w[amount..] + Copies(w[31], amount), w[amount - 1])
            else Shifted(Copies(w[31], 32), w[31])
      case ROR =>
        var m := amount % 32;
        var r: Word := w[m..] + w[..m];
        Shifted(r, r[31])
  }

  /** Rotate right by one through the carry flag. */
  function RrxC(w: Word, carry: bool): Shifted {
    Shifted(w[1..] + [carry], w[0])
  }

  // ----- machine state

  datatype Flags = Flags(n: bool, z: bool, c: bool, v: bool)

  type Memory = map<Word, seq<bool>>

  datatype State = State(r: seq<Word>, virt: map<nat, Word>, mem: Memory, flags: Flags)

  ghost predicate Valid(s: State) {
    |s.r| == 16
  }

  /** The states differ in virtual registers only. */
  predicate Agree(s: State, t: State) {
    s.r == t.r && s.mem == t.mem && s.flags == t.flags
  }

  // ----- instructions as opcode and operand list

  datatype Reg = NoReg | CPSR | Gpr(n: nat) | Virt(n: nat)

  const SP := Gpr(13)
  const PC := Gpr(15)

  datatype Operand = RegOp(reg: Reg) | ImmOp(imm: int)

  datatype Fam = MOV | MVN | ADC | ADD | AND | BIC | EOR | ORR | RSB | SUB

  /** Loads and stores: plain with an immediate, with a register, and their pre-indexed forms. */
  datatype Form = I12 | RS | PreImm | PreReg

  datatype Opcode = Base(f: Fam) | ShiftedImm(f: Fam) | ShiftedReg(f: Fam)
                  | ShiftI(t: SRType) | ShiftR(t: SRType) | RRX
                  | Mem(load: bool, byte: bool, form: Form)
                  | Other(id: nat)

  datatype MI = MI(op: Opcode, ops: seq<Operand>)

  const AL := 14

  // ----- condition codes

  function Passes(cc: int, f: Flags): bool {
    match cc
    case 0 => f.z
    case 1 => !f.z
    case 2 => f.c
    case 3 => !f.c
    case 4 => f.n
    case 5 => !f.n
    case 6 => f.v
    case 7 => !f.v
    case 8 => f.c && !f.z
    case 9 => !f.c || f.z
    case 10 => f.n == f.v
    case 11 => f.n != f.v
    case 12 => !f.z && f.n == f.v
    case 13 => f.z || f.n != f.v
    case _ => true
  }

  datatype Control = Control(setFlags: bool, cc: int)

  /** The index of the first operand that is the status register, if any. */
  function CpsrIdx(ops: seq<Operand>): (r: Option<nat>)
    ensures r.Some? ==>
            r.value < |ops| && ops[r.value] == RegOp(CPSR) && forall i :: 0 <= i < r.value ==> ops[i] != RegOp(CPSR)
    ensures r.None? ==> RegOp(CPSR) !in ops
  {
    if ops == [] then None
    else if ops[0] == RegOp(CPSR) then Some(0)
    else
      var rest := CpsrIdx(ops[1..]);
      if rest.Some? then Some(rest.value + 1) else None
  }

  /** How the operands after the data operands say whether an instruction sets flags and under which condition it
      executes. */
  function ControlOf(ops: seq<Operand>): Control {
    var idx := CpsrIdx(ops);
    if idx.None? then Control(false, AL)
    else if idx.value + 1 < |ops| && ops[idx.value + 1] == RegOp(CPSR) then
      Control(true, if idx.value > 0 && ops[idx.value - 1].ImmOp? then ops[idx.value - 1].imm else AL)
    else if idx.value > 0 && ops[idx.value - 1].ImmOp? && ops[idx.value - 1].imm != AL then
      Control(false, ops[idx.value - 1].imm)
    else Control(true, AL)
  }

  /** The control operands an instruction may end with. */
  predicate IsTail(ops: seq<Operand>) {
    || ops == []
    || (|ops| == 2 && ops[0].ImmOp? && ops[1] in {RegOp(CPSR), RegOp(NoReg)})
    || (|ops| == 3 && ops[0].ImmOp? && ops[1] in {RegOp(CPSR), RegOp(NoReg)} && ops[2] in {RegOp(CPSR), RegOp(NoReg)})
  }

  // ----- reading and writing

  predicate IsGeneral(o: Operand) {
    o.RegOp? && (o.reg.Virt? || (o.reg.Gpr? && o.reg.n < 16))
  }

  function Read(s: State, o: Operand): Word
    requires |s.r| == 16 && (IsGeneral(o) || o.ImmOp?)
  {
    match o
    case ImmOp(i) => FromInt(i)
    case RegOp(Gpr(n)) => s.r[n]
    case RegOp(Virt(n)) => if n in s.virt then s.virt[n] else Zeros(32)
  }

  function Write(s: State, o: Operand, w: Word): (t: State)
    requires |s.r| == 16 && IsGeneral(o)
    ensures |t.r| == 16
  {
    match o.reg
    case Gpr(n) => s.(r := s.r[n := w])
    case Virt(n) => s.(virt := s.virt[n := w])
  }

  function LoadByte(m: Memory, a: Word): (r: seq<bool>)
    ensures |r| == 8
  {
    if a in m && |m[a]| == 8 then m[a] else Zeros(8)
  }

  function Next(a: Word, k: nat): Word {
    AddWithCarry(a, FromInt(k), false).result
  }

  /** The bytes from `a + k` to `a + n - 1`, lowest first. */
  function LoadBytes(m: Memory, a: Word, k: nat, n: nat): (r: seq<bool>)
    requires k <= n
    ensures |r| == 8 * (n - k)
    decreases n - k
  {
    if k == n then [] else LoadByte(m, Next(a, k)) + LoadBytes(m, a, k + 1, n)
  }

  function Load(m: Memory, a: Word, byte: bool): Word {
    var n := if byte then 1 else 4;
    LoadBytes(m, a, 0, n) + Zeros(32 - 8 * n)
  }

  function StoreBytes(m: Memory, a: Word, w: Word, k: nat, n: nat): Memory
    requires k <= n <= 4
    decreases n - k
  {
    if k == n then m else StoreBytes(m[Next(a, k) := w[8 * k..8 * k + 8]], a, w, k + 1, n)
  }

  function StoreTo(m: Memory, a: Word, w: Word, byte: bool): Memory {
    StoreBytes(m, a, w, 0, if byte then 1 else 4)
  }

  // ----- data processing

  predicate HasRn(f: Fam) {
    f != MOV && f != MVN
  }

  datatype AluResult = AluResult(result: Word, c: bool, v: bool)

  /** The result, and the carry and overflow flags it would set, of an operation on `a` and the shifted operand. */
  function Alu(f: Fam, a: Word, b: Shifted, flags: Flags): AluResult {
    match f
    case MOV => AluResult(b.result, b.carry, flags.v)
    case MVN => AluResult(Not(b.result), b.carry, flags.v)
    case AND => AluResult(And(a, b.result), b.carry, flags.v)
    case BIC => AluResult(And(a, Not(b.result)), b.carry, flags.v)
    case EOR => AluResult(Xor(a, b.result), b.carry, flags.v)
    case ORR => AluResult(Or(a, b.result), b.carry, flags.v)
    case ADC => var s := AddWithCarry(a, b.result, flags.c); AluResult(s.result, s.carry, s.overflow)
    case ADD => var s := AddWithCarry(a, b.result, false); AluResult(s.result, s.carry, s.overflow)
    case SUB => var s := AddWithCarry(a, Not(b.result), true); AluResult(s.result, s.carry, s.overflow)
    case RSB => var s := AddWithCarry(Not(a), b.result, true); AluResult(s.result, s.carry, s.overflow)
  }

  function Finish(s: State, rd: Operand, x: AluResult, setFlags: bool): (t: State)
    requires |s.r| == 16 && IsGeneral(rd)
    ensures |t.r| == 16
  {
    Write(if setFlags then s.(flags := Flags(Negative(x.result), IsZero(x.result), x.c, x.v)) else s, rd, x.result)
  }

  // ----- the shifter operand as the instruction encodes it

  datatype ShiftCode = NoShift | Sh(t: SRType) | ShRrx

  function CodeOf(c: int): ShiftCode {
    match c
    case 1 => Sh(ASR)
    case 2 => Sh(LSL)
    case 3 => Sh(LSR)
    case 4 => Sh(ROR)
    case 5 => ShRrx
    case _ => NoShift
  }

  /** A shift amount of zero stands for 32 where the shift is LSR or ASR. */
  function ImmAmount(t: SRType, n: nat): nat {
    if n == 0 && (t == LSR || t == ASR) then 32 else n
  }

  /** A register shifted by an encoded immediate amount. */
  function ShiftByCode(w: Word, code: ShiftCode, n: nat, carry: bool): Shifted {
    match code
    case NoShift => Shifted(w, carry)
    case Sh(t) => ShiftC(w, t, ImmAmount(t, n), carry)
    case ShRrx => RrxC(w, carry)
  }

  /** The operand of a shift by register: the register's low byte. */
  function LowByte(w: Word): nat {
    ToNat(w[..8])
  }

  /** An address offset, to be added or subtracted. */
  function Offset(base: Word, off: Word, subtract: bool): Word {
    if subtract then AddWithCarry(base, Not(off), true).result else AddWithCarry(base, off, false).result
  }

  function Transfer(s: State, rt: Operand, addr: Word, load: bool, byte: bool): (t: State)
    requires |s.r| == 16 && IsGeneral(rt)
    ensures |t.r| == 16
  {
    if load then Write(s, rt, Load(s.mem, addr, byte)) else s.(mem := StoreTo(s.mem, addr, Read(s, rt), byte))
  }

  /** The number of data operands of an instruction; the control operands follow them. */
  function Arity(op: Opcode, count: nat): nat {
    match op
    case Base(f) => if HasRn(f) then 3 else 2
    case ShiftedImm(f) => if HasRn(f) then 4 else 3
    case ShiftedReg(f) => if HasRn(f) then 5 else 4
    case ShiftI(_) => 3
    case ShiftR(_) => 3
    case RRX => 2
    case Mem(_, _, I12) => if count % 2 == 1 then 3 else 2
    case Mem(_, _, RS) => 4
    case Mem(_, _, PreImm) => 4
    case Mem(_, _, PreReg) => 5
    case Other(_) => 0
  }

  /** The data operands have the kinds that the opcode asks for. */
  predicate DataOk(op: Opcode, d: seq<Operand>)
    requires op.Mem? || |d| == Arity(op, |d|)
  {
    match op
    case Base(f) =>
      && IsGeneral(d[0])
      && (if HasRn(f) then IsGeneral(d[1]) && (IsGeneral(d[2]) || d[2].ImmOp?) else IsGeneral(d[1]) || d[1].ImmOp?)
    case ShiftedImm(f) =>
      IsGeneral(d[0]) && IsGeneral(d[1]) && (if HasRn(f) then IsGeneral(d[2]) && d[3].ImmOp? else d[2].ImmOp?)
    case ShiftedReg(f) =>
      IsGeneral(d[0]) && IsGeneral(d[1]) && IsGeneral(d[2])
          && (if HasRn(f) then IsGeneral(d[3]) && d[4].ImmOp? else d[3].ImmOp?)
    case ShiftI(_) => IsGeneral(d[0]) && IsGeneral(d[1]) && d[2].ImmOp?
    case ShiftR(_) => IsGeneral(d[0]) && IsGeneral(d[1]) && IsGeneral(d[2])
    case RRX => IsGeneral(d[0]) && IsGeneral(d[1])
    case Other(_) => true
    case Mem(_, _, form) =>
      && |d| >= 2 && IsGeneral(d[0]) && IsGeneral(d[1])
      && match form
         case I12 => |d| == 3 ==> d[2].ImmOp?
         case RS => |d| == 4 && IsGeneral(d[2]) && d[3].ImmOp?
         case PreImm => |d| == 4 && IsGeneral(d[2]) && d[3].ImmOp?
         case PreReg => |d| == 5 && IsGeneral(d[2]) && IsGeneral(d[3]) && d[4].ImmOp?
  }

  /** The family of a data-processing opcode. */
  function FamOf(op: Opcode): Option<Fam> {
    match op
    case Base(f) => Some(f)
    case ShiftedImm(f) => Some(f)
    case ShiftedReg(f) => Some(f)
    case _ => None
  }

  /** The operand that every instruction with this opcode is created with, and that stays its last: an addition with
      carry uses the status register. */
  function Implicit(op: Opcode): seq<Operand> {
    if FamOf(op) == Some(ADC) then [RegOp(CPSR)] else []
  }

  /** The operands that the instruction was given. */
  function Explicit(mi: MI): (ops: seq<Operand>)
    ensures |ops| + |Implicit(mi.op)| == |mi.ops| || ops == []
  {
    if |mi.ops| >= |Implicit(mi.op)| then mi.ops[..|mi.ops| - |Implicit(mi.op)|] else []
  }

  predicate WellFormed(mi: MI) {
    var ops := Explicit(mi);
    var n := Arity(mi.op, |ops|);
    mi.op.Other? || (mi.ops == ops + Implicit(mi.op) && |ops| >= n && DataOk(mi.op, ops[..n]) && IsTail(ops[n..]))
  }

  // the shifter operand of addressing mode 2: offset, subtract bit, shift

  function Am2Amount(i: int): nat {
    i % 0x1000
  }

  function Am2Subtracts(i: int): bool {
    i / 0x1000 % 2 == 1
  }

  function Am2Code(i: int): ShiftCode {
    CodeOf(i / 0x2000 % 8)
  }

  // the shifter operand of data processing: shift in the low three bits, amount above them

  function SoCode(i: int): ShiftCode {
    CodeOf(i % 8)
  }

  function SoAmount(i: int): int {
    i / 8
  }

  /** The shifted operand of a data-processing instruction with data operands `d`. */
  function ShifterOperand(op: Opcode, d: seq<Operand>, s: State): Shifted
    requires FamOf(op).Some? && |d| == Arity(op, |d|) && DataOk(op, d) && |s.r| == 16
  {
    var last := d[|d| - 1];
    match op
    case ShiftedImm(_) => ShiftByCode(Read(s, d[|d| - 2]), SoCode(last.imm), Amount(SoAmount(last.imm)), s.flags.c)
    case ShiftedReg(_) =>
      var w := Read(s, d[|d| - 3]);
      var code := SoCode(last.imm);
      if code.Sh? then ShiftC(w, code.t, LowByte(Read(s, d[|d| - 2])), s.flags.c) else Shifted(w, s.flags.c)
    case _ => Shifted(Read(s, last), s.flags.c)
  }

  function Amount(i: int): nat {
    if i < 0 then 0 else i
  }

  function ExecData(f: Fam, op: Opcode, d: seq<Operand>, s: State, setFlags: bool): (t: State)
    requires FamOf(op) == Some(f) && |d| == Arity(op, |d|) && DataOk(op, d) && |s.r| == 16
    ensures |t.r| == 16
  {
    Finish(s, d[0], Alu(f, if HasRn(f) then Read(s, d[1]) else Zeros(32), ShifterOperand(op, d, s), s.flags), setFlags)
  }

  function ExecShift(s: State, rd: Operand, x: Shifted, setFlags: bool): (t: State)
    requires |s.r| == 16 && IsGeneral(rd)
    ensures |t.r| == 16
  {
    Finish(s, rd, AluResult(x.result, x.carry, s.flags.v), setFlags)
  }

  /** The address that a register-offset transfer uses. */
  function OffsetAddress(s: State, rn: Operand, rm: Operand, i: int): Word
    requires |s.r| == 16 && IsGeneral(rn) && IsGeneral(rm)
  {
    Offset(Read(s, rn), ShiftByCode(Read(s, rm), Am2Code(i), Am2Amount(i), s.flags.c).result, Am2Subtracts(i))
  }

  function ExecMem(load: bool, byte: bool, form: Form, d: seq<Operand>, s: State): (t: State)
    requires |s.r| == 16 && |d| >= 2 && DataOk(Mem(load, byte, form), d)
    ensures |t.r| == 16
  {
    match form
    case I12 =>
      Transfer(s, d[0], if |d| == 3 then Offset(Read(s, d[1]), FromInt(d[2].imm), false) else Read(s, d[1]), load, byte)
    case RS => Transfer(s, d[0], OffsetAddress(s, d[1], d[2], d[3].imm), load, byte)
    case PreImm =>
      var addr := Offset(Read(s, d[2]), FromInt(d[3].imm), false);
      ExecWriteBack(s, d, addr, load, byte)
    case PreReg =>
      var addr := OffsetAddress(s, d[2], d[3], d[4].imm);
      ExecWriteBack(s, d, addr, load, byte)
  }

  /** A load names the transfer register first and the written-back base second, a store the other way round. */
  function ExecWriteBack(s: State, d: seq<Operand>, addr: Word, load: bool, byte: bool): (t: State)
    requires |s.r| == 16 && |d| >= 2 && IsGeneral(d[0]) && IsGeneral(d[1])
    ensures |t.r| == 16
  {
    if load then Write(Write(s, d[1], addr), d[0], Load(s.mem, addr, byte))
    else Write(s.(mem := StoreTo(s.mem, addr, Read(s, d[1]), byte)), d[0], addr)
  }

  /** The meaning of the instructions that splitting leaves alone: any change of registers, memory and flags. */
  type Ext = (nat, seq<Word>, Memory, Flags) -> State

  function ExecOther(ext: Ext, id: nat, s: State): State {
    var t := ext(id, s.r, s.mem, s.flags);
    State(if |t.r| == 16 then t.r else s.r, s.virt, t.mem, t.flags)
  }

  /** The effect of an instruction that executes, given its data operands. */
  function Effect(op: Opcode, d: seq<Operand>, s: State, setFlags: bool): (t: State)
    requires (op.Mem? ==> |d| >= 2) && (!op.Mem? ==> |d| == Arity(op, |d|)) && DataOk(op, d) && |s.r| == 16
    ensures |t.r| == 16
  {
    match op
    case ShiftI(t) => ExecShift(s, d[0], ShiftC(Read(s, d[1]), t, ImmAmount(t, Amount(d[2].imm)), s.flags.c), setFlags)
    case ShiftR(t) => ExecShift(s, d[0], ShiftC(Read(s, d[1]), t, LowByte(Read(s, d[2])), s.flags.c), setFlags)
    case RRX => ExecShift(s, d[0], RrxC(Read(s, d[1]), s.flags.c), setFlags)
    case Mem(load, byte, form) => ExecMem(load, byte, form, d, s)
    case Base(f) => ExecData(f, op, d, s, setFlags)
    case ShiftedImm(f) => ExecData(f, op, d, s, setFlags)
    case ShiftedReg(f) => ExecData(f, op, d, s, setFlags)
    case Other(_) => s
  }

  /** One instruction; `None` for an operand list that does not fit the opcode. */
  function Exec(ext: Ext, mi: MI, s: State): (t: Option<State>)
    requires |s.r| == 16
    ensures t.Some? ==> |t.value.r| == 16
  {
    if !WellFormed(mi) then None
    else if mi.op.Other? then Some(ExecOther(ext, mi.op.id, s))
    else
      var ops := Explicit(mi);
      var ctl := ControlOf(ops);
      if Passes(ctl.cc, s.flags) then Some(Effect(mi.op, ops[..Arity(mi.op, |ops|)], s, ctl.setFlags)) else Some(s)
  }

  function ExecAll(ext: Ext, ms: seq<MI>, s: State): (t: Option<State>)
    requires |s.r| == 16
    ensures t.Some? ==> |t.value.r| == 16
  {
    if ms == [] then Some(s) else
      match Exec(ext, ms[0], s)
      case None => None
      case Some(t) => ExecAll(ext, ms[1..], t)
  }
}
