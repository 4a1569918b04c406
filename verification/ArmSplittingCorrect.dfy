/** When splitting preserves the meaning of an instruction. */
module ArmSplittingCorrect {
  import opened Wrappers
  import opened ArmMachine
  import opened ArmSplitting

  // ----- reading an operand list as data operands and control operands

  predicate NoCpsr(d: seq<Operand>) {
    forall i :: 0 <= i < |d| ==> d[i] != RegOp(CPSR)
  }

  lemma ControlOfTail(d: seq<Operand>, tail: seq<Operand>)
    requires |d| > 0 && NoCpsr(d) && IsTail(tail)
    ensures ControlOf(d + tail) ==
              if |tail| == 2 && tail[1] == RegOp(CPSR) then
                if tail[0].imm != AL then Control(false, tail[0].imm) else Control(true, AL)
              else if |tail| == 3 && tail[1] == RegOp(CPSR) then
                if tail[2] == RegOp(CPSR) then Control(true, tail[0].imm)
                else if tail[0].imm != AL then Control(false, tail[0].imm) else Control(true, AL)
              else if |tail| == 3 && tail[2] == RegOp(CPSR) then Control(true, AL)
              else Control(false, AL)
  {
    var ops := d + tail;
    var idx := CpsrIdx(ops);
    assert forall i :: 0 <= i < |d| ==> ops[i] == d[i];
    assert forall i :: 0 <= i < |tail| ==> ops[|d| + i] == tail[i];
  }

  /** One instruction given by data and control operands. */
  lemma ExecParts(ext: Ext, op: Opcode, d: seq<Operand>, tail: seq<Operand>, s: State)
    requires |s.r| == 16 && !op.Other? && |d| >= 2 && |d| == Arity(op, |d| + |tail|) && DataOk(op, d) && IsTail(tail)
    ensures var ctl := ControlOf(d + tail);
            Exec(ext, MI(op, d + tail + Implicit(op)), s)
            == Some(if Passes(ctl.cc, s.flags) then Effect(op, d, s, ctl.setFlags) else s)
  {
    var mi := MI(op, d + tail + Implicit(op));
    assert Explicit(mi) == d + tail;
    assert (d + tail)[..|d|] == d && (d + tail)[|d|..] == tail;
  }

  /** The same where nothing is added to the operands. */
  lemma ExecGiven(ext: Ext, op: Opcode, d: seq<Operand>, tail: seq<Operand>, s: State)
    requires |s.r| == 16 && !op.Other? && |d| >= 2 && |d| == Arity(op, |d| + |tail|) && DataOk(op, d) && IsTail(tail)
    requires Implicit(op) == []
    ensures var ctl := ControlOf(d + tail);
            Exec(ext, MI(op, d + tail), s)
            == Some(if Passes(ctl.cc, s.flags) then Effect(op, d, s, ctl.setFlags) else s)
  {
    ExecParts(ext, op, d, tail, s);
    assert d + tail + [] == d + tail;
  }

  lemma ExecAllTwo(ext: Ext, a: MI, b: MI, s: State)
    requires |s.r| == 16
    ensures ExecAll(ext, [a, b], s) == match Exec(ext, a, s) case None => None case Some(t) => Exec(ext, b, t)
  {
    assert [a, b][1..] == [b] && [b][1..] == [];
    var x := Exec(ext, a, s);
    if x.Some? {
      var y := Exec(ext, b, x.value);
      assert ExecAll(ext, [b], x.value) == if y.Some? then ExecAll(ext, [], y.value) else None;
    }
  }

  // ----- data-processing instructions with a shifted operand, as the decoder delivers them

  /** A shifter operand: by an encoded immediate, by a register, or rotate right with extend. */
  datatype Shifter = ByImm(t: SRType, n: nat) | ByReg(t: SRType, rs: nat) | Rrx

  datatype Data = Data(f: Fam, rd: nat, rn: nat, rm: nat, sh: Shifter, setFlags: bool, cc: nat)

  /** Registers are general registers; immediate amounts fit in five bits, and amount 0 is possible for LSR and
      ASR only, where it stands for 32; conditions are 0 to 14. */
  predicate ValidData(x: Data) {
    && x.rd < 16 && x.rn < 16 && x.rm < 16 && x.cc <= AL
    && match x.sh
       case ByImm(t, n) => n < 32 && (n == 0 ==> t == LSR || t == ASR)
       case ByReg(t, rs) => rs < 16
       case Rrx => true
  }

  function ShiftNumber(t: SRType): nat {
    match t
    case ASR => 1
    case LSL => 2
    case LSR => 3
    case ROR => 4
  }

  function R(n: nat): Operand {
    RegOp(Gpr(n))
  }

  function DataOperands(x: Data): seq<Operand> {
    var sources := if HasRn(x.f) then [R(x.rd), R(x.rn), R(x.rm)] else [R(x.rd), R(x.rm)];
    match x.sh
    case ByImm(t, n) => sources + [ImmOp(ShiftNumber(t) + 8 * n)]
    case ByReg(t, rs) => sources + [R(rs), ImmOp(ShiftNumber(t))]
    case Rrx => sources + [ImmOp(5)]
  }

  function DataTail(x: Data): seq<Operand> {
    [ImmOp(x.cc), RegOp(if x.cc == AL then NoReg else CPSR), RegOp(if x.setFlags then CPSR else NoReg)]
  }

  function Encode(x: Data): MI {
    var op := if x.sh.ByReg? then ShiftedReg(x.f) else ShiftedImm(x.f);
    MI(op, DataOperands(x) + DataTail(x) + Implicit(op))
  }

  /** The shifted operand in state `s`. */
  function ShiftedValue(x: Data, s: State): Shifted
    requires ValidData(x) && |s.r| == 16
  {
    match x.sh
    case ByImm(t, n) => ShiftC(s.r[x.rm], t, ImmAmount(t, n), s.flags.c)
    case ByReg(t, rs) => ShiftC(s.r[x.rm], t, LowByte(s.r[rs]), s.flags.c)
    case Rrx => RrxC(s.r[x.rm], s.flags.c)
  }

  /** What the instruction means. */
  function Meaning(x: Data, s: State): State
    requires ValidData(x) && |s.r| == 16
  {
    if Passes(x.cc, s.flags)
    then Finish(s, R(x.rd), Alu(x.f, if HasRn(x.f) then s.r[x.rn] else Zeros(32), ShiftedValue(x, s), s.flags),
                x.setFlags)
    else s
  }

  lemma DataControl(x: Data)
    requires ValidData(x)
    ensures NoCpsr(DataOperands(x)) && ControlOf(DataOperands(x) + DataTail(x)) == Control(x.setFlags, x.cc)
  {
    ControlOfTail(DataOperands(x), DataTail(x));
  }

  lemma DataEffect(x: Data, s: State)
    requires ValidData(x) && |s.r| == 16
    ensures var op, d := Encode(x).op, DataOperands(x);
            && |d| == Arity(op, |d| + 3) == Arity(op, |d|) && DataOk(op, d)
            && Effect(op, d, s, x.setFlags) ==
                 Finish(s, R(x.rd), Alu(x.f, if HasRn(x.f) then s.r[x.rn] else Zeros(32), ShiftedValue(x, s), s.flags),
                        x.setFlags)
  {
    hide Finish, Alu, ShiftC, RrxC, LowByte, ControlOf;
    var op, d := Encode(x).op, DataOperands(x);
    assert DataOk(op, d);
    assert ShifterOperand(op, d, s) == ShiftedValue(x, s);
  }

  lemma EncodeMeans(ext: Ext, x: Data, s: State)
    requires ValidData(x) && |s.r| == 16
    ensures Exec(ext, Encode(x), s) == Some(Meaning(x, s))
  {
    hide Finish, Alu, ControlOf, Effect, DataOk, Passes;
    DataControl(x);
    DataEffect(x, s);
    ExecParts(ext, Encode(x).op, DataOperands(x), DataTail(x), s);
  }

  // ----- the two instructions that the pass puts in its place

  predicate ShifterFlags(f: Fam) {
    f in {AND, BIC, EOR, ORR, MVN}
  }

  /** An addition with carry under no condition. The operand that it is created with is taken for one that says
      something about flags or conditions. */
  predicate AlwaysCarries(x: Data) {
    x.f == ADC && x.cc == AL
  }

  function DataTails(x: Data): Tails {
    var cc, cpsr := ImmOp(x.cc), RegOp(CPSR);
    if AlwaysCarries(x) then
      if x.setFlags then Tails([RegOp(NoReg), cpsr], [RegOp(NoReg), cpsr, cpsr]) else Tails([], [cc, cpsr])
    else if x.cc == AL then
      if !x.setFlags then Tails([], []) else if ShifterFlags(x.f) then Tails([cc, cpsr], [cc, cpsr])
          else Tails([], [cc, cpsr])
    else
      if !x.setFlags then Tails([cc, cpsr], [cc, cpsr])
      else if ShifterFlags(x.f) then Tails([cc, cpsr, cpsr], [cc, cpsr, cpsr]) else Tails([cc, cpsr], [cc, cpsr, cpsr])
  }

  /** The first status register among three control operands. */
  lemma TailIdx(d: seq<Operand>, tail: seq<Operand>, more: seq<Operand>)
    requires NoCpsr(d) && |tail| == 3 && tail[0] != RegOp(CPSR) && (more == [] || more == [RegOp(CPSR)])
    ensures CpsrIdx(d + tail + more) ==
              if tail[1] == RegOp(CPSR) then Some(|d| + 1)
              else if tail[2] == RegOp(CPSR) then Some(|d| + 2)
              else if more != [] then Some(|d| + 3) else None
  {
    hide CpsrIdx;
    var ops := d + tail + more;
    var idx := CpsrIdx(ops);
    assert forall i :: 0 <= i < |d| ==> ops[i] == d[i];
    assert forall i :: 0 <= i < |tail| ==> ops[|d| + i] == tail[i];
    assert forall i :: 0 <= i < |more| ==> ops[|d| + 3 + i] == more[i];
    assert ops[|d| + 1] in ops && ops[|d| + 2] in ops && (more != [] ==> ops[|d| + 3] in ops);
  }

  lemma EncodeTails(x: Data)
    requires ValidData(x)
    ensures TailsOf(Encode(x)) == DataTails(x)
  {
    hide CpsrIdx, DataOperands, ControlOf;
    var d, tail := DataOperands(x), DataTail(x);
    DataControl(x);
    var more := Implicit(Encode(x).op);
    TailIdx(d, tail, more);
    assert forall i :: 0 <= i < |tail| ==> (d + tail + more)[|d| + i] == tail[i];
    assert forall i :: 0 <= i < |more| ==> (d + tail + more)[|d| + 3 + i] == more[i];
  }

  function FirstOp(x: Data): Opcode {
    match x.sh
    case ByImm(t, _) => ShiftI(t)
    case ByReg(t, _) => ShiftR(t)
    case Rrx => RRX
  }

  function FirstData(x: Data, v: nat): seq<Operand> {
    match x.sh
    case ByImm(_, n) => [RegOp(Virt(v)), R(x.rm), ImmOp(n)]
    case ByReg(_, rs) => [RegOp(Virt(v)), R(x.rm), R(rs)]
    case Rrx => [RegOp(Virt(v)), R(x.rm)]
  }

  function FirstTail(x: Data): seq<Operand> {
    if x.sh.Rrx? then [] else DataTails(x).first
  }

  function SecondData(x: Data, v: nat): seq<Operand> {
    if HasRn(x.f) then [R(x.rd), R(x.rn), RegOp(Virt(v))] else [R(x.rd), RegOp(Virt(v))]
  }

  lemma EncodeShifterIdx(x: Data)
    requires ValidData(x)
    ensures var d := DataOperands(x);
            && ShifterIdx(Encode(x).ops) == |d| - 1
            && ImmCount(Encode(x).ops[..|d| - 1]) == 0
            && Encode(x).ops[|d| - 1] == d[|d| - 1] && IsShifter(d[|d| - 1])
            && SoAmount(d[|d| - 1].imm) == (if x.sh.ByImm? then x.sh.n else 0)
            && SoCode(d[|d| - 1].imm) == (if x.sh.Rrx? then ShRrx else Sh(x.sh.t))
  {
    var d := DataOperands(x);
    var ops := Encode(x).ops;
    assert forall i :: 0 <= i < |d| ==> ops[i] == d[i];
    assert forall i :: 0 <= i < |d| - 1 ==> !d[i].ImmOp?;
    assert IsShifter(ops[|d| - 1]) && forall i :: 0 <= i < |d| - 1 ==> !IsShifter(ops[i]);
    NoImm(ops[..|d| - 1]);
  }

  lemma {:induction false} NoImm(ops: seq<Operand>)
    requires forall i :: 0 <= i < |ops| ==> !ops[i].ImmOp?
    ensures ImmCount(ops) == 0
  {
    if ops != [] {
      NoImm(ops[1..]);
    }
  }

  lemma EncodeSplits(x: Data, v: nat)
    requires ValidData(x) && (x.sh.ByImm? ==> x.sh.n != 0)
    ensures SplitOne(Encode(x), v) ==
              Outcome(Some([MI(FirstOp(x), FirstData(x, v) + FirstTail(x)),
                            MI(Base(x.f), SecondData(x, v) + DataTails(x).second + Implicit(Base(x.f)))]), v + 1)
  {
    hide IsShifter, ShifterIdx, TailsOf, DataTails, SoCode, SoAmount, ImmCount;
    EncodeTails(x);
    EncodeShifterIdx(x);
    var d := DataOperands(x);
    var mi := Encode(x);
    var ops := mi.ops;
    var k := |d| - 1;
    var tails := DataTails(x);
    assert forall i :: 0 <= i < |d| ==> ops[i] == d[i];
    assert SplitOne(mi, v) == SplitData(mi, Base(x.f), v);
    assert SplitData(mi, Base(x.f), v) == Outcome(Some(ShiftPair(mi, Base(x.f), k, v, tails.first, tails.second)),
                                                  v + 1);
    var upTo := if x.sh.ByReg? then k - 2 else k - 1;
    assert [ops[0]] + Between(ops, 1, upTo) + [RegOp(Virt(v))] == SecondData(x, v);
    var last := tails.second + Implicit(Base(x.f));
    assert SecondData(x, v) + last == SecondData(x, v) + tails.second + Implicit(Base(x.f));
    match x.sh
    case ByImm(t, n) => assert [RegOp(Virt(v)), ops[k - 1], ImmOp(n)] == FirstData(x, v);
    case ByReg(t, rs) => assert [RegOp(Virt(v)), ops[k - 2], ops[k - 1]] == FirstData(x, v);
    case Rrx => assert [RegOp(Virt(v)), ops[k - 1]] == FirstData(x, v)
        && FirstData(x, v) + FirstTail(x) == FirstData(x, v);
  }

  /** The flags between the two instructions: the shift sets them only for a flag-setting operation whose carry
      comes from the shifter, and not for a rotate through carry. */
  function FlagsBetween(x: Data, s: State): Flags
    requires ValidData(x) && |s.r| == 16
  {
    if x.setFlags && ShifterFlags(x.f) && !x.sh.Rrx? then
      var sh := ShiftedValue(x, s);
      Flags(Negative(sh.result), IsZero(sh.result), sh.carry, s.flags.v)
    else s.flags
  }

  /** What the two instructions do. */
  function PairMeaning(x: Data, s: State): State
    requires ValidData(x) && |s.r| == 16
  {
    if !Passes(x.cc, s.flags) then s else
      var between := FlagsBetween(x, s);
      var t := s.(flags := between);
      if !Passes(x.cc, between) then t else
        Finish(t, R(x.rd),
               Alu(x.f, if HasRn(x.f) then s.r[x.rn] else Zeros(32), Shifted(ShiftedValue(x, s).result, between.c),
                   between),
               x.setFlags)
  }

  lemma AlwaysPasses(f: Flags)
    ensures Passes(AL, f)
  {
  }

  lemma FirstMeans(ext: Ext, x: Data, v: nat, s: State)
    requires ValidData(x) && |s.r| == 16 && (x.sh.ByImm? ==> x.sh.n != 0) && !AlwaysCarries(x)
    ensures Exec(ext, MI(FirstOp(x), FirstData(x, v) + FirstTail(x)), s) ==
              if x.sh.Rrx? || Passes(x.cc, s.flags)
              then Some(s.(flags := FlagsBetween(x, s), virt := s.virt[v := ShiftedValue(x, s).result]))
              else Some(s)
  {
    hide ShiftC, RrxC, LowByte, ControlOf, Passes;
    var d := FirstData(x, v);
    ControlOfTail(d, FirstTail(x));
    ExecGiven(ext, FirstOp(x), d, FirstTail(x), s);
    AlwaysPasses(s.flags);
  }

  lemma SecondMeans(ext: Ext, x: Data, v: nat, t: State)
    requires ValidData(x) && |t.r| == 16 && !AlwaysCarries(x)
    ensures Exec(ext, MI(Base(x.f), SecondData(x, v) + DataTails(x).second + Implicit(Base(x.f))), t) ==
              Some(if Passes(x.cc, t.flags)
                   then Finish(t, R(x.rd), Alu(x.f, if HasRn(x.f) then t.r[x.rn] else Zeros(32),
                                               Shifted(Read(t, RegOp(Virt(v))), t.flags.c), t.flags), x.setFlags)
                   else t)
  {
    hide Alu, Finish, ControlOf, Passes;
    var d := SecondData(x, v);
    ControlOfTail(d, DataTails(x).second);
    ExecParts(ext, Base(x.f), d, DataTails(x).second, t);
    assert ShifterOperand(Base(x.f), d, t) == Shifted(Read(t, RegOp(Virt(v))), t.flags.c);
    AlwaysPasses(t.flags);
  }

  lemma FinishAgrees(s: State, t: State, rd: Operand, x: AluResult, setFlags: bool)
    requires |s.r| == 16 && Agree(s, t) && IsGeneral(rd) && rd.reg.Gpr?
    ensures Agree(Finish(s, rd, x, setFlags), Finish(t, rd, x, setFlags))
  {
  }

  lemma PairMeans(ext: Ext, x: Data, v: nat, s: State)
    requires ValidData(x) && |s.r| == 16 && (x.sh.ByImm? ==> x.sh.n != 0) && !AlwaysCarries(x)
    ensures var t := ExecAll(ext, Replacement(Encode(x), v), s);
            t.Some? && Agree(t.value, PairMeaning(x, s))
  {
    hide Alu, Finish, ControlOf, Passes, Exec, ShiftC, RrxC, LowByte, SplitOne;
    EncodeSplits(x, v);
    var a := MI(FirstOp(x), FirstData(x, v) + FirstTail(x));
    var b := MI(Base(x.f), SecondData(x, v) + DataTails(x).second + Implicit(Base(x.f)));
    assert Replacement(Encode(x), v) == [a, b];
    ExecAllTwo(ext, a, b, s);
    FirstMeans(ext, x, v, s);
    var t := Exec(ext, a, s).value;
    SecondMeans(ext, x, v, t);
    if Passes(x.cc, s.flags) && Passes(x.cc, t.flags) {
      FinishAgrees(t, s.(flags := t.flags), R(x.rd),
                   Alu(x.f, if HasRn(x.f) then s.r[x.rn] else Zeros(32), Shifted(ShiftedValue(x, s).result, t.flags.c),
                       t.flags),
                   x.setFlags);
    }
  }

  // ----- when the two agree

  /** The split form of the instruction does what the instruction does, from every state. */
  ghost predicate Preserved(x: Data)
    requires ValidData(x)
  {
    forall ext: Ext, v: nat, s: State :: |s.r| == 16 ==> PreservedFrom(ext, x, v, s)
  }

  ghost predicate PreservedFrom(ext: Ext, x: Data, v: nat, s: State)
    requires ValidData(x) && |s.r| == 16
  {
    var t := ExecAll(ext, Replacement(Encode(x), v), s);
    t.Some? && Agree(t.value, Meaning(x, s))
  }

  /** The instructions that the pass splits correctly. */
  predicate Supported(x: Data) {
    && (x.sh.ByImm? ==> x.sh.n != 0)
    && !AlwaysCarries(x)
    && (x.setFlags ==>
          && x.f != MOV
          && (ShifterFlags(x.f) ==> !x.sh.Rrx? && x.cc in {AL, 6, 7}))
  }

  lemma SupportedAgrees(x: Data, s: State)
    requires ValidData(x) && Supported(x) && |s.r| == 16
    ensures Agree(PairMeaning(x, s), Meaning(x, s))
  {
    hide ShiftC, RrxC, LowByte, And, Or, Xor, Not, AddWithCarry;
  }

  lemma SupportedPreserved(x: Data)
    requires ValidData(x) && Supported(x)
    ensures Preserved(x)
  {
    forall ext: Ext, v: nat, s: State | |s.r| == 16
      ensures PreservedFrom(ext, x, v, s)
    {
      PairMeans(ext, x, v, s);
      SupportedAgrees(x, s);
    }
  }

  // ----- and when they do not: a state for every instruction that the pass gets wrong

  /** Flags under which a condition holds. */
  function PassingFlags(cc: nat, c: bool): Flags {
    match cc
    case 0 => Flags(false, true, c, false)
    case 2 => Flags(false, false, true, false)
    case 3 => Flags(false, false, false, false)
    case 4 => Flags(true, false, c, false)
    case 6 => Flags(false, false, c, true)
    case 8 => Flags(false, false, true, false)
    case 9 => Flags(false, true, c, false)
    case 11 => Flags(true, false, c, false)
    case 13 => Flags(false, true, c, false)
    case _ => Flags(false, false, c, false)
  }

  lemma PassingFlagsPass(cc: nat, c: bool)
    requires cc <= AL
    ensures Passes(cc, PassingFlags(cc, c))
  {
  }

  /** A state whose general registers all hold `w`. */
  function Uniform(w: Word, flags: Flags): (s: State)
    ensures |s.r| == 16
  {
    State(seq(16, _ => w), map[], map[], flags)
  }

  /** The word with bits `i` and `j` set. */
  function TwoBits(i: nat, j: nat): Word {
    seq(32, k requires 0 <= k < 32 => k == i || k == j)
  }

  lemma LowByteIsOne()
    ensures LowByte(TwoBits(0, 31)) == 1
  {
    var b := TwoBits(0, 31)[..8];
    NoBits(b[1..]);
  }

  lemma LowByteIsFour()
    ensures LowByte(TwoBits(2, 2)) == 4
  {
    var b := TwoBits(2, 2)[..8];
    NoBits(b[3..]);
    assert ToNat(b[2..]) == 1 by { assert b[2..][1..] == b[3..]; }
    assert ToNat(b[1..]) == 2 by { assert b[1..][1..] == b[2..]; }
  }

  lemma LowByteIsZero()
    ensures LowByte(TwoBits(8, 8)) == 0
  {
    NoBits(TwoBits(8, 8)[..8]);
  }

  lemma {:induction false} NoBits(b: seq<bool>)
    requires forall i :: 0 <= i < |b| ==> !b[i]
    ensures ToNat(b) == 0
  {
    if b != [] {
      NoBits(b[1..]);
    }
  }

  /** A word, for all registers, whose shifter carry differs from the carry flag. */
  function CarryWord(sh: Shifter, c: bool): Word {
    if sh.ByReg? then if c then TwoBits(2, 2) else TwoBits(0, 31) else Copies(!c, 32)
  }

  lemma CarryDiffers(x: Data, flags: Flags)
    requires ValidData(x) && (x.sh.ByImm? ==> x.sh.n != 0)
    ensures ShiftedValue(x, Uniform(CarryWord(x.sh, flags.c), flags)).carry != flags.c
  {
    hide LowByte;
    match x.sh
    case ByImm(_, n) =>
      assert n % 32 == n;
    case ByReg(t, _) =>
      LowByteIsOne();
      LowByteIsFour();
    case Rrx =>
  }

  lemma NotPreserved(x: Data, s: State)
    requires ValidData(x) && |s.r| == 16 && (x.sh.ByImm? ==> x.sh.n != 0) && !AlwaysCarries(x)
    requires !Agree(PairMeaning(x, s), Meaning(x, s))
    ensures !Preserved(x)
  {
    hide PairMeaning, Meaning, ExecAll, Replacement, ValidData;
    var ext: Ext := (id, r, m, f) => State(r, map[], m, f);
    PairMeans(ext, x, 0, s);
    assert !PreservedFrom(ext, x, 0, s);
  }

  /** The split form of a flag-setting move, or of a flag-setting logical operation with a rotate through carry,
      leaves the carry flag as it was; the instruction sets it from the shifter. */
  lemma LosesCarry(x: Data)
    requires ValidData(x) && x.setFlags && (x.sh.ByImm? ==> x.sh.n != 0)
    requires x.f == MOV || (ShifterFlags(x.f) && x.sh.Rrx?)
    ensures !Preserved(x)
  {
    hide ShiftedValue, And, Or, Xor, Not, Passes;
    var flags := PassingFlags(x.cc, false);
    var s := Uniform(CarryWord(x.sh, flags.c), flags);
    CarryDiffers(x, flags);
    PassingFlagsPass(x.cc, false);
    assert FlagsBetween(x, s) == flags;
    assert PairMeaning(x, s).flags.c == flags.c;
    assert Meaning(x, s).flags.c == ShiftedValue(x, s).carry;
    NotPreserved(x, s);
  }

  // An encoded amount of zero, which stands for a shift by 32, is taken for a shift by register.

  function ZeroFirst(x: Data, v: nat): seq<Operand> {
    [RegOp(Virt(v)), if HasRn(x.f) then R(x.rn) else R(x.rd), R(x.rm)]
  }

  lemma ZeroSplits(x: Data, v: nat)
    requires ValidData(x) && x.sh.ByImm? && x.sh.n == 0
    ensures Replacement(Encode(x), v) ==
              [MI(ShiftR(x.sh.t), ZeroFirst(x, v) + DataTails(x).first),
               MI(Base(x.f), [R(x.rd), RegOp(Virt(v))] + DataTails(x).second + Implicit(Base(x.f)))]
  {
    hide IsShifter, ShifterIdx, TailsOf, DataTails, SoCode, SoAmount, ImmCount;
    EncodeTails(x);
    EncodeShifterIdx(x);
    var d := DataOperands(x);
    var mi := Encode(x);
    var ops := mi.ops;
    var k := |d| - 1;
    var tails := DataTails(x);
    assert forall i :: 0 <= i < |d| ==> ops[i] == d[i];
    assert SplitOne(mi, v) == SplitData(mi, Base(x.f), v);
    assert SplitData(mi, Base(x.f), v) == Outcome(Some(ShiftPair(mi, Base(x.f), k, v, tails.first, tails.second)),
                                                  v + 1);
    assert [RegOp(Virt(v)), ops[k - 2], ops[k - 1]] == ZeroFirst(x, v);
    assert [ops[0]] + Between(ops, 1, k - 2) + [RegOp(Virt(v))] == [R(x.rd), RegOp(Virt(v))];
    var last := tails.second + Implicit(Base(x.f));
    assert [R(x.rd), RegOp(Virt(v))] + last == [R(x.rd), RegOp(Virt(v))] + tails.second + Implicit(Base(x.f));
  }

  /** Where there is a first operand, it is lost: the second instruction is one operand short. */
  lemma ZeroDropsOperand(x: Data, v: nat)
    requires ValidData(x) && x.sh.ByImm? && x.sh.n == 0 && HasRn(x.f)
    ensures !WellFormed(MI(Base(x.f), [R(x.rd), RegOp(Virt(v))] + DataTails(x).second + Implicit(Base(x.f))))
  {
    var ops := [R(x.rd), RegOp(Virt(v))] + DataTails(x).second;
    assert Explicit(MI(Base(x.f), ops + Implicit(Base(x.f)))) == ops;
    assert |ops| >= 3 ==> ops[3..][0] == RegOp(CPSR);
  }

  function ZeroState(x: Data): (s: State)
    ensures |s.r| == 16
  {
    Uniform(TwoBits(8, 8), PassingFlags(x.cc, false))
  }

  /** The shift amount is the low byte of a register, zero in this state: the value is not shifted at all. */
  lemma ZeroFirstMeans(ext: Ext, x: Data, v: nat)
    requires ValidData(x) && x.sh.ByImm? && x.sh.n == 0 && !HasRn(x.f)
    ensures var t := Exec(ext, MI(ShiftR(x.sh.t), ZeroFirst(x, v) + DataTails(x).first), ZeroState(x));
            t.Some? && t.value.r == ZeroState(x).r && Read(t.value, RegOp(Virt(v))) == TwoBits(8, 8)
  {
    hide Passes, ControlOf, LowByte;
    var d := ZeroFirst(x, v);
    PassingFlagsPass(x.cc, false);
    LowByteIsZero();
    ControlOfTail(d, DataTails(x).first);
    ExecGiven(ext, ShiftR(x.sh.t), d, DataTails(x).first, ZeroState(x));
    AlwaysPasses(ZeroState(x).flags);
  }

  lemma ZeroMeaning(x: Data)
    requires ValidData(x) && x.sh.ByImm? && x.sh.n == 0 && !HasRn(x.f)
    ensures Meaning(x, ZeroState(x)).r[x.rd] == if x.f == MOV then Zeros(32) else Not(Zeros(32))
  {
    hide Passes, LowByte;
    PassingFlagsPass(x.cc, false);
    assert ShiftedValue(x, ZeroState(x)).result == Zeros(32);
  }

  /** Where there is none, the destination is shifted in place of the source. */
  lemma ZeroShiftsWrongRegister(ext: Ext, x: Data, v: nat)
    requires ValidData(x) && x.sh.ByImm? && x.sh.n == 0 && !HasRn(x.f)
    ensures !PreservedFrom(ext, x, v, ZeroState(x))
  {
    hide Passes, ControlOf, Exec, Meaning, Replacement, ShiftC;
    var w := TwoBits(8, 8);
    var a, b := MI(ShiftR(x.sh.t), ZeroFirst(x, v) + DataTails(x).first),
        MI(Base(x.f), SecondData(x, v) + DataTails(x).second + Implicit(Base(x.f)));
    ZeroSplits(x, v);
    ExecAllTwo(ext, a, b, ZeroState(x));
    ZeroFirstMeans(ext, x, v);
    var t := Exec(ext, a, ZeroState(x)).value;
    SecondMeans(ext, x, v, t);
    ZeroMeaning(x);
    assert w[8] && !w[9] && !Not(w)[8] && Not(w)[9];
    assert Exec(ext, b, t).value.r[x.rd] in {w, Not(w)};
  }

  lemma AmountZeroBreaks(x: Data)
    requires ValidData(x) && x.sh.ByImm? && x.sh.n == 0
    ensures !Preserved(x)
  {
    hide Exec, Meaning, Replacement, DataTails;
    var ext: Ext := (id, r, m, f) => State(r, map[], m, f);
    if HasRn(x.f) {
      ZeroSplits(x, 0);
      ZeroDropsOperand(x, 0);
      var a, b := MI(ShiftR(x.sh.t), ZeroFirst(x, 0) + DataTails(x).first),
          MI(Base(x.f), [R(x.rd), RegOp(Virt(0))] + DataTails(x).second + Implicit(Base(x.f)));
      ExecAllTwo(ext, a, b, ZeroState(x));
      MalformedStops(ext, b);
    } else {
      ZeroShiftsWrongRegister(ext, x, 0);
    }
    assert !PreservedFrom(ext, x, 0, ZeroState(x));
  }

  lemma MalformedStops(ext: Ext, mi: MI)
    requires !WellFormed(mi)
    ensures forall s: State :: |s.r| == 16 ==> Exec(ext, mi, s).None?
  {
  }

  // ----- additions with carry

  /** An addition with carry that does not set flags becomes one that does; the operands of one that does are mixed
      up. */
  lemma AlwaysCarriesBreaks(x: Data)
    requires ValidData(x) && AlwaysCarries(x) && (x.sh.ByImm? ==> x.sh.n != 0)
    ensures !Preserved(x)
  {
    hide Exec, Meaning, Replacement, SplitOne, ShiftC, RrxC, LowByte;
    var ext: Ext := (id, r, m, f) => State(r, map[], m, f);
    var s := Uniform(Zeros(32), Flags(true, true, false, false));
    EncodeSplits(x, 0);
    var a := MI(FirstOp(x), FirstData(x, 0) + FirstTail(x));
    var b := MI(Base(x.f), SecondData(x, 0) + DataTails(x).second + Implicit(Base(x.f)));
    assert Replacement(Encode(x), 0) == [a, b] by { SplitReplaces(Encode(x), 0, [a, b]); }
    ExecAllTwo(ext, a, b, s);
    if x.setFlags {
      MixedUp(x, 0);
      MalformedStops(ext, b);
    } else {
      CarryFirst(ext, x, 0, s);
      var t := Exec(ext, a, s).value;
      CarrySetsFlags(ext, x, 0, t);
      NoFlagsMeaning(x, s);
    }
    assert !PreservedFrom(ext, x, 0, s);
  }

  lemma SplitReplaces(mi: MI, v: nat, out: seq<MI>)
    requires SplitOne(mi, v).out == Some(out)
    ensures Replacement(mi, v) == out
  {
  }

  lemma MixedUp(x: Data, v: nat)
    requires ValidData(x) && AlwaysCarries(x) && x.setFlags
    ensures !WellFormed(MI(Base(x.f), SecondData(x, v) + DataTails(x).second + Implicit(Base(x.f))))
  {
    var ops := SecondData(x, v) + DataTails(x).second;
    assert Explicit(MI(Base(x.f), ops + Implicit(Base(x.f)))) == ops;
    assert ops[3..] == DataTails(x).second;
  }

  lemma CarryFirst(ext: Ext, x: Data, v: nat, s: State)
    requires ValidData(x) && AlwaysCarries(x) && !x.setFlags && |s.r| == 16
    ensures Exec(ext, MI(FirstOp(x), FirstData(x, v) + FirstTail(x)), s).Some?
  {
    hide ShiftC, RrxC, LowByte, ControlOf, Passes;
    ExecGiven(ext, FirstOp(x), FirstData(x, v), FirstTail(x), s);
  }

  /** No result is both negative and zero. */
  lemma CarrySetsFlags(ext: Ext, x: Data, v: nat, t: State)
    requires ValidData(x) && AlwaysCarries(x) && !x.setFlags && |t.r| == 16
    ensures var u := Exec(ext, MI(Base(x.f), SecondData(x, v) + DataTails(x).second + Implicit(Base(x.f))), t);
            u.Some? && !(u.value.flags.n && u.value.flags.z)
  {
    hide Alu, ControlOf, Passes;
    var d, tail := SecondData(x, v), DataTails(x).second;
    ControlOfTail(d, tail);
    ExecParts(ext, Base(x.f), d, tail, t);
    AlwaysPasses(t.flags);
  }

  lemma NoFlagsMeaning(x: Data, s: State)
    requires ValidData(x) && !x.setFlags && |s.r| == 16
    ensures Meaning(x, s).flags == s.flags
  {
    hide Alu, ShiftedValue, Passes;
  }

  // ----- flag-setting logical operations under a condition

  /** The shift of the split form sets the flags that the operation's condition is then tested on. */
  predicate Entangled(x: Data) {
    x.setFlags && ShifterFlags(x.f) && !x.sh.Rrx? && (x.sh.ByImm? ==> x.sh.n != 0) && x.cc !in {AL, 6, 7}
  }

  /** Main result on splitting: for every shifted data-processing instruction outside the entangled class, the pass
      preserves it, from every state, exactly when it is of a supported kind. */
  lemma PreservedIffSupported(x: Data)
    requires ValidData(x) && !Entangled(x)
    ensures Preserved(x) <==> Supported(x)
  {
    if Supported(x) {
      SupportedPreserved(x);
    } else if x.sh.ByImm? && x.sh.n == 0 {
      AmountZeroBreaks(x);
    } else if AlwaysCarries(x) {
      AlwaysCarriesBreaks(x);
    } else {
      LosesCarry(x);
    }
  }
}
