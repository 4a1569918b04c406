/** What a machine function and its raised form compute, and when the raised form is right. */
module RaisedSemantics {
  import opened Wrappers
  import opened ControlFlow
  import opened ReachingDefinitions

  type Slot = nat

  /** An instruction computes a register from registers, copies a register, or only reads registers
      (a store, a call, a return). */
  datatype MInst = Op(dst: Reg, op: nat, srcs: seq<Reg>) | Copy(dst: Reg, src: Reg) | Use(regs: seq<Reg>)

  /** A block ends with a terminator. `term` are the registers that are looked up for it only after all blocks are
      raised, as for a jump table; the flags of a conditional jump are read by a `Use` at the end of `insts`. */
  datatype MBlock = MBlock(insts: seq<MInst>, term: seq<Reg>)

  datatype Program = Program(preds: Preds, blocks: seq<MBlock>, args: set<Reg>)

  /** Block 0 is the entry and, as in LLVM IR, has no predecessors. */
  ghost predicate ValidProgram(p: Program) {
    && |p.blocks| == |p.preds| > 0
    && ValidCfg(p.preds)
    && p.preds[0] == []
  }

  datatype RInst = Load(v: Value, slot: Slot) | Compute(v: Value, op: nat, args: seq<Value>)
                 | Store(slot: Slot, v: Value) | Emit(vals: seq<Value>)

  /** The meaning of the opcodes. Beside its operands an operation reads an input that differs from execution to
      execution, as a call or a load from memory does: how many operations were executed before it. */
  type Eval = (nat, nat, seq<int>) -> int

  /** Registers without an entry are undefined; `out` is what the instructions executed so far have read, and `tick`
      counts the operations executed so far. */
  datatype MState = MState(regs: map<Reg, int>, out: seq<seq<Option<int>>>, tick: nat)
  datatype RState = RState(env: map<Value, int>, slots: map<Slot, int>, out: seq<seq<Option<int>>>, tick: nat)

  function Get<K, V>(m: map<K, V>, k: K): Option<V> {
    if k in m then Some(m[k]) else None
  }

  function Put<K, V>(m: map<K, V>, k: K, v: Option<V>): map<K, V> {
    if v.Some? then m[k := v.value] else m - {k}
  }

  function GetAll<K, V>(m: map<K, V>, ks: seq<K>): (r: seq<Option<V>>)
    ensures |r| == |ks| && forall i :: 0 <= i < |ks| ==> r[i] == Get(m, ks[i])
  {
    if ks == [] then [] else [Get(m, ks[0])] + GetAll(m, ks[1..])
  }

  predicate AllSome(vs: seq<Option<int>>) {
    forall v :: v in vs ==> v.Some?
  }

  function Values(vs: seq<Option<int>>): seq<int>
    requires AllSome(vs)
  {
    seq(|vs|, i requires 0 <= i < |vs| => assert vs[i] in vs; vs[i].value)
  }

  /** An operation with an undefined operand has an undefined result. */
  function Apply(ev: Eval, op: nat, tick: nat, vs: seq<Option<int>>): Option<int> {
    if AllSome(vs) then Some(ev(op, tick, Values(vs))) else None
  }

  function MStep(ev: Eval, i: MInst, s: MState): MState {
    match i
    case Op(dst, op, srcs) => s.(regs := Put(s.regs, dst, Apply(ev, op, s.tick, GetAll(s.regs, srcs))),
                                 tick := s.tick + 1)
    case Copy(dst, src) => s.(regs := Put(s.regs, dst, Get(s.regs, src)))
    case Use(regs) => s.(out := s.out + [GetAll(s.regs, regs)])
  }

  function MRun(ev: Eval, insts: seq<MInst>, s: MState): MState {
    if insts == [] then s else MStep(ev, Last(insts), MRun(ev, Front(insts), s))
  }

  function RStep(ev: Eval, i: RInst, s: RState): RState {
    match i
    case Load(v, slot) => s.(env := Put(s.env, v, Get(s.slots, slot)))
    case Compute(v, op, args) => s.(env := Put(s.env, v, Apply(ev, op, s.tick, GetAll(s.env, args))),
                                    tick := s.tick + 1)
    case Store(slot, v) => s.(slots := Put(s.slots, slot, Get(s.env, v)))
    case Emit(vals) => s.(out := s.out + [GetAll(s.env, vals)])
  }

  function RRun(ev: Eval, insts: seq<RInst>, s: RState): RState {
    if insts == [] then s else RStep(ev, Last(insts), RRun(ev, Front(insts), s))
  }

  /** The raised value is the machine's wherever the machine's is defined. */
  predicate Agree(m: seq<Option<int>>, r: seq<Option<int>>) {
    |m| == |r| && forall i :: 0 <= i < |m| ==> m[i].Some? ==> r[i] == m[i]
  }

  predicate OutAgree(m: seq<seq<Option<int>>>, r: seq<seq<Option<int>>>) {
    |m| == |r| && forall i :: 0 <= i < |m| ==> Agree(m[i], r[i])
  }

  lemma ApplyAgree(ev: Eval, op: nat, tick: nat, m: seq<Option<int>>, r: seq<Option<int>>)
    requires Agree(m, r)
    ensures Apply(ev, op, tick, m).Some? ==> Apply(ev, op, tick, r) == Apply(ev, op, tick, m)
  {
    if AllSome(m) {
      assert forall i :: 0 <= i < |m| ==> m[i] in m;
      assert m == r;
    }
  }

  /** A raised function: for every block its body and, once raised, the operands of its terminator. */
  datatype RBlock = RBlock(body: seq<RInst>, term: Option<seq<Value>>)

  function MBlockRun(ev: Eval, b: MBlock, s: MState): MState {
    var t := MRun(ev, b.insts, s);
    t.(out := t.out + [GetAll(t.regs, b.term)])
  }

  function RBlockRun(ev: Eval, b: RBlock, s: RState): RState
    requires b.term.Some?
  {
    var t := RRun(ev, b.body, s);
    t.(out := t.out + [GetAll(t.env, b.term.value)])
  }

  /** A run of the function: a path from the entry block. */
  ghost predicate IsRun(p: Program, path: seq<Block>) {
    && |path| > 0
    && path[0] == 0
    && forall i :: 0 < i < |path| ==> Edge(p.preds, path[i - 1], path[i])
  }

  lemma RunFront(p: Program, path: seq<Block>)
    requires ValidProgram(p) && IsRun(p, path)
    ensures Last(path) < |p.blocks|
    ensures |path| > 1 ==> IsRun(p, Front(path)) && Edge(p.preds, Last(Front(path)), Last(path))
  {
    assert |path| > 1 ==> Edge(p.preds, path[|path| - 2], path[|path| - 1]);
  }

  ghost function MPath(p: Program, ev: Eval, s: MState, path: seq<Block>): MState
    requires ValidProgram(p) && IsRun(p, path)
    decreases |path|
  {
    RunFront(p, path);
    MBlockRun(ev, p.blocks[Last(path)], if |path| == 1 then s else MPath(p, ev, s, Front(path)))
  }

  ghost function RPath(p: Program, raised: seq<RBlock>, ev: Eval, s: RState, path: seq<Block>): RState
    requires ValidProgram(p) && IsRun(p, path)
    requires |raised| == |p.blocks| && forall b :: 0 <= b < |raised| ==> raised[b].term.Some?
    decreases |path|
  {
    RunFront(p, path);
    RBlockRun(ev, raised[Last(path)], if |path| == 1 then s else RPath(p, raised, ev, s, Front(path)))
  }

  /** A machine state and a raised state in which the function may be entered: only argument registers are
      defined, and the arguments hold their values. Slots and other values are arbitrary. */
  ghost predicate EntryStates(p: Program, ms: MState, rs: RState) {
    && ms.out == [] && rs.out == [] && ms.tick == rs.tick
    && forall r :: r in ms.regs ==> r in p.args && Get(rs.env, Arg(r)) == Some(ms.regs[r])
  }

  /** The raised function does what the machine function does, on every run from every entry. */
  ghost predicate Refines(p: Program, raised: seq<RBlock>)
    requires ValidProgram(p)
  {
    && |raised| == |p.blocks|
    && (forall b :: 0 <= b < |raised| ==> raised[b].term.Some?)
    && forall ev: Eval, ms: MState, rs: RState, path: seq<Block> ::
         EntryStates(p, ms, rs) && IsRun(p, path) ==>
             OutAgree(MPath(p, ev, ms, path).out, RPath(p, raised, ev, rs, path).out)
  }
}
