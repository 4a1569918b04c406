/** Raising, step by step, as functions on the state of raising. */
module RaisingFunction {
  import opened Wrappers
  import opened ControlFlow
  import opened ReachingDefinitions
  import opened RaisedSemantics

  datatype Location = InSlot(slot: Slot) | Direct(v: Value)

  /** A lookup answered from outside its block: register `reg` in block `block` is reached by the definitions in
      the blocks `defs` through the blocks `through`, and its value was to be found at `loc`. */
  datatype Query = Query(reg: Reg, block: Block, defs: set<Block>, through: set<Block>, loc: Location)

  /** The state of raising. `progress` counts the raised instructions of every block. */
  datatype Raising = Raising(
    defs: DefMap,
    body: seq<seq<RInst>>,
    term: seq<Option<seq<Value>>>,
    toPromote: set<(Reg, Block, Slot)>,
    nextId: nat,
    nextSlot: nat,
    started: set<Block>,
    progress: seq<nat>,
    queries: set<Query>)

  /** What raising asks LLVM: whether a block dominates another, and whether the uses of a value stay when it is stored
      in a slot: those of a load from memory do, and those of a value that is cast to the slot's type first. */
  datatype Llvm = Llvm(dominates: (Block, Block) -> bool, exempt: (Value, Slot) -> bool)

  function LocalVal(p: Program, s: Raising, r: Reg, b: Block): Option<Value> {
    InBlock(p.args, s.defs, r, b).value
  }

  function Target(i: MInst): Option<Reg> {
    match i
    case Op(dst, _, _) => Some(dst)
    case Copy(dst, _) => Some(dst)
    case Use(_) => None
  }

  function RTarget(i: RInst): Option<Value> {
    match i
    case Load(v, _) => Some(v)
    case Compute(v, _, _) => Some(v)
    case Store(_, _) => None
    case Emit(_) => None
  }

  function Reads(i: RInst): seq<Value> {
    match i
    case Load(_, _) => []
    case Compute(_, _, args) => args
    case Store(_, v) => [v]
    case Emit(vals) => vals
  }

  /** The machine code of block `b` writes `r`. */
  ghost predicate Writes(p: Program, r: Reg, b: Block) {
    b < |p.blocks| && exists i :: 0 <= i < |p.blocks[b].insts| && Target(p.blocks[b].insts[i]) == Some(r)
  }

  ghost predicate Shape(p: Program, s: Raising) {
    && ValidProgram(p)
    && |s.body| == |s.term| == |s.progress| == |p.blocks|
    && (forall b :: 0 <= b < |p.blocks| ==> s.progress[b] <= |p.blocks[b].insts|)
  }

  ghost predicate Done(p: Program, s: Raising, b: Block)
    requires Shape(p, s)
  {
    b < |p.blocks| && b in s.started && s.progress[b] == |p.blocks[b].insts|
  }

  /** The state before any block is raised: every written or argument register has an entry without a value. */
  ghost predicate Initial(p: Program, s: Raising) {
    && Shape(p, s)
    && (forall r: Reg, b: Block :: (r, b) in s.defs <==> Writes(p, r, b) || (b == 0 && r in p.args))
    && (forall k :: k in s.defs ==> s.defs[k].None?)
    && s.started == {} && s.queries == {} && s.toPromote == {}
    && (forall b :: 0 <= b < |p.blocks| ==> s.progress[b] == 0 && s.body[b] == [] && s.term[b].None?)
  }

  // ----- promotion of a value to a slot

  function WithStore(s: Raising, d: Block, slot: Slot, v: Value): Raising
    requires d < |s.body|
  {
    s.(body := s.body[d := s.body[d] + [Store(slot, v)]])
  }

  function Substitute(vals: seq<Value>, v: Value, w: Value): (r: seq<Value>)
    ensures |r| == |vals| && forall i :: 0 <= i < |r| ==> r[i] == if vals[i] == v then w else vals[i]
  {
    seq(|vals|, i requires 0 <= i < |vals| => if vals[i] == v then w else vals[i])
  }

  /** Replaces all uses of `v` in one instruction. */
  function Redirected(i: RInst, v: Value, w: Value): RInst {
    match i
    case Load(_, _) => i
    case Compute(x, op, args) => Compute(x, op, Substitute(args, v, w))
    case Store(slot, x) => Store(slot, if x == v then w else x)
    case Emit(vals) => Emit(Substitute(vals, v, w))
  }

  /** Puts a load from `slot` in front of every instruction that uses `v`, and has the instruction use that. The loads
      get names of block `u` from `id` on; the second result is the next free one. */
  function Reloaded(body: seq<RInst>, v: Value, slot: Slot, u: Block, id: nat): (r: (seq<RInst>, nat))
    ensures id <= r.1
  {
    if body == [] then ([], id) else
      var (front, n) := Reloaded(Front(body), v, slot, u, id);
      var i := Last(body);
      if v in Reads(i) then (front + [Load(Inst(u, n), slot), Redirected(i, v, Inst(u, n))], n + 1)
          else (front + [i], n)
  }

  /** From now on, what was taken directly from `v` in block `u` is to be found in the slot as well. */
  function ReloadedQueries(queries: set<Query>, u: Block, v: Value, slot: Slot): set<Query> {
    set q | q in queries && q.block == u && q.loc == Direct(v) :: q.(loc := InSlot(slot))
  }

  function WithReloads(s: Raising, u: Block, v: Value, slot: Slot): Raising
    requires u < |s.body|
  {
    var (body, n) := Reloaded(s.body[u], v, slot, u, s.nextId);
    s.(body := s.body[u := body], nextId := n, queries := s.queries + ReloadedQueries(s.queries, u, v, slot))
  }

  /** The same for the terminator of block `u`. */
  function WithTermReload(s: Raising, u: Block, v: Value, slot: Slot): Raising
    requires u < |s.body| == |s.term|
  {
    if s.term[u].Some? && v in s.term[u].value then
      var w := Inst(u, s.nextId);
      s.(body := s.body[u := s.body[u] + [Load(w, slot)]], nextId := s.nextId + 1,
         term := s.term[u := Some(Substitute(s.term[u].value, v, w))])
    else s
  }

  /** What promotions change of the state: bodies, terminators, the names in use and what is known of the lookups. */
  ghost predicate Rewritten(s: Raising, t: Raising) {
    && t == s.(body := t.body, term := t.term, nextId := t.nextId, queries := t.queries)
    && |t.body| == |s.body| && |t.term| == |s.term|
    && (forall b :: 0 <= b < |s.term| ==> (t.term[b].Some? <==> s.term[b].Some?))
    && s.nextId <= t.nextId
    && s.queries <= t.queries
  }

  /** Replaces the uses of `v`, stored in `slot` by block `d`, in the first `n` blocks, as far as `d` dominates them. */
  function ReloadedUpTo(ll: Llvm, s: Raising, d: Block, v: Value, slot: Slot, n: nat): (t: Raising)
    requires n <= |s.body| == |s.term|
    ensures Rewritten(s, t)
  {
    if n == 0 then s else
      var t := ReloadedUpTo(ll, s, d, v, slot, n - 1);
      if n - 1 != d && ll.dominates(d, n - 1) then WithTermReload(WithReloads(t, n - 1, v, slot), n - 1, v, slot) else t
  }

  predicate IsLoaded(body: seq<seq<RInst>>, v: Value) {
    v.Inst? && v.block < |body| && exists i :: 0 <= i < |body[v.block]| && body[v.block][i].Load?
                                               && body[v.block][i].v == v
  }

  /** Promotes `v`, the value of a register on leaving block `d`: stores it at the end of the block and, unless it is an
      argument or a load, has its uses in other blocks load it. */
  function Promoted(ll: Llvm, s: Raising, d: Block, v: Value, slot: Slot): (t: Raising)
    requires d < |s.body| == |s.term|
    ensures Rewritten(s, t)
  {
    var t := WithStore(s, d, slot, v);
    if v.Arg? || IsLoaded(t.body, v) || ll.exempt(v, slot) then t else ReloadedUpTo(ll, t, d, v, slot, |t.body|)
  }

  // ----- lookups

  ghost function SearchQuery(p: Program, s: Raising, r: Reg, b: Block, loc: Location): Query {
    Query(r, b, BlocksOf(ReachingFrom(p.preds, p.args, s.defs, r, b, 0)), Through(p.preds, p.args, s.defs, r, b), loc)
  }

  /** Promotes those of the first `n` definitions whose value is known. */
  function PromotedUpTo(ll: Llvm, s: Raising, rds: seq<ReachingDef>, slot: Slot, n: nat): (t: Raising)
    requires n <= |rds| && |s.body| == |s.term|
    requires forall x :: x in rds ==> x.0 < |s.body|
    ensures Rewritten(s, t)
  {
    if n == 0 then s else
      var t := PromotedUpTo(ll, s, rds, slot, n - 1);
      var rd := rds[n - 1];
      if rd.1.Some? then Promoted(ll, t, rd.0, rd.1.value, slot) else t
  }

  /** The promotions that have to wait for their blocks to be raised. */
  function Waiting(r: Reg, rds: seq<ReachingDef>, slot: Slot): set<(Reg, Block, Slot)> {
    set x | x in rds && x.1.None? :: (r, x.0, slot)
  }

  function WithLoad(s: Raising, r: Reg, b: Block, slot: Slot): Raising
    requires b < |s.body|
  {
    var v := Inst(b, s.nextId);
    s.(body := s.body[b := s.body[b] + [Load(v, slot)]], nextId := s.nextId + 1, defs := s.defs[(r, b) := Some(v)])
  }

  function WithQuery(s: Raising, q: Query, waiting: set<(Reg, Block, Slot)>): Raising {
    s.(queries := s.queries + {q}, toPromote := s.toPromote + waiting)
  }

  /** Several definitions reach: all are promoted to a new slot, which is loaded from. */
  ghost function FromSlot(p: Program, ll: Llvm, s: Raising, r: Reg, b: Block, rds: seq<ReachingDef>): Raising
    requires b < |s.body| == |s.term|
    requires forall x :: x in rds ==> x.0 < |s.body|
  {
    var slot := s.nextSlot;
    var t := PromotedUpTo(ll, s.(nextSlot := slot + 1), rds, slot, |rds|);
    WithLoad(WithQuery(t, SearchQuery(p, s, r, b, InSlot(slot)), Waiting(r, rds, slot)), r, b, slot)
  }

  ghost function Defs(p: Program, s: Raising, r: Reg, b: Block, allPreds: bool): (rds: seq<ReachingDef>)
    requires Shape(p, s) && b < |p.blocks|
    ensures forall x :: x in rds ==> x.0 < |s.body|
  {
    ReachingDefs(p.preds, p.args, s.defs, r, b, allPreds)
  }

  /** Lookups and raised instructions leave the shape of the state alone. */
  ghost predicate SameShape(p: Program, s: Raising, t: Raising) {
    && Shape(p, t) && t.progress == s.progress && t.started == s.started
    && |s.term| == |t.term| && forall b :: 0 <= b < |s.term| && s.term[b].Some? ==> t.term[b].Some?
  }

  /** Looks up `r` in block `b`: what it makes of the state, and the value. */
  ghost function Answered(p: Program, ll: Llvm, s: Raising, r: Reg, b: Block, allPreds: bool): (t: Raising)
    requires Shape(p, s) && b < |p.blocks|
    ensures SameShape(p, s, t)
  {
    var rds := Defs(p, s, r, b, allPreds);
    if LocalVal(p, s, r, b).Some? || |rds| == 0 then s
    else if |rds| > 1 then FromSlot(p, ll, s, r, b, rds)
    else if rds[0].1.None? then s
    else WithQuery(s, SearchQuery(p, s, r, b, Direct(rds[0].1.value)), {})
  }

  ghost function Answer(p: Program, ll: Llvm, s: Raising, r: Reg, b: Block, allPreds: bool): Option<Value>
    requires Shape(p, s) && b < |p.blocks|
  {
    var rds := Defs(p, s, r, b, allPreds);
    if |rds| == 0 then None
    else if |rds| > 1 then LocalVal(p, Answered(p, ll, s, r, b, allPreds), r, b)
    else rds[0].1
  }

  // ----- instructions

  /** Looks up the registers that an instruction or a terminator reads. */
  ghost function Operands(p: Program, ll: Llvm, s: Raising, regs: seq<Reg>,
                          b: Block): (t: Option<(Raising, seq<Value>)>)
    requires Shape(p, s) && b < |p.blocks|
    ensures t.Some? ==> SameShape(p, s, t.value.0) && |t.value.1| == |regs|
  {
    if regs == [] then Some((s, [])) else
      var front := Operands(p, ll, s, Front(regs), b);
      if front.None? then None else
        var v := Answer(p, ll, front.value.0, Last(regs), b, false);
        if v.None? then None else
          Some((Answered(p, ll, front.value.0, Last(regs), b, false), front.value.1 + [v.value]))
  }

  function WithOp(s: Raising, b: Block, dst: Reg, op: nat, vals: seq<Value>): Raising
    requires b < |s.body| == |s.progress|
  {
    var v := Inst(b, s.nextId);
    s.(body := s.body[b := s.body[b] + [Compute(v, op, vals)]], nextId := s.nextId + 1,
       defs := s.defs[(dst, b) := Some(v)], progress := s.progress[b := s.progress[b] + 1])
  }

  function WithCopy(s: Raising, b: Block, dst: Reg, v: Value): Raising
    requires b < |s.progress|
  {
    s.(defs := s.defs[(dst, b) := Some(v)], progress := s.progress[b := s.progress[b] + 1])
  }

  function WithEmit(s: Raising, b: Block, vals: seq<Value>): Raising
    requires b < |s.body| == |s.progress|
  {
    s.(body := s.body[b := s.body[b] + [Emit(vals)]], progress := s.progress[b := s.progress[b] + 1])
  }

  function ReadRegs(i: MInst): seq<Reg> {
    match i
    case Op(_, _, srcs) => srcs
    case Copy(_, src) => [src]
    case Use(regs) => regs
  }

  /** Records an instruction whose operands are looked up. */
  function Recorded(s: Raising, b: Block, i: MInst, vals: seq<Value>): Raising
    requires b < |s.body| == |s.progress| && |vals| == |ReadRegs(i)|
  {
    match i
    case Op(dst, op, _) => WithOp(s, b, dst, op, vals)
    case Copy(dst, _) => WithCopy(s, b, dst, vals[0])
    case Use(_) => WithEmit(s, b, vals)
  }

  /** Raises the next instruction of block `b`. Fails if it reads a register that has no value. */
  ghost function RaisedInst(p: Program, ll: Llvm, s: Raising, b: Block): (t: Option<Raising>)
    requires Shape(p, s) && b < |p.blocks| && s.progress[b] < |p.blocks[b].insts|
    ensures t.Some? ==> Shape(p, t.value) && t.value.started == s.started
    ensures t.Some? ==> t.value.progress == s.progress[b := s.progress[b] + 1]
  {
    var i := p.blocks[b].insts[s.progress[b]];
    var operands := Operands(p, ll, s, ReadRegs(i), b);
    if operands.None? then None else Some(Recorded(operands.value.0, b, i, operands.value.1))
  }

  /** Raises the first `n` instructions of block `b`. */
  ghost function RaisedInsts(p: Program, ll: Llvm, s: Raising, b: Block, n: nat): (t: Option<Raising>)
    requires Shape(p, s) && b < |p.blocks| && s.progress[b] == 0 && n <= |p.blocks[b].insts|
    ensures t.Some? ==> Shape(p, t.value) && t.value.started == s.started && t.value.progress == s.progress[b := n]
  {
    if n == 0 then Some(s) else
      var t := RaisedInsts(p, ll, s, b, n - 1);
      if t.None? then None else RaisedInst(p, ll, t.value, b)
  }

  /** Raises all instructions of block `b` but its terminator. */
  ghost function RaisedBlock(p: Program, ll: Llvm, s: Raising, b: Block): (t: Option<Raising>)
    requires Shape(p, s) && b < |p.blocks| && s.progress[b] == 0
    ensures t.Some? ==> Shape(p, t.value) && t.value.progress == s.progress[b := |p.blocks[b].insts|]
  {
    RaisedInsts(p, ll, s.(started := s.started + {b}), b, |p.blocks[b].insts|)
  }

  /** The blocks of the function in some order, the entry first. */
  ghost predicate BlockOrder(p: Program, order: seq<Block>) {
    && (forall b: Block :: b in order <==> b < |p.blocks|)
    && (forall i, j :: 0 <= i < j < |order| ==> order[i] != order[j])
    && order != [] && order[0] == 0
  }

  /** Raises the first `n` blocks in the given order. */
  ghost function RaisedBlocks(p: Program, ll: Llvm, s: Raising, order: seq<Block>, n: nat): (t: Option<Raising>)
    requires Initial(p, s) && BlockOrder(p, order) && n <= |order|
    ensures t.Some? ==> Shape(p, t.value)
    ensures t.Some? ==> forall i :: n <= i < |order| ==> order[i] < |p.blocks| && t.value.progress[order[i]] == 0
  {
    if n == 0 then
      assert forall i :: 0 <= i < |order| ==> order[i] in order;
      Some(s)
    else
      var t := RaisedBlocks(p, ll, s, order, n - 1);
      if t.None? then None else RaisedBlock(p, ll, t.value, order[n - 1])
  }

  /** Raises the terminator of block `b`, after all blocks are raised. */
  ghost function RaisedTerm(p: Program, ll: Llvm, s: Raising, b: Block): (t: Option<Raising>)
    requires Shape(p, s) && b < |p.blocks|
    ensures t.Some? ==> SameShape(p, s, t.value) && t.value.term[b].Some?
  {
    var operands := Operands(p, ll, s, p.blocks[b].term, b);
    if operands.None? then None else
      var t := operands.value.0;
      Some(t.(term := t.term[b := Some(operands.value.1)]))
  }

  ghost function RaisedTerms(p: Program, ll: Llvm, s: Raising, order: seq<Block>, n: nat): (t: Option<Raising>)
    requires Shape(p, s) && BlockOrder(p, order) && n <= |order|
    ensures t.Some? ==> SameShape(p, s, t.value)
  {
    if n == 0 then Some(s) else
      var t := RaisedTerms(p, ll, s, order, n - 1);
      if t.None? then None else
        assert order[n - 1] in order;
        RaisedTerm(p, ll, t.value, order[n - 1])
  }

  /** Carries out a promotion that had to wait. Fails if the register still has no value. */
  ghost function Resolved(p: Program, ll: Llvm, s: Raising, x: (Reg, Block, Slot)): (t: Option<Raising>)
    requires Shape(p, s)
    ensures t.Some? ==> SameShape(p, s, t.value)
  {
    var v := LocalVal(p, s, x.0, x.1);
    if x.1 >= |p.blocks| || v.None? then None else
      Some(Promoted(ll, s, x.1, v.value, x.2).(toPromote := s.toPromote - {x}))
  }

  ghost function ResolvedUpTo(p: Program, ll: Llvm, s: Raising, waiting: seq<(Reg, Block, Slot)>,
                              n: nat): (t: Option<Raising>)
    requires Shape(p, s) && n <= |waiting|
    ensures t.Some? ==> SameShape(p, s, t.value)
  {
    if n == 0 then Some(s) else
      var t := ResolvedUpTo(p, ll, s, waiting, n - 1);
      if t.None? then None else Resolved(p, ll, t.value, waiting[n - 1])
  }

  /** All blocks in the given order, then the terminators. */
  ghost function RaisedCode(p: Program, ll: Llvm, s: Raising, order: seq<Block>): (t: Option<Raising>)
    requires Initial(p, s) && BlockOrder(p, order)
    ensures t.Some? ==> Shape(p, t.value)
  {
    var t := RaisedBlocks(p, ll, s, order, |order|);
    if t.None? then None else RaisedTerms(p, ll, t.value, order, |order|)
  }

  ghost predicate Enumerates<T(!new)>(xs: seq<T>, all: set<T>) {
    && (forall x :: x in xs <==> x in all)
    && (forall i, j :: 0 <= i < j < |xs| ==> xs[i] != xs[j])
  }

  /** `t` is a result of raising the whole function: at last, the promotions that had to wait are carried out in some
      order. */
  ghost predicate RaisedFunction(p: Program, ll: Llvm, s: Raising, order: seq<Block>, t: Raising)
    requires Initial(p, s) && BlockOrder(p, order)
  {
    var code := RaisedCode(p, ll, s, order);
    code.Some? && exists waiting :: Enumerates(waiting, code.value.toPromote)
                                    && ResolvedUpTo(p, ll, code.value, waiting, |waiting|) == Some(t)
  }
}
