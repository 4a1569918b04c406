/** What holds between the steps of raising a function, and why it makes the finished function right. */
module RaisingInvariant {
  import opened Wrappers
  import opened ControlFlow
  import opened ReachingDefinitions
  import opened RaisedSemantics
  import opened RaisingFunction
  import opened GoodPrograms

  // ----- bodies: values are assigned once, in their own block, slots are allocated before they are used, and stores
  // come last

  ghost predicate Named(s: Raising, v: Value) {
    v.Inst? ==> v.id < s.nextId
  }

  ghost predicate BodyInstOk(s: Raising, b: Block, i: RInst) {
    && (RTarget(i).Some? ==> var v := RTarget(i).value; v.Inst? && v.block == b && v.id < s.nextId)
    && (forall v :: v in Reads(i) ==> Named(s, v))
    && (i.Store? ==> i.slot < s.nextSlot && (i.v.Inst? ==> i.v.block == b))
  }

  ghost predicate StoresLast(body: seq<RInst>) {
    forall i, j :: 0 <= i < j < |body| && body[i].Store? ==> body[j].Store? || body[j].Load?
  }

  ghost predicate BodiesOk(p: Program, s: Raising)
    requires Shape(p, s)
  {
    && (forall b, i :: 0 <= b < |s.body| && i in s.body[b] ==> BodyInstOk(s, b, i))
    && (forall b :: 0 <= b < |s.body| ==> StoresLast(s.body[b]))
    && (forall b, i :: 0 <= b < |s.body| && !Done(p, s, b) && i in s.body[b] ==> !i.Store?)
  }

  ghost predicate ProgressOk(p: Program, s: Raising)
    requires Shape(p, s)
  {
    && (forall b :: 0 <= b < |s.body| && b !in s.started ==> s.progress[b] == 0)
    && (forall b :: b in s.started ==> b < |p.blocks|)
    && (s.started != {} ==> 0 in s.started)
    && (forall b, c :: b in s.started && c in s.started && !Done(p, s, b) && !Done(p, s, c) ==> b == c)
  }

  // ----- definitions

  /** The value that is recorded for `r` in block `b`, if an instruction made it. */
  predicate Keeps(s: Raising, r: Reg, b: Block, v: Value) {
    (r, b) in s.defs && s.defs[(r, b)] == Some(v) && v.Inst?
  }

  /** The same for an instruction of block `b` itself. */
  predicate Has(s: Raising, r: Reg, b: Block, v: Value) {
    Keeps(s, r, b, v) && v.block == b
  }

  /** Block `d` is raised and left `v` in `r`, from where it comes into block `b`. */
  ghost predicate LentBy(p: Program, s: Raising, r: Reg, b: Block, v: Value, d: Block)
    requires Shape(p, s)
  {
    d != b && Done(p, s, d) && Keeps(s, r, d, v) && Carries(p, r, d, b)
  }

  /** The value of another block came into block `b` in `r`. */
  ghost predicate Lent(p: Program, s: Raising, r: Reg, b: Block, v: Value)
    requires Shape(p, s)
  {
    && v.Inst? && v.block != b && Done(p, s, v.block) && Leads(p.preds, v.block, b)
    && Sourced(s, b, v) && ReadIn(p, r, b) && !Joined(p, r, b)
    && exists d :: LentBy(p, s, r, b, v, d)
  }

  /** In block `b`, `v` may be what comes from the source: an instruction of the block made it, or the block loaded it
      from a slot, or it came in from another block. */
  ghost predicate Sound(p: Program, s: Raising, b: Block, source: Source, v: Value)
    requires Shape(p, s)
  {
    v.Inst? ==>
      && v.id < s.nextId
      && match source
         case Made(_) => v.block == b
         case Came(r) => b != 0 && if v.block == b then IsLoaded(s.body, v) else Lent(p, s, r, b, v)
  }

  /** Where what `r` holds now comes from, as far as block `b` is raised. */
  function SourceNow(p: Program, s: Raising, b: Block, r: Reg): Source
    requires b < |p.blocks| && b < |s.progress| && s.progress[b] <= |p.blocks[b].insts|
  {
    SourceOf(p.blocks[b].insts[..s.progress[b]], r)
  }

  ghost predicate EntryOk(p: Program, s: Raising, r: Reg, b: Block)
    requires Shape(p, s) && (r, b) in s.defs
  {
    && b < |p.blocks|
    && (Sets(p, r, b) || (b != 0 && Meets(p, r, b) && s.defs[(r, b)].Some?))
    && (s.defs[(r, b)].Some? ==>
          && b in s.started
          && Sound(p, s, b, SourceNow(p, s, b, r), s.defs[(r, b)].value)
          && (WrittenBefore(p, b, s.progress[b], r) || (Meets(p, r, b) && Has(s, r, b, s.defs[(r, b)].value))))
  }

  ghost predicate DefsOk(p: Program, s: Raising)
    requires Shape(p, s)
  {
    && (forall r, b :: (r, b) in s.defs ==> EntryOk(p, s, r, b))
    && (forall r: Reg, b: Block :: Sets(p, r, b) ==> (r, b) in s.defs)
    && (forall b: Block, i :: 0 <= b < |p.blocks| && 0 <= i < s.progress[b] && Target(p.blocks[b].insts[i]).Some? ==>
          var r := Target(p.blocks[b].insts[i]).value;
          (r, b) in s.defs && s.defs[(r, b)].Some?)
  }

  // ----- values in several registers

  /** Two registers of a block have the same value only if it was loaded or one instruction made it. */
  ghost predicate SharesOk(p: Program, s: Raising, b: Block)
    requires Shape(p, s) && b < |p.blocks|
  {
    forall r1, r2, v :: r1 != r2 && Has(s, r1, b, v) && Has(s, r2, b, v) ==>
                        IsLoaded(s.body, v) || SameSource(p.blocks[b].insts[..s.progress[b]], r1, r2)
  }

  /** What block `b` has borrowed and is read elsewhere or at its end is not stored for a register of its own block,
      unless it was loaded. */
  ghost predicate BorrowsOk(p: Program, s: Raising, b: Block)
    requires Shape(p, s) && b < |p.blocks|
  {
    Done(p, s, b) ==>
      forall r, x, v :: Keeps(s, r, b, v) && v.block != b && WantedAtEnd(p, r, b) && Keeps(s, x, v.block, v) ==>
                        IsLoaded(s.body, v) || !MayPromote(p, x, v.block)
  }

  ghost predicate ValuesOk(p: Program, s: Raising)
    requires Shape(p, s)
  {
    forall b :: 0 <= b < |p.blocks| ==> SharesOk(p, s, b) && BorrowsOk(p, s, b)
  }

  // ----- simulation of one block

  function ExecM(p: Program, s: Raising, ev: Eval, b: Block, ms: MState): MState
    requires b < |p.blocks| && b < |s.progress| && s.progress[b] <= |p.blocks[b].insts|
  {
    MRun(ev, p.blocks[b].insts[..s.progress[b]], ms)
  }

  function ExecR(s: Raising, ev: Eval, b: Block, rs: RState): RState
    requires b < |s.body|
  {
    RRun(ev, s.body[b], rs)
  }

  function Lookup(rs: RState, loc: Location): Option<int> {
    match loc
    case InSlot(slot) => Get(rs.slots, slot)
    case Direct(v) => Get(rs.env, v)
  }

  ghost predicate SameHistory(ms: MState, rs: RState) {
    OutAgree(ms.out, rs.out) && ms.tick == rs.tick
  }

  /** The states in which block `b` is entered: whatever was looked up outside the block is where the lookup
      expects it. */
  ghost predicate BlockEntry(p: Program, queries: set<Query>, b: Block, ms: MState, rs: RState) {
    && SameHistory(ms, rs)
    && (b == 0 ==> forall r :: r in p.args && r in ms.regs ==> Get(rs.env, Arg(r)) == Some(ms.regs[r]))
    && (forall q :: q in queries && q.block == b && q.reg in ms.regs ==> Lookup(rs, q.loc) == Some(ms.regs[q.reg]))
  }

  /** After the raised part of block `b`, `v` is the value of register `r`. */
  ghost predicate HoldsAt(p: Program, s: Raising, b: Block, r: Reg, v: Value, ev: Eval, ms: MState, rs: RState)
    requires Shape(p, s) && b < |p.blocks|
  {
    BlockEntry(p, s.queries, b, ms, rs) && r in ExecM(p, s, ev, b, ms).regs ==>
      Get(ExecR(s, ev, b, rs).env, v) == Some(ExecM(p, s, ev, b, ms).regs[r])
  }

  ghost predicate Holds(p: Program, s: Raising, b: Block, r: Reg, v: Value)
    requires Shape(p, s) && b < |p.blocks|
  {
    && Named(s, v)
    && forall ev: Eval, ms: MState, rs: RState :: HoldsAt(p, s, b, r, v, ev, ms, rs)
  }

  ghost predicate OutAt(p: Program, s: Raising, b: Block, ev: Eval, ms: MState, rs: RState)
    requires Shape(p, s) && b < |p.blocks|
  {
    BlockEntry(p, s.queries, b, ms, rs) ==> SameHistory(ExecM(p, s, ev, b, ms), ExecR(s, ev, b, rs))
  }

  ghost predicate OutHolds(p: Program, s: Raising, b: Block)
    requires Shape(p, s) && b < |p.blocks|
  {
    forall ev: Eval, ms: MState, rs: RState :: OutAt(p, s, b, ev, ms, rs)
  }

  ghost predicate SimOk(p: Program, s: Raising)
    requires Shape(p, s)
  {
    && (forall b :: 0 <= b < |p.blocks| ==> OutHolds(p, s, b))
    && (forall r: Reg, b: Block :: b < |p.blocks| && LocalVal(p, s, r, b).Some? ==>
                                   Holds(p, s, b, r, LocalVal(p, s, r, b).value))
  }

  // ----- lookups

  ghost predicate StoredAt(s: Raising, b: Block, slot: Slot, v: Value, ev: Eval, rs: RState)
    requires b < |s.body|
  {
    Get(ExecR(s, ev, b, rs).slots, slot) == Get(ExecR(s, ev, b, rs).env, v)
  }

  /** Block `b` leaves value `v` in the slot. */
  ghost predicate Stored(s: Raising, b: Block, slot: Slot, v: Value)
    requires b < |s.body|
  {
    && Named(s, v)
    && forall ev: Eval, rs: RState :: StoredAt(s, b, slot, v, ev, rs)
  }

  /** The slot gets, or is going to get, the value that block `b` leaves in `r`. */
  ghost predicate Provided(p: Program, s: Raising, r: Reg, b: Block, slot: Slot)
    requires Shape(p, s) && b < |p.blocks|
  {
    && MayPromote(p, r, b)
    && ((r, b, slot) in s.toPromote
        || (Done(p, s, b) && LocalVal(p, s, r, b).Some? && Stored(s, b, slot, LocalVal(p, s, r, b).value)))
  }

  ghost predicate StoresInto(code: seq<RInst>, slot: Slot) {
    exists v :: Store(slot, v) in code
  }

  /** The blocks around a query: all paths into its block come through `through`, up to the definitions. */
  ghost predicate QueryCloses(p: Program, s: Raising, q: Query)
    requires Shape(p, s)
  {
    && q.block < |p.blocks| && q.block in s.started && q.block != 0
    && (forall x: Block :: Edge(p.preds, x, q.block) ==> x in q.defs || x in q.through)
    && (forall w: Block, x: Block :: w in q.through && Edge(p.preds, x, w) ==> x in q.defs || x in q.through)
    && ReadIn(p, q.reg, q.block)
    && (forall w :: w in q.through ==> !Sets(p, q.reg, w) && Carries(p, q.reg, w, q.block))
    && (forall d :: d in q.defs ==> Carries(p, q.reg, d, q.block))
    && q.defs !! q.through
    && (forall d :: d in q.defs ==> d < |p.blocks| && Defines(p.args, s.defs, q.reg, d))
  }

  ghost predicate Narrow(q: Query) {
    exists d :: q.defs == {d}
  }

  /** Where a single definition reaches, no lookup will ever load the register. */
  ghost predicate NarrowOk(p: Program, s: Raising, q: Query) {
    Narrow(q) ==>
      && (forall w :: w in q.through ==> !Defines(p.args, s.defs, q.reg, w))
      && (Defines(p.args, s.defs, q.reg, q.block) ==> Sets(p, q.reg, q.block))
  }

  ghost predicate DirectOk(p: Program, s: Raising, q: Query, d: Block, v: Value)
    requires Shape(p, s)
  {
    && q.defs == {d} && d != q.block && Done(p, s, d) && LocalVal(p, s, q.reg, d) == Some(v)
    && (v.Inst? ==> v.block != q.block && (v.block == d || !Disturbs(p, q.reg, d, v.block)))
  }

  ghost predicate SlotOk(p: Program, s: Raising, q: Query, slot: Slot)
    requires Shape(p, s) && forall d :: d in q.defs ==> d < |p.blocks|
  {
    && slot < s.nextSlot
    && (forall d :: d in q.defs ==> Provided(p, s, q.reg, d, slot))
    && (forall b :: 0 <= b < |s.body| && StoresInto(s.body[b], slot) ==>
                    b !in q.through && Defines(p.args, s.defs, q.reg, b))
    && (forall b :: (q.reg, b, slot) in s.toPromote ==> b !in q.through)
  }

  ghost predicate QueryOk(p: Program, s: Raising, q: Query)
    requires Shape(p, s)
  {
    && QueryCloses(p, s, q)
    && NarrowOk(p, s, q)
    && match q.loc
       case InSlot(slot) => SlotOk(p, s, q, slot)
       case Direct(v) => exists d :: DirectOk(p, s, q, d, v)
  }

  ghost predicate QueriesOk(p: Program, s: Raising)
    requires Shape(p, s)
  {
    && (forall q :: q in s.queries ==> QueryOk(p, s, q))
    && (forall q1, q2 :: q1 in s.queries && q2 in s.queries && q1.loc.InSlot? && q1.loc == q2.loc ==> q1.reg == q2.reg)
    && (forall r, b, slot :: (r, b, slot) in s.toPromote ==> Pending(p, s, r, b, slot))
  }

  ghost predicate Pending(p: Program, s: Raising, r: Reg, b: Block, slot: Slot) {
    && (r, b) in s.defs
    && MayPromote(p, r, b)
    && exists q :: q in s.queries && q.reg == r && q.loc == InSlot(slot)
  }

  // ----- uses of another block's values

  /** Block `b` may use `v`: it is its own, an argument, or was the answer to a lookup. */
  ghost predicate Sourced(s: Raising, b: Block, v: Value) {
    v.Inst? && v.block != b ==> exists q :: q in s.queries && q.block == b && q.loc == Direct(v)
  }

  /** At the end of block `b`, the register that was looked up still has the value it had on entry, or another keeps
      it. */
  ghost predicate SourcedAtEnd(p: Program, s: Raising, b: Block, v: Value) {
    v.Inst? && v.block != b ==>
      || (exists r :: Keeps(s, r, b, v) && b < |p.blocks| && r in p.blocks[b].term)
      || exists q :: q in s.queries && q.block == b && q.loc == Direct(v) && !Sets(p, q.reg, b)
  }

  ghost predicate UsesOk(p: Program, s: Raising)
    requires Shape(p, s)
  {
    && (forall b, i, v :: 0 <= b < |s.body| && i in s.body[b] && v in Reads(i) ==> Sourced(s, b, v))
    && (forall b, v :: 0 <= b < |s.body| && s.term[b].Some? && v in s.term[b].value ==> SourcedAtEnd(p, s, b, v))
  }

  // ----- terminators

  ghost predicate TermOk(p: Program, s: Raising, b: Block)
    requires Shape(p, s) && b < |p.blocks|
  {
    s.term[b].Some? ==>
      && Done(p, s, b)
      && |s.term[b].value| == |p.blocks[b].term|
      && forall i :: 0 <= i < |p.blocks[b].term| ==> Holds(p, s, b, p.blocks[b].term[i], s.term[b].value[i])
  }

  ghost predicate TermsOk(p: Program, s: Raising)
    requires Shape(p, s)
  {
    forall b :: 0 <= b < |p.blocks| ==> TermOk(p, s, b)
  }

  ghost predicate Inv(p: Program, s: Raising) {
    && Good(p)
    && Shape(p, s)
    && ProgressOk(p, s)
    && BodiesOk(p, s)
    && DefsOk(p, s)
    && ValuesOk(p, s)
    && SimOk(p, s)
    && QueriesOk(p, s)
    && UsesOk(p, s)
    && TermsOk(p, s)
  }

  ghost predicate AllDone(p: Program, s: Raising) {
    Shape(p, s) && forall b :: 0 <= b < |p.blocks| ==> Done(p, s, b)
  }

  /** Everything is raised and every promotion is carried out. */
  ghost predicate Finished(p: Program, s: Raising) {
    && Inv(p, s)
    && AllDone(p, s)
    && s.toPromote == {}
    && (forall b :: 0 <= b < |p.blocks| ==> s.term[b].Some?)
  }

  function Raised(s: Raising): seq<RBlock>
    requires |s.body| == |s.term|
  {
    seq(|s.body|, b requires 0 <= b < |s.body| => RBlock(s.body[b], s.term[b]))
  }
}
