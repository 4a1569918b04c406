/** A finished raising refines the machine function. */
module RaisingCorrect {
  import opened Wrappers
  import opened ControlFlow
  import opened ReachingDefinitions
  import opened RaisedSemantics
  import opened RaisingFunction
  import opened GoodPrograms
  import opened RaisingInvariant

  lemma {:induction false} RegisterFrame(ev: Eval, insts: seq<MInst>, s: MState, r: Reg)
    requires forall i :: i in insts ==> Target(i) != Some(r)
    ensures Get(MRun(ev, insts, s).regs, r) == Get(s.regs, r)
  {
    if insts != [] {
      assert Last(insts) in insts;
      RegisterFrame(ev, Front(insts), s, r);
    }
  }

  lemma {:induction false} ValueFrame(ev: Eval, body: seq<RInst>, s: RState, v: Value)
    requires forall i :: i in body ==> RTarget(i) != Some(v)
    ensures Get(RRun(ev, body, s).env, v) == Get(s.env, v)
  {
    if body != [] {
      assert Last(body) in body;
      ValueFrame(ev, Front(body), s, v);
    }
  }

  lemma {:induction false} SlotFrame(ev: Eval, body: seq<RInst>, s: RState, slot: Slot)
    requires !StoresInto(body, slot)
    ensures Get(RRun(ev, body, s).slots, slot) == Get(s.slots, slot)
  {
    if body != [] {
      assert Last(body) in body;
      assert !StoresInto(Front(body), slot) by {
        assert forall v :: Store(slot, v) in Front(body) ==> Store(slot, v) in body;
      }
      SlotFrame(ev, Front(body), s, slot);
    }
  }

  /** On leaving block `b`, whatever a later block looks up through `b` is in place. */
  ghost predicate Leaves(queries: set<Query>, b: Block, ms: MState, rs: RState) {
    && SameHistory(ms, rs)
    && (forall q :: q in queries && (b in q.defs || b in q.through) && q.reg in ms.regs ==>
                    Lookup(rs, q.loc) == Some(ms.regs[q.reg]))
  }

  lemma EntersNext(p: Program, s: Raising, x: Block, b: Block, ms: MState, rs: RState)
    requires Inv(p, s) && b < |p.blocks| && Edge(p.preds, x, b)
    requires Leaves(s.queries, x, ms, rs)
    ensures BlockEntry(p, s.queries, b, ms, rs)
  {
    hide SimOk, UsesOk, TermsOk, ValuesOk, DefsOk, BodiesOk, Good, NarrowOk, SlotOk, DirectOk;
    forall q | q in s.queries && q.block == b && q.reg in ms.regs
      ensures Lookup(rs, q.loc) == Some(ms.regs[q.reg])
    {
      assert QueryOk(p, s, q);
    }
  }

  lemma EntersFirst(p: Program, s: Raising, ms: MState, rs: RState)
    requires Inv(p, s)
    requires EntryStates(p, ms, rs)
    ensures BlockEntry(p, s.queries, 0, ms, rs)
  {
    hide SimOk, UsesOk, TermsOk, ValuesOk, DefsOk, BodiesOk, Good, NarrowOk, SlotOk, DirectOk;
    forall q | q in s.queries
      ensures q.block != 0
    {
      assert QueryOk(p, s, q);
    }
  }

  lemma TermAgrees(p: Program, s: Raising, b: Block, ev: Eval, ms: MState, rs: RState)
    requires Finished(p, s) && b < |p.blocks|
    requires BlockEntry(p, s.queries, b, ms, rs)
    ensures Agree(GetAll(ExecM(p, s, ev, b, ms).regs, p.blocks[b].term),
                  GetAll(ExecR(s, ev, b, rs).env, s.term[b].value))
  {
    hide SimOk, UsesOk, QueriesOk, ValuesOk, DefsOk, BodiesOk, Good;
    assert TermOk(p, s, b);
    forall i | 0 <= i < |p.blocks[b].term|
      ensures HoldsAt(p, s, b, p.blocks[b].term[i], s.term[b].value[i], ev, ms, rs)
    {
      assert Holds(p, s, b, p.blocks[b].term[i], s.term[b].value[i]);
    }
  }

  lemma RecordedHolds(p: Program, s: Raising, b: Block, r: Reg, v: Value, ev: Eval, ms: MState, rs: RState)
    requires Inv(p, s) && b < |p.blocks| && LocalVal(p, s, r, b) == Some(v)
    ensures HoldsAt(p, s, b, r, v, ev, ms, rs)
  {
    hide UsesOk, QueriesOk, ValuesOk, DefsOk, BodiesOk, Good, TermsOk, HoldsAt;
    assert Holds(p, s, b, r, v);
  }

  /** On entering block `b`, the looked-up register is in place, and the block does not make it. */
  ghost predicate Passes(q: Query, b: Block, ms: MState, rs: RState) {
    q.reg in ms.regs ==>
        Lookup(rs, q.loc) == Some(ms.regs[q.reg]) && !(q.loc.Direct? && q.loc.v.Inst? && q.loc.v.block == b)
  }

  /** After a block that does not give `r` a value, a value that is not made in it is still that of `r`, and so is a
      slot that is not stored into. */
  lemma PassesThrough(p: Program, s: Raising, b: Block, q: Query, ev: Eval, ms: MState, rs: RState)
    requires Inv(p, s) && b < |p.blocks| && q in s.queries && b in q.through && Passes(q, b, ms, rs)
    ensures q.reg in ExecM(p, s, ev, b, ms).regs ==>
              Lookup(ExecR(s, ev, b, rs), q.loc) == Some(ExecM(p, s, ev, b, ms).regs[q.reg])
  {
    hide UsesOk, ValuesOk, DefsOk, SimOk, Good, TermsOk;
    assert QueryOk(p, s, q);
    var raised := p.blocks[b].insts[..s.progress[b]];
    forall i | i in raised
      ensures Target(i) != Some(q.reg)
    {
      var k :| 0 <= k < |raised| && raised[k] == i;
      assert p.blocks[b].insts[k] == i && !Writes(p, q.reg, b);
    }
    RegisterFrame(ev, raised, ms, q.reg);
    match q.loc
    case InSlot(slot) =>
      assert !StoresInto(s.body[b], slot);
      SlotFrame(ev, s.body[b], rs, slot);
    case Direct(v) =>
      assert forall i :: i in s.body[b] ==> BodyInstOk(s, b, i);
      if q.reg in ms.regs {
        ValueFrame(ev, s.body[b], rs, v);
      }
  }

  /** The looked-up register of a query that a block defines or is walked through is in place after the block. */
  lemma LeavesQuery(p: Program, s: Raising, b: Block, q: Query, ev: Eval, ms: MState, rs: RState)
    requires Finished(p, s) && b < |p.blocks|
    requires BlockEntry(p, s.queries, b, ms, rs)
    requires q in s.queries && (b in q.defs || b in q.through)
    requires b in q.through ==> Passes(q, b, ms, rs)
    ensures q.reg in ExecM(p, s, ev, b, ms).regs ==>
              Lookup(ExecR(s, ev, b, rs), q.loc) == Some(ExecM(p, s, ev, b, ms).regs[q.reg])
  {
    hide UsesOk, ValuesOk, DefsOk, SimOk, BodiesOk, Good, TermsOk, NarrowOk;
    assert QueryOk(p, s, q);
    if b in q.through {
      PassesThrough(p, s, b, q, ev, ms, rs);
    } else {
      match q.loc
      case InSlot(slot) =>
        assert Provided(p, s, q.reg, b, slot);
        var v := LocalVal(p, s, q.reg, b).value;
        assert StoredAt(s, b, slot, v, ev, rs);
        RecordedHolds(p, s, b, q.reg, v, ev, ms, rs);
      case Direct(v) =>
        RecordedHolds(p, s, b, q.reg, v, ev, ms, rs);
    }
  }

  lemma BlockStep(p: Program, s: Raising, b: Block, ev: Eval, ms: MState, rs: RState)
    requires Finished(p, s) && b < |p.blocks|
    requires BlockEntry(p, s.queries, b, ms, rs)
    requires forall q :: q in s.queries && b in q.through ==> Passes(q, b, ms, rs)
    ensures Leaves(s.queries, b, MBlockRun(ev, p.blocks[b], ms), RBlockRun(ev, Raised(s)[b], rs))
  {
    hide UsesOk, ValuesOk, DefsOk, QueriesOk, BodiesOk, Good, TermsOk;
    var m, r := ExecM(p, s, ev, b, ms), ExecR(s, ev, b, rs);
    assert Done(p, s, b) && p.blocks[b].insts[..s.progress[b]] == p.blocks[b].insts;
    assert OutHolds(p, s, b) && OutAt(p, s, b, ev, ms, rs);
    TermAgrees(p, s, b, ev, ms, rs);
    forall q | q in s.queries && (b in q.defs || b in q.through) && q.reg in m.regs
      ensures Lookup(r, q.loc) == Some(m.regs[q.reg])
    {
      LeavesQuery(p, s, b, q, ev, ms, rs);
    }
  }

  /** Where a looked-up register has a value on a run, the run has come from a block that defines it. */
  lemma {:induction false} DefinedAlong(p: Program, s: Raising, q: Query, ev: Eval, ms: MState, path: seq<Block>)
    requires Inv(p, s) && q in s.queries && IsRun(p, path) && (forall r :: r in ms.regs ==> r in p.args)
    requires Last(path) in q.defs || Last(path) in q.through
    requires q.reg in MPath(p, ev, ms, path).regs
    ensures exists d :: d in q.defs && Clear(p.preds, SetBlocks(p, q.reg), d, Last(path))
    decreases |path|
  {
    hide SimOk, UsesOk, TermsOk, ValuesOk, DefsOk, BodiesOk, CopiesSafe, Apart, NarrowOk, SlotOk, DirectOk, ReadIn;
    var b := Last(path);
    RunFront(p, path);
    assert QueryOk(p, s, q);
    ClearNowhere(p.preds, SetBlocks(p, q.reg), b);
    if b !in q.defs {
      var insts := p.blocks[b].insts;
      forall i | i in insts
        ensures Target(i) != Some(q.reg)
      {
        assert !Writes(p, q.reg, b);
      }
      RegisterFrame(ev, insts, if |path| == 1 then ms else MPath(p, ev, ms, Front(path)), q.reg);
      DefinedAlong(p, s, q, ev, ms, Front(path));
      var d :| d in q.defs && Clear(p.preds, SetBlocks(p, q.reg), d, Last(Front(path)));
      EdgeClear(p.preds, SetBlocks(p, q.reg), Last(Front(path)), b);
      ClearOn(p.preds, SetBlocks(p, q.reg), d, Last(Front(path)), b);
    }
  }

  /** A block that a lookup was walked through and that its definition flows into would disturb it. */
  lemma ThroughDisturbs(p: Program, s: Raising, q: Query, d: Block, b: Block)
    requires Shape(p, s) && QueryCloses(p, s, q) && b in q.through && Carries(p, q.reg, d, b)
    ensures Disturbs(p, q.reg, d, b)
  {
    hide ReadIn, Sets;
    assert Wanted(p, q.reg, b);
  }

  /** On entering a block that a lookup was walked through, what is looked up is in place and not made anew. */
  lemma EntersThrough(p: Program, s: Raising, q: Query, ev: Eval, ms: MState, path: seq<Block>, b: Block, rs: RState)
    requires Inv(p, s) && q in s.queries && IsRun(p, path) && (forall r :: r in ms.regs ==> r in p.args)
    requires Edge(p.preds, Last(path), b) && b in q.through
    requires Leaves(s.queries, Last(path), MPath(p, ev, ms, path), rs)
    ensures Passes(q, b, MPath(p, ev, ms, path), rs)
  {
    hide SimOk, UsesOk, TermsOk, ValuesOk, DefsOk, BodiesOk, CopiesSafe, Apart, NarrowOk, SlotOk, MPath, ReadIn,
         Disturbs;
    assert QueryOk(p, s, q);
    if q.reg in MPath(p, ev, ms, path).regs {
      DefinedAlong(p, s, q, ev, ms, path);
      var d :| d in q.defs && Clear(p.preds, SetBlocks(p, q.reg), d, Last(path));
      assert Carries(p, q.reg, d, b);
      ThroughDisturbs(p, s, q, d, b);
      if q.loc.Direct? && q.loc.v.Inst? {
        var x :| DirectOk(p, s, q, x, q.loc.v);
        assert x == d;
      }
    }
  }

  /** Along any run, whatever is looked up later is where the lookup expects it. */
  lemma {:induction false} RunStep(p: Program, s: Raising, ev: Eval, ms: MState, rs: RState, path: seq<Block>)
    requires Finished(p, s)
    requires EntryStates(p, ms, rs) && IsRun(p, path)
    ensures Leaves(s.queries, Last(path), MPath(p, ev, ms, path), RPath(p, Raised(s), ev, rs, path))
    decreases |path|
  {
    hide SimOk, UsesOk, TermsOk, ValuesOk, DefsOk, BodiesOk, CopiesSafe, Apart, NarrowOk, SlotOk, DirectOk;
    var b := Last(path);
    RunFront(p, path);
    if |path| == 1 {
      EntersFirst(p, s, ms, rs);
      forall q | q in s.queries
        ensures !(0 in q.through && q.reg in p.args) && (0 in q.through ==> Passes(q, 0, ms, rs))
      {
        assert QueryOk(p, s, q);
      }
      BlockStep(p, s, b, ev, ms, rs);
    } else {
      RunStep(p, s, ev, ms, rs, Front(path));
      var x := Last(Front(path));
      var m, r := MPath(p, ev, ms, Front(path)), RPath(p, Raised(s), ev, rs, Front(path));
      EntersNext(p, s, x, b, m, r);
      forall q | q in s.queries && b in q.through
        ensures Passes(q, b, m, r)
      {
        EntersThrough(p, s, q, ev, ms, Front(path), b, r);
      }
      BlockStep(p, s, b, ev, m, r);
    }
  }

  /** Main result on stack-slot promotion: when raising is finished, the raised function reads the machine's values on
      every run, cyclic or not. */
  lemma FinishedRefines(p: Program, s: Raising)
    requires Finished(p, s)
    ensures Refines(p, Raised(s))
  {
    forall ev: Eval, ms: MState, rs: RState, path: seq<Block> | EntryStates(p, ms, rs) && IsRun(p, path)
      ensures OutAgree(MPath(p, ev, ms, path).out, RPath(p, Raised(s), ev, rs, path).out)
    {
      RunStep(p, s, ev, ms, rs, path);
    }
  }
}
