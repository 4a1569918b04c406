/** Another machine function that is raised wrongly: two registers leave a block with one value, and one of them is
    promoted. Block 0 makes r3 and copies it to r2, block 1 changes r3, block 2 reads r2, and block 3, which comes after
    block 0 or 1, reads r3. In block 2 the value is taken directly. When r3 is promoted for block 3, that use becomes a
    load of the slot of r3, which block 1 has stored into. */
module SharedCopy {
  import opened Wrappers
  import opened ControlFlow
  import opened ReachingDefinitions
  import opened RaisedSemantics
  import opened RaisingFunction
  import opened GoodPrograms
  import opened RaisingInvariant
  import opened RaisingEvaluation
  import opened Disturbance

  function Machine(): Program {
    Program([[], [0], [1], [0, 1]],
            [MBlock([Op(3, 0, []), MInst.Copy(2, 3)], []), MBlock([Op(3, 2, [3])], []), MBlock([MInst.Use([2])], []),
             MBlock([MInst.Use([3])], [])],
            {})
  }

  const ORDER: seq<Block> := [0, 1, 2, 3]

  /** The dominator tree: the entry above the rest, and block 1 above block 2. No load and no cast is involved. */
  function Tree(): Llvm {
    Llvm((d: Block, u: Block) => d == 0 || d == u || (d == 1 && u == 2), (v: Value, slot: Slot) => false)
  }

  const SHARED: Value := Inst(0, 0)
  const CHANGED: Value := Inst(1, 1)
  const RELOAD1: Value := Inst(1, 2)
  const RELOAD2: Value := Inst(2, 3)
  const JOINED: Value := Inst(3, 4)
  const SLOT: Slot := 0

  /** The state before the first block, and after each of the first three. */
  function After(blocks: nat): Raising
    requires blocks <= 3
  {
    var first := if blocks > 0 then Some(SHARED) else None;
    var defs: DefMap := map[(3, 0) := first, (2, 0) := first, (3, 1) := if blocks > 1 then Some(CHANGED) else None];
    var bodies := [if blocks > 0 then [Compute(SHARED, 0, [])] else [],
                   if blocks > 1 then [Compute(CHANGED, 2, [SHARED])] else [],
                   if blocks > 2 then [Emit([SHARED])] else [], []];
    Raising(defs, bodies, [None, None, None, None], {}, if blocks < 2 then blocks else 2, 0, {},
            [if blocks > 0 then 2 else 0, if blocks > 1 then 1 else 0, if blocks > 2 then 1 else 0, 0], {})
  }

  const BODY0: seq<RInst> := [Compute(SHARED, 0, []), Store(SLOT, SHARED)]
  const BODY1: seq<RInst> := [Load(RELOAD1, SLOT), Compute(CHANGED, 2, [RELOAD1])]
  const BODY2: seq<RInst> := [Load(RELOAD2, SLOT), Emit([RELOAD2])]

  /** After both definitions of r3 are promoted for block 3. */
  function Promotions(): Raising {
    After(3).(body := [BODY0, BODY1 + [Store(SLOT, CHANGED)], BODY2, []], nextId := 4, nextSlot := 1)
  }

  /** After block 3. */
  function Code(): Raising {
    Promotions().(body := Promotions().body[3 := [Load(JOINED, SLOT), Emit([JOINED])]], nextId := 5,
                  defs := After(3).defs[(3, 3) := Some(JOINED)], progress := [2, 1, 1, 1])
  }

  /** The raised function. */
  function Result(): Raising {
    Code().(term := [Some([]), Some([]), Some([]), Some([])])
  }

  lemma MachineValid()
    ensures ValidProgram(Machine()) && BlockOrder(Machine(), ORDER)
    ensures forall k: nat :: k <= 3 ==> Shape(Machine(), After(k))
  {
    var p := Machine();
    forall b: Block
      ensures b in ORDER <==> b < |p.blocks|
    {
      assert ORDER[0] == 0 && ORDER[1] == 1 && ORDER[2] == 2 && ORDER[3] == 3;
    }
  }

  lemma WritesIs(r: Reg, b: Block)
    ensures Writes(Machine(), r, b) <==> (r == 3 && b < 2) || (r == 2 && b == 0)
  {
    var p := Machine();
    if b == 0 {
      assert Target(p.blocks[0].insts[0]) == Some(3) && Target(p.blocks[0].insts[1]) == Some(2);
    } else if b < 4 {
      assert |p.blocks[b].insts| == 1;
      assert Target(p.blocks[b].insts[0]) == if b == 1 then Some(3) else None;
    }
  }

  lemma Edges()
    ensures forall x: Block, b: Block :: Edge(Machine().preds, x, b) <==>
                                         (x == 0 && b in {1, 3}) || (x == 1 && b in {2, 3})
  {
  }

  lemma StartIsInitial()
    ensures Initial(Machine(), After(0))
  {
    var p, s := Machine(), After(0);
    MachineValid();
    forall r: Reg, b: Block
      ensures (r, b) in s.defs <==> Writes(p, r, b) || (b == 0 && r in p.args)
    {
      WritesIs(r, b);
    }
  }

  /** The tree is right: these are the blocks that are on every path. */
  lemma TreeDominates(d: Block, u: Block)
    requires d < 4 && u < 4
    ensures Tree().dominates(d, u) <==> Dominates(Machine().preds, d, u)
  {
    var preds := Machine().preds;
    Edges();
    forall path: seq<Block> | Joins(preds, {}, path, 0, u) && Tree().dominates(d, u)
      ensures d in path
    {
      assert path[0] in path && path[|path| - 1] in path;
      if d == 1 && u == 2 {
        assert Edge(preds, path[|path| - 2], path[|path| - 1]) && path[|path| - 2] in path;
      }
    }
    if !Tree().dominates(d, u) {
      var path := if u == 0 then [0] else if u == 2 then [0, 1, 2] else [0, u];
      assert Joins(preds, {}, path, 0, u) && d !in path;
    }
  }

  // ----- the searches

  lemma ChangeFinds()
    ensures ReachingFrom(Machine().preds, {}, After(1).defs, 3, 1, 0) == [(0, Some(SHARED))]
  {
    var preds, defs := Machine().preds, After(1).defs;
    Edges();
    assert DefBlocks({}, defs, 3, 4) == {0, 1};
    ReachesAlong(preds, {0, 1}, [0], 1);
    var found: seq<ReachingDef> := [(0, Some(SHARED))];
    assert found[0] in found && BlocksOf(found) == {0};
    SearchGives(preds, {}, defs, 3, 1, found, {});
  }

  lemma CopyFinds()
    ensures ReachingFrom(Machine().preds, {}, After(2).defs, 2, 2, 0) == [(0, Some(SHARED))]
  {
    var preds, defs := Machine().preds, After(2).defs;
    Edges();
    assert DefBlocks({}, defs, 2, 4) == {0};
    ReachesAlong(preds, {0}, [0, 1], 2);
    var found: seq<ReachingDef> := [(0, Some(SHARED))];
    assert found[0] in found && BlocksOf(found) == {0};
    SearchGives(preds, {}, defs, 2, 2, found, {1});
  }

  lemma JoinFinds()
    ensures ReachingFrom(Machine().preds, {}, After(3).defs, 3, 3, 0) == [(0, Some(SHARED)), (1, Some(CHANGED))]
  {
    var preds, defs := Machine().preds, After(3).defs;
    Edges();
    assert DefBlocks({}, defs, 3, 4) == {0, 1};
    ReachesAlong(preds, {0, 1}, [0], 3);
    ReachesAlong(preds, {0, 1}, [1], 3);
    var found: seq<ReachingDef> := [(0, Some(SHARED)), (1, Some(CHANGED))];
    assert found[0] in found && found[1] in found;
    assert BlocksOf(found) == {0, 1};
    SearchGives(preds, {}, defs, 3, 3, found, {});
  }

  // ----- raising, block by block

  lemma SameShapeAs(s: Raising, k: nat)
    requires k <= 3 && Core(s) == After(k)
    ensures Shape(Machine(), s)
  {
    MachineValid();
    assert s.body == After(k).body && s.term == After(k).term && s.progress == After(k).progress;
  }

  /** The state within block 0, between its two instructions. */
  function Between(): Raising {
    After(1).(defs := map[(3, 0) := Some(SHARED), (2, 0) := None, (3, 1) := None], progress := [1, 0, 0, 0])
  }

  lemma EntryRaised(s: Raising)
    requires Core(s) == After(0)
    ensures Shape(Machine(), s)
    ensures var t := RaisedBlock(Machine(), Tree(), s, 0); t.Some? && Core(t.value) == After(1)
  {
    var p := Machine();
    SameShapeAs(s, 0);
    var s1 := s.(started := s.started + {0});
    SameShapeAs(s1, 0);
    assert RaisedInsts(p, Tree(), s1, 0, 0) == Some(s1);
    OpRaised(s1);
    var s2 := RaisedInst(p, Tree(), s1, 0).value;
    assert RaisedInsts(p, Tree(), s1, 0, 1) == Some(s2);
    MoveRaised(s2);
  }

  lemma OpRaised(s: Raising)
    requires Core(s) == After(0) && Shape(Machine(), s)
    ensures var t := RaisedInst(Machine(), Tree(), s, 0); t.Some? && Core(t.value) == Between()
  {
    assert s.progress == After(0).progress;
    assert ReadRegs(Op(3, 0, [])) == [];
    NoOperand(Machine(), Tree(), s, 0);
    var none: seq<RInst> := [];
    assert none + [Compute(SHARED, 0, [])] == [Compute(SHARED, 0, [])];
    assert s.body == After(0).body && s.defs == After(0).defs;
  }

  lemma MoveRaised(s: Raising)
    requires Core(s) == Between() && Shape(Machine(), s)
    ensures var t := RaisedInst(Machine(), Tree(), s, 0); t.Some? && Core(t.value) == After(1)
  {
    assert s.progress == [1, 0, 0, 0] && s.defs == Between().defs;
    assert ReadRegs(MInst.Copy(2, 3)) == [3];
    LocalOperand(Machine(), Tree(), s, 3, 0, SHARED);
  }

  lemma ChangeRaised(s: Raising)
    requires Core(s) == After(1)
    ensures Shape(Machine(), s)
    ensures var t := RaisedBlock(Machine(), Tree(), s, 1); t.Some? && Core(t.value) == After(2)
  {
    hide RaisedBlock, Operands, ReachingFrom, Shape;
    var p := Machine();
    var s1 := s.(started := s.started + {1});
    SameShapeAs(s, 1);
    SameShapeAs(s1, 1);
    ChangeFinds();
    assert s1.defs == After(1).defs && s.progress == After(1).progress;
    DirectOperand(p, Tree(), s1, 3, 1, 0, SHARED);
    SingleInst(p, Tree(), s, 1, Op(3, 2, [3]), Operands(p, Tree(), s1, [3], 1).value.0, [SHARED]);
    var none: seq<RInst> := [];
    assert none + [Compute(CHANGED, 2, [SHARED])] == [Compute(CHANGED, 2, [SHARED])];
  }

  lemma CopyRaised(s: Raising)
    requires Core(s) == After(2)
    ensures Shape(Machine(), s)
    ensures var t := RaisedBlock(Machine(), Tree(), s, 2); t.Some? && Core(t.value) == After(3)
  {
    hide RaisedBlock, Operands, ReachingFrom, Shape;
    var p := Machine();
    var s1 := s.(started := s.started + {2});
    SameShapeAs(s, 2);
    SameShapeAs(s1, 2);
    CopyFinds();
    assert s1.defs == After(2).defs && s.progress == After(2).progress;
    DirectOperand(p, Tree(), s1, 2, 2, 0, SHARED);
    SingleInst(p, Tree(), s, 2, MInst.Use([2]), Operands(p, Tree(), s1, [2], 2).value.0, [SHARED]);
    var none: seq<RInst> := [];
    assert none + [Emit([SHARED])] == [Emit([SHARED])];
  }

  /** The shared value goes to the slot of r3, and its uses in blocks 1 and 2 become loads of it. */
  lemma SharedPromoted(s: Raising)
    requires Core(s) == After(3).(nextSlot := 1)
    ensures |s.body| == |s.term| == 4
    ensures Core(Promoted(Tree(), s, 0, SHARED, SLOT))
            == After(3).(nextSlot := 1, nextId := 4, body := [BODY0, BODY1, BODY2, []])
  {
    var t := WithStore(s, 0, SLOT, SHARED);
    assert s.body == After(3).body && s.term == After(3).term && s.nextId == 2;
    assert [Compute(SHARED, 0, [])] + [Store(SLOT, SHARED)] == BODY0;
    assert t.body == [BODY0, [Compute(CHANGED, 2, [SHARED])], [Emit([SHARED])], []];
    assert !IsLoaded(t.body, SHARED);
    assert ReloadedUpTo(Tree(), t, 0, SHARED, SLOT, 0) == t;
    var t1 := ReloadedUpTo(Tree(), t, 0, SHARED, SLOT, 1);
    UseReloaded(t1, 1, Compute(CHANGED, 2, [SHARED]), SHARED, SLOT);
    assert Substitute([SHARED], SHARED, RELOAD1) == [RELOAD1] && Substitute([SHARED], SHARED, RELOAD2) == [RELOAD2];
    var t2 := ReloadedUpTo(Tree(), t, 0, SHARED, SLOT, 2);
    assert Core(t2) == Core(t).(body := [BODY0, BODY1, [Emit([SHARED])], []], nextId := 3);
    UseReloaded(t2, 2, Emit([SHARED]), SHARED, SLOT);
    var t3 := ReloadedUpTo(Tree(), t, 0, SHARED, SLOT, 3);
    assert Core(t3) == Core(t).(body := [BODY0, BODY1, BODY2, []], nextId := 4);
    UnusedStays(t3, 3, SHARED, SLOT);
  }

  lemma ChangedPromoted(s: Raising)
    requires Core(s) == After(3).(nextSlot := 1, nextId := 4, body := [BODY0, BODY1, BODY2, []])
    ensures |s.body| == |s.term| == 4
    ensures Core(Promoted(Tree(), s, 1, CHANGED, SLOT)) == Promotions()
  {
    var t := WithStore(s, 1, SLOT, CHANGED);
    assert s.body == [BODY0, BODY1, BODY2, []] && s.term == After(3).term;
    assert t.body == Promotions().body;
    assert !IsLoaded(t.body, CHANGED);
    assert ReloadedUpTo(Tree(), t, 1, CHANGED, SLOT, 0) == t;
    var t1 := ReloadedUpTo(Tree(), t, 1, CHANGED, SLOT, 1);
    var t2 := ReloadedUpTo(Tree(), t, 1, CHANGED, SLOT, 2);
    UnusedStays(t2, 2, CHANGED, SLOT);
    var t3 := ReloadedUpTo(Tree(), t, 1, CHANGED, SLOT, 3);
  }

  lemma JoinStores(s: Raising, rds: seq<ReachingDef>)
    requires Core(s) == After(3) && rds == [(0, Some(SHARED)), (1, Some(CHANGED))]
    ensures |s.body| == |s.term| == 4
    ensures Core(PromotedUpTo(Tree(), s.(nextSlot := 1), rds, SLOT, 2)) == Promotions()
    ensures Waiting(3, rds, SLOT) == {}
  {
    hide Promoted;
    var t := s.(nextSlot := 1);
    assert s.body == After(3).body && s.term == After(3).term;
    assert PromotedUpTo(Tree(), t, rds, SLOT, 0) == t;
    SharedPromoted(t);
    var t1 := PromotedUpTo(Tree(), t, rds, SLOT, 1);
    assert t1 == Promoted(Tree(), t, 0, SHARED, SLOT);
    ChangedPromoted(t1);
  }

  lemma JoinRecorded(o: Raising, t: Raising)
    requires Core(t) == Promotions()
    requires o == WithLoad(t.(toPromote := t.toPromote + {}), 3, 3, SLOT).(queries := o.queries)
    ensures Core(WithEmit(o, 3, [JOINED])) == Code()
  {
    var none: seq<RInst> := [];
    var load := none + [Load(JOINED, SLOT)];
    assert t.body == Promotions().body && t.nextId == 4;
    assert o.body == Promotions().body[3 := load];
    assert load + [Emit([JOINED])] == [Load(JOINED, SLOT), Emit([JOINED])];
  }

  lemma JoinRaised(s: Raising)
    requires Core(s) == After(3)
    ensures Shape(Machine(), s)
    ensures var t := RaisedBlock(Machine(), Tree(), s, 3); t.Some? && Core(t.value) == Code()
  {
    hide Promoted, PromotedUpTo, RaisedBlock, Operands, ReachingFrom, Shape, Waiting;
    var p := Machine();
    var s1 := s.(started := s.started + {3});
    SameShapeAs(s, 3);
    SameShapeAs(s1, 3);
    JoinFinds();
    assert s1.defs == After(3).defs && s.progress == After(3).progress;
    var rds: seq<ReachingDef> := [(0, Some(SHARED)), (1, Some(CHANGED))];
    SlotOperand(p, Tree(), s1, 3, 3, rds);
    JoinStores(s1, rds);
    var o := Operands(p, Tree(), s1, [3], 3).value;
    SingleInst(p, Tree(), s, 3, MInst.Use([3]), o.0, o.1);
    JoinRecorded(o.0, PromotedUpTo(Tree(), s1.(nextSlot := 1), rds, SLOT, 2));
  }

  lemma BlocksRaised()
    ensures Initial(Machine(), After(0)) && BlockOrder(Machine(), ORDER)
    ensures var t := RaisedBlocks(Machine(), Tree(), After(0), ORDER, 4); t.Some? && Core(t.value) == Code()
  {
    hide RaisedBlock, Initial, BlockOrder;
    StartIsInitial();
    MachineValid();
    var p := Machine();
    var t0 := RaisedBlocks(p, Tree(), After(0), ORDER, 0).value;
    EntryRaised(t0);
    var t1 := RaisedBlocks(p, Tree(), After(0), ORDER, 1).value;
    ChangeRaised(t1);
    var t2 := RaisedBlocks(p, Tree(), After(0), ORDER, 2).value;
    CopyRaised(t2);
    var t3 := RaisedBlocks(p, Tree(), After(0), ORDER, 3).value;
    JoinRaised(t3);
  }

  lemma TermsRaised(s: Raising)
    requires Core(s) == Code() && Shape(Machine(), s)
    ensures BlockOrder(Machine(), ORDER)
    ensures var t := RaisedTerms(Machine(), Tree(), s, ORDER, 4); t.Some? && Core(t.value) == Result()
  {
    hide RaisedTerm, Shape, BlockOrder;
    MachineValid();
    var p := Machine();
    assert s.term == After(0).term;
    var t0 := RaisedTerms(p, Tree(), s, ORDER, 0).value;
    NoTerm(p, Tree(), t0, 0);
    var t1 := RaisedTerms(p, Tree(), s, ORDER, 1).value;
    NoTerm(p, Tree(), t1, 1);
    var t2 := RaisedTerms(p, Tree(), s, ORDER, 2).value;
    NoTerm(p, Tree(), t2, 2);
    var t3 := RaisedTerms(p, Tree(), s, ORDER, 3).value;
    NoTerm(p, Tree(), t3, 3);
  }

  /** The tracker raises the machine function, and only to `Result()`. */
  lemma MachineRaised()
    ensures Initial(Machine(), After(0)) && BlockOrder(Machine(), ORDER)
    ensures exists t :: RaisedFunction(Machine(), Tree(), After(0), ORDER, t)
    ensures forall t :: RaisedFunction(Machine(), Tree(), After(0), ORDER, t) ==> Core(t) == Result()
  {
    hide RaisedBlocks, RaisedTerms, Initial, BlockOrder;
    var p := Machine();
    BlocksRaised();
    var s1 := RaisedBlocks(p, Tree(), After(0), ORDER, 4).value;
    TermsRaised(s1);
    var s2 := RaisedTerms(p, Tree(), s1, ORDER, 4).value;
    var none: seq<(Reg, Block, Slot)> := [];
    assert s2.toPromote == {};
    assert Enumerates(none, s2.toPromote) && ResolvedUpTo(p, Tree(), s2, none, 0) == Some(s2);
    assert RaisedFunction(p, Tree(), After(0), ORDER, s2);
    forall other: seq<(Reg, Block, Slot)> | Enumerates(other, s2.toPromote)
      ensures other == none
    {
      Inhabited(other);
    }
  }

  // ----- and it is wrong

  lemma IsPath()
    ensures ValidProgram(Machine()) && IsRun(Machine(), [0]) && IsRun(Machine(), [0, 1]) && Front([0, 1]) == [0]
  {
    MachineValid();
    Edges();
  }

  lemma {:induction false} CopyDefined()
    ensures ValidProgram(Machine()) && IsRun(Machine(), [0, 1])
    ensures 2 in MPath(Machine(), Ticking(), MEntry(Machine()), [0, 1]).regs
  {
    IsPath();
    var p, ev := Machine(), Ticking();
    var s := MEntry(p);
    var insts := p.blocks[0].insts;
    assert Front(insts) == [insts[0]] && Last(insts) == insts[1];
    OneRun(ev, insts[0], s);
    StepDefines(ev, insts[0], s);
    StepDefines(ev, insts[1], MStep(ev, insts[0], s));
    var s0 := MPath(p, ev, s, [0]);
    assert p.blocks[1].insts == [Op(3, 2, [3])];
    OneRun(ev, Op(3, 2, [3]), s0);
    StepDefines(ev, Op(3, 2, [3]), s0);
  }

  /** Block 1 stores what it makes into the slot that is read in place of the copy. */
  lemma SlotRemade()
    ensures Remade(Raised(Result()), [0, 1], 0, InSlot(SLOT))
  {
    var path: seq<Block> := [0, 1];
    var body := BODY1 + [Store(SLOT, CHANGED)];
    assert Front(body) == BODY1 && Last(body) == Store(SLOT, CHANGED);
    assert BODY1[1] in BODY1 && RTarget(BODY1[1]) == Some(CHANGED);
    assert StoresMade(body, SLOT);
    assert BodyOf(Raised(Result()), path[1]) == body;
  }

  lemma CopyRead()
    ensures ReadFor(Machine(), Raised(Result()), 2, 0, 1, 0, 2, InSlot(SLOT))
  {
    var body := Result().body[2];
    assert body == BODY2;
    assert Front(body[..1]) == [] && Last(body[..1]) == Load(RELOAD2, SLOT);
    assert body[..0] == [];
  }

  /** Whatever the tracker makes of the machine function does not do what the machine does. */
  lemma SharedCopyBreaks()
    ensures Initial(Machine(), After(0)) && BlockOrder(Machine(), ORDER)
    ensures exists t :: RaisedFunction(Machine(), Tree(), After(0), ORDER, t)
    ensures forall t :: RaisedFunction(Machine(), Tree(), After(0), ORDER, t) ==>
                        |t.body| == |t.term| && !Refines(Machine(), Raised(t))
  {
    hide Refines, RaisedFunction, Initial, BlockOrder, Remade, ReadFor;
    var p := Machine();
    MachineRaised();
    forall t | RaisedFunction(p, Tree(), After(0), ORDER, t)
      ensures |t.body| == |t.term| && !Refines(p, Raised(t))
    {
      assert t.body == Result().body && t.term == Result().term;
      assert Raised(t) == Raised(Result());
      RaisedMirrors(p, Tree(), After(0), ORDER, t);
      CopyDefined();
      SlotRemade();
      CopyRead();
      WritesIs(2, 1);
      RemadeReadBreaks(p, Raised(t), [0, 1], 0, InSlot(SLOT), 2, 2, 0, 1, 0);
    }
  }

  /** Its copy is in the entry block: only the second condition on good programs fails. */
  lemma OnlyApartFails()
    ensures CopiesSafe(Machine()) && !Apart(Machine())
  {
    hide MayPromote, Wanted;
    var p := Machine();
    var insts := p.blocks[0].insts;
    assert Front(insts) == [insts[0]] && Front([insts[0]]) == [] && Last([insts[0]]) == insts[0];
    assert SourceOf(insts, 3) == Made(0) && SourceOf(insts, 2) == Made(0);
    assert SameSource(insts, 3, 2);
    JoinPromotes();
    CopyIsWanted();
    forall b: Block, r: Reg | 0 < b < 4 && Writes(p, r, b)
      ensures SourceOf(p.blocks[b].insts, r).Made?
    {
      WritesIs(r, b);
      assert Last(p.blocks[1].insts) == p.blocks[1].insts[0];
    }
  }

  lemma ComesIn(d: Block)
    requires d < 2
    ensures Reaches(Machine().preds, SetBlocks(Machine(), 3), d, 3) && Carries(Machine(), 3, d, 3)
  {
    var p := Machine();
    WritesIs(3, d);
    ClearNowhere(p.preds, SetBlocks(p, 3), d);
    Edges();
    assert Edge(p.preds, d, 3);
    assert d in SetBlocks(p, 3);
    ReachesFlows(p.preds, SetBlocks(p, 3), d, 3);
  }

  /** In block 3 two values of r3 meet. */
  lemma JoinPromotes()
    ensures MayPromote(Machine(), 3, 0)
  {
    hide Carries;
    var p := Machine();
    ComesIn(0);
    ComesIn(1);
    assert !WrittenBefore(p, 3, 0, 3) && 3 in ReadRegs(p.blocks[3].insts[0]);
    assert Meets(p, 3, 3);
  }

  /** Block 2 reads the copy. */
  lemma CopyIsWanted()
    ensures Wanted(Machine(), 2, 0)
  {
    var p := Machine();
    Edges();
    WritesIs(2, 1);
    EdgeClear(p.preds, SetBlocks(p, 2), 0, 1);
    assert Edge(p.preds, 1, 2);
    assert Carries(p, 2, 0, 2);
    assert !WrittenBefore(p, 2, 0, 2) && 2 in ReadRegs(p.blocks[2].insts[0]);
  }
}
