/** A machine function that is raised wrongly: a register keeps a value across the back edge of a loop while the loop
    makes the value anew. Block 1 is the loop head and makes r3, block 2 copies it to r2, and block 3, after the loop,
    reads r2. The only definition that reaches it is the copy, so the value of r3 is taken directly; but by then it is
    that of the last iteration, and r2 has that of the one before. */
module LostCopy {
  import opened Wrappers
  import opened ControlFlow
  import opened ReachingDefinitions
  import opened RaisedSemantics
  import opened RaisingFunction
  import opened GoodPrograms
  import opened RaisingInvariant
  import opened RaisingEvaluation
  import opened Disturbance

  function Machine(): Program {
    Program([[], [0, 2], [1], [1]],
            [MBlock([], []), MBlock([Op(3, 1, [])], []), MBlock([MInst.Copy(2, 3)], []), MBlock([MInst.Use([2])], [])],
                {})
  }

  const ORDER: seq<Block> := [0, 1, 2, 3]

  /** The dominator tree: the entry above the loop head, and that above the rest. No load and no cast is involved. */
  function Tree(): Llvm {
    Llvm((d: Block, u: Block) => d == 0 || d == u || (d == 1 && u > 0), (v: Value, slot: Slot) => false)
  }

  const MADE: Value := Inst(1, 0)

  /** The state before the first block, and after each. */
  function After(blocks: nat): Raising
    requires blocks <= 4
  {
    var defs: DefMap := map[(3, 1) := if blocks > 1 then Some(MADE) else None,
                            (2, 2) := if blocks > 2 then Some(MADE) else None];
    var bodies := [[], if blocks > 1 then [Compute(MADE, 1, [])] else [], [],
                   if blocks > 3 then [Emit([MADE])] else []];
    Raising(defs, bodies, [None, None, None, None], {}, if blocks > 1 then 1 else 0, 0, {},
            [0, if blocks > 1 then 1 else 0, if blocks > 2 then 1 else 0, if blocks > 3 then 1 else 0], {})
  }

  /** The raised function. */
  function Result(): Raising {
    After(4).(term := [Some([]), Some([]), Some([]), Some([])])
  }

  lemma MachineValid()
    ensures ValidProgram(Machine()) && BlockOrder(Machine(), ORDER)
    ensures forall k: nat :: k <= 4 ==> Shape(Machine(), After(k))
  {
    var p := Machine();
    forall b: Block
      ensures b in ORDER <==> b < |p.blocks|
    {
      assert ORDER[0] == 0 && ORDER[1] == 1 && ORDER[2] == 2 && ORDER[3] == 3;
    }
  }

  lemma WritesIs(r: Reg, b: Block)
    ensures Writes(Machine(), r, b) <==> (r == 3 && b == 1) || (r == 2 && b == 2)
  {
    var p := Machine();
    if 0 < b < 4 {
      assert |p.blocks[b].insts| == 1;
      assert Target(p.blocks[b].insts[0]) == if b == 3 then None else Some(if b == 2 then 2 else 3);
    }
  }

  lemma Edges()
    ensures forall x: Block, b: Block :: Edge(Machine().preds, x, b) <==>
                                         (x in {0, 2} && b == 1) || (x == 1 && b in {2, 3})
  {
  }

  lemma StartIsInitial()
    ensures Initial(Machine(), After(0))
  {
    var p, s := Machine(), After(0);
    MachineValid();
    forall r: Reg, b: Block
      ensures (r, b) in s.defs <==> Writes(p, r, b) || (b == 0 && r in p.args)
    {
      WritesIs(r, b);
    }
  }

  /** The tree is right: these are the blocks that are on every path. */
  lemma TreeDominates(d: Block, u: Block)
    requires d < 4 && u < 4
    ensures Tree().dominates(d, u) <==> Dominates(Machine().preds, d, u)
  {
    var preds := Machine().preds;
    Edges();
    forall path: seq<Block> | Joins(preds, {}, path, 0, u) && Tree().dominates(d, u)
      ensures d in path
    {
      assert path[0] in path && path[|path| - 1] in path;
      if d == 1 && u > 0 {
        assert Edge(preds, path[0], path[1]) && path[1] in path;
      }
    }
    if !Tree().dominates(d, u) {
      var path := if u == 0 then [0] else if u == 1 then [0, 1] else [0, 1, u];
      assert Joins(preds, {}, path, 0, u) && d !in path;
    }
  }

  // ----- the searches

  lemma CopyFinds()
    ensures ReachingFrom(Machine().preds, {}, After(2).defs, 3, 2, 0) == [(1, Some(MADE))]
  {
    var preds, defs := Machine().preds, After(2).defs;
    Edges();
    assert DefBlocks({}, defs, 3, 4) == {1};
    ReachesAlong(preds, {1}, [1], 2);
    var found: seq<ReachingDef> := [(1, Some(MADE))];
    assert found[0] in found && BlocksOf(found) == {1};
    SearchGives(preds, {}, defs, 3, 2, found, {});
  }

  lemma UseFinds()
    ensures ReachingFrom(Machine().preds, {}, After(3).defs, 2, 3, 0) == [(2, Some(MADE))]
  {
    var preds, defs := Machine().preds, After(3).defs;
    Edges();
    assert DefBlocks({}, defs, 2, 4) == {2};
    ReachesAlong(preds, {2}, [2, 1], 3);
    var found: seq<ReachingDef> := [(2, Some(MADE))];
    assert found[0] in found && BlocksOf(found) == {2};
    SearchGives(preds, {}, defs, 2, 3, found, {0, 1});
  }

  // ----- raising, block by block

  lemma SameShapeAs(s: Raising, k: nat)
    requires k <= 4 && Core(s) == After(k)
    ensures Shape(Machine(), s)
  {
    MachineValid();
    assert s.body == After(k).body && s.term == After(k).term && s.progress == After(k).progress;
  }

  lemma EntryRaised(s: Raising)
    requires Core(s) == After(0)
    ensures Shape(Machine(), s)
    ensures var t := RaisedBlock(Machine(), Tree(), s, 0); t.Some? && Core(t.value) == After(1)
  {
    SameShapeAs(s, 0);
  }

  lemma HeadRaised(s: Raising)
    requires Core(s) == After(1)
    ensures Shape(Machine(), s)
    ensures var t := RaisedBlock(Machine(), Tree(), s, 1); t.Some? && Core(t.value) == After(2)
  {
    SameShapeAs(s, 1);
    var s1 := s.(started := s.started + {1});
    SameShapeAs(s1, 1);
    NoOperand(Machine(), Tree(), s1, 1);
    SingleInst(Machine(), Tree(), s, 1, Op(3, 1, []), s1, []);
    var none: seq<RInst> := [];
    assert none + [Compute(MADE, 1, [])] == [Compute(MADE, 1, [])];
  }

  lemma CopyRaised(s: Raising)
    requires Core(s) == After(2)
    ensures Shape(Machine(), s)
    ensures var t := RaisedBlock(Machine(), Tree(), s, 2); t.Some? && Core(t.value) == After(3)
  {
    hide RaisedBlock, Operands, ReachingFrom, Shape;
    var p := Machine();
    var s1 := s.(started := s.started + {2});
    SameShapeAs(s, 2);
    SameShapeAs(s1, 2);
    CopyFinds();
    assert s1.defs == After(2).defs && s.progress == After(2).progress;
    DirectOperand(p, Tree(), s1, 3, 2, 1, MADE);
    SingleInst(p, Tree(), s, 2, MInst.Copy(2, 3), Operands(p, Tree(), s1, [3], 2).value.0, [MADE]);
  }

  lemma UseRaised(s: Raising)
    requires Core(s) == After(3)
    ensures Shape(Machine(), s)
    ensures var t := RaisedBlock(Machine(), Tree(), s, 3); t.Some? && Core(t.value) == After(4)
  {
    hide RaisedBlock, Operands, ReachingFrom, Shape;
    var p := Machine();
    var s1 := s.(started := s.started + {3});
    SameShapeAs(s, 3);
    SameShapeAs(s1, 3);
    UseFinds();
    assert s1.defs == After(3).defs && s.progress == After(3).progress;
    DirectOperand(p, Tree(), s1, 2, 3, 2, MADE);
    SingleInst(p, Tree(), s, 3, MInst.Use([2]), Operands(p, Tree(), s1, [2], 3).value.0, [MADE]);
    var none: seq<RInst> := [];
    assert none + [Emit([MADE])] == [Emit([MADE])];
  }

  lemma BlocksRaised()
    ensures Initial(Machine(), After(0)) && BlockOrder(Machine(), ORDER)
    ensures var t := RaisedBlocks(Machine(), Tree(), After(0), ORDER, 4); t.Some? && Core(t.value) == After(4)
  {
    hide RaisedBlock, Initial, BlockOrder;
    StartIsInitial();
    MachineValid();
    var p := Machine();
    var t0 := RaisedBlocks(p, Tree(), After(0), ORDER, 0).value;
    EntryRaised(t0);
    var t1 := RaisedBlocks(p, Tree(), After(0), ORDER, 1).value;
    HeadRaised(t1);
    var t2 := RaisedBlocks(p, Tree(), After(0), ORDER, 2).value;
    CopyRaised(t2);
    var t3 := RaisedBlocks(p, Tree(), After(0), ORDER, 3).value;
    UseRaised(t3);
  }

  lemma TermsRaised(s: Raising)
    requires Core(s) == After(4)
    ensures Shape(Machine(), s) && BlockOrder(Machine(), ORDER)
    ensures var t := RaisedTerms(Machine(), Tree(), s, ORDER, 4); t.Some? && Core(t.value) == Result()
  {
    hide RaisedTerm, Shape, BlockOrder;
    SameShapeAs(s, 4);
    MachineValid();
    var p := Machine();
    assert s.term == After(4).term;
    var t0 := RaisedTerms(p, Tree(), s, ORDER, 0).value;
    NoTerm(p, Tree(), t0, 0);
    var t1 := RaisedTerms(p, Tree(), s, ORDER, 1).value;
    NoTerm(p, Tree(), t1, 1);
    var t2 := RaisedTerms(p, Tree(), s, ORDER, 2).value;
    NoTerm(p, Tree(), t2, 2);
    var t3 := RaisedTerms(p, Tree(), s, ORDER, 3).value;
    NoTerm(p, Tree(), t3, 3);
  }

  /** The tracker raises the machine function, and only to `Result()`. */
  lemma MachineRaised()
    ensures Initial(Machine(), After(0)) && BlockOrder(Machine(), ORDER)
    ensures exists t :: RaisedFunction(Machine(), Tree(), After(0), ORDER, t)
    ensures forall t :: RaisedFunction(Machine(), Tree(), After(0), ORDER, t) ==> Core(t) == Result()
  {
    hide RaisedBlocks, RaisedTerms, Initial, BlockOrder;
    var p := Machine();
    BlocksRaised();
    var s1 := RaisedBlocks(p, Tree(), After(0), ORDER, 4).value;
    TermsRaised(s1);
    var s2 := RaisedTerms(p, Tree(), s1, ORDER, 4).value;
    var none: seq<(Reg, Block, Slot)> := [];
    assert s2.toPromote == {};
    assert Enumerates(none, s2.toPromote) && ResolvedUpTo(p, Tree(), s2, none, 0) == Some(s2);
    assert RaisedFunction(p, Tree(), After(0), ORDER, s2);
    forall other: seq<(Reg, Block, Slot)> | Enumerates(other, s2.toPromote)
      ensures other == none
    {
      Inhabited(other);
    }
  }

  // ----- and it is wrong

  lemma IsPath()
    ensures ValidProgram(Machine())
    ensures IsRun(Machine(), [0]) && IsRun(Machine(), [0, 1]) && IsRun(Machine(), [0, 1, 2])
            && IsRun(Machine(), [0, 1, 2, 1])
    ensures Front([0, 1, 2, 1]) == [0, 1, 2] && Front([0, 1, 2]) == [0, 1] && Front([0, 1]) == [0]
  {
    MachineValid();
  }

  lemma BlockDefines(b: Block, s: MState)
    requires 0 < b < 4 && forall r :: r in ReadRegs(Machine().blocks[b].insts[0]) ==> r in s.regs
    ensures var i := Machine().blocks[b].insts[0];
            MBlockRun(Ticking(), Machine().blocks[b], s).regs.Keys
                == s.regs.Keys + if Target(i).Some? then {Target(i).value} else {}
  {
    var i := Machine().blocks[b].insts[0];
    assert Machine().blocks[b].insts == [i];
    OneRun(Ticking(), i, s);
    StepDefines(Ticking(), i, s);
  }

  /** On the run through the copy and once more around the loop, the copy is defined. */
  lemma {:induction false} CopyDefined()
    ensures ValidProgram(Machine()) && IsRun(Machine(), [0, 1, 2, 1])
    ensures 2 in MPath(Machine(), Ticking(), MEntry(Machine()), [0, 1, 2, 1]).regs
  {
    IsPath();
    var p := Machine();
    var s0 := MPath(p, Ticking(), MEntry(p), [0]);
    BlockDefines(1, s0);
    var s1 := MPath(p, Ticking(), MEntry(p), [0, 1]);
    BlockDefines(2, s1);
    var s2 := MPath(p, Ticking(), MEntry(p), [0, 1, 2]);
    BlockDefines(1, s2);
  }

  /** The loop makes anew what is read in place of the copy. */
  lemma ValueRemade()
    ensures Remade(Raised(Result()), [0, 1, 2, 1], 2, Direct(MADE))
  {
    var path: seq<Block> := [0, 1, 2, 1];
    var body := Result().body[1];
    assert body[0] in body && RTarget(body[0]) == Some(MADE);
    assert BodyOf(Raised(Result()), path[3]) == body;
    assert Makes(BodyOf(Raised(Result()), path[3]), MADE);
  }

  lemma CopyRead()
    ensures ReadFor(Machine(), Raised(Result()), 3, 0, 0, 0, 2, Direct(MADE))
  {
    assert Result().body[3] == [Emit([MADE])];
  }

  /** Whatever the tracker makes of the machine function does not do what the machine does. */
  lemma LostCopyBreaks()
    ensures Initial(Machine(), After(0)) && BlockOrder(Machine(), ORDER)
    ensures exists t :: RaisedFunction(Machine(), Tree(), After(0), ORDER, t)
    ensures forall t :: RaisedFunction(Machine(), Tree(), After(0), ORDER, t) ==>
                        |t.body| == |t.term| && !Refines(Machine(), Raised(t))
  {
    hide Refines, RaisedFunction, Initial, BlockOrder, Remade, ReadFor;
    var p := Machine();
    MachineRaised();
    forall t | RaisedFunction(p, Tree(), After(0), ORDER, t)
      ensures |t.body| == |t.term| && !Refines(p, Raised(t))
    {
      assert t.body == Result().body && t.term == Result().term;
      assert Raised(t) == Raised(Result());
      RaisedMirrors(p, Tree(), After(0), ORDER, t);
      var path: seq<Block> := [0, 1, 2, 1];
      CopyDefined();
      ValueRemade();
      CopyRead();
      WritesIs(2, 1);
      RemadeReadBreaks(p, Raised(t), path, 2, Direct(MADE), 2, 3, 0, 0, 0);
    }
  }

  // ----- the only reason

  /** No register is ever given a slot, since each is set by one block only. */
  lemma NothingPromoted(r: Reg, b: Block)
    ensures !MayPromote(Machine(), r, b)
  {
    var p := Machine();
    forall d: Block, e: Block | d in SetBlocks(p, r) && e in SetBlocks(p, r)
      ensures d == e
    {
      WritesIs(r, d);
      WritesIs(r, e);
    }
    forall u: Block, d: Block | Reaches(p.preds, SetBlocks(p, r), d, u)
      ensures d in SetBlocks(p, r)
    {
      ReachesFlows(p.preds, SetBlocks(p, r), d, u);
    }
  }

  /** The loop leads from the copy back to where its value was made, and from there to the read. */
  lemma BackEdgeDisturbs()
    ensures Disturbs(Machine(), 2, 2, 1)
  {
    var p := Machine();
    var sets := SetBlocks(p, 2);
    Edges();
    WritesIs(2, 1);
    ClearNowhere(p.preds, sets, 2);
    ClearNowhere(p.preds, sets, 1);
    assert Edge(p.preds, 2, 1) && Edge(p.preds, 1, 3);
    assert Carries(p, 2, 2, 1) && Carries(p, 2, 1, 3);
    assert !WrittenBefore(p, 3, 0, 2) && 2 in ReadRegs(p.blocks[3].insts[0]);
    assert ReadIn(p, 2, 3);
  }

  /** No value is in two registers of a block, and nothing has a slot: the program is good but for the back edge. */
  lemma OnlyTheBackEdge()
    ensures !CopiesSafe(Machine()) && Apart(Machine())
    ensures forall r, b :: !MayPromote(Machine(), r, b)
    ensures Disturbs(Machine(), 2, 2, 1)
  {
    hide MayPromote, Disturbs, Carries;
    var p := Machine();
    forall r, b
      ensures !MayPromote(p, r, b)
    {
      NothingPromoted(r, b);
    }
    BackEdgeDisturbs();
    CopyBorrows();
  }

  lemma CopyBorrows()
    requires Disturbs(Machine(), 2, 2, 1)
    ensures !CopiesSafe(Machine())
  {
    hide Disturbs, Carries, MayPromote;
    var p := Machine();
    var i := p.blocks[2].insts[0];
    assert p.blocks[2].insts == [i] && Front([i]) == [] && Last([i]) == i;
    assert SourceOf(p.blocks[2].insts, 2) == Came(3);
    WritesIs(2, 2);
    WritesIs(3, 1);
    assert 1 in MaySet(p, 3) && Carries(p, 3, 1, 2) by { CopyComesIn(); }
    assert !MayBorrow(p, 2, 2, 3);
    assert !Joined(p, 3, 2) by { SetOnce(); }
  }

  lemma CopyComesIn()
    ensures Carries(Machine(), 3, 1, 2) && 1 in MaySet(Machine(), 3)
  {
    var p := Machine();
    Edges();
    WritesIs(3, 1);
    ClearNowhere(p.preds, SetBlocks(p, 3), 1);
    assert Edge(p.preds, 1, 2);
  }

  lemma SetOnce()
    ensures !Joined(Machine(), 3, 2)
  {
    forall d: Block | Sets(Machine(), 3, d)
      ensures d == 1
    {
      WritesIs(3, d);
    }
  }
}
