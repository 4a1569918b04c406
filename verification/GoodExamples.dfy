/** Good programs of the three kinds that are easily taken for bad ones: a copy of a register that is loaded from a
    slot, a copy of a stored value that only its own block reads, and a copy in a loop of what the loop makes anew. */
module GoodExamples {
  import opened Wrappers
  import opened ControlFlow
  import opened ReachingDefinitions
  import opened RaisedSemantics
  import opened RaisingFunction
  import opened GoodPrograms

  const DIAMOND: Preds := [[], [0], [0], [1, 2]]

  lemma Diamond()
    ensures ValidCfg(DIAMOND) && forall x: Block, b: Block :: Edge(DIAMOND, x, b) <==>
                                                              (x == 0 && b in {1, 2}) || (x in {1, 2} && b == 3)
  {
  }

  lemma OneInst(insts: seq<MInst>, r: Reg)
    requires |insts| == 1
    ensures SourceOf(insts, r) == if Target(insts[0]) != Some(r) then Came(r)
                                  else if insts[0].Copy? then Came(insts[0].src) else Made(0)
  {
    assert Front(insts) == [];
  }

  // ----- blocks 1 and 2 make r3, and block 3 copies it

  function Join(): Program {
    Program(DIAMOND,
            [MBlock([], []), MBlock([Op(3, 0, [])], []), MBlock([Op(3, 1, [])], []),
             MBlock([MInst.Copy(2, 3), MInst.Use([2])], [])], {})
  }

  lemma JoinWrites(r: Reg, b: Block)
    ensures Writes(Join(), r, b) <==> (r == 3 && b in {1, 2}) || (r == 2 && b == 3)
  {
    var p := Join();
    if b in {1, 2} {
      assert Target(p.blocks[b].insts[0]) == Some(3);
    } else if b == 3 {
      assert Target(p.blocks[b].insts[0]) == Some(2) && Target(p.blocks[b].insts[1]) == None;
    }
  }

  lemma JoinLoads()
    ensures Joined(Join(), 3, 3)
  {
    var p := Join();
    Diamond();
    forall d: Block | d in {1, 2}
      ensures Sets(p, 3, d) && Reaches(p.preds, MaySet(p, 3), d, 3)
    {
      JoinWrites(3, d);
      ClearNowhere(p.preds, MaySet(p, 3), d);
      assert Edge(p.preds, d, 3);
      ReachesFlows(p.preds, MaySet(p, 3), d, 3);
    }
    hide Sets, Reaches, MaySet;
    assert Sets(p, 3, 1) && Sets(p, 3, 2);
    assert Reaches(p.preds, MaySet(p, 3), 1, 3) && Reaches(p.preds, MaySet(p, 3), 2, 3);
  }

  lemma JoinSource(b: Block, r: Reg)
    requires b < 4
    ensures var source := SourceOf(Join().blocks[b].insts, r);
            if b in {1, 2} && r == 3 then source == Made(0) else source == Came(if b == 3 && r == 2 then 3 else r)
  {
    var insts := Join().blocks[b].insts;
    if b in {1, 2} {
      OneInst(insts, r);
    } else if b == 3 {
      assert Front(insts) == [insts[0]] && Last(insts) == insts[1];
      OneInst(Front(insts), r);
    }
  }

  lemma JoinIsGood()
    ensures Good(Join())
  {
    hide Joined, MayBorrow, MayPromote, Wanted;
    var p := Join();
    Diamond();
    JoinLoads();
    forall b: Block, r: Reg | b < 4
      ensures Writes(p, r, b) && b > 0 && SourceOf(p.blocks[b].insts, r).Came? ==> b == 3 && r == 2
    {
      JoinWrites(r, b);
      JoinSource(b, r);
    }
    JoinSource(3, 2);
    forall b: Block, r1: Reg, r2: Reg | b < 4 && r1 != r2
      ensures !SameSource(p.blocks[b].insts, r1, r2)
    {
      JoinSource(b, r1);
      JoinSource(b, r2);
    }
  }

  // ----- blocks 1 and 2 make r3, which is read in block 3, and block 1 copies it for itself

  function Scratch(): Program {
    Program(DIAMOND,
            [MBlock([], []), MBlock([Op(3, 0, []), MInst.Copy(2, 3), MInst.Use([2])], []), MBlock([Op(3, 1, [])], []),
             MBlock([MInst.Use([3])], [])], {})
  }

  /** No block reads r2 as it comes in. */
  lemma ScratchReads(u: Block)
    ensures !ReadIn(Scratch(), 2, u)
  {
    var p := Scratch();
    if u == 1 {
      assert Target(p.blocks[1].insts[1]) == Some(2);
    }
  }

  lemma ScratchSource(b: Block, r: Reg)
    requires b < 4
    ensures var source := SourceOf(Scratch().blocks[b].insts, r);
            if (b == 1 && r in {2, 3}) || (b == 2 && r == 3) then source == Made(0) else source == Came(r)
  {
    var insts := Scratch().blocks[b].insts;
    if b == 1 {
      assert Front(insts) == insts[..2] && Last(insts) == insts[2];
      assert Front(insts[..2]) == [insts[0]] && Last(insts[..2]) == insts[1];
      OneInst([insts[0]], r);
      OneInst([insts[0]], 3);
    } else if b > 1 {
      OneInst(insts, r);
    }
  }

  lemma ScratchIsGood()
    ensures Good(Scratch())
  {
    hide Joined, MayBorrow, ReadIn, Carries;
    var p := Scratch();
    Diamond();
    forall u
      ensures !ReadIn(p, 2, u)
    {
      ScratchReads(u);
    }
    forall b: Block, r: Reg | b < 4 && Writes(p, r, b)
      ensures SourceOf(p.blocks[b].insts, r).Made?
    {
      ScratchSource(b, r);
    }
    forall b: Block, r1: Reg, r2: Reg | b < 4 && r1 != r2 && SameSource(p.blocks[b].insts, r1, r2)
      ensures r1 == 2 || r2 == 2
    {
      ScratchSource(b, r1);
      ScratchSource(b, r2);
    }
  }

  // ----- block 1 is the head of a loop and makes r3, and block 2 copies it for itself

  function Loop(): Program {
    Program([[], [0, 2], [1], [1]],
            [MBlock([], []), MBlock([Op(3, 0, [])], []), MBlock([MInst.Copy(2, 3), MInst.Use([2])], []),
             MBlock([MInst.Use([3])], [])], {})
  }

  lemma LoopReads(u: Block)
    ensures !ReadIn(Loop(), 2, u)
  {
    var p := Loop();
    if u == 2 {
      assert Target(p.blocks[2].insts[0]) == Some(2);
    }
  }

  lemma LoopWrites(r: Reg, b: Block)
    ensures Writes(Loop(), r, b) <==> (r == 3 && b == 1) || (r == 2 && b == 2)
  {
    var p := Loop();
    if b == 1 {
      assert Target(p.blocks[b].insts[0]) == Some(3);
    } else if b == 2 {
      assert Target(p.blocks[b].insts[0]) == Some(2) && Target(p.blocks[b].insts[1]) == None;
    }
  }

  lemma LoopSource(b: Block, r: Reg)
    requires b < 4
    ensures var source := SourceOf(Loop().blocks[b].insts, r);
            if b == 1 && r == 3 then source == Made(0) else source == Came(if b == 2 && r == 2 then 3 else r)
  {
    var insts := Loop().blocks[b].insts;
    if b == 2 {
      assert Front(insts) == [insts[0]] && Last(insts) == insts[1];
      OneInst(Front(insts), r);
    } else if b > 0 {
      OneInst(insts, r);
    }
  }

  lemma LoopSetsOnce(r: Reg)
    ensures forall u :: !Meets(Loop(), r, u)
  {
    var p := Loop();
    forall d: Block, e: Block | d in SetBlocks(p, r) && e in SetBlocks(p, r)
      ensures d == e
    {
      LoopWrites(r, d);
      LoopWrites(r, e);
    }
    forall u: Block, d: Block | Reaches(p.preds, SetBlocks(p, r), d, u)
      ensures d in SetBlocks(p, r)
    {
      ReachesFlows(p.preds, SetBlocks(p, r), d, u);
    }
  }

  lemma LoopIsGood()
    ensures Good(Loop())
  {
    hide Joined, ReadIn, Carries, Meets;
    var p := Loop();
    LoopSetsOnce(2);
    LoopSetsOnce(3);
    forall u
      ensures !ReadIn(p, 2, u)
    {
      LoopReads(u);
    }
    LoopWrites(3, 1);
    LoopWrites(3, 2);
    LoopSource(1, 3);
    forall d: Block | d in MaySet(p, 3)
      ensures d == 1
    {
      LoopWrites(3, d);
    }
    assert MayBorrow(p, 2, 2, 3);
    forall b: Block, r: Reg | 0 < b < 4 && Writes(p, r, b) && SourceOf(p.blocks[b].insts, r).Came?
      ensures b == 2 && r == 2 && SourceOf(p.blocks[b].insts, r) == Came(3)
    {
      LoopWrites(r, b);
      LoopSource(b, r);
    }
    forall b: Block, r1: Reg, r2: Reg | b < 4 && r1 != r2
      ensures !SameSource(p.blocks[b].insts, r1, r2)
    {
      LoopSource(b, r1);
      LoopSource(b, r2);
    }
  }
}
