/** What good programs allow of values that a block keeps from another. */
module RaisingBorrows {
  import opened Wrappers
  import opened ControlFlow
  import opened ReachingDefinitions
  import opened RaisedSemantics
  import opened RaisingFunction
  import opened GoodPrograms
  import opened RaisingInvariant

  lemma ItsEntry(p: Program, s: Raising, r: Reg, b: Block, v: Value)
    requires Shape(p, s) && DefsOk(p, s) && Keeps(s, r, b, v)
    ensures EntryOk(p, s, r, b)
  {
  }

  /** What a block keeps without having written it, it has loaded. */
  lemma UnwrittenIsLoaded(p: Program, s: Raising, r: Reg, b: Block, v: Value)
    requires Shape(p, s) && DefsOk(p, s) && Keeps(s, r, b, v)
    requires b < |p.blocks| && !WrittenBefore(p, b, s.progress[b], r)
    ensures b != 0 && v.block == b && IsLoaded(s.body, v) && Meets(p, r, b)
  {
    hide Meets, Sets, Lent, IsLoaded;
    ItsEntry(p, s, r, b, v);
    UnwrittenCame(p, b, s.progress[b], r);
  }

  /** Block `b` is done and keeps a value of another block, which came into it in `src` from block `d`. */
  lemma KeptFrom(p: Program, s: Raising, r: Reg, b: Block, v: Value) returns (src: Reg, d: Block)
    requires Good(p) && Shape(p, s) && DefsOk(p, s) && Done(p, s, b) && Keeps(s, r, b, v) && v.block != b
    ensures Lent(p, s, src, b, v) && LentBy(p, s, src, b, v, d) && MayBorrowFrom(p, b, r, src, d)
  {
    hide Apart, Meets, Sets, IsLoaded, Joined, MayBorrowFrom, ReadIn, Leads, Carries, DefsOk;
    var insts := p.blocks[b].insts;
    assert insts[..s.progress[b]] == insts;
    if !WrittenBefore(p, b, s.progress[b], r) {
      UnwrittenIsLoaded(p, s, r, b, v);
    }
    ItsEntry(p, s, r, b, v);
    src := SourceOf(insts, r).reg;
    d :| LentBy(p, s, src, b, v, d);
    WrittenWrites(p, b, s.progress[b], r);
    LenderMaySet(p, s, src, b, v, d);
    assert MayBorrow(p, b, r, src);
  }

  lemma LenderMaySet(p: Program, s: Raising, src: Reg, b: Block, v: Value, d: Block)
    requires ValidProgram(p) && Shape(p, s) && DefsOk(p, s) && LentBy(p, s, src, b, v, d)
    ensures d in MaySet(p, src) && !(d == 0 && !Writes(p, src, 0))
  {
    hide Meets, Carries, Sound, DefsOk;
    ItsEntry(p, s, src, d, v);
    if !WrittenBefore(p, d, s.progress[d], src) {
      UnwrittenIsLoaded(p, s, src, d, v);
    }
    WrittenWrites(p, d, s.progress[d], src);
  }

  /** What a block keeps of another is not stored for the register that keeps it, nor made anew before it is read. */
  lemma KeptIsSafe(p: Program, s: Raising, r: Reg, b: Block, v: Value)
    requires Good(p) && Shape(p, s) && DefsOk(p, s) && Done(p, s, b) && Keeps(s, r, b, v) && v.block != b
    ensures !MayPromote(p, r, b) && !Disturbs(p, r, b, v.block)
  {
    hide CopiesSafe, Apart, Meets, Sets, IsLoaded, Joined, ReadIn, Leads, Carries, DefsOk, MayPromote, Disturbs,
         WantedAtEnd;
    var src, d := KeptFrom(p, s, r, b, v);
    if v.block != d {
      LentOnByWriting(p, s, src, d, v);
    }
  }

  /** A block that keeps the value of another wrote it, as a copy of what came in. */
  lemma LentOnByWriting(p: Program, s: Raising, src: Reg, d: Block, v: Value)
    requires ValidProgram(p) && Shape(p, s) && DefsOk(p, s) && Done(p, s, d) && Keeps(s, src, d, v) && v.block != d
    ensures d < |p.blocks| && Writes(p, src, d) && SourceOf(p.blocks[d].insts, src).Came? && Leads(p.preds, v.block, d)
  {
    hide Meets, Sets, IsLoaded, Joined, ReadIn, Leads, Carries, DefsOk;
    assert p.blocks[d].insts[..s.progress[d]] == p.blocks[d].insts;
    if !WrittenBefore(p, d, s.progress[d], src) {
      UnwrittenIsLoaded(p, s, src, d, v);
    }
    ItsEntry(p, s, src, d, v);
    WrittenWrites(p, d, s.progress[d], src);
  }

  /** A value that is read in another block, from the register of its own block that left it there, is stored for no
      other register. */
  lemma OwnIsApart(p: Program, s: Raising, r: Reg, x: Reg, d: Block, v: Value)
    requires Apart(p) && Shape(p, s) && Done(p, s, d) && SharesOk(p, s, d) && Has(s, r, d, v) && Has(s, x, d, v)
    requires r != x && Wanted(p, r, d)
    ensures IsLoaded(s.body, v) || !MayPromote(p, x, d)
  {
    hide IsLoaded, MayPromote, Wanted;
    assert p.blocks[d].insts[..s.progress[d]] == p.blocks[d].insts;
  }

  /** What a block has borrowed when it is done and is read elsewhere is not stored for a register of its own block. */
  lemma BorrowIsApart(p: Program, s: Raising, b: Block, r: Reg, v: Value, x: Reg)
    requires Good(p) && Shape(p, s) && DefsOk(p, s)
    requires forall d :: 0 <= d < |p.blocks| ==> SharesOk(p, s, d) && (d != b ==> BorrowsOk(p, s, d))
    requires Done(p, s, b) && Keeps(s, r, b, v) && v.block != b && WantedAtEnd(p, r, b) && Keeps(s, x, v.block, v)
    ensures IsLoaded(s.body, v) || !MayPromote(p, x, v.block)
  {
    hide CopiesSafe, Apart, Meets, Joined, Leads, Carries, DefsOk, IsLoaded, MayPromote, ReadIn, SharesOk;
    var src, d := KeptFrom(p, s, r, b, v);
    assert Wanted(p, src, d);
    WrittenWrites(p, d, s.progress[d], src);
    if !Sets(p, src, d) {
      UnwrittenIsLoaded(p, s, src, d, v);
    } else if v.block != d {
      assert BorrowsOk(p, s, d);
    } else if x != src {
      assert SharesOk(p, s, d);
      OwnIsApart(p, s, src, x, d, v);
    }
  }

  lemma BorrowsAtEnd(p: Program, s: Raising, b: Block)
    requires Good(p) && Shape(p, s) && DefsOk(p, s) && b < |p.blocks|
    requires forall d :: 0 <= d < |p.blocks| ==> SharesOk(p, s, d) && (d != b ==> BorrowsOk(p, s, d))
    ensures BorrowsOk(p, s, b)
  {
    if Done(p, s, b) {
      forall r, x, v | Keeps(s, r, b, v) && v.block != b && WantedAtEnd(p, r, b) && Keeps(s, x, v.block, v)
        ensures IsLoaded(s.body, v) || !MayPromote(p, x, v.block)
      {
        hide BorrowsOk, SharesOk, WantedAtEnd, MayPromote, IsLoaded, Good, DefsOk;
        BorrowIsApart(p, s, b, r, v, x);
      }
    }
  }
}
