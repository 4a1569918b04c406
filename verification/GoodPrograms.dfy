/** The machine functions that are raised rightly. All of this can be told from the graph and the code, before
    raising. */
module GoodPrograms {
  import opened Wrappers
  import opened ControlFlow
  import opened ReachingDefinitions
  import opened RaisedSemantics
  import opened RaisingFunction

  // ----- what a block does with a register

  ghost predicate WrittenBefore(p: Program, b: Block, k: nat, r: Reg)
    requires b < |p.blocks| && k <= |p.blocks[b].insts|
  {
    exists i :: 0 <= i < k && Target(p.blocks[b].insts[i]) == Some(r)
  }

  /** Where what a register holds after some instructions of a block comes from: an instruction made it, or it came into
      the block in a register. */
  datatype Source = Made(inst: nat) | Came(reg: Reg)

  function SourceOf(insts: seq<MInst>, r: Reg): Source {
    if insts == [] then Came(r)
    else if Target(Last(insts)) != Some(r) then SourceOf(Front(insts), r)
    else if Last(insts).Copy? then SourceOf(Front(insts), Last(insts).src)
    else Made(|insts| - 1)
  }

  /** An instruction made what both registers hold. */
  predicate SameSource(insts: seq<MInst>, r1: Reg, r2: Reg) {
    SourceOf(insts, r1).Made? && SourceOf(insts, r1) == SourceOf(insts, r2)
  }

  /** Block `b` gives `r` a value: its code writes it, or it is an argument. */
  ghost predicate Sets(p: Program, r: Reg, b: Block) {
    Writes(p, r, b) || (b == 0 && r in p.args)
  }

  ghost function SetBlocks(p: Program, r: Reg): set<Block> {
    set b: Block | b < |p.preds| && Sets(p, r, b)
  }

  /** Block `u` reads what comes into it in `r`. */
  ghost predicate ReadIn(p: Program, r: Reg, u: Block) {
    && u < |p.blocks|
    && var block := p.blocks[u];
       || (r in block.term && !WrittenBefore(p, u, |block.insts|, r))
       || exists k :: 0 <= k < |block.insts| && r in ReadRegs(block.insts[k]) && !WrittenBefore(p, u, k, r)
  }

  // ----- slots

  /** What `r` holds on leaving block `b` comes into block `u` on some path. */
  ghost predicate Carries(p: Program, r: Reg, b: Block, u: Block) {
    Flows(p.preds, SetBlocks(p, r), b, u)
  }

  /** Block `u` reads `r`, and values that two blocks give it meet there: it is read from a slot. */
  ghost predicate Meets(p: Program, r: Reg, u: Block) {
    && ReadIn(p, r, u)
    && exists b1: Block, b2: Block :: b1 != b2 && Reaches(p.preds, SetBlocks(p, r), b1, u)
                                      && Reaches(p.preds, SetBlocks(p, r), b2, u)
  }

  /** What `r` holds on leaving block `b` may be stored in a slot. */
  ghost predicate MayPromote(p: Program, r: Reg, b: Block) {
    exists u: Block :: Meets(p, r, u) && Carries(p, r, b, u)
  }

  /** What `r` holds on leaving block `b` may be read in a block. */
  ghost predicate Wanted(p: Program, r: Reg, b: Block) {
    exists u: Block :: ReadIn(p, r, u) && Carries(p, r, b, u)
  }

  /** The blocks that may have a definition of `r`: those that set it, and those that load it from a slot. */
  ghost function MaySet(p: Program, r: Reg): set<Block> {
    set b: Block | b < |p.preds| && (Sets(p, r, b) || Meets(p, r, b))
  }

  /** Two definitions of `r` are found from block `b`, whatever else is loaded: block `b` loads it from a slot. */
  ghost predicate Joined(p: Program, r: Reg, b: Block) {
    exists d1: Block, d2: Block :: && d1 != d2 && Sets(p, r, d1) && Sets(p, r, d2)
                                   && Reaches(p.preds, MaySet(p, r), d1, b) && Reaches(p.preds, MaySet(p, r), d2, b)
  }

  // ----- copies of what comes into a block

  /** After block `b` and before a read of what it leaves in `r`, block `c` may be executed. */
  ghost predicate Disturbs(p: Program, r: Reg, b: Block, c: Block) {
    Carries(p, r, b, c) && (ReadIn(p, r, c) || (!Sets(p, r, c) && Wanted(p, r, c)))
  }

  ghost predicate WantedAtEnd(p: Program, r: Reg, b: Block) {
    Wanted(p, r, b) || (b < |p.blocks| && r in p.blocks[b].term)
  }

  /** What block `d` left in `src` may be kept in `dst` by block `b`: it is not made anew before it is read, it is not
      stored for `dst`, and if it is stored for `src`, it is read in block `b` only. */
  ghost predicate MayBorrowFrom(p: Program, b: Block, dst: Reg, src: Reg, d: Block) {
    && !MayPromote(p, dst, b)
    && (!Sets(p, src, d) || !MayPromote(p, src, d) || !WantedAtEnd(p, dst, b))
    && !Disturbs(p, dst, b, d)
    && (d < |p.blocks| && Writes(p, src, d) && SourceOf(p.blocks[d].insts, src).Came? ==>
          forall c :: Leads(p.preds, c, d) ==> !Disturbs(p, dst, b, c))
  }

  /** The same whatever block it comes from. Arguments are never made anew or replaced by loads. */
  ghost predicate MayBorrow(p: Program, b: Block, dst: Reg, src: Reg) {
    forall d: Block :: d in MaySet(p, src) && d != b && Carries(p, src, d, b) ==>
                       (d == 0 && !Writes(p, src, 0)) || MayBorrowFrom(p, b, dst, src, d)
  }

  /** What a block other than the entry copies from outside, and keeps, is loaded by itself or may be borrowed. */
  ghost predicate CopiesSafe(p: Program) {
    forall b: Block, r: Reg :: 0 < b < |p.blocks| && Writes(p, r, b) && SourceOf(p.blocks[b].insts, r).Came? ==>
      var src := SourceOf(p.blocks[b].insts, r).reg;
      Joined(p, src, b) || MayBorrow(p, b, r, src)
  }

  /** Where two registers leave a block with the same value and it may be stored for one of them, no other block reads
      the other. */
  ghost predicate Apart(p: Program) {
    forall b: Block, r1: Reg, r2: Reg :: b < |p.blocks| && r1 != r2 && SameSource(p.blocks[b].insts, r1, r2) ==>
                                         !MayPromote(p, r1, b) || !Wanted(p, r2, b)
  }

  ghost predicate Good(p: Program) {
    ValidProgram(p) && CopiesSafe(p) && Apart(p)
  }

  // ----- lemmas

  /** Where the values of `r` meet, and `r` is not set, they go on together. */
  lemma MeetOn(p: Program, r: Reg, x: Block, u: Block)
    requires Meets(p, r, x) && !Sets(p, r, x) && Carries(p, r, x, u) && ReadIn(p, r, u)
    ensures Meets(p, r, u)
  {
    hide ReadIn, Sets;
    var sets := SetBlocks(p, r);
    var b1: Block, b2: Block :| b1 != b2 && Reaches(p.preds, sets, b1, x) && Reaches(p.preds, sets, b2, x);
    ReachesFlows(p.preds, sets, b1, x);
    ReachesFlows(p.preds, sets, b2, x);
    FlowsOn(p.preds, sets, b1, x, u);
    FlowsOn(p.preds, sets, b2, x, u);
    ReachesFlows(p.preds, sets, b1, u);
    ReachesFlows(p.preds, sets, b2, u);
  }

  lemma WrittenWrites(p: Program, b: Block, k: nat, r: Reg)
    requires b < |p.blocks| && k <= |p.blocks[b].insts|
    ensures WrittenBefore(p, b, k, r) ==> Writes(p, r, b)
    ensures k == |p.blocks[b].insts| && Writes(p, r, b) ==> WrittenBefore(p, b, k, r)
  {
  }

  /** What an instruction made was written, and what was not written came in its own register. */
  lemma {:induction false} SourceIsWritten(insts: seq<MInst>, r: Reg)
    ensures SourceOf(insts, r) != Came(r) ==> exists i :: 0 <= i < |insts| && Target(insts[i]) == Some(r)
  {
    if insts != [] && SourceOf(insts, r) != Came(r) {
      if Target(Last(insts)) == Some(r) {
        assert Target(insts[|insts| - 1]) == Some(r);
      } else {
        SourceIsWritten(Front(insts), r);
        var i :| 0 <= i < |insts| - 1 && Target(Front(insts)[i]) == Some(r);
        assert Target(insts[i]) == Some(r);
      }
    }
  }

  lemma UnwrittenCame(p: Program, b: Block, k: nat, r: Reg)
    requires b < |p.blocks| && k <= |p.blocks[b].insts| && !WrittenBefore(p, b, k, r)
    ensures SourceOf(p.blocks[b].insts[..k], r) == Came(r)
  {
    var insts := p.blocks[b].insts[..k];
    SourceIsWritten(insts, r);
    if i :| 0 <= i < |insts| && Target(insts[i]) == Some(r) {
      assert Target(p.blocks[b].insts[i]) == Some(r);
    }
  }
}
