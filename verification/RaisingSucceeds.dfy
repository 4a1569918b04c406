/** When raising succeeds: exactly when every register that is read has a value by then, which can be told from the
    graph, the code and the order of the blocks. Good or not, no program makes it fail for another reason. */
module RaisingSucceeds {
  import opened Wrappers
  import opened ControlFlow
  import opened ReachingDefinitions
  import opened RaisedSemantics
  import opened RaisingFunction
  import opened GoodPrograms

  /** What block `d` gives `r` comes into block `b`. */
  ghost predicate ComesFrom(p: Program, r: Reg, d: Block, b: Block) {
    Reaches(p.preds, SetBlocks(p, r), d, b)
  }

  ghost predicate TwoCome(p: Program, r: Reg, b: Block) {
    exists d: Block, e: Block :: d != e && ComesFrom(p, r, d, b) && ComesFrom(p, r, e, b)
  }

  /** Block `b`, after its first `k` instructions and after the blocks `before`, has a value for `r`: it wrote it, or it
      is an argument, or two blocks give it one, or a block that came before does. */
  ghost predicate HasValue(p: Program, before: seq<Block>, b: Block, k: nat, r: Reg)
    requires b < |p.blocks| && k <= |p.blocks[b].insts|
  {
    || WrittenBefore(p, b, k, r)
    || (b == 0 && r in p.args)
    || TwoCome(p, r, b)
    || exists d :: d in before && ComesFrom(p, r, d, b)
  }

  ghost predicate InstHasValues(p: Program, before: seq<Block>, b: Block, k: nat)
    requires b < |p.blocks| && k < |p.blocks[b].insts|
  {
    forall r :: r in ReadRegs(p.blocks[b].insts[k]) ==> HasValue(p, before, b, k, r)
  }

  ghost predicate BlockHasValues(p: Program, before: seq<Block>, b: Block) {
    b < |p.blocks| && forall k: nat :: k < |p.blocks[b].insts| ==> InstHasValues(p, before, b, k)
  }

  ghost predicate TermHasValues(p: Program, order: seq<Block>, b: Block) {
    b < |p.blocks| && forall r :: r in p.blocks[b].term ==> HasValue(p, order, b, |p.blocks[b].insts|, r)
  }

  /** Every register that is read has a value when its block is raised, and those of terminators when all blocks are. */
  ghost predicate EveryReadHasValue(p: Program, order: seq<Block>) {
    && (forall n: nat :: n < |order| ==> BlockHasValues(p, order[..n], order[n]))
    && (forall n: nat :: n < |order| ==> TermHasValues(p, order, order[n]))
  }

  // ----- what is recorded

  ghost predicate Entries(p: Program, s: Raising) {
    && Shape(p, s)
    && (forall r: Reg, b: Block :: (r, b) in s.defs ==> EntryFits(p, s, r, b))
    && (forall r: Reg, b: Block :: Sets(p, r, b) ==> (r, b) in s.defs)
    && (forall r: Reg, b: Block :: b < |p.blocks| && WrittenBefore(p, b, s.progress[b], r) ==>
                                   (r, b) in s.defs && s.defs[(r, b)].Some?)
    && (forall x :: x in s.toPromote ==> Sets(p, x.0, x.1))
  }

  ghost predicate EntryFits(p: Program, s: Raising, r: Reg, b: Block)
    requires Shape(p, s) && (r, b) in s.defs
  {
    && b < |p.blocks|
    && (Sets(p, r, b) || (TwoCome(p, r, b) && s.defs[(r, b)].Some?))
    && (s.defs[(r, b)].Some? ==> b in s.started && (WrittenBefore(p, b, s.progress[b], r) || TwoCome(p, r, b)))
  }

  /** The blocks `before` are raised, `k` instructions of block `b` are, and no other block is begun. */
  ghost predicate RaisedSoFar(p: Program, s: Raising, before: seq<Block>, b: Block, k: nat)
    requires Shape(p, s)
  {
    && b < |p.blocks| && s.progress[b] == k
    && (forall c :: c in before ==> c < |p.blocks| && s.progress[c] == |p.blocks[c].insts|)
    && (forall c :: c in s.started ==> c == b || c in before)
    && (b != 0 ==> 0 in before)
  }

  // ----- lookups

  lemma SetBlocksDefine(p: Program, s: Raising, r: Reg)
    requires Entries(p, s)
    ensures SetBlocks(p, r) <= DefBlocks(p.args, s.defs, r, |p.preds|)
  {
    hide Sets, EntryFits;
  }

  /** Of every path from a definition, the last block that has one is found. */
  lemma {:induction false} LastDefinition(preds: Preds, sets: set<Block>, defs: set<Block>, path: seq<Block>)
    returns (e: Block)
    requires DefFreePath(preds, sets, path) && path[0] in sets && sets <= defs
    ensures e in defs && Clear(preds, defs, e, Last(path)) && (e == path[0] || e !in sets)
    decreases |path|
  {
    if Last(path) in defs {
      e := Last(path);
      ClearNowhere(preds, defs, e);
    } else {
      e := LastDefinition(preds, sets, defs, Front(path));
      EdgeClear(preds, defs, Last(Front(path)), Last(path));
      ClearOn(preds, defs, e, Last(Front(path)), Last(path));
    }
  }

  ghost function SearchFrom(p: Program, s: Raising, r: Reg, b: Block): seq<ReachingDef> {
    ReachingFrom(p.preds, p.args, s.defs, r, b, 0)
  }

  /** Where a value comes in, the search finds that, or a loaded one instead. */
  lemma SomethingFound(p: Program, s: Raising, r: Reg, d: Block, b: Block) returns (x: ReachingDef)
    requires Entries(p, s) && ComesFrom(p, r, d, b)
    ensures x in SearchFrom(p, s, r, b) && (x.0 == d || !Sets(p, r, x.0))
  {
    hide Sets, Entries;
    var sets, defs := SetBlocks(p, r), DefBlocks(p.args, s.defs, r, |p.preds|);
    SetBlocksDefine(p, s, r);
    var y: Block :| Edge(p.preds, y, b) && LiveOut(p.preds, sets, d, y);
    var path: seq<Block> :| Joins(p.preds, sets, path, d, y);
    var e := LastDefinition(p.preds, sets, defs, path);
    assert Flows(p.preds, defs, e, b);
    ReachesFlows(p.preds, defs, e, b);
    x := (e, InBlock(p.args, s.defs, r, e).value);
    assert x in SearchFrom(p, s, r, b);
  }

  /** Two values that meet in a block that does not give the register another go on together. */
  lemma TwoGoOn(p: Program, r: Reg, x: Block, b: Block)
    requires TwoCome(p, r, x) && !Sets(p, r, x) && Carries(p, r, x, b)
    ensures TwoCome(p, r, b)
  {
    hide Sets;
    var sets := SetBlocks(p, r);
    var d: Block, e: Block :| d != e && ComesFrom(p, r, d, x) && ComesFrom(p, r, e, x);
    ReachesFlows(p.preds, sets, d, x);
    ReachesFlows(p.preds, sets, e, x);
    FlowsOn(p.preds, sets, d, x, b);
    FlowsOn(p.preds, sets, e, x, b);
    ReachesFlows(p.preds, sets, d, b);
    ReachesFlows(p.preds, sets, e, b);
    assert ComesFrom(p, r, d, b) && ComesFrom(p, r, e, b);
  }

  /** What the search finds comes in, or is loaded and stands for two that do. */
  lemma FoundComes(p: Program, s: Raising, r: Reg, b: Block, x: ReachingDef)
    requires Entries(p, s) && x in SearchFrom(p, s, r, b)
    ensures x.0 < |p.blocks| && x.1 == LocalVal(p, s, r, x.0)
    ensures if Sets(p, r, x.0) then ComesFrom(p, r, x.0, b) else x.1.Some? && TwoCome(p, r, b)
  {
    hide Sets, Flows, TwoCome;
    var sets, defs := SetBlocks(p, r), DefBlocks(p.args, s.defs, r, |p.preds|);
    SetBlocksDefine(p, s, r);
    ReachesFlows(p.preds, defs, x.0, b);
    FlowsFewer(p.preds, defs, sets, x.0, b);
    assert x.0 in defs;
    if Sets(p, r, x.0) {
      ReachesFlows(p.preds, sets, x.0, b);
    } else {
      assert !(x.0 == 0 && r in p.args) by { ArgumentsAreSet(p, r, x.0); }
      assert EntryFits(p, s, r, x.0);
      TwoGoOn(p, r, x.0, b);
    }
  }

  lemma ArgumentsAreSet(p: Program, r: Reg, b: Block)
    ensures b == 0 && r in p.args ==> Sets(p, r, b)
  {
  }

  /** A block that gives the register a value has it exactly if it is raised. */
  lemma SetIsKnownIff(p: Program, s: Raising, before: seq<Block>, b: Block, k: nat, r: Reg, d: Block)
    requires Entries(p, s) && RaisedSoFar(p, s, before, b, k) && LocalVal(p, s, r, b).None?
    requires Sets(p, r, d) && d < |p.blocks|
    ensures LocalVal(p, s, r, d).Some? <==> d in before
  {
    assert (r, d) in s.defs && EntryFits(p, s, r, d);
    if d in before && Writes(p, r, d) {
      WrittenWrites(p, d, s.progress[d], r);
    }
    if d == b && d in before {
      assert s.progress[b] == |p.blocks[b].insts|;
    }
  }

  lemma NotWrittenWithoutValue(p: Program, s: Raising, r: Reg, b: Block)
    requires Entries(p, s) && b < |p.blocks| && LocalVal(p, s, r, b).None?
    ensures !WrittenBefore(p, b, s.progress[b], r) && !(b == 0 && r in p.args)
  {
    hide EntryFits, Sets;
  }

  /** A lookup has an answer exactly if the register has a value. */
  lemma AnswerIff(p: Program, ll: Llvm, s: Raising, before: seq<Block>, b: Block, k: nat, r: Reg)
    requires Entries(p, s) && RaisedSoFar(p, s, before, b, k)
    ensures Answer(p, ll, s, r, b, false).Some? <==> HasValue(p, before, b, k, r)
  {
    hide TwoCome, ComesFrom, WrittenBefore, Sets, ReachingFrom, Entries, FromSlot;
    assert Shape(p, s) by { EntriesShape(p, s); }
    if LocalVal(p, s, r, b).Some? {
      LocalHasValue(p, s, before, b, k, r);
    } else {
      NotWrittenWithoutValue(p, s, r, b);
      var rds := SearchFrom(p, s, r, b);
      assert Defs(p, s, r, b, false) == rds;
      if |rds| > 1 {
        ManyHaveValue(p, s, r, b);
        SlotIsAnswer(p, ll, s, r, b);
      } else if |rds| == 1 {
        OneHasValueIff(p, s, before, b, k, r, rds[0]);
      } else {
        NoneHasValue(p, s, r, b);
      }
    }
  }

  lemma EntriesShape(p: Program, s: Raising)
    requires Entries(p, s)
    ensures Shape(p, s)
  {
  }

  lemma LocalHasValue(p: Program, s: Raising, before: seq<Block>, b: Block, k: nat, r: Reg)
    requires Entries(p, s) && RaisedSoFar(p, s, before, b, k) && LocalVal(p, s, r, b).Some?
    ensures HasValue(p, before, b, k, r)
  {
    hide TwoCome, ComesFrom, WrittenBefore, Sets;
    if (r, b) in s.defs {
      assert EntryFits(p, s, r, b);
    }
  }

  lemma SlotIsAnswer(p: Program, ll: Llvm, s: Raising, r: Reg, b: Block)
    requires Shape(p, s) && b < |p.blocks| && LocalVal(p, s, r, b).None? && |SearchFrom(p, s, r, b)| > 1
    ensures Answer(p, ll, s, r, b, false).Some?
  {
    hide PromotedUpTo, SearchQuery, Waiting;
    assert Defs(p, s, r, b, false) == SearchFrom(p, s, r, b);
  }

  /** Where several definitions are found, two values come in. */
  lemma ManyHaveValue(p: Program, s: Raising, r: Reg, b: Block)
    requires Entries(p, s) && |SearchFrom(p, s, r, b)| > 1
    ensures TwoCome(p, r, b)
  {
    hide ComesFrom, Sets, ReachingFrom, Entries;
    var rds := SearchFrom(p, s, r, b);
    assert rds[0] in rds && rds[1] in rds && rds[0].0 < rds[1].0;
    FoundComes(p, s, r, b, rds[0]);
    FoundComes(p, s, r, b, rds[1]);
  }

  lemma NoneHasValue(p: Program, s: Raising, r: Reg, b: Block)
    requires Entries(p, s) && SearchFrom(p, s, r, b) == []
    ensures !TwoCome(p, r, b) && forall d: Block :: !ComesFrom(p, r, d, b)
  {
    hide ComesFrom, Sets, ReachingFrom, Entries;
    forall d: Block
      ensures !ComesFrom(p, r, d, b)
    {
      if ComesFrom(p, r, d, b) {
        var x := SomethingFound(p, s, r, d, b);
      }
    }
  }

  lemma OneHasValueIff(p: Program, s: Raising, before: seq<Block>, b: Block, k: nat, r: Reg, x: ReachingDef)
    requires Entries(p, s) && RaisedSoFar(p, s, before, b, k) && LocalVal(p, s, r, b).None?
    requires SearchFrom(p, s, r, b) == [x]
    ensures x.1.Some? <==> TwoCome(p, r, b) || exists d :: d in before && ComesFrom(p, r, d, b)
  {
    hide ComesFrom, Sets, ReachingFrom, Entries;
    assert x in [x];
    FoundComes(p, s, r, b, x);
    if Sets(p, r, x.0) {
      forall d: Block | ComesFrom(p, r, d, b)
        ensures d == x.0
      {
        var y := SomethingFound(p, s, r, d, b);
      }
      SetIsKnownIff(p, s, before, b, k, r, x.0);
    }
  }

  // ----- what is recorded stays right

  lemma {:induction false} PromotedUpToDefs(ll: Llvm, s: Raising, rds: seq<ReachingDef>, slot: Slot, n: nat)
    requires n <= |rds| && |s.body| == |s.term| && forall x :: x in rds ==> x.0 < |s.body|
    ensures var t := PromotedUpTo(ll, s, rds, slot, n);
            t.defs == s.defs && t.toPromote == s.toPromote && t.started == s.started && t.progress == s.progress
  {
  }

  lemma WithEntry(p: Program, s: Raising, t: Raising, r: Reg, b: Block, v: Value)
    requires Entries(p, s) && Shape(p, t) && t.started == s.started && t.progress == s.progress
    requires t.defs == s.defs[(r, b) := Some(v)] && b < |p.blocks| && b in s.started && TwoCome(p, r, b)
    requires forall x :: x in t.toPromote ==> Sets(p, x.0, x.1)
    ensures Entries(p, t)
  {
    hide TwoCome, Sets, WrittenBefore;
    forall x: Reg, c: Block | (x, c) in t.defs
      ensures EntryFits(p, t, x, c)
    {
      assert (x, c) in s.defs ==> EntryFits(p, s, x, c);
    }
  }

  lemma SameEntries(p: Program, s: Raising, t: Raising)
    requires Entries(p, s) && Shape(p, t) && t.started == s.started && t.progress == s.progress && t.defs == s.defs
    requires t.toPromote <= s.toPromote
    ensures Entries(p, t)
  {
    hide TwoCome, Sets, WrittenBefore;
    forall x: Reg, c: Block | (x, c) in t.defs
      ensures EntryFits(p, t, x, c)
    {
      assert EntryFits(p, s, x, c);
    }
  }

  lemma AnsweredEntries(p: Program, ll: Llvm, s: Raising, r: Reg, b: Block)
    requires Entries(p, s) && b < |p.blocks| && b in s.started
    ensures Entries(p, Answered(p, ll, s, r, b, false))
  {
    hide TwoCome, Sets, WrittenBefore, ReachingFrom, Entries, Waiting, PromotedUpTo;
    assert Shape(p, s) by { EntriesShape(p, s); }
    var rds := SearchFrom(p, s, r, b);
    assert Defs(p, s, r, b, false) == if LocalVal(p, s, r, b).Some? then [(b, LocalVal(p, s, r, b))] else rds;
    if LocalVal(p, s, r, b).None? && |rds| > 1 {
      ManyHaveValue(p, s, r, b);
      WaitingAreSet(p, s, r, b);
      PromotedUpToDefs(ll, s.(nextSlot := s.nextSlot + 1), rds, s.nextSlot, |rds|);
      var t := PromotedUpTo(ll, s.(nextSlot := s.nextSlot + 1), rds, s.nextSlot, |rds|);
      WithEntry(p, s, FromSlot(p, ll, s, r, b, rds), r, b, Inst(b, t.nextId));
    } else if LocalVal(p, s, r, b).None? && |rds| == 1 && rds[0].1.Some? {
      SameEntries(p, s, Answered(p, ll, s, r, b, false));
    }
  }

  lemma WaitingAreSet(p: Program, s: Raising, r: Reg, b: Block)
    requires Entries(p, s)
    ensures forall x :: x in s.toPromote + Waiting(r, SearchFrom(p, s, r, b), s.nextSlot) ==> Sets(p, x.0, x.1)
  {
    hide Sets, ReachingFrom, TwoCome;
    forall x | x in Waiting(r, SearchFrom(p, s, r, b), s.nextSlot)
      ensures Sets(p, x.0, x.1)
    {
      var y :| y in SearchFrom(p, s, r, b) && y.1.None? && x == (r, y.0, s.nextSlot);
      FoundComes(p, s, r, b, y);
    }
  }

  lemma {:induction false} OperandsIff(p: Program, ll: Llvm, s: Raising, regs: seq<Reg>, before: seq<Block>, b: Block,
                                       k: nat)
    requires Entries(p, s) && RaisedSoFar(p, s, before, b, k) && b in s.started && k <= |p.blocks[b].insts|
    ensures var o := Operands(p, ll, s, regs, b);
            && (o.Some? <==> forall r :: r in regs ==> HasValue(p, before, b, k, r))
            && (o.Some? ==> Entries(p, o.value.0) && RaisedSoFar(p, o.value.0, before, b, k))
  {
    hide HasValue, Entries, Answered, Answer;
    assert Shape(p, s) by { EntriesShape(p, s); }
    if regs != [] {
      OperandsIff(p, ll, s, Front(regs), before, b, k);
      assert forall r :: r in regs <==> r in Front(regs) || r == Last(regs);
      var front := Operands(p, ll, s, Front(regs), b);
      if front.Some? {
        var t := front.value.0;
        AnswerIff(p, ll, t, before, b, k, Last(regs));
        AnsweredEntries(p, ll, t, Last(regs), b);
      }
    }
  }

  // ----- instructions and blocks

  lemma WithWritten(p: Program, s: Raising, t: Raising, before: seq<Block>, b: Block, v: Value)
    requires Entries(p, s) && Shape(p, t) && b < |p.blocks| && s.progress[b] < |p.blocks[b].insts|
    requires t.progress == s.progress[b := s.progress[b] + 1] && t.started == s.started && t.toPromote == s.toPromote
    requires b in s.started
    requires var target := Target(p.blocks[b].insts[s.progress[b]]);
             t.defs == if target.Some? then s.defs[(target.value, b) := Some(v)] else s.defs
    ensures Entries(p, t)
  {
    hide TwoCome;
    var k := s.progress[b];
    forall r: Reg
      ensures WrittenBefore(p, b, k + 1, r) <==> WrittenBefore(p, b, k, r) || Target(p.blocks[b].insts[k]) == Some(r)
    {
      OneMoreWritten(p, b, k, r);
    }
    forall x: Reg, c: Block | (x, c) in t.defs
      ensures EntryFits(p, t, x, c)
    {
      assert (x, c) in s.defs ==> EntryFits(p, s, x, c);
    }
  }

  lemma OneMoreWritten(p: Program, b: Block, k: nat, r: Reg)
    requires b < |p.blocks| && k < |p.blocks[b].insts|
    ensures WrittenBefore(p, b, k + 1, r) <==> WrittenBefore(p, b, k, r) || Target(p.blocks[b].insts[k]) == Some(r)
    ensures WrittenBefore(p, b, k + 1, r) ==> Writes(p, r, b)
  {
  }

  lemma InstIff(p: Program, ll: Llvm, s: Raising, before: seq<Block>, b: Block)
    requires Entries(p, s) && b < |p.blocks| && s.progress[b] < |p.blocks[b].insts| && b in s.started
    requires RaisedSoFar(p, s, before, b, s.progress[b]) && b !in before
    ensures var t := RaisedInst(p, ll, s, b);
            && (t.Some? <==> InstHasValues(p, before, b, s.progress[b]))
            && (t.Some? ==> Entries(p, t.value) && RaisedSoFar(p, t.value, before, b, s.progress[b] + 1))
  {
    hide HasValue, Entries, Operands;
    assert Shape(p, s) by { EntriesShape(p, s); }
    var i := p.blocks[b].insts[s.progress[b]];
    OperandsIff(p, ll, s, ReadRegs(i), before, b, s.progress[b]);
    var o := Operands(p, ll, s, ReadRegs(i), b);
    if o.Some? {
      var (t, vals) := o.value;
      WithWritten(p, t, Recorded(t, b, i, vals), before, b, if i.Copy? then vals[0] else Inst(b, t.nextId));
    }
  }

  lemma {:induction false} InstsIff(p: Program, ll: Llvm, s: Raising, before: seq<Block>, b: Block, n: nat)
    requires Entries(p, s) && b < |p.blocks| && s.progress[b] == 0 && n <= |p.blocks[b].insts| && b in s.started
    requires RaisedSoFar(p, s, before, b, 0) && b !in before
    ensures var t := RaisedInsts(p, ll, s, b, n);
            && (t.Some? <==> forall k: nat :: k < n ==> InstHasValues(p, before, b, k))
            && (t.Some? ==> Entries(p, t.value) && RaisedSoFar(p, t.value, before, b, n))
  {
    hide InstHasValues, Entries, RaisedInst;
    assert Shape(p, s) by { EntriesShape(p, s); }
    if n > 0 {
      InstsIff(p, ll, s, before, b, n - 1);
      var t := RaisedInsts(p, ll, s, b, n - 1);
      if t.Some? {
        InstIff(p, ll, t.value, before, b);
      }
    }
  }

  lemma BeginEntries(p: Program, s: Raising, b: Block)
    requires Entries(p, s)
    ensures Entries(p, s.(started := s.started + {b}))
  {
    hide TwoCome, Sets, WrittenBefore;
    var t := s.(started := s.started + {b});
    forall x: Reg, c: Block | (x, c) in t.defs
      ensures EntryFits(p, t, x, c)
    {
      assert EntryFits(p, s, x, c);
    }
  }

  /** The blocks `before` are raised, and no other is begun. */
  ghost predicate RaisedBefore(p: Program, s: Raising, before: seq<Block>)
    requires Shape(p, s)
  {
    && (forall c :: c in before ==> c < |p.blocks| && s.progress[c] == |p.blocks[c].insts|)
    && (forall c :: c in s.started ==> c in before)
  }

  lemma BlockIff(p: Program, ll: Llvm, s: Raising, before: seq<Block>, b: Block)
    requires Entries(p, s) && b < |p.blocks| && s.progress[b] == 0 && RaisedBefore(p, s, before) && b !in before
    requires b != 0 ==> 0 in before
    ensures var t := RaisedBlock(p, ll, s, b);
            && (t.Some? <==> BlockHasValues(p, before, b))
            && (t.Some? ==> Entries(p, t.value) && RaisedBefore(p, t.value, before + [b]))
  {
    hide InstHasValues, Entries, RaisedInsts;
    assert Shape(p, s) by { EntriesShape(p, s); }
    BeginEntries(p, s, b);
    InstsIff(p, ll, s.(started := s.started + {b}), before, b, |p.blocks[b].insts|);
  }

  lemma InitialEntries(p: Program, s: Raising)
    requires Initial(p, s)
    ensures Entries(p, s) && RaisedBefore(p, s, [])
  {
    hide TwoCome;
  }

  lemma {:induction false} BlocksIff(p: Program, ll: Llvm, s: Raising, order: seq<Block>, n: nat)
    requires Initial(p, s) && BlockOrder(p, order) && n <= |order|
    ensures var t := RaisedBlocks(p, ll, s, order, n);
            && (t.Some? <==> forall i: nat :: i < n ==> BlockHasValues(p, order[..i], order[i]))
            && (t.Some? ==> Entries(p, t.value) && RaisedBefore(p, t.value, order[..n]))
  {
    hide BlockHasValues, Entries, RaisedBlock, Initial;
    InitialEntries(p, s);
    if n > 0 {
      BlocksIff(p, ll, s, order, n - 1);
      var t := RaisedBlocks(p, ll, s, order, n - 1);
      if t.Some? {
        assert order[..n] == order[..n - 1] + [order[n - 1]];
        assert order[n - 1] != 0 ==> order[..n - 1][0] == 0;
        assert order[n - 1] in order;
        BlockIff(p, ll, t.value, order[..n - 1], order[n - 1]);
      }
    }
  }

  // ----- terminators, and promotions that had to wait

  ghost predicate AllRaised(p: Program, s: Raising, order: seq<Block>) {
    Entries(p, s) && RaisedBefore(p, s, order) && forall b: Block :: b < |p.blocks| ==> b in s.started
  }

  lemma TermIff(p: Program, ll: Llvm, s: Raising, order: seq<Block>, b: Block)
    requires AllRaised(p, s, order) && BlockOrder(p, order) && b < |p.blocks|
    ensures Shape(p, s)
    ensures var t := RaisedTerm(p, ll, s, b);
            && (t.Some? <==> TermHasValues(p, order, b))
            && (t.Some? ==> AllRaised(p, t.value, order))
  {
    hide HasValue, Entries, Operands;
    assert Shape(p, s) by { EntriesShape(p, s); }
    assert 0 in order && b in order;
    OperandsIff(p, ll, s, p.blocks[b].term, order, b, |p.blocks[b].insts|);
    var o := Operands(p, ll, s, p.blocks[b].term, b);
    if o.Some? {
      SameEntries(p, o.value.0, RaisedTerm(p, ll, s, b).value);
    }
  }

  lemma {:induction false} TermsIff(p: Program, ll: Llvm, s: Raising, order: seq<Block>, n: nat)
    requires AllRaised(p, s, order) && BlockOrder(p, order) && n <= |order|
    ensures Shape(p, s)
    ensures var t := RaisedTerms(p, ll, s, order, n);
            && (t.Some? <==> forall i: nat :: i < n ==> TermHasValues(p, order, order[i]))
            && (t.Some? ==> AllRaised(p, t.value, order))
  {
    hide TermHasValues, AllRaised, RaisedTerm;
    assert Shape(p, s) by { AllRaisedShape(p, s, order); }
    if n > 0 {
      TermsIff(p, ll, s, order, n - 1);
      var t := RaisedTerms(p, ll, s, order, n - 1);
      if t.Some? {
        assert order[n - 1] in order;
        TermIff(p, ll, t.value, order, order[n - 1]);
      }
    }
  }

  lemma AllRaisedShape(p: Program, s: Raising, order: seq<Block>)
    requires AllRaised(p, s, order)
    ensures Shape(p, s)
  {
  }

  lemma SetHasValue(p: Program, s: Raising, order: seq<Block>, r: Reg, b: Block)
    requires AllRaised(p, s, order) && BlockOrder(p, order) && Sets(p, r, b)
    ensures b < |p.blocks| && LocalVal(p, s, r, b).Some?
  {
    hide TwoCome;
    assert (r, b) in s.defs && EntryFits(p, s, r, b);
    assert b in order;
    if Writes(p, r, b) {
      WrittenWrites(p, b, s.progress[b], r);
    }
  }

  lemma {:induction false} ResolvedSucceeds(p: Program, ll: Llvm, s: Raising, order: seq<Block>,
                                            waiting: seq<(Reg, Block, Slot)>, n: nat)
    requires AllRaised(p, s, order) && BlockOrder(p, order) && n <= |waiting|
    requires forall x :: x in waiting ==> Sets(p, x.0, x.1)
    ensures Shape(p, s)
    ensures var t := ResolvedUpTo(p, ll, s, waiting, n); t.Some? && AllRaised(p, t.value, order)
  {
    hide Promoted, Sets, Entries;
    assert Shape(p, s) by { AllRaisedShape(p, s, order); }
    if n > 0 {
      ResolvedSucceeds(p, ll, s, order, waiting, n - 1);
      var t, x := ResolvedUpTo(p, ll, s, waiting, n - 1).value, waiting[n - 1];
      assert x in waiting;
      SetHasValue(p, t, order, x.0, x.1);
      assert SameShape(p, t, Resolved(p, ll, t, x).value);
      SameEntries(p, t, Resolved(p, ll, t, x).value);
    }
  }

  lemma AllStarted(p: Program, ll: Llvm, s: Raising, order: seq<Block>)
    requires Initial(p, s) && BlockOrder(p, order) && RaisedBlocks(p, ll, s, order, |order|).Some?
    ensures forall b: Block :: b < |p.blocks| ==> b in RaisedBlocks(p, ll, s, order, |order|).value.started
  {
    hide RaisedBlocks, Initial;
    StartedUpTo(p, ll, s, order, |order|);
    forall b: Block | b < |p.blocks|
      ensures b in RaisedBlocks(p, ll, s, order, |order|).value.started
    {
      assert b in order;
    }
  }

  lemma {:induction false} StartedUpTo(p: Program, ll: Llvm, s: Raising, order: seq<Block>, n: nat)
    requires Initial(p, s) && BlockOrder(p, order) && n <= |order| && RaisedBlocks(p, ll, s, order, n).Some?
    ensures forall i :: 0 <= i < n ==> order[i] in RaisedBlocks(p, ll, s, order, n).value.started
  {
    hide RaisedInsts, Initial;
    if n > 0 {
      StartedUpTo(p, ll, s, order, n - 1);
    }
  }

  /** Blocks and terminators are raised exactly if every register that is read has a value. */
  lemma CodeIff(p: Program, ll: Llvm, s: Raising, order: seq<Block>)
    requires Initial(p, s) && BlockOrder(p, order)
    ensures RaisedCode(p, ll, s, order).Some? <==> EveryReadHasValue(p, order)
    ensures RaisedCode(p, ll, s, order).Some? ==> AllRaised(p, RaisedCode(p, ll, s, order).value, order)
  {
    hide BlockHasValues, TermHasValues, Entries, RaisedBlocks, RaisedTerms, Initial;
    BlocksIff(p, ll, s, order, |order|);
    var t := RaisedBlocks(p, ll, s, order, |order|);
    assert order[..|order|] == order;
    if t.Some? {
      AllStarted(p, ll, s, order);
      TermsIff(p, ll, t.value, order, |order|);
    }
  }

  /** And then every promotion that had to wait finds its value: raising succeeds. */
  lemma WaitingSucceed(p: Program, ll: Llvm, s: Raising, order: seq<Block>, waiting: seq<(Reg, Block, Slot)>)
    requires Initial(p, s) && BlockOrder(p, order) && RaisedCode(p, ll, s, order).Some?
    requires Enumerates(waiting, RaisedCode(p, ll, s, order).value.toPromote)
    ensures ResolvedUpTo(p, ll, RaisedCode(p, ll, s, order).value, waiting, |waiting|).Some?
  {
    hide RaisedCode, ResolvedUpTo, Initial, Sets;
    CodeIff(p, ll, s, order);
    ResolvedSucceeds(p, ll, RaisedCode(p, ll, s, order).value, order, waiting, |waiting|);
  }

  /** Main result: raising has a result exactly if every register that is read has a value when it is read. */
  lemma SucceedsIff(p: Program, ll: Llvm, s: Raising, order: seq<Block>)
    requires Initial(p, s) && BlockOrder(p, order)
    ensures (exists t :: RaisedFunction(p, ll, s, order, t)) <==> EveryReadHasValue(p, order)
  {
    hide RaisedCode, ResolvedUpTo, Initial, EveryReadHasValue;
    CodeIff(p, ll, s, order);
    if EveryReadHasValue(p, order) {
      var code := RaisedCode(p, ll, s, order).value;
      var waiting := Listed(code.toPromote);
      WaitingSucceed(p, ll, s, order, waiting);
      assert RaisedFunction(p, ll, s, order, ResolvedUpTo(p, ll, code, waiting, |waiting|).value);
    }
  }

  lemma {:induction false} Listed<T(!new)>(all: set<T>) returns (xs: seq<T>)
    ensures Enumerates(xs, all)
  {
    if all == {} {
      xs := [];
    } else {
      var x :| x in all;
      xs := Listed(all - {x});
      var longer := xs + [x];
      assert forall y :: y in longer <==> y in xs || y == x;
      xs := longer;
    }
  }
}
