/** What raising makes of given code: rules to evaluate it by. */
module RaisingEvaluation {
  import opened Wrappers
  import opened ControlFlow
  import opened ReachingDefinitions
  import opened RaisedSemantics
  import opened RaisingFunction

  /** The state of raising without what is only known about it. */
  function Core(s: Raising): Raising {
    s.(queries := {}, started := {})
  }

  /** The definitions in `found` reach the block, and every path into it meets one of them after blocks of `through`. */
  ghost predicate Finds(preds: Preds, args: set<Reg>, defs: DefMap, r: Reg, b: Block, found: seq<ReachingDef>,
                        through: set<Block>) {
    var defBlocks := DefBlocks(args, defs, r, |preds|);
    && Ascending(found)
    && (forall x :: x in found ==> Reaches(preds, defBlocks, x.0, b) && x.1 == InBlock(args, defs, r, x.0).value)
    && through !! defBlocks
    && (forall x: Block :: Edge(preds, x, b) ==> x in BlocksOf(found) || x in through)
    && (forall w: Block, x: Block :: w in through && Edge(preds, x, w) ==> x in BlocksOf(found) || x in through)
  }

  lemma SearchGives(preds: Preds, args: set<Reg>, defs: DefMap, r: Reg, b: Block, found: seq<ReachingDef>,
                    through: set<Block>)
    requires Finds(preds, args, defs, r, b, found, through)
    ensures ReachingFrom(preds, args, defs, r, b, 0) == found
  {
    var defBlocks := DefBlocks(args, defs, r, |preds|);
    var all := ReachingFrom(preds, args, defs, r, b, 0);
    var seen := BlocksOf(found) + through;
    assert ClosedBackwards(preds, defBlocks, seen);
    forall x | x in all
      ensures x in found
    {
      var y: Block :| Edge(preds, y, b) && LiveOut(preds, defBlocks, x.0, y);
      WalkSeesLiveOut(preds, defBlocks, seen, x.0, y);
      var z :| z in found && z.0 == x.0;
      assert z == x;
    }
    AscendingUnique(all, found);
  }

  lemma ReachesAlong(preds: Preds, defs: set<Block>, path: seq<Block>, u: Block)
    requires path != [] && path[0] in defs && DefFreePath(preds, defs, path) && Edge(preds, Last(path), u)
    ensures Reaches(preds, defs, path[0], u)
  {
    assert Joins(preds, defs, path, path[0], Last(path));
  }

  // ----- operands

  lemma NoOperand(p: Program, ll: Llvm, s: Raising, b: Block)
    requires Shape(p, s) && b < |p.blocks|
    ensures Operands(p, ll, s, [], b) == Some((s, []))
  {
  }

  lemma OneOperand(p: Program, ll: Llvm, s: Raising, r: Reg, b: Block)
    requires Shape(p, s) && b < |p.blocks|
    ensures var v := Answer(p, ll, s, r, b, false);
            Operands(p, ll, s, [r], b) == if v.None? then None else Some((Answered(p, ll, s, r, b, false), [v.value]))
  {
    assert Front([r]) == [] && Last([r]) == r;
    NoOperand(p, ll, s, b);
    var v := Answer(p, ll, s, r, b, false);
    if v.Some? {
      var none: seq<Value> := [];
      assert none + [v.value] == [v.value];
    }
  }

  lemma LocalOperand(p: Program, ll: Llvm, s: Raising, r: Reg, b: Block, v: Value)
    requires Shape(p, s) && b < |p.blocks| && LocalVal(p, s, r, b) == Some(v)
    ensures Operands(p, ll, s, [r], b) == Some((s, [v]))
  {
    OneOperand(p, ll, s, r, b);
  }

  lemma DirectOperand(p: Program, ll: Llvm, s: Raising, r: Reg, b: Block, d: Block, v: Value)
    requires Shape(p, s) && b < |p.blocks| && LocalVal(p, s, r, b).None?
    requires ReachingFrom(p.preds, p.args, s.defs, r, b, 0) == [(d, Some(v))]
    ensures var o := Operands(p, ll, s, [r], b);
            o.Some? && o.value.1 == [v] && o.value.0 == s.(queries := o.value.0.queries)
  {
    OneOperand(p, ll, s, r, b);
  }

  lemma SlotAnswer(p: Program, ll: Llvm, s: Raising, r: Reg, b: Block, rds: seq<ReachingDef>)
    requires Shape(p, s) && b < |p.blocks| && forall x :: x in rds ==> x.0 < |s.body|
    ensures var t := PromotedUpTo(ll, s.(nextSlot := s.nextSlot + 1), rds, s.nextSlot, |rds|);
            var u := FromSlot(p, ll, s, r, b, rds);
            && LocalVal(p, u, r, b) == Some(Inst(b, t.nextId))
            && u == WithLoad(t.(toPromote := t.toPromote + Waiting(r, rds, s.nextSlot)), r, b,
                             s.nextSlot).(queries := u.queries)
  {
    hide PromotedUpTo, Waiting, SearchQuery;
  }

  lemma SlotOperand(p: Program, ll: Llvm, s: Raising, r: Reg, b: Block, rds: seq<ReachingDef>)
    requires Shape(p, s) && b < |p.blocks| && LocalVal(p, s, r, b).None?
    requires ReachingFrom(p.preds, p.args, s.defs, r, b, 0) == rds && |rds| > 1
    ensures forall x :: x in rds ==> x.0 < |s.body|
    ensures var t := PromotedUpTo(ll, s.(nextSlot := s.nextSlot + 1), rds, s.nextSlot, |rds|);
            var o := Operands(p, ll, s, [r], b);
            && o.Some? && o.value.1 == [Inst(b, t.nextId)]
            && o.value.0 == WithLoad(t.(toPromote := t.toPromote + Waiting(r, rds, s.nextSlot)), r, b,
                                     s.nextSlot).(queries := o.value.0.queries)
  {
    hide PromotedUpTo, Waiting, Operands, Through, ReachingFrom, WithLoad;
    OneOperand(p, ll, s, r, b);
    assert Defs(p, s, r, b, false) == rds;
    SlotAnswer(p, ll, s, r, b, rds);
  }

  // ----- promotions

  lemma {:induction false} NothingReloaded(body: seq<RInst>, v: Value, slot: Slot, u: Block, id: nat)
    requires forall i :: i in body ==> v !in Reads(i)
    ensures Reloaded(body, v, slot, u, id) == (body, id)
  {
    if body != [] {
      assert Last(body) in body && Front(body) + [Last(body)] == body;
      NothingReloaded(Front(body), v, slot, u, id);
    }
  }

  lemma OneReloaded(i: RInst, v: Value, slot: Slot, u: Block, id: nat)
    requires v in Reads(i)
    ensures Reloaded([i], v, slot, u, id) == ([Load(Inst(u, id), slot), Redirected(i, v, Inst(u, id))], id + 1)
  {
    assert Front([i]) == [] && Last([i]) == i;
    var none: seq<RInst> := [];
    var more := [Load(Inst(u, id), slot), Redirected(i, v, Inst(u, id))];
    assert none + more == more;
  }

  /** Block `u` does not use the value. */
  ghost predicate Unused(s: Raising, u: Block, v: Value) {
    && u < |s.body| == |s.term|
    && (forall i :: i in s.body[u] ==> v !in Reads(i))
    && (s.term[u].Some? ==> v !in s.term[u].value)
  }

  lemma UnusedStays(s: Raising, u: Block, v: Value, slot: Slot)
    requires Unused(s, u, v)
    ensures Core(WithTermReload(WithReloads(s, u, v, slot), u, v, slot)) == Core(s)
  {
    NothingReloaded(s.body[u], v, slot, u, s.nextId);
  }

  /** The only instruction of block `u` uses the value. */
  lemma UseReloaded(s: Raising, u: Block, i: RInst, v: Value, slot: Slot)
    requires u < |s.body| == |s.term| && s.body[u] == [i] && v in Reads(i)
    requires s.term[u].Some? ==> v !in s.term[u].value
    ensures Core(WithTermReload(WithReloads(s, u, v, slot), u, v, slot))
            == Core(s).(body := s.body[u := [Load(Inst(u, s.nextId), slot), Redirected(i, v, Inst(u, s.nextId))]],
                        nextId := s.nextId + 1)
  {
    OneReloaded(i, v, slot, u, s.nextId);
  }

  // ----- instructions

  /** A block of one instruction, whose operands are looked up. */
  lemma SingleInst(p: Program, ll: Llvm, s: Raising, b: Block, i: MInst, t: Raising, vals: seq<Value>)
    requires Shape(p, s) && b < |p.blocks| && s.progress[b] == 0 && p.blocks[b].insts == [i]
    requires Operands(p, ll, s.(started := s.started + {b}), ReadRegs(i), b) == Some((t, vals))
             && |vals| == |ReadRegs(i)|
    ensures b < |t.body| == |t.progress|
    ensures RaisedBlock(p, ll, s, b) == Some(Recorded(t, b, i, vals))
  {
    hide Operands, Recorded;
    var s1 := s.(started := s.started + {b});
    assert SameShape(p, s1, t);
    assert RaisedInsts(p, ll, s1, b, 0) == Some(s1);
    assert RaisedInst(p, ll, s1, b) == Some(Recorded(t, b, i, vals));
  }

  lemma NoTerm(p: Program, ll: Llvm, s: Raising, b: Block)
    requires Shape(p, s) && b < |p.blocks| && p.blocks[b].term == []
    ensures RaisedTerm(p, ll, s, b) == Some(s.(term := s.term[b := Some([])]))
  {
    NoOperand(p, ll, s, b);
  }

  // ----- what is defined

  lemma OneRun(ev: Eval, i: MInst, s: MState)
    ensures MRun(ev, [i], s) == MStep(ev, i, s)
  {
    assert Front([i]) == [] && MRun(ev, [], s) == s;
  }

  /** An instruction that reads only defined registers keeps them defined, and defines its own. */
  lemma StepDefines(ev: Eval, i: MInst, s: MState)
    requires forall r :: r in ReadRegs(i) ==> r in s.regs
    ensures MStep(ev, i, s).regs.Keys == s.regs.Keys + if Target(i).Some? then {Target(i).value} else {}
  {
    if i.Op? {
      var vals := GetAll(s.regs, i.srcs);
      assert forall k :: 0 <= k < |vals| ==> i.srcs[k] in i.srcs;
      assert AllSome(vals);
    }
  }
}
