/** A lookup whose direct answer is made anew between the definition and the use is wrong on every run that comes that
    way: in the raised function of any program, good or not. */
module DisturbedLookups {
  import opened Wrappers
  import opened ControlFlow
  import opened ReachingDefinitions
  import opened RaisedSemantics
  import opened RaisingFunction
  import opened GoodPrograms
  import opened RaisingInvariant
  import opened Disturbance

  /** What holds in every raising: each register that a block writes is entered, no block that a lookup was walked
      through writes its register, and every instruction makes a value of its own block. */
  ghost predicate Plain(p: Program, s: Raising) {
    && (forall r: Reg, b: Block :: Writes(p, r, b) ==> (r, b) in s.defs)
    && (forall q, w :: q in s.queries && w in q.through ==> !Writes(p, q.reg, w))
    && (forall b, i :: 0 <= b < |s.body| && i in s.body[b] ==> MakesOwn(b, i))
  }

  predicate MakesOwn(b: Block, i: RInst) {
    RTarget(i).Some? ==> RTarget(i).value.Inst? && RTarget(i).value.block == b
  }

  lemma {:induction false} ReloadedPlain(body: seq<RInst>, v: Value, slot: Slot, u: Block, id: nat)
    requires forall i :: i in body ==> MakesOwn(u, i)
    ensures forall i :: i in Reloaded(body, v, slot, u, id).0 ==> MakesOwn(u, i)
  {
    if body != [] {
      var i := Last(body);
      assert i in body && forall j :: j in Front(body) ==> j in body;
      ReloadedPlain(Front(body), v, slot, u, id);
    }
  }

  lemma ReloadPlain(p: Program, s: Raising, u: Block, v: Value, slot: Slot)
    requires u < |s.body| == |s.term| && Plain(p, s)
    ensures Plain(p, WithTermReload(WithReloads(s, u, v, slot), u, v, slot))
  {
    hide Writes, Reloaded;
    ReloadedPlain(s.body[u], v, slot, u, s.nextId);
    assert Plain(p, WithReloads(s, u, v, slot));
  }

  lemma {:induction false} ReloadedUpToPlain(p: Program, ll: Llvm, s: Raising, d: Block, v: Value, slot: Slot, n: nat)
    requires n <= |s.body| == |s.term| && Plain(p, s)
    ensures Plain(p, ReloadedUpTo(ll, s, d, v, slot, n))
  {
    hide WithTermReload, WithReloads, Plain;
    if n > 0 {
      ReloadedUpToPlain(p, ll, s, d, v, slot, n - 1);
      ReloadPlain(p, ReloadedUpTo(ll, s, d, v, slot, n - 1), n - 1, v, slot);
    }
  }

  lemma PromotedPlain(p: Program, ll: Llvm, s: Raising, d: Block, v: Value, slot: Slot)
    requires d < |s.body| == |s.term| && Plain(p, s)
    ensures Plain(p, Promoted(ll, s, d, v, slot))
  {
    hide Writes, ReloadedUpTo;
    assert Plain(p, WithStore(s, d, slot, v));
    ReloadedUpToPlain(p, ll, WithStore(s, d, slot, v), d, v, slot, |s.body|);
  }

  lemma {:induction false} PromotedUpToPlain(p: Program, ll: Llvm, s: Raising, rds: seq<ReachingDef>, slot: Slot,
                                             n: nat)
    requires n <= |rds| && |s.body| == |s.term| && (forall x :: x in rds ==> x.0 < |s.body|) && Plain(p, s)
    ensures Plain(p, PromotedUpTo(ll, s, rds, slot, n))
  {
    hide Promoted, Plain;
    if n > 0 {
      PromotedUpToPlain(p, ll, s, rds, slot, n - 1);
      if rds[n - 1].1.Some? {
        PromotedPlain(p, ll, PromotedUpTo(ll, s, rds, slot, n - 1), rds[n - 1].0, rds[n - 1].1.value, slot);
      }
    }
  }

  lemma QueryPlain(p: Program, s: Raising, t: Raising, r: Reg, b: Block, loc: Location,
                   waiting: set<(Reg, Block, Slot)>)
    requires ValidProgram(p) && Plain(p, s) && Plain(p, t)
    ensures Plain(p, WithQuery(t, SearchQuery(p, s, r, b, loc), waiting))
  {
    var q := SearchQuery(p, s, r, b, loc);
    forall w | w in q.through
      ensures !Writes(p, r, w)
    {
      assert w !in DefBlocks(p.args, s.defs, r, |p.preds|);
    }
  }

  lemma LoadPlain(p: Program, s: Raising, r: Reg, b: Block, slot: Slot)
    requires b < |s.body| && Plain(p, s)
    ensures Plain(p, WithLoad(s, r, b, slot))
  {
  }

  lemma AnsweredPlain(p: Program, ll: Llvm, s: Raising, r: Reg, b: Block, allPreds: bool)
    requires Shape(p, s) && b < |p.blocks| && Plain(p, s)
    ensures Plain(p, Answered(p, ll, s, r, b, allPreds))
  {
    hide PromotedUpTo, Waiting, Writes, WithLoad, WithQuery, SearchQuery;
    var rds := Defs(p, s, r, b, allPreds);
    if LocalVal(p, s, r, b).None? && |rds| > 1 {
      var t := s.(nextSlot := s.nextSlot + 1);
      var t1 := PromotedUpTo(ll, t, rds, s.nextSlot, |rds|);
      PromotedUpToPlain(p, ll, t, rds, s.nextSlot, |rds|);
      QueryPlain(p, s, t1, r, b, InSlot(s.nextSlot), Waiting(r, rds, s.nextSlot));
      WithQueryShape(t1, SearchQuery(p, s, r, b, InSlot(s.nextSlot)), Waiting(r, rds, s.nextSlot));
      LoadPlain(p, WithQuery(t1, SearchQuery(p, s, r, b, InSlot(s.nextSlot)), Waiting(r, rds, s.nextSlot)), r, b,
                s.nextSlot);
    } else if LocalVal(p, s, r, b).None? && |rds| == 1 && rds[0].1.Some? {
      QueryPlain(p, s, s, r, b, Direct(rds[0].1.value), {});
    }
  }

  lemma WithQueryShape(s: Raising, q: Query, waiting: set<(Reg, Block, Slot)>)
    ensures WithQuery(s, q, waiting).body == s.body
  {
  }

  lemma {:induction false} OperandsPlain(p: Program, ll: Llvm, s: Raising, regs: seq<Reg>, b: Block)
    requires Shape(p, s) && b < |p.blocks| && Plain(p, s)
    ensures var o := Operands(p, ll, s, regs, b); o.Some? ==> Plain(p, o.value.0)
  {
    hide Answered, Answer, Plain;
    if regs != [] && Operands(p, ll, s, regs, b).Some? {
      OperandsPlain(p, ll, s, Front(regs), b);
      AnsweredPlain(p, ll, Operands(p, ll, s, Front(regs), b).value.0, Last(regs), b, false);
    }
  }

  lemma RecordedPlain(p: Program, s: Raising, b: Block, i: MInst, vals: seq<Value>)
    requires b < |s.body| == |s.progress| && |vals| == |ReadRegs(i)| && Plain(p, s)
    ensures Plain(p, Recorded(s, b, i, vals))
  {
    hide Writes;
  }

  lemma InstPlain(p: Program, ll: Llvm, s: Raising, b: Block)
    requires Shape(p, s) && b < |p.blocks| && s.progress[b] < |p.blocks[b].insts| && Plain(p, s)
    ensures var t := RaisedInst(p, ll, s, b); t.Some? ==> Plain(p, t.value)
  {
    hide Operands, Plain, Recorded;
    var i := p.blocks[b].insts[s.progress[b]];
    OperandsPlain(p, ll, s, ReadRegs(i), b);
    var o := Operands(p, ll, s, ReadRegs(i), b);
    if o.Some? {
      RecordedPlain(p, o.value.0, b, i, o.value.1);
    }
  }

  lemma {:induction false} InstsPlain(p: Program, ll: Llvm, s: Raising, b: Block, n: nat)
    requires Shape(p, s) && b < |p.blocks| && s.progress[b] == 0 && n <= |p.blocks[b].insts| && Plain(p, s)
    ensures var t := RaisedInsts(p, ll, s, b, n); t.Some? ==> Plain(p, t.value)
  {
    hide RaisedInst, Plain;
    if n > 0 && RaisedInsts(p, ll, s, b, n).Some? {
      InstsPlain(p, ll, s, b, n - 1);
      InstPlain(p, ll, RaisedInsts(p, ll, s, b, n - 1).value, b);
    }
  }

  lemma BlockPlain(p: Program, ll: Llvm, s: Raising, b: Block)
    requires Shape(p, s) && b < |p.blocks| && s.progress[b] == 0 && Plain(p, s)
    ensures var t := RaisedBlock(p, ll, s, b); t.Some? ==> Plain(p, t.value)
  {
    hide RaisedInsts, Writes;
    InstsPlain(p, ll, s.(started := s.started + {b}), b, |p.blocks[b].insts|);
  }

  lemma {:induction false} BlocksPlain(p: Program, ll: Llvm, s: Raising, order: seq<Block>, n: nat)
    requires Initial(p, s) && BlockOrder(p, order) && n <= |order|
    ensures var t := RaisedBlocks(p, ll, s, order, n); t.Some? ==> Plain(p, t.value)
  {
    hide RaisedBlock;
    if n > 0 && RaisedBlocks(p, ll, s, order, n).Some? {
      hide Plain, Initial;
      BlocksPlain(p, ll, s, order, n - 1);
      BlockPlain(p, ll, RaisedBlocks(p, ll, s, order, n - 1).value, order[n - 1]);
    }
  }

  lemma {:induction false} TermsPlain(p: Program, ll: Llvm, s: Raising, order: seq<Block>, n: nat)
    requires Shape(p, s) && BlockOrder(p, order) && n <= |order| && Plain(p, s)
    ensures var t := RaisedTerms(p, ll, s, order, n); t.Some? ==> Plain(p, t.value)
  {
    hide Operands, Writes;
    if n > 0 && RaisedTerms(p, ll, s, order, n).Some? {
      TermsPlain(p, ll, s, order, n - 1);
      assert order[n - 1] in order;
      OperandsPlain(p, ll, RaisedTerms(p, ll, s, order, n - 1).value, p.blocks[order[n - 1]].term, order[n - 1]);
    }
  }

  lemma {:induction false} ResolvedPlain(p: Program, ll: Llvm, s: Raising, waiting: seq<(Reg, Block, Slot)>, n: nat)
    requires Shape(p, s) && n <= |waiting| && Plain(p, s)
    ensures var t := ResolvedUpTo(p, ll, s, waiting, n); t.Some? ==> Plain(p, t.value)
  {
    hide Promoted, Writes;
    if n > 0 && ResolvedUpTo(p, ll, s, waiting, n).Some? {
      ResolvedPlain(p, ll, s, waiting, n - 1);
      var t, x := ResolvedUpTo(p, ll, s, waiting, n - 1).value, waiting[n - 1];
      PromotedPlain(p, ll, t, x.1, LocalVal(p, t, x.0, x.1).value, x.2);
    }
  }

  lemma RaisedIsPlain(p: Program, ll: Llvm, s: Raising, order: seq<Block>, t: Raising)
    requires Initial(p, s) && BlockOrder(p, order) && RaisedFunction(p, ll, s, order, t)
    ensures Plain(p, t)
  {
    hide RaisedBlocks, RaisedTerms, ResolvedUpTo, Initial, Plain;
    BlocksPlain(p, ll, s, order, |order|);
    var s1 := RaisedBlocks(p, ll, s, order, |order|).value;
    TermsPlain(p, ll, s1, order, |order|);
    var s2 := RaisedTerms(p, ll, s1, order, |order|).value;
    var waiting :| Enumerates(waiting, s2.toPromote) && ResolvedUpTo(p, ll, s2, waiting, |waiting|) == Some(t);
    ResolvedPlain(p, ll, s2, waiting, |waiting|);
  }

  /** A run that comes through blocks of the lookup after its block `i`, in one of which the answer is made anew. */
  ghost predicate DisturbedAlong(t: Raising, q: Query, path: seq<Block>, i: nat) {
    && q.loc.Direct?
    && (forall k :: i < k < |path| ==> path[k] in q.through)
    && exists j :: i < j < |path| && path[j] < |t.body| && Makes(t.body[path[j]], q.loc.v)
  }

  /** Every disturbed direct answer of the tracker is wrong on every such run on which its register is defined. */
  lemma DisturbedAnswerIsWrong(p: Program, ll: Llvm, s: Raising, order: seq<Block>, t: Raising, q: Query,
                               path: seq<Block>, i: nat)
    requires Initial(p, s) && BlockOrder(p, order) && RaisedFunction(p, ll, s, order, t)
    requires q in t.queries && IsRun(p, path) && i < |path| && DisturbedAlong(t, q, path, i)
    ensures |t.body| == |t.term| && Mirrors(p, Raised(t)) && ValidProgram(p)
    ensures var m, r := MPath(p, Ticking(), MEntry(p), path), RPath(p, Raised(t), Ticking(), REntry(p), path);
            q.reg in m.regs ==> Get(r.env, q.loc.v) != Some(m.regs[q.reg])
  {
    hide RaisedFunction, Mirrors, MPath, RPath;
    assert ValidProgram(p);
    RaisedMirrors(p, ll, s, order, t);
    RaisedIsPlain(p, ll, s, order, t);
    var v := q.loc.v;
    var j :| i < j < |path| && path[j] < |t.body| && Makes(t.body[path[j]], v);
    var raised := Raised(t);
    assert forall b: Block :: b < |t.body| ==> BodyOf(raised, b) == t.body[b];
    MadeInBlock(p, t, path[j], v);
    forall k | i < k < |path|
      ensures OnlyComputed(BodyOf(raised, path[k]), v)
    {
      if path[k] < |t.body| {
        OnlyThere(p, t, path[j], path[k], v);
      }
    }
    assert Makes(BodyOf(raised, path[j]), v);
    RemadeIsWrong(p, raised, path, i, Direct(v), q.reg);
  }

  lemma MadeInBlock(p: Program, t: Raising, b: Block, v: Value)
    requires Plain(p, t) && b < |t.body| && Makes(t.body[b], v)
    ensures v.Inst? && v.block == b
  {
    var i :| i in t.body[b] && RTarget(i) == Some(v);
    assert MakesOwn(b, i);
  }

  lemma OnlyThere(p: Program, t: Raising, b: Block, c: Block, v: Value)
    requires Plain(p, t) && b < |t.body| && c < |t.body| && Makes(t.body[b], v) && v.Inst? && v.block == b
    ensures OnlyComputed(t.body[c], v)
  {
    forall i | i in t.body[c] && RTarget(i) == Some(v)
      ensures i.Compute?
    {
      assert MakesOwn(c, i);
    }
  }
}
