/** Looking up a register keeps the invariant, and the answer is the register's value. */
module RaisingLookups {
  import opened Wrappers
  import opened ControlFlow
  import opened ReachingDefinitions
  import opened RaisedSemantics
  import opened RaisingFunction
  import opened GoodPrograms
  import opened RaisingInvariant
  import opened RaisingCorrect
  import opened RaisingFrames
  import opened RaisingBorrows
  import opened RaisingReload
  import opened RaisingPromotion

  /** Every block but `b` is either not begun or completely raised. */
  ghost predicate OnlyOpen(p: Program, s: Raising, b: Block)
    requires Shape(p, s)
  {
    b < |p.blocks| && b in s.started && forall c :: c in s.started ==> c == b || Done(p, s, c)
  }

  lemma OpenStays(p: Program, s: Raising, s': Raising, b: Block)
    requires Grows(p, s, s') && s'.started == s.started && OnlyOpen(p, s, b)
    ensures OnlyOpen(p, s', b)
  {
  }

  // ----- what the search finds

  /** Block `b` looks up `r`, as far as it is raised. */
  ghost predicate Asked(p: Program, s: Raising, r: Reg, b: Block)
    requires Shape(p, s) && b < |p.blocks|
  {
    && (WrittenBefore(p, b, s.progress[b], r) || ReadIn(p, r, b))
    && (Done(p, s, b) ==> r in p.blocks[b].term)
  }

  /** What is known of the definitions that the search finds for a register without a value in block `b`. */
  ghost predicate FoundDefs(p: Program, s: Raising, r: Reg, b: Block, rds: seq<ReachingDef>)
    requires Shape(p, s)
  {
    && b < |p.blocks| && b in s.started && LocalVal(p, s, r, b).None? && ReadIn(p, r, b)
    && rds == ReachingFrom(p.preds, p.args, s.defs, r, b, 0)
    && (forall x :: x in rds ==> x.0 < |p.blocks| && Defines(p.args, s.defs, r, x.0) && x.1 == LocalVal(p, s, r, x.0)
                                 && Carries(p, r, x.0, b))
    && (forall x :: x in rds && x.1.Some? ==> x.0 != b && Done(p, s, x.0))
    && (rds != [] ==> b != 0)
    && (|rds| > 1 ==> Meets(p, r, b))
  }

  lemma DefiningSets(p: Program, s: Raising, r: Reg, b: Block)
    requires Shape(p, s) && DefsOk(p, s) && Defines(p.args, s.defs, r, b)
    ensures (r, b) in s.defs && (Sets(p, r, b) || (Meets(p, r, b) && s.defs[(r, b)].Some?))
  {
    hide Meets, Sound;
    assert Sets(p, r, b) ==> (r, b) in s.defs;
    assert EntryOk(p, s, r, b);
  }

  /** Where definitions are found, counting the loaded ones, there are paths without a block that sets the register. */
  lemma FoundCarries(p: Program, s: Raising, r: Reg, d: Block, b: Block)
    requires Shape(p, s) && DefsOk(p, s)
    ensures SetBlocks(p, r) <= DefBlocks(p.args, s.defs, r, |p.preds|)
    ensures Flows(p.preds, DefBlocks(p.args, s.defs, r, |p.preds|), d, b) ==> Carries(p, r, d, b)
  {
    hide Sets, EntryOk, Flows;
    if Flows(p.preds, DefBlocks(p.args, s.defs, r, |p.preds|), d, b) {
      FlowsFewer(p.preds, DefBlocks(p.args, s.defs, r, |p.preds|), SetBlocks(p, r), d, b);
    }
  }

  lemma TwoMeet(p: Program, s: Raising, r: Reg, d1: Block, d2: Block, b: Block)
    requires Shape(p, s) && DefsOk(p, s) && Defines(p.args, s.defs, r, d1) && Defines(p.args, s.defs, r, d2)
    requires d1 != d2 && d1 < |p.blocks| && d2 < |p.blocks|
    requires Carries(p, r, d1, b) && Carries(p, r, d2, b) && ReadIn(p, r, b)
    ensures Meets(p, r, b)
  {
    hide Sets, Flows, DefsOk, ReadIn;
    DefiningSets(p, s, r, d1);
    DefiningSets(p, s, r, d2);
    if !Sets(p, r, d1) {
      MeetOn(p, r, d1, b);
    } else if !Sets(p, r, d2) {
      MeetOn(p, r, d2, b);
    } else {
      ReachesFlows(p.preds, SetBlocks(p, r), d1, b);
      ReachesFlows(p.preds, SetBlocks(p, r), d2, b);
    }
  }

  lemma SearchFinds(p: Program, s: Raising, r: Reg, b: Block)
    requires Inv(p, s) && OnlyOpen(p, s, b) && LocalVal(p, s, r, b).None? && ReadIn(p, r, b)
    ensures FoundDefs(p, s, r, b, ReachingFrom(p.preds, p.args, s.defs, r, b, 0))
  {
    hide SimOk, UsesOk, TermsOk, ValuesOk, Good, BodiesOk, QueriesOk, Meets, Sets, DefsOk, Carries, ReadIn;
    var defBlocks := DefBlocks(p.args, s.defs, r, |p.preds|);
    var rds := ReachingFrom(p.preds, p.args, s.defs, r, b, 0);
    forall x | x in rds
      ensures x.0 < |p.blocks| && Defines(p.args, s.defs, r, x.0) && b != 0 && Carries(p, r, x.0, b)
      ensures x.1.Some? ==> x.0 != b && Done(p, s, x.0)
    {
      var y: Block :| Edge(p.preds, y, b) && LiveOut(p.preds, defBlocks, x.0, y);
      ReachesFlows(p.preds, defBlocks, x.0, b);
      FoundCarries(p, s, r, x.0, b);
      if (r, x.0) in s.defs {
        EntryIsStarted(p, s, r, x.0);
      }
    }
    if |rds| > 1 {
      assert rds[0] in rds && rds[1] in rds && rds[0].0 < rds[1].0;
      TwoMeet(p, s, r, rds[0].0, rds[1].0, b);
    }
  }

  lemma EntryIsStarted(p: Program, s: Raising, r: Reg, b: Block)
    requires Shape(p, s) && DefsOk(p, s) && (r, b) in s.defs
    ensures s.defs[(r, b)].Some? ==> b in s.started
  {
    hide Sound, Meets, Sets;
    assert EntryOk(p, s, r, b);
  }

  /** A value that comes in from outside may be stored where it meets others. */
  lemma FoundMayPromote(p: Program, s: Raising, r: Reg, b: Block, rds: seq<ReachingDef>)
    requires Shape(p, s) && FoundDefs(p, s, r, b, rds) && |rds| > 1
    ensures forall x :: x in rds ==> MayPromote(p, r, x.0)
  {
    hide Meets, Carries;
  }

  /** Where one definition reaches a block on every path, it is the only one that any block on the way finds. */
  lemma NarrowSearch(p: Program, s: Raising, q: Query, b: Block, x: ReachingDef)
    requires Shape(p, s) && QueryOk(p, s, q) && Narrow(q) && (b in q.through || b == q.block)
    requires x in ReachingFrom(p.preds, p.args, s.defs, q.reg, b, 0)
    ensures x.0 in q.defs
  {
    hide SlotOk, DirectOk;
    var defBlocks := DefBlocks(p.args, s.defs, q.reg, |p.preds|);
    var d :| q.defs == {d};
    var y: Block :| Edge(p.preds, y, b) && LiveOut(p.preds, defBlocks, x.0, y);
    var path: seq<Block> :| Joins(p.preds, defBlocks, path, x.0, y);
    var seen := q.through + {d};
    assert ClosedBackwards(p.preds, defBlocks, seen) by { NarrowClosed(p, s, q, d); }
    WalkSeesPathStart(p.preds, defBlocks, seen, path);
  }

  lemma NarrowClosed(p: Program, s: Raising, q: Query, d: Block)
    requires Shape(p, s) && QueryOk(p, s, q) && q.defs == {d}
    ensures var defBlocks := DefBlocks(p.args, s.defs, q.reg, |p.preds|);
            d in defBlocks && ClosedBackwards(p.preds, defBlocks, q.through + {d})
  {
    hide SlotOk, DirectOk;
    assert d in q.defs;
  }

  /** The part of a query that the search establishes. */
  lemma SearchCloses(p: Program, s: Raising, r: Reg, b: Block, loc: Location)
    requires Inv(p, s) && FoundDefs(p, s, r, b, ReachingFrom(p.preds, p.args, s.defs, r, b, 0))
    requires ReachingFrom(p.preds, p.args, s.defs, r, b, 0) != []
    ensures QueryCloses(p, s, SearchQuery(p, s, r, b, loc)) && NarrowOk(p, s, SearchQuery(p, s, r, b, loc))
  {
    hide SimOk, UsesOk, TermsOk, ValuesOk, CopiesSafe, Apart, BodiesOk, QueriesOk, MayPromote, Meets, ReadIn, Carries,
         DefsOk;
    ThroughCloses(p.preds, p.args, s.defs, r, b);
    var q := SearchQuery(p, s, r, b, loc);
    FoundCarries(p, s, r, b, b);
    forall w | w in q.through
      ensures !Sets(p, r, w) && !Defines(p.args, s.defs, r, w) && Carries(p, r, w, b)
    {
      ThroughCarries(p, s, r, b, w);
    }
    if Defines(p.args, s.defs, r, b) {
      DefiningSets(p, s, r, b);
    }
  }

  lemma ThroughCarries(p: Program, s: Raising, r: Reg, b: Block, w: Block)
    requires Shape(p, s) && DefsOk(p, s) && w in Through(p.preds, p.args, s.defs, r, b)
    ensures Carries(p, r, w, b)
  {
    hide DefsOk;
    var defBlocks := DefBlocks(p.args, s.defs, r, |p.preds|);
    var x: Block :| Edge(p.preds, x, b) && LeadsTo(p.preds, defBlocks, w, x);
    assert Clear(p.preds, defBlocks, w, x);
    FoundCarries(p, s, r, w, b);
  }

  // ----- recording a lookup

  lemma QueryKeepsInv(p: Program, s: Raising, q: Query, waiting: set<(Reg, Block, Slot)>)
    requires Inv(p, s)
    requires QueryCloses(p, s, q) && NarrowOk(p, s, q)
    requires q.loc.Direct? ==> waiting == {} && exists d :: DirectOk(p, s, q, d, q.loc.v)
    requires q.loc.InSlot? ==> SlotOk(p, WithQuery(s, q, waiting), q, q.loc.slot)
    requires q.loc.InSlot? ==> forall o :: o in s.queries && o.loc == q.loc ==> o.reg == q.reg && Narrow(o)
    requires forall x :: x in waiting ==>
                         x.0 == q.reg && q.loc == InSlot(x.2) && (x.0, x.1) in s.defs && MayPromote(p, x.0, x.1)
    ensures Inv(p, WithQuery(s, q, waiting))
    ensures Grows(p, s, WithQuery(s, q, waiting))
    ensures forall c: Block, x: Reg, w :: c < |p.blocks| && Holds(p, s, c, x, w) ==>
                                          Holds(p, WithQuery(s, q, waiting), c, x, w)
  {
    hide SimOk, UsesOk, TermsOk, ValuesOk, Good, BodiesOk, DefsOk, ProgressOk, MayPromote, Meets, SlotOk, DirectOk,
         ReadIn, Carries, Sets, Provided;
    var s' := WithQuery(s, q, waiting);
    var i := Store(0, Arg(0));
    assert Shape(p, s') && QuietStep(p, s, s', 0, i);
    SameDefsGrows(p, s, s');
    forall o | o in s'.queries
      ensures QueryOk(p, s', o)
    {
      if o == q {
        assert NarrowOk(p, s', q);
        if q.loc.Direct? {
          var d :| DirectOk(p, s, q, d, q.loc.v);
          DirectStays(p, s, s', q, d, q.loc.v);
        }
      } else {
        assert QueryOk(p, s, o);
        if o.loc.InSlot? {
          KeepSlot(p, s, s', 0, Store(o.loc.slot + 1, Arg(0)), o, o.loc.slot);
        }
        KeepQuery(p, s, s', o);
      }
    }
    forall r, b, sl | (r, b, sl) in s'.toPromote
      ensures Pending(p, s', r, b, sl)
    {
      if (r, b, sl) in s.toPromote {
        assert Pending(p, s, r, b, sl);
      }
    }
    QuietKeeps(p, s, s', 0, i);
    forall c: Block, x: Reg, w | c < |p.blocks| && Holds(p, s, c, x, w)
      ensures Holds(p, s', c, x, w)
    {
      KeepHolds(p, s, s', c, Emit([]), x, w);
    }
  }

  lemma DirectStays(p: Program, s: Raising, s': Raising, q: Query, d: Block, v: Value)
    requires Grows(p, s, s') && DirectOk(p, s, q, d, v)
    ensures DirectOk(p, s', q, d, v)
  {
  }

  /** A value taken directly from its defining block is still right at this point of block `b`. */
  lemma DirectHolds(p: Program, s: Raising, q: Query, v: Value)
    requires Inv(p, s) && q in s.queries && q.loc == Direct(v) && q.block < |p.blocks|
    requires LocalVal(p, s, q.reg, q.block).None? && Named(s, v)
    ensures Holds(p, s, q.block, q.reg, v)
  {
    var b := q.block;
    forall ev: Eval, ms: MState, rs: RState
      ensures HoldsAt(p, s, b, q.reg, v, ev, ms, rs)
    {
      hide SimOk, UsesOk, TermsOk, ValuesOk, Good, ProgressOk, NarrowOk, SlotOk, QueryCloses;
      NotYetWritten(p, s, q.reg, b, ev, ms);
      assert QueryOk(p, s, q);
      assert forall i :: i in s.body[b] ==> BodyInstOk(s, b, i);
      ValueFrame(ev, s.body[b], rs, v);
    }
  }

  /** Inside a block that has not defined `r` yet, the machine still has the value `r` had on entry. */
  lemma NotYetWritten(p: Program, s: Raising, r: Reg, b: Block, ev: Eval, ms: MState)
    requires Shape(p, s) && DefsOk(p, s) && b < |p.blocks|
    requires LocalVal(p, s, r, b).None?
    ensures Get(ExecM(p, s, ev, b, ms).regs, r) == Get(ms.regs, r)
  {
    var raised := p.blocks[b].insts[..s.progress[b]];
    forall i | i in raised
      ensures Target(i) != Some(r)
    {
      var k :| 0 <= k < |raised| && raised[k] == i;
      assert p.blocks[b].insts[k] == i;
    }
    RegisterFrame(ev, raised, ms, r);
  }

  /** What a lookup answers, and what it leaves alone. */
  ghost predicate Answers(p: Program, s: Raising, t: Raising, r: Reg, b: Block, v: Option<Value>) {
    && Inv(p, t) && Grows(p, s, t) && OnlyOpen(p, t, b)
    && SameShape(p, s, t)
    && (v.Some? ==>
        Holds(p, t, b, r, v.value) && Sourced(t, b, v.value) && (Done(p, t, b) ==> SourcedAtEnd(p, t, b, v.value)))
    && (forall x: Reg, w :: Holds(p, s, b, x, w) ==> Holds(p, t, b, x, w))
  }

  lemma AnswerLocally(p: Program, s: Raising, r: Reg, b: Block)
    requires Inv(p, s) && OnlyOpen(p, s, b) && LocalVal(p, s, r, b).Some?
    requires Done(p, s, b) ==> r in p.blocks[b].term
    ensures Answers(p, s, s, r, b, LocalVal(p, s, r, b))
  {
    hide UsesOk, TermsOk, ValuesOk, Good, BodiesOk, QueriesOk, ProgressOk, DefsOk, Holds, Sourced, Joined, ReadIn,
         Leads;
    var v := LocalVal(p, s, r, b).value;
    ItsValue(p, s, r, b, v);
    if !v.Inst? || v.block == b {
      OwnSourced(s, b, v);
    }
    assert Holds(p, s, b, r, v);
  }

  lemma OwnSourced(s: Raising, b: Block, v: Value)
    requires v.Inst? ==> v.block == b
    ensures Sourced(s, b, v)
  {
  }

  /** One definition reaches, and its value is known: the value itself is the answer. */
  lemma AnswerDirectly(p: Program, s: Raising, r: Reg, b: Block, d: Block, v: Value)
    requires Inv(p, s) && OnlyOpen(p, s, b)
    requires FoundDefs(p, s, r, b, ReachingFrom(p.preds, p.args, s.defs, r, b, 0))
    requires ReachingFrom(p.preds, p.args, s.defs, r, b, 0) == [(d, Some(v))]
    ensures Answers(p, s, WithQuery(s, SearchQuery(p, s, r, b, Direct(v)), {}), r, b, Some(v))
  {
    hide SimOk, UsesOk, TermsOk, ValuesOk, Good, BodiesOk, QueriesOk, ProgressOk, DefsOk, QueryCloses, NarrowOk, Holds,
         MayPromote, Meets, Sets, Disturbs, ReadIn, Carries, Sound;
    var q := SearchQuery(p, s, r, b, Direct(v));
    var s' := WithQuery(s, q, {});
    SearchCloses(p, s, r, b, Direct(v));
    var rd: ReachingDef := (d, Some(v));
    assert rd in [rd];
    ItsValue(p, s, r, d, v);
    assert q.defs == {d};
    if v.Inst? && v.block != d {
      KeptIsSafe(p, s, r, d, v);
      ReadDisturbs(p, r, d, b);
    }
    assert DirectOk(p, s, q, d, v);
    QueryKeepsInv(p, s, q, {});
    OpenStays(p, s, s', b);
    DirectHolds(p, s', q, v);
    if Done(p, s, b) {
      DoneUnset(p, s, r, b);
    }
  }

  lemma ReadDisturbs(p: Program, r: Reg, d: Block, b: Block)
    requires ReadIn(p, r, b) && Carries(p, r, d, b)
    ensures Disturbs(p, r, d, b)
  {
  }

  lemma DoneUnset(p: Program, s: Raising, r: Reg, b: Block)
    requires Shape(p, s) && DefsOk(p, s) && Done(p, s, b) && b != 0 && LocalVal(p, s, r, b).None?
    ensures !Sets(p, r, b)
  {
  }

  // ----- a new slot, and the promotion of all definitions that reach

  lemma NewSlotKeepsInv(p: Program, s: Raising)
    requires Inv(p, s)
    ensures var s' := s.(nextSlot := s.nextSlot + 1);
            && Inv(p, s') && SameDefs(p, s, s')
            && (forall c: Block, x: Reg, w :: c < |p.blocks| && Holds(p, s, c, x, w) ==> Holds(p, s', c, x, w))
    ensures forall b :: 0 <= b < |s.body| ==> !StoresInto(s.body[b], s.nextSlot)
    ensures forall q :: q in s.queries ==> q.loc != InSlot(s.nextSlot)
    ensures forall x :: x in s.toPromote ==> x.2 != s.nextSlot
  {
    hide SimOk, UsesOk, TermsOk, ValuesOk, Good, DefsOk, ProgressOk, NarrowOk, QueryCloses, DirectOk, StoresLast;
    var s' := s.(nextSlot := s.nextSlot + 1);
    var i := Store(0, Arg(0));
    assert Shape(p, s') && QuietStep(p, s, s', 0, i);
    assert forall b, v :: 0 <= b < |s.body| && Store(s.nextSlot, v) in s.body[b] ==>
                          BodyInstOk(s, b, Store(s.nextSlot, v));
    forall q | q in s.queries
      ensures q.loc != InSlot(s.nextSlot)
    {
      assert QueryOk(p, s, q);
    }
    forall x | x in s.toPromote
      ensures x.2 != s.nextSlot
    {
      assert Pending(p, s, x.0, x.1, x.2);
    }
    SameLookups(p, s, s');
    assert Inv(p, s') by {
      hide QueriesOk, BodiesOk;
      QuietKeeps(p, s, s', 0, i);
    }
    forall c: Block, x: Reg, w | c < |p.blocks| && Holds(p, s, c, x, w)
      ensures Holds(p, s', c, x, w)
    {
      KeepHolds(p, s, s', c, Emit([]), x, w);
    }
  }

  /** The first `n` of the found definitions are stored in `slot`, as far as their values are known. */
  ghost predicate Storing(p: Program, s: Raising, t: Raising, r: Reg, rds: seq<ReachingDef>, slot: Slot, n: nat) {
    && Inv(p, t) && SameDefs(p, s, t) && t.toPromote == s.toPromote && n <= |rds|
    && slot < t.nextSlot
    && (forall x :: x in t.toPromote ==> x.2 != slot)
    && (forall k :: 0 <= k < n && rds[k].1.Some? ==> StoredFor(p, t, r, rds[k].0, slot))
    && (forall q :: q in t.queries && q.loc == InSlot(slot) ==> q.reg == r && Narrow(q))
    && (forall c: Block :: c < |p.blocks| && StoresInto(t.body[c], slot) ==>
                           Found(rds, c) && LocalVal(p, t, r, c).Some?)
    && (forall c: Block, x: Reg, w :: c < |p.blocks| && Holds(p, s, c, x, w) ==> Holds(p, t, c, x, w))
  }

  lemma FoundStays(p: Program, s: Raising, t: Raising, r: Reg, b: Block, rds: seq<ReachingDef>)
    requires Shape(p, s) && FoundDefs(p, s, r, b, rds) && SameDefs(p, s, t)
    ensures FoundDefs(p, t, r, b, rds)
  {
    SameDefsGrows(p, s, t);
  }

  lemma CanStoreNext(p: Program, s: Raising, t: Raising, r: Reg, b: Block, rds: seq<ReachingDef>, slot: Slot, n: nat)
    requires Storing(p, s, t, r, rds, slot, n) && FoundDefs(p, t, r, b, rds) && |rds| > 1
    requires n < |rds| && rds[n].1.Some?
    ensures CanPromote(p, t, r, rds[n].0, rds[n].1.value, slot)
  {
    hide SimOk, UsesOk, TermsOk, ValuesOk, Good, DefsOk, ProgressOk, BodiesOk, SlotOk, DirectOk, QueryCloses,
         MayPromote, Meets, Holds, StoresInto, Narrow;
    FoundMayPromote(p, t, r, b, rds);
    assert rds[n] in rds;
    forall q | q in t.queries && q.loc == InSlot(slot)
      ensures q.reg == r && rds[n].0 !in q.through
    {
      assert QueryOk(p, t, q) && NarrowOk(p, t, q);
    }
    forall c | 0 <= c < |t.body| && StoresInto(t.body[c], slot)
      ensures Defines(p.args, t.defs, r, c)
    {
      var x :| x in rds && x.0 == c;
    }
  }

  lemma LoadsStayOn(s: Raising, t: Raising, u: Raising)
    requires LoadsStay(s, t) && LoadsStay(t, u) && s.nextId <= t.nextId
    ensures LoadsStay(s, u)
  {
    hide IsLoaded;
  }

  lemma StoreNext(p: Program, ll: Llvm, s: Raising, t: Raising, r: Reg, b: Block, rds: seq<ReachingDef>, slot: Slot,
                  n: nat)
    requires Storing(p, s, t, r, rds, slot, n) && FoundDefs(p, t, r, b, rds) && |rds| > 1
    requires n < |rds| && rds[n].1.Some?
    ensures rds[n].0 < |t.body| == |t.term|
    ensures Storing(p, s, Promoted(ll, t, rds[n].0, rds[n].1.value, slot), r, rds, slot, n + 1)
  {
    hide Inv, CanPromote, MayPromote, Meets, Holds, StoresInto, Narrow, Stored, LoadsStay, Carries, ReadIn, Promoted;
    assert forall x :: x in rds ==> MayPromote(p, r, x.0) by { FoundMayPromote(p, t, r, b, rds); }
    var rd := rds[n];
    CanStoreNext(p, s, t, r, b, rds, slot, n);
    PromotedKeepsInv(p, ll, t, r, rd.0, rd.1.value, slot);
    var t' := Promoted(ll, t, rd.0, rd.1.value, slot);
    assert rd in rds;
    assert Found(rds, rd.0);
    assert LoadsStay(s, t') by { LoadsStayOn(s, t, t'); }
    forall k | 0 <= k < n + 1 && rds[k].1.Some?
      ensures StoredFor(p, t', r, rds[k].0, slot)
    {
      assert k < n ==> rds[k].0 < rd.0;
    }
  }

  lemma {:induction false} AllStored(p: Program, ll: Llvm, s: Raising, r: Reg, b: Block, rds: seq<ReachingDef>,
                                     slot: Slot, n: nat)
    requires Shape(p, s)
    requires Storing(p, s, s, r, rds, slot, 0) && FoundDefs(p, s, r, b, rds) && |rds| > 1 && n <= |rds|
    ensures Storing(p, s, PromotedUpTo(ll, s, rds, slot, n), r, rds, slot, n)
  {
    hide Storing, FoundDefs, Promoted;
    assert forall x :: x in rds ==> x.0 < |s.body| by { DefsAreBlocks(p, s, r, b, rds); }
    if n > 0 {
      AllStored(p, ll, s, r, b, rds, slot, n - 1);
      var t := PromotedUpTo(ll, s, rds, slot, n - 1);
      if rds[n - 1].1.Some? {
        assert FoundDefs(p, t, r, b, rds) by { StoringFound(p, s, t, r, b, rds, slot, n - 1); }
        StoreNext(p, ll, s, t, r, b, rds, slot, n - 1);
      } else {
        SkipNext(p, s, t, r, rds, slot, n - 1);
      }
    }
  }

  lemma DefsAreBlocks(p: Program, s: Raising, r: Reg, b: Block, rds: seq<ReachingDef>)
    requires Shape(p, s) && FoundDefs(p, s, r, b, rds)
    ensures forall x :: x in rds ==> x.0 < |s.body|
  {
  }

  lemma StoringFound(p: Program, s: Raising, t: Raising, r: Reg, b: Block, rds: seq<ReachingDef>, slot: Slot, n: nat)
    requires Shape(p, s) && FoundDefs(p, s, r, b, rds) && Storing(p, s, t, r, rds, slot, n)
    ensures Shape(p, t) && FoundDefs(p, t, r, b, rds)
  {
    FoundStays(p, s, t, r, b, rds);
  }

  lemma SkipNext(p: Program, s: Raising, t: Raising, r: Reg, rds: seq<ReachingDef>, slot: Slot, n: nat)
    requires Storing(p, s, t, r, rds, slot, n) && n < |rds| && rds[n].1.None?
    ensures Storing(p, s, t, r, rds, slot, n + 1)
  {
  }

  // ----- the load

  lemma FoundIsProvided(p: Program, s: Raising, t: Raising, t': Raising, r: Reg, b: Block, rds: seq<ReachingDef>,
                        slot: Slot, d: Block)
    requires Storing(p, s, t, r, rds, slot, |rds|) && FoundDefs(p, t, r, b, rds) && d in BlocksOf(rds)
    requires |rds| > 1
    requires Shape(p, t') && t' == t.(queries := t'.queries, toPromote := t.toPromote + Waiting(r, rds, slot))
    ensures d < |p.blocks| && Provided(p, t', r, d, slot) && Defines(p.args, t'.defs, r, d)
  {
    hide Inv, MayPromote, Meets, Holds, StoresInto, Narrow, StoredAt;
    FoundMayPromote(p, t, r, b, rds);
    var x :| x in rds && x.0 == d;
    var k :| 0 <= k < |rds| && rds[k] == x;
    if x.1.Some? {
      assert StoredFor(p, t, r, d, slot);
      KeepStored(t, t', d, Emit([]), slot, x.1.value);
    }
  }

  /** The lookup of a register whose definitions are stored, or going to be stored, in the slot. */
  lemma SlotQueryOk(p: Program, s: Raising, t: Raising, r: Reg, b: Block, rds: seq<ReachingDef>, slot: Slot)
    requires Storing(p, s, t, r, rds, slot, |rds|) && FoundDefs(p, t, r, b, rds) && |rds| > 1
    ensures var q := SearchQuery(p, t, r, b, InSlot(slot));
            SlotOk(p, WithQuery(t, q, Waiting(r, rds, slot)), q, slot)
  {
    hide SimOk, UsesOk, TermsOk, ValuesOk, Good, DefsOk, ProgressOk, BodiesOk, QueriesOk, MayPromote, Meets, Holds,
         StoresInto, Narrow, StoredFor, Stored;
    var q := SearchQuery(p, t, r, b, InSlot(slot));
    var t' := WithQuery(t, q, Waiting(r, rds, slot));
    ThroughCloses(p.preds, p.args, t.defs, r, b);
    assert q.defs == BlocksOf(rds);
    forall d | d in q.defs
      ensures d < |p.blocks| && Provided(p, t', r, d, slot) && Defines(p.args, t'.defs, r, d)
    {
      FoundIsProvided(p, s, t, t', r, b, rds, slot, d);
    }
    forall c | 0 <= c < |t'.body| && StoresInto(t'.body[c], slot)
      ensures c in q.defs
    {
      var x :| x in rds && x.0 == c;
    }
    forall c | (r, c, slot) in t'.toPromote
      ensures c in q.defs
    {
      assert (r, c, slot) in Waiting(r, rds, slot);
      var x :| x in rds && x.1.None? && (r, x.0, slot) == (r, c, slot);
    }
  }

  lemma WaitingKeepsInv(p: Program, s: Raising, t: Raising, r: Reg, b: Block, rds: seq<ReachingDef>, slot: Slot)
    requires Storing(p, s, t, r, rds, slot, |rds|) && FoundDefs(p, t, r, b, rds) && |rds| > 1
    ensures var t' := WithQuery(t, SearchQuery(p, t, r, b, InSlot(slot)), Waiting(r, rds, slot));
            && Inv(p, t') && Grows(p, t, t')
            && forall c: Block, x: Reg, w :: c < |p.blocks| && Holds(p, t, c, x, w) ==> Holds(p, t', c, x, w)
  {
    hide SimOk, UsesOk, TermsOk, ValuesOk, Good, DefsOk, ProgressOk, BodiesOk, QueriesOk, MayPromote, Meets, Holds,
         StoresInto, SlotOk, NarrowOk, QueryCloses, Sets;
    var q := SearchQuery(p, t, r, b, InSlot(slot));
    SlotQueryOk(p, s, t, r, b, rds, slot);
    SearchCloses(p, t, r, b, InSlot(slot));
    FoundMayPromote(p, t, r, b, rds);
    forall x | x in Waiting(r, rds, slot)
      ensures x.0 == r && x.2 == slot && (x.0, x.1) in t.defs && MayPromote(p, x.0, x.1)
    {
      var y :| y in rds && y.1.None? && x == (r, y.0, slot);
      DefiningSets(p, t, r, y.0);
    }
    QueryKeepsInv(p, t, q, Waiting(r, rds, slot));
  }

  lemma LoadHolds(p: Program, s: Raising, q: Query, slot: Slot)
    requires Inv(p, s) && q in s.queries && q.loc == InSlot(slot) && q.block < |p.blocks|
    requires !StoresInto(s.body[q.block], slot) && LocalVal(p, s, q.reg, q.block).None?
    ensures Holds(p, WithEndLoad(s, q.block, slot), q.block, q.reg, Inst(q.block, s.nextId))
  {
    var r, b := q.reg, q.block;
    var s' := WithEndLoad(s, b, slot);
    var v := Inst(b, s.nextId);
    forall ev: Eval, ms: MState, rs: RState
      ensures HoldsAt(p, s', b, r, v, ev, ms, rs)
    {
      hide SimOk, UsesOk, TermsOk, ValuesOk, Good, ProgressOk, BodiesOk, QueriesOk, StoresInto;
      NotYetWritten(p, s, r, b, ev, ms);
      ExecAppend(s, s', b, Load(v, slot), ev, rs);
      SlotFrame(ev, s.body[b], rs, slot);
    }
  }

  /** No lookup relies on `r` having no further definition in block `b`. */
  ghost predicate FreeToDefine(p: Program, s: Raising, r: Reg, b: Block) {
    forall q :: q in s.queries && q.reg == r && Narrow(q) ==> b !in q.through && b != q.block
  }

  lemma NarrowAvoids(p: Program, s: Raising, r: Reg, b: Block)
    requires Inv(p, s) && |ReachingFrom(p.preds, p.args, s.defs, r, b, 0)| > 1
    ensures FreeToDefine(p, s, r, b)
  {
    hide SimOk, UsesOk, TermsOk, ValuesOk, Good, DefsOk, ProgressOk, BodiesOk, SlotOk, DirectOk, QueryCloses, NarrowOk;
    var rds := ReachingFrom(p.preds, p.args, s.defs, r, b, 0);
    assert rds[0] in rds && rds[1] in rds && rds[0].0 < rds[1].0;
    forall q | q in s.queries && q.reg == r && Narrow(q)
      ensures b !in q.through && b != q.block
    {
      assert QueryOk(p, s, q);
      var d :| q.defs == {d};
      if b in q.through || b == q.block {
        NarrowSearch(p, s, q, b, rds[0]);
        NarrowSearch(p, s, q, b, rds[1]);
      }
    }
  }

  function WithDef(s: Raising, r: Reg, b: Block, v: Value): Raising {
    s.(defs := s.defs[(r, b) := Some(v)])
  }

  /** A loaded value may be recorded as the definition of its register. */
  ghost predicate CanRecord(p: Program, s: Raising, r: Reg, b: Block, v: Value) {
    && Inv(p, s)
    && 0 < b < |p.blocks| && b in s.started && Meets(p, r, b) && LocalVal(p, s, r, b).None?
    && v.Inst? && v.block == b && IsLoaded(s.body, v) && Holds(p, s, b, r, v)
    && (forall x, c :: !Keeps(s, x, c, v))
    && FreeToDefine(p, s, r, b)
  }

  lemma RecordGrows(p: Program, s: Raising, r: Reg, b: Block, v: Value)
    requires CanRecord(p, s, r, b, v)
    ensures Grows(p, s, WithDef(s, r, b, v)) && forall c :: Done(p, WithDef(s, r, b, v), c) <==> Done(p, s, c)
    ensures forall x, c, w :: Keeps(WithDef(s, r, b, v), x, c, w) <==> Keeps(s, x, c, w) || (x == r && c == b && w == v)
  {
    hide SimOk, UsesOk, TermsOk, Good, ProgressOk, BodiesOk, QueriesOk, ValuesOk, DefsOk, Meets, HoldsAt, FreeToDefine;
    var s' := WithDef(s, r, b, v);
    assert Shape(p, s');
    SameLoads(s, s');
    assert forall w :: Keeps(s, r, b, w) ==> LocalVal(p, s, r, b) == Some(w);
  }

  lemma NotWrittenYet(p: Program, s: Raising, r: Reg, b: Block)
    requires Shape(p, s) && DefsOk(p, s) && b < |p.blocks| && LocalVal(p, s, r, b).None?
    ensures !WrittenBefore(p, b, s.progress[b], r)
  {
    hide EntryOk;
    assert forall i :: 0 <= i < s.progress[b] ==> Target(p.blocks[b].insts[i]) != Some(r);
  }

  lemma RecordKeepsDefs(p: Program, s: Raising, r: Reg, b: Block, v: Value)
    requires CanRecord(p, s, r, b, v)
    ensures Shape(p, WithDef(s, r, b, v)) && DefsOk(p, WithDef(s, r, b, v)) && ValuesOk(p, WithDef(s, r, b, v))
  {
    hide SimOk, UsesOk, TermsOk, Good, ProgressOk, BodiesOk, QueriesOk, Meets, Sets, HoldsAt, FreeToDefine, IsLoaded,
         WrittenBefore, SharesOk, BorrowsOk, Grows, Sound;
    var s' := WithDef(s, r, b, v);
    RecordGrows(p, s, r, b, v);
    assert Shape(p, s');
    NotWrittenYet(p, s, r, b);
    forall x, c | (x, c) in s'.defs
      ensures EntryOk(p, s', x, c)
    {
      if (x, c) != (r, b) {
        assert EntryOk(p, s, x, c);
        KeepEntry(p, s, s', x, c);
      } else {
        RecordedEntry(p, s, r, b, v);
      }
    }
    forall c | 0 <= c < |p.blocks|
      ensures SharesOk(p, s', c) && BorrowsOk(p, s', c)
    {
      RecordKeepsShares(p, s, r, b, v, c);
    }
  }

  lemma RecordedEntry(p: Program, s: Raising, r: Reg, b: Block, v: Value)
    requires CanRecord(p, s, r, b, v) && !WrittenBefore(p, b, s.progress[b], r)
    ensures Shape(p, WithDef(s, r, b, v)) && EntryOk(p, WithDef(s, r, b, v), r, b)
  {
    hide SimOk, UsesOk, TermsOk, Good, ProgressOk, BodiesOk, QueriesOk, DefsOk, ValuesOk, Meets, Sets, HoldsAt,
         FreeToDefine, IsLoaded, WrittenBefore;
    UnwrittenCame(p, b, s.progress[b], r);
  }

  lemma RecordKeepsShares(p: Program, s: Raising, r: Reg, b: Block, v: Value, c: Block)
    requires CanRecord(p, s, r, b, v) && c < |p.blocks| && Shape(p, WithDef(s, r, b, v))
    ensures SharesOk(p, WithDef(s, r, b, v), c) && BorrowsOk(p, WithDef(s, r, b, v), c)
  {
    hide SimOk, UsesOk, TermsOk, Good, ProgressOk, BodiesOk, QueriesOk, DefsOk, Meets, HoldsAt, FreeToDefine, IsLoaded,
         WantedAtEnd, MayPromote, Grows, SameSource;
    var s' := WithDef(s, r, b, v);
    RecordGrows(p, s, r, b, v);
    assert SharesOk(p, s, c) && BorrowsOk(p, s, c);
    forall x, y, w | Done(p, s', c) && Keeps(s', x, c, w) && w.block != c && WantedAtEnd(p, x, c)
                     && Keeps(s', y, w.block, w)
      ensures IsLoaded(s'.body, w) || !MayPromote(p, y, w.block)
    {
      assert Keeps(s, x, c, w) && w != v;
    }
  }

  lemma RecordKeepsLookups(p: Program, s: Raising, r: Reg, b: Block, v: Value)
    requires CanRecord(p, s, r, b, v) && Shape(p, WithDef(s, r, b, v))
    ensures QueriesOk(p, WithDef(s, r, b, v))
  {
    hide SimOk, UsesOk, TermsOk, Good, ProgressOk, BodiesOk, ValuesOk, DefsOk, MayPromote, Meets, Sets, HoldsAt,
         QueryCloses,
         SlotOk, DirectOk, Narrow;
    var s' := WithDef(s, r, b, v);
    RecordGrows(p, s, r, b, v);
    forall q | q in s'.queries
      ensures QueryOk(p, s', q)
    {
      assert QueryOk(p, s, q);
      if q.loc.InSlot? {
        DefsInRange(p, s, q);
        KeepSlot(p, s, s', 0, Store(q.loc.slot + 1, Arg(0)), q, q.loc.slot);
      }
      KeepQuery(p, s, s', q);
    }
    KeepPending(p, s, s');
  }

  lemma RecordKeepsInv(p: Program, s: Raising, r: Reg, b: Block, v: Value)
    requires CanRecord(p, s, r, b, v)
    ensures Inv(p, WithDef(s, r, b, v)) && Grows(p, s, WithDef(s, r, b, v))
    ensures forall c: Block, x: Reg, w :: c < |p.blocks| && Holds(p, s, c, x, w) ==>
                                          Holds(p, WithDef(s, r, b, v), c, x, w)
  {
    hide Good, BodyInstOk, StoresLast, DefsOk, ValuesOk, QueriesOk, MayPromote, Meets, Sets, HoldsAt, OutAt, Sourced,
         SourcedAtEnd, FreeToDefine, Has;
    var s' := WithDef(s, r, b, v);
    RecordKeepsDefs(p, s, r, b, v);
    RecordKeepsLookups(p, s, r, b, v);
    assert forall c :: Done(p, s', c) <==> Done(p, s, c);
    forall c: Block, x: Reg, w | c < |p.blocks| && Holds(p, s, c, x, w)
      ensures Holds(p, s', c, x, w)
    {
      KeepHolds(p, s, s', c, Emit([]), x, w);
    }
    forall c | 0 <= c < |p.blocks|
      ensures OutHolds(p, s', c) && TermOk(p, s', c)
    {
      assert TermOk(p, s, c);
      KeepOut(p, s, s', c, Store(0, Arg(0)));
      KeepTerm(p, s, s', c, Store(0, Arg(0)));
    }
    forall x: Reg, c: Block | c < |p.blocks| && LocalVal(p, s', x, c).Some?
      ensures Holds(p, s', c, x, LocalVal(p, s', x, c).value)
    {
      if (x, c) != (r, b) {
        assert LocalVal(p, s', x, c) == LocalVal(p, s, x, c);
      }
    }
    RecordGrows(p, s, r, b, v);
    RecordKeepsCode(p, s, s');
  }

  lemma RecordKeepsCode(p: Program, s: Raising, s': Raising)
    requires Shape(p, s) && Shape(p, s') && s' == s.(defs := s'.defs)
    requires BodiesOk(p, s) && UsesOk(p, s) && forall r, c, v :: Keeps(s, r, c, v) ==> Keeps(s', r, c, v)
    ensures BodiesOk(p, s') && UsesOk(p, s')
  {
    hide Sets;
    forall c, j | 0 <= c < |s'.body| && j in s'.body[c]
      ensures BodyInstOk(s', c, j)
    {
      assert BodyInstOk(s, c, j);
    }
    assert forall c :: Done(p, s', c) <==> Done(p, s, c);
    forall c, j, v | 0 <= c < |s'.body| && j in s'.body[c] && v in Reads(j)
      ensures Sourced(s', c, v)
    {
      assert Sourced(s, c, v);
    }
    forall c, v | 0 <= c < |s'.body| && s'.term[c].Some? && v in s'.term[c].value
      ensures SourcedAtEnd(p, s', c, v)
    {
      assert SourcedAtEnd(p, s, c, v);
      KeepSourced(p, s, s', c, v);
    }
  }

  lemma EndLoadKeepsHolds(p: Program, s: Raising, b: Block, slot: Slot)
    requires Inv(p, s) && b < |p.blocks|
    ensures var s' := WithEndLoad(s, b, slot);
            Shape(p, s') && forall c: Block, x: Reg, w :: c < |p.blocks| && Holds(p, s, c, x, w) ==>
                                                          Holds(p, s', c, x, w)
  {
    hide SimOk, UsesOk, TermsOk, Good, ProgressOk, BodiesOk, QueriesOk, ValuesOk, DefsOk;
    var s' := WithEndLoad(s, b, slot);
    forall c: Block, x: Reg, w | c < |p.blocks| && Holds(p, s, c, x, w)
      ensures Holds(p, s', c, x, w)
    {
      KeepHolds(p, s, s', c, Load(Inst(b, s.nextId), slot), x, w);
    }
  }

  /** The load from the slot becomes the definition of the register in block `b`. */
  lemma LoadKeepsInv(p: Program, s: Raising, q: Query, slot: Slot)
    requires Inv(p, s) && q in s.queries && q.loc == InSlot(slot)
    requires 0 < q.block < |p.blocks| && q.block in s.started
    requires !StoresInto(s.body[q.block], slot) && LocalVal(p, s, q.reg, q.block).None?
    requires Meets(p, q.reg, q.block) && |ReachingFrom(p.preds, p.args, s.defs, q.reg, q.block, 0)| > 1
    ensures var s' := WithLoad(s, q.reg, q.block, slot);
            && Inv(p, s') && Grows(p, s, s') && s'.started == s.started
            && Holds(p, s', q.block, q.reg, Inst(q.block, s.nextId))
            && forall c: Block, x: Reg, w :: c < |p.blocks| && Holds(p, s, c, x, w) ==> Holds(p, s', c, x, w)
  {
    hide SimOk, UsesOk, TermsOk, Good, ProgressOk, BodiesOk, QueriesOk, ValuesOk, DefsOk, Holds, StoresInto,
         MayPromote, Meets, FreeToDefine;
    var r, b := q.reg, q.block;
    var v := Inst(b, s.nextId);
    var s1 := WithEndLoad(s, b, slot);
    EndLoadKeepsInv(p, s, b, slot);
    EndLoadKeepsHolds(p, s, b, slot);
    LoadHolds(p, s, q, slot);
    SameDefsGrows(p, s, s1);
    NarrowAvoids(p, s1, r, b);
    NewValue(p, s, b);
    assert s1.body[b][|s.body[b]|] == Load(v, slot);
    assert forall x, c :: Keeps(s1, x, c, v) == Keeps(s, x, c, v);
    assert WithLoad(s, r, b, slot) == WithDef(s1, r, b, v);
    RecordKeepsInv(p, s1, r, b, v);
  }

  lemma NewValue(p: Program, s: Raising, b: Block)
    requires Inv(p, s)
    ensures forall x, c :: !Keeps(s, x, c, Inst(b, s.nextId))
  {
    forall x, c | (x, c) in s.defs
      ensures EntryOk(p, s, x, c)
    {
    }
  }

  lemma SlotIsLoaded(p: Program, s: Raising, t: Raising, r: Reg, b: Block, rds: seq<ReachingDef>, slot: Slot)
    requires Storing(p, s, t, r, rds, slot, |rds|) && FoundDefs(p, t, r, b, rds) && |rds| > 1
    ensures b < |t.body|
    ensures var t1 := WithQuery(t, SearchQuery(p, t, r, b, InSlot(slot)), Waiting(r, rds, slot));
            var t2 := WithLoad(t1, r, b, slot);
            && Inv(p, t2) && Grows(p, t, t1) && Grows(p, t1, t2) && Holds(p, t2, b, r, Inst(b, t.nextId))
            && forall c: Block, x: Reg, w :: c < |p.blocks| && Holds(p, t, c, x, w) ==> Holds(p, t2, c, x, w)
  {
    hide Inv, MayPromote, Meets, StoredFor, Narrow, Waiting, Holds, StoresInto;
    WaitingKeepsInv(p, s, t, r, b, rds, slot);
    var q := SearchQuery(p, t, r, b, InSlot(slot));
    LoadKeepsInv(p, WithQuery(t, q, Waiting(r, rds, slot)), q, slot);
  }

  /** Several definitions reach: each is stored in a new slot, and the slot is loaded. */
  lemma AnswerFromSlot(p: Program, ll: Llvm, s: Raising, r: Reg, b: Block, rds: seq<ReachingDef>)
    requires Inv(p, s) && OnlyOpen(p, s, b) && FoundDefs(p, s, r, b, rds) && |rds| > 1
    ensures forall x :: x in rds ==> x.0 < |s.body| == |s.term|
    ensures var t := FromSlot(p, ll, s, r, b, rds);
            LocalVal(p, t, r, b).Some? && Answers(p, s, t, r, b, LocalVal(p, t, r, b))
  {
    hide Inv, Promoted, Holds, StoresInto, MayPromote, Meets, StoredFor, Narrow, Waiting;
    var slot := s.nextSlot;
    var t0 := s.(nextSlot := slot + 1);
    NewSlotKeepsInv(p, s);
    FoundStays(p, s, t0, r, b, rds);
    assert Storing(p, t0, t0, r, rds, slot, 0) by { assert |t0.body| == |p.blocks|; }
    AllStored(p, ll, t0, r, b, rds, slot, |rds|);
    var t := PromotedUpTo(ll, t0, rds, slot, |rds|);
    FoundStays(p, t0, t, r, b, rds);
    SlotIsLoaded(p, t0, t, r, b, rds, slot);
    assert SearchQuery(p, t, r, b, InSlot(slot)) == SearchQuery(p, s, r, b, InSlot(slot));
    var t1 := WithQuery(t, SearchQuery(p, t, r, b, InSlot(slot)), Waiting(r, rds, slot));
    FromSlotGrows(p, s, t0, t, t1, WithLoad(t1, r, b, slot), b);
  }

  lemma FromSlotGrows(p: Program, s: Raising, t0: Raising, t: Raising, t1: Raising, t2: Raising, b: Block)
    requires Shape(p, s) && OnlyOpen(p, s, b) && SameDefs(p, s, t0) && SameDefs(p, t0, t) && Grows(p, t, t1)
             && Grows(p, t1, t2)
    requires t1.started == t.started && t2.started == t1.started
    ensures Grows(p, s, t2) && OnlyOpen(p, t2, b)
  {
    SameDefsGrows(p, s, t0);
    SameDefsGrows(p, t0, t);
  }

  /** A lookup keeps the invariant, its answer is the register's value, and earlier answers stay right. */
  lemma AnswerKeepsInv(p: Program, ll: Llvm, s: Raising, r: Reg, b: Block, allPreds: bool)
    requires Inv(p, s) && OnlyOpen(p, s, b) && Asked(p, s, r, b)
    ensures Answers(p, s, Answered(p, ll, s, r, b, allPreds), r, b, Answer(p, ll, s, r, b, allPreds))
    ensures LocalVal(p, s, r, b).Some? ==>
            Answer(p, ll, s, r, b, allPreds) == LocalVal(p, s, r, b) && Answered(p, ll, s, r, b, allPreds) == s
  {
    hide SimOk, UsesOk, TermsOk, Good, ProgressOk, BodiesOk, QueriesOk, ValuesOk, DefsOk, Holds;
    var rds := Defs(p, s, r, b, allPreds);
    if LocalVal(p, s, r, b).Some? {
      AnswerLocally(p, s, r, b);
    } else if |rds| > 0 {
      NotWrittenYet(p, s, r, b);
      SearchFinds(p, s, r, b);
      assert FoundDefs(p, s, r, b, rds);
      if |rds| > 1 {
        AnswerFromSlot(p, ll, s, r, b, rds);
      } else if rds[0].1.Some? {
        assert rds == [(rds[0].0, Some(rds[0].1.value))];
        AnswerDirectly(p, s, r, b, rds[0].0, rds[0].1.value);
      } else {
        NoAnswer(p, s, r, b);
      }
    } else {
      NoAnswer(p, s, r, b);
    }
  }

  lemma NoAnswer(p: Program, s: Raising, r: Reg, b: Block)
    requires Inv(p, s) && OnlyOpen(p, s, b)
    ensures Answers(p, s, s, r, b, None)
  {
  }
}
