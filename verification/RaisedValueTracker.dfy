/** The value tracker of a function that is being raised: it looks up registers, promotes them to stack slots where
    several definitions reach, and records what it raises. */
module RaisedValueTracker {
  import opened Wrappers
  import opened ControlFlow
  import opened ReachingDefinitions
  import opened RaisedSemantics
  import opened RaisingFunction
  import opened GoodPrograms
  import opened RaisingInvariant
  import opened RaisingCorrect
  import opened RaisingLookups
  import opened RaisingSteps
  import opened RaisingSucceeds

  /** What the search for the definitions of `r` that reach block `b` answers. */
  ghost predicate GlobalReachingDefs(p: Program, defs: DefMap, r: Reg, b: Block, allPreds: bool,
                                     rds: seq<ReachingDef>) {
    var defBlocks := DefBlocks(p.args, defs, r, |p.preds|);
    if InBlock(p.args, defs, r, b).value.Some? then rds == [(b, InBlock(p.args, defs, r, b).value)] else
      && Ascending(rds)
      && (forall x :: x in rds ==> x.1 == InBlock(p.args, defs, r, x.0).value)
      && if allPreds && !EveryPredDefines(p.preds, defBlocks, b) then rds == [] else
           forall d: Block :: Found(rds, d) <==> Reaches(p.preds, defBlocks, d, b)
  }

  lemma SearchIsFunction(p: Program, defs: DefMap, r: Reg, b: Block, allPreds: bool, rds: seq<ReachingDef>)
    requires GlobalReachingDefs(p, defs, r, b, allPreds, rds)
    ensures rds == ReachingDefs(p.preds, p.args, defs, r, b, allPreds)
  {
    var defBlocks := DefBlocks(p.args, defs, r, |p.preds|);
    if InBlock(p.args, defs, r, b).value.None? && !(allPreds && !EveryPredDefines(p.preds, defBlocks, b)) {
      var all := ReachingFrom(p.preds, p.args, defs, r, b, 0);
      forall x
        ensures x in rds <==> x in all
      {
        assert x in rds ==> Found(rds, x.0);
        if x in all {
          assert Found(rds, x.0);
        }
      }
      AscendingUnique(rds, all);
    }
  }

  // ----- promotions do not look at what waits

  lemma ReloadIgnoresWaiting(s: Raising, v: Value, slot: Slot, u: Block, w: set<(Reg, Block, Slot)>)
    requires u < |s.body| == |s.term|
    ensures WithTermReload(WithReloads(s.(toPromote := w), u, v, slot), u, v, slot)
            == WithTermReload(WithReloads(s, u, v, slot), u, v, slot).(toPromote := w)
  {
    assert WithReloads(s.(toPromote := w), u, v, slot) == WithReloads(s, u, v, slot).(toPromote := w);
  }

  lemma {:induction false} ReloadsIgnoreWaiting(ll: Llvm, s: Raising, d: Block, v: Value, slot: Slot, n: nat,
                                                w: set<(Reg, Block, Slot)>)
    requires n <= |s.body| == |s.term|
    ensures ReloadedUpTo(ll, s.(toPromote := w), d, v, slot, n) == ReloadedUpTo(ll, s, d, v, slot, n).(toPromote := w)
  {
    hide WithTermReload, Reloaded, ReloadedQueries;
    if n > 0 {
      ReloadsIgnoreWaiting(ll, s, d, v, slot, n - 1, w);
      ReloadIgnoresWaiting(ReloadedUpTo(ll, s, d, v, slot, n - 1), v, slot, n - 1, w);
    }
  }

  lemma PromotedIgnoresWaiting(ll: Llvm, s: Raising, d: Block, v: Value, slot: Slot, w: set<(Reg, Block, Slot)>)
    requires d < |s.body| == |s.term|
    ensures Promoted(ll, s.(toPromote := w), d, v, slot) == Promoted(ll, s, d, v, slot).(toPromote := w)
  {
    var t := WithStore(s, d, slot, v);
    ReloadsIgnoreWaiting(ll, t, d, v, slot, |t.body|, w);
    assert WithStore(s.(toPromote := w), d, slot, v) == t.(toPromote := w);
  }

  // ----- what fails early fails as a whole

  lemma {:induction false} NoOperands(p: Program, ll: Llvm, s: Raising, regs: seq<Reg>, b: Block, n: nat)
    requires Shape(p, s) && b < |p.blocks| && n <= |regs| && Operands(p, ll, s, regs[..n], b).None?
    ensures Operands(p, ll, s, regs, b).None?
    decreases |regs| - n
  {
    hide Answered, Answer;
    if n == |regs| {
      assert regs[..n] == regs;
    } else {
      assert Front(regs[..n + 1]) == regs[..n];
      NoOperands(p, ll, s, regs, b, n + 1);
    }
  }

  lemma {:induction false} NoInsts(p: Program, ll: Llvm, s: Raising, b: Block, k: nat, n: nat)
    requires Shape(p, s) && b < |p.blocks| && s.progress[b] == 0 && k <= n <= |p.blocks[b].insts|
    requires RaisedInsts(p, ll, s, b, k).None?
    ensures RaisedInsts(p, ll, s, b, n).None?
  {
    hide RaisedInst;
    if k < n {
      NoInsts(p, ll, s, b, k, n - 1);
    }
  }

  lemma {:induction false} NoBlocks(p: Program, ll: Llvm, s: Raising, order: seq<Block>, k: nat, n: nat)
    requires Initial(p, s) && BlockOrder(p, order) && k <= n <= |order|
    requires RaisedBlocks(p, ll, s, order, k).None?
    ensures RaisedBlocks(p, ll, s, order, n).None?
  {
    hide RaisedBlock;
    if k < n {
      NoBlocks(p, ll, s, order, k, n - 1);
    }
  }

  lemma {:induction false} NoTerms(p: Program, ll: Llvm, s: Raising, order: seq<Block>, k: nat, n: nat)
    requires Shape(p, s) && BlockOrder(p, order) && k <= n <= |order|
    requires RaisedTerms(p, ll, s, order, k).None?
    ensures RaisedTerms(p, ll, s, order, n).None?
  {
    hide RaisedTerm;
    if k < n {
      NoTerms(p, ll, s, order, k, n - 1);
    }
  }

  lemma {:induction false} ResolvedPrefix(p: Program, ll: Llvm, s: Raising, a: seq<(Reg, Block, Slot)>,
                                          b: seq<(Reg, Block, Slot)>, n: nat)
    requires Shape(p, s) && n <= |a| && a <= b
    ensures ResolvedUpTo(p, ll, s, a, n) == ResolvedUpTo(p, ll, s, b, n)
  {
    hide Resolved;
    if n > 0 {
      ResolvedPrefix(p, ll, s, a, b, n - 1);
    }
  }

  class X86RaisedValueTracker {
    const p: Program
    const ll: Llvm
    var defs: DefMap
    var body: seq<seq<RInst>>
    var term: seq<Option<seq<Value>>>
    var toPromote: set<(Reg, Block, Slot)>
    var nextId: nat
    var nextSlot: nat
    ghost var started: set<Block>
    ghost var progress: seq<nat>
    ghost var queries: set<Query>

    ghost function View(): Raising
      reads this
    {
      Raising(defs, body, term, toPromote, nextId, nextSlot, started, progress, queries)
    }

    ghost predicate Valid()
      reads this
    {
      Shape(p, View())
    }

    /** Enters a definition without a value for every argument and for every register written in every block. */
    constructor (p: Program, ll: Llvm)
      requires ValidProgram(p)
      ensures this.p == p && this.ll == ll && Initial(p, View()) && Valid()
    {
      this.p := p;
      this.ll := ll;
      var entries: DefMap := map[];
      var rest := p.args;
      while rest != {}
        invariant rest <= p.args
        invariant forall k :: k in entries <==> k.0 in p.args - rest && k.1 == 0
        invariant forall k :: k in entries ==> entries[k].None?
        decreases rest
      {
        var r :| r in rest;
        entries := entries[(r, 0) := None];
        rest := rest - {r};
      }
      for b := 0 to |p.blocks|
        invariant forall k :: k in entries ==> entries[k].None?
        invariant forall r: Reg, c: Block :: (r, c) in entries <==>
                                             (c == 0 && r in p.args) || (c < b && Writes(p, r, c))
      {
        ghost var before := entries;
        for i := 0 to |p.blocks[b].insts|
          invariant forall k :: k in entries ==> entries[k].None?
          invariant forall r: Reg, c: Block :: (r, c) in entries <==>
                      (r, c) in before || (c == b && exists j :: 0 <= j < i && Target(p.blocks[b].insts[j]) == Some(r))
        {
          var target := Target(p.blocks[b].insts[i]);
          if target.Some? {
            entries := entries[(target.value, b) := None];
          }
        }
      }
      defs := entries;
      body := seq(|p.blocks|, _ => []);
      term := seq(|p.blocks|, _ => None);
      toPromote, nextId, nextSlot := {}, 0, 0;
      started, queries := {}, {};
      progress := seq(|p.blocks|, _ => 0);
    }

    function GetInBlockRegOrArgDefVal(r: Reg, b: Block): BlockDef
      reads this
    {
      InBlock(p.args, defs, r, b)
    }

    ghost function DefsOf(r: Reg): set<Block>
      reads this
    {
      DefBlocks(p.args, defs, r, |p.preds|)
    }

    /** The walk from one predecessor `start`: a worklist used as a stack over a fresh visited vector. */
    method WalkBackFrom(r: Reg, start: Block) returns (found: seq<ReachingDef>)
      requires ValidProgram(p) && start < |p.preds|
      ensures forall d: Block :: Found(found, d) <==> LiveOut(p.preds, DefsOf(r), d, start)
      ensures forall x :: x in found ==> x.1 == InBlock(p.args, defs, r, x.0).value
    {
      var visited := seq(|p.preds|, _ => false);
      var workList := [start];
      found := [];
      ghost var seen: set<Block> := {};
      ghost var all := set b: Block | b < |visited| && !visited[b];
      WalkBegins(p.preds, p.args, defs, r, start);
      while workList != []
        invariant |visited| == |p.preds|
        invariant forall b: Block :: b < |p.preds| ==> (visited[b] <==> b in seen)
        invariant Walk(p.preds, p.args, defs, r, start, seen, workList, found)
        decreases all - seen, |workList|
      {
        var b := Last(workList);
        ghost var before := workList;
        workList := Front(workList);
        assert before == workList + [b];
        assert LeadsTo(p.preds, DefsOf(r), b, start);
        if !visited[b] {
          visited := visited[b := true];
          var info := GetInBlockRegOrArgDefVal(r, b);
          if info.block.Some? {
            WalkMeetsDefinition(p.preds, p.args, defs, r, start, seen, workList, found, b);
            found := found + [(b, info.value)];
          } else {
            ghost var shorter := workList;
            var i := 0;
            while i < |p.preds[b]|
              invariant 0 <= i <= |p.preds[b]|
              invariant forall x :: x in workList ==> x in shorter || Edge(p.preds, x, b)
              invariant forall x :: x in shorter ==> x in workList
              invariant forall j :: 0 <= j < i ==> p.preds[b][j] in seen + {b} || p.preds[b][j] in workList
            {
              assert Edge(p.preds, p.preds[b][i], b);
              if !visited[p.preds[b][i]] {
                workList := workList + [p.preds[b][i]];
              }
              i := i + 1;
            }
            WalkGoesThrough(p.preds, p.args, defs, r, start, seen, shorter, found, b, workList);
          }
          seen := seen + {b};
        } else {
          WalkSkips(p.preds, p.args, defs, r, start, seen, workList, found, b);
        }
      }
      WalkEnds(p.preds, p.args, defs, r, start, seen, found);
    }

    /** The definitions of `r` that reach block `b`: the one in `b` itself if its value is known, and otherwise
        those found by walking back from every predecessor. With `allPreds` the answer is empty unless every
        predecessor has a definition live on leaving it. */
    method GetGlobalReachingDefs(r: Reg, b: Block, allPreds: bool) returns (rds: seq<ReachingDef>)
      requires ValidProgram(p) && b < |p.preds|
      ensures GlobalReachingDefs(p, defs, r, b, allPreds, rds)
      ensures rds == ReachingDefs(p.preds, p.args, defs, r, b, allPreds)
    {
      var localDef := GetInBlockRegOrArgDefVal(r, b);
      if localDef.value.Some? {
        return [(b, localDef.value)];
      }
      rds := [];
      var rdFound := true;
      var i := 0;
      while i < |p.preds[b]|
        invariant 0 <= i <= |p.preds[b]|
        invariant forall j :: 0 <= j < |p.preds[b]| ==> Edge(p.preds, p.preds[b][j], b)
        invariant i == 0 ==> rdFound
        invariant allPreds && i > 0 ==>
                  (rdFound <==> forall j :: 0 <= j < i ==> SomeLiveOut(p.preds, DefsOf(r), p.preds[b][j]))
        invariant forall d: Block :: Found(rds, d) <==>
                                     exists j :: 0 <= j < i && LiveOut(p.preds, DefsOf(r), d, p.preds[b][j])
        invariant forall x :: x in rds ==> x.1 == InBlock(p.args, defs, r, x.0).value
      {
        if allPreds && !rdFound {
          break;
        }
        var found := WalkBackFrom(r, p.preds[b][i]);
        forall d: Block
          ensures Found(rds + found, d) <==> Found(rds, d) || Found(found, d)
        {
          FoundAppend(rds, found, d);
        }
        rds := rds + found;
        rdFound := found != [];
        if rdFound {
          assert Found(found, found[0].0);
        }
        i := i + 1;
      }
      if allPreds && !rdFound {
        rds := [];
      } else {
        assert i == |p.preds[b]|;
        ghost var unsorted := rds;
        rds := SortUnique(rds);
        assert forall d: Block :: Found(rds, d) <==> Found(unsorted, d);
      }
      SearchIsFunction(p, defs, r, b, allPreds, rds);
    }

    /** Records `v` as the most recent definition of `r` in block `b`. */
    method SetPhysRegSSAValue(r: Reg, b: Block, v: Value)
      modifies this`defs
      ensures defs == old(defs)[(r, b) := Some(v)]
    {
      defs := defs[(r, b) := Some(v)];
    }

    /** Replaces the uses of `v` in the instructions of block `u` by loads from `slot` in front of them. */
    method ReplaceUsesInBody(v: Value, slot: Slot, u: Block)
      requires u < |body|
      modifies this`body, this`nextId, this`queries
      ensures View() == WithReloads(old(View()), u, v, slot)
    {
      var code := [];
      var id := nextId;
      var i := 0;
      while i < |body[u]|
        invariant 0 <= i <= |body[u]|
        invariant (code, id) == Reloaded(body[u][..i], v, slot, u, nextId)
      {
        var inst := body[u][i];
        assert Front(body[u][..i + 1]) == body[u][..i] && Last(body[u][..i + 1]) == inst;
        if v in Reads(inst) {
          code := code + [Load(Inst(u, id), slot), Redirected(inst, v, Inst(u, id))];
          id := id + 1;
        } else {
          code := code + [inst];
        }
        i := i + 1;
      }
      assert body[u][..i] == body[u];
      body := body[u := code];
      nextId := id;
      queries := queries + ReloadedQueries(queries, u, v, slot);
    }

    /** Replaces the uses of `v` in block `u`, its terminator included. */
    method ReplaceUses(v: Value, slot: Slot, u: Block)
      requires u < |body| == |term|
      modifies this`body, this`term, this`nextId, this`queries
      ensures View() == WithTermReload(WithReloads(old(View()), u, v, slot), u, v, slot)
      ensures |body| == |old(body)| && |term| == |old(term)|
    {
      ReplaceUsesInBody(v, slot, u);
      hide WithReloads;
      if term[u].Some? && v in term[u].value {
        var w := Inst(u, nextId);
        body := body[u := body[u] + [Load(w, slot)]];
        nextId := nextId + 1;
        term := term[u := Some(Substitute(term[u].value, v, w))];
      }
    }

    /** Stores `v`, the value of a register on leaving block `d`, into a slot at the end of that block. Unless it is an
        argument, a load or cast to the slot's type, it is loaded from there wherever a block that `d` dominates uses
        it. */
    method PromotePhysregToStackSlot(v: Value, d: Block, slot: Slot)
      requires d < |body| == |term|
      modifies this`body, this`term, this`nextId, this`queries
      ensures View() == Promoted(ll, old(View()), d, v, slot)
    {
      hide WithTermReload, WithReloads;
      body := body[d := body[d] + [Store(slot, v)]];
      ghost var t := View();
      assert t == WithStore(old(View()), d, slot, v);
      if v.Arg? || IsLoaded(body, v) || ll.exempt(v, slot) {
        return;
      }
      var u := 0;
      while u < |body|
        invariant u <= |body| == |t.body| == |term|
        invariant View() == ReloadedUpTo(ll, t, d, v, slot, u)
      {
        if u != d && ll.dominates(d, u) {
          ReplaceUses(v, slot, u);
        }
        u := u + 1;
      }
    }

    /** Notes that block `d`, which is not raised yet, has to store `r` into a slot. */
    method RecordDefsToPromote(r: Reg, d: Block, slot: Slot)
      modifies this`toPromote
      ensures toPromote == old(toPromote) + {(r, d, slot)}
    {
      toPromote := toPromote + {(r, d, slot)};
    }

    /** Stores every reaching definition into `slot`, at once where the value is known and later where it is not. */
    method PromoteAll(r: Reg, rds: seq<ReachingDef>, slot: Slot)
      requires |body| == |term| && forall x :: x in rds ==> x.0 < |body|
      modifies this`body, this`term, this`nextId, this`queries, this`toPromote
      ensures View() == PromotedUpTo(ll, old(View()), rds, slot,
                                     |rds|).(toPromote := old(toPromote) + Waiting(r, rds, slot))
    {
      ghost var s0 := View();
      var i := 0;
      while i < |rds|
        invariant i <= |rds| && |body| == |term| == |s0.body|
        invariant View().(toPromote := s0.toPromote) == PromotedUpTo(ll, s0, rds, slot, i)
        invariant toPromote == s0.toPromote + Waiting(r, rds[..i], slot)
      {
        var rd := rds[i];
        assert rds[..i + 1] == rds[..i] + [rd];
        if rd.1.None? {
          RecordDefsToPromote(r, rd.0, slot);
        } else {
          PromotedIgnoresWaiting(ll, View(), rd.0, rd.1.value, slot, s0.toPromote);
          PromotePhysregToStackSlot(rd.1.value, rd.0, slot);
        }
        i := i + 1;
      }
      assert rds[..|rds|] == rds;
    }

    /** The value of `r` at the end of what is raised of block `b`. */
    method GetReachingDef(r: Reg, b: Block, allPreds: bool) returns (v: Option<Value>)
      requires Valid() && b < |p.blocks|
      modifies this`defs, this`body, this`term, this`toPromote, this`nextId, this`nextSlot, this`queries
      ensures Valid()
      ensures View() == Answered(p, ll, old(View()), r, b, allPreds) && v == Answer(p, ll, old(View()), r, b, allPreds)
      // the search's outcome decides: nothing, the value of the only definition, or a load from a new slot
      ensures var rds := ReachingDefs(p.preds, p.args, old(defs), r, b, allPreds);
              && (|rds| == 0 ==> v == None)
              && (|rds| == 1 ==> v == rds[0].1)
              && (|rds| <= 1 ==> defs == old(defs) && body == old(body) && toPromote == old(toPromote))
              && (|rds| > 1 ==>
                    && v.Some? && defs == old(defs)[(r, b) := v] && |body[b]| > 0
                    && Last(body[b]) == Load(v.value, old(nextSlot)))
      // the value that the block reads is the machine's, and earlier answers stay right
      ensures Inv(p, old(View())) && OnlyOpen(p, old(View()), b) && Asked(p, old(View()), r, b) ==>
              Answers(p, old(View()), View(), r, b, v)
    {
      hide Inv, Answers, OnlyOpen, Asked, FromSlot, GlobalReachingDefs;
      assert SameShape(p, View(), Answered(p, ll, View(), r, b, allPreds));
      if Inv(p, View()) && OnlyOpen(p, View(), b) && Asked(p, View(), r, b) {
        AnswerKeepsInv(p, ll, View(), r, b, allPreds);
      }
      var rds := GetGlobalReachingDefs(r, b, allPreds);
      if |rds| == 0 {
        return None;
      }
      var localDef := GetInBlockRegOrArgDefVal(r, b);
      if localDef.value.Some? {
        return localDef.value;
      }
      ghost var s0 := View();
      if |rds| == 1 {
        v := rds[0].1;
        if v.Some? {
          queries := queries + {SearchQuery(p, s0, r, b, Direct(v.value))};
          assert View() == WithQuery(s0, SearchQuery(p, s0, r, b, Direct(v.value)), {});
        }
        return;
      }
      v := AnswerInSlot(r, b, rds);
    }

    /** Several definitions reach: allocates a slot, has each of them stored there, loads from it and records the
        load. */
    method AnswerInSlot(r: Reg, b: Block, rds: seq<ReachingDef>) returns (v: Option<Value>)
      requires Valid() && b < |p.blocks| && forall x :: x in rds ==> x.0 < |body|
      modifies this`defs, this`body, this`term, this`toPromote, this`nextId, this`nextSlot, this`queries
      ensures View() == FromSlot(p, ll, old(View()), r, b, rds) && v == LocalVal(p, View(), r, b)
      ensures v.Some? && defs == old(defs)[(r, b) := v] && |body[b]| > 0
              && Last(body[b]) == Load(v.value, old(nextSlot))
    {
      ghost var s0 := View();
      var slot := nextSlot;
      nextSlot := nextSlot + 1;
      PromoteAll(r, rds, slot);
      queries := queries + {SearchQuery(p, s0, r, b, InSlot(slot))};
      v := Some(Inst(b, nextId));
      body := body[b := body[b] + [Load(v.value, slot)]];
      nextId := nextId + 1;
      SetPhysRegSSAValue(r, b, v.value);
    }

    /** Carries out one promotion that had to wait for its block. */
    method Resolve(x: (Reg, Block, Slot)) returns (ok: bool)
      requires Valid()
      modifies this`body, this`term, this`nextId, this`queries, this`toPromote
      ensures ok <==> Resolved(p, ll, old(View()), x).Some?
      ensures ok ==> Valid() && Some(View()) == Resolved(p, ll, old(View()), x) && toPromote == old(toPromote) - {x}
    {
      hide Promoted;
      var v := GetInBlockRegOrArgDefVal(x.0, x.1).value;
      ok := x.1 < |body| && v.Some?;
      if ok {
        PromotePhysregToStackSlot(v.value, x.1, x.2);
        toPromote := toPromote - {x};
      }
    }

    /** Carries out the promotions that had to wait for their blocks, in some order. Fails if a register of a block that
        should be raised has no value, which in good programs never happens. */
    method HandleUnpromotedReachingDefs() returns (ok: bool, ghost waiting: seq<(Reg, Block, Slot)>)
      requires Valid()
      modifies this`body, this`term, this`nextId, this`queries, this`toPromote
      ensures Enumerates(waiting, old(toPromote))
      ensures ok <==> ResolvedUpTo(p, ll, old(View()), waiting, |waiting|).Some?
      ensures ok ==> Some(View()) == ResolvedUpTo(p, ll, old(View()), waiting, |waiting|) && toPromote == {}
      ensures Inv(p, old(View())) && AllDone(p, old(View())) ==> ok && Inv(p, View())
    {
      ghost var s0 := View();
      waiting := [];
      var rest := toPromote;
      ok := true;
      hide Inv, Resolved;
      while rest != {}
        invariant ok ==> Valid() && toPromote == rest && ResolvedUpTo(p, ll, s0, waiting, |waiting|) == Some(View())
        invariant !ok ==> ResolvedUpTo(p, ll, s0, waiting, |waiting|) == None
        invariant forall x :: x in s0.toPromote <==> x in waiting || x in rest
        invariant forall x :: x in rest ==> x !in waiting
        invariant forall i, j :: 0 <= i < j < |waiting| ==> waiting[i] != waiting[j]
        decreases rest
      {
        var x: (Reg, Block, Slot) :| x in rest;
        ghost var longer := waiting + [x];
        ResolvedPrefix(p, ll, s0, waiting, longer, |waiting|);
        if ok {
          ok := Resolve(x);
        }
        waiting := longer;
        rest := rest - {x};
      }
      if Inv(p, s0) && AllDone(p, s0) {
        ResolvedAll(p, ll, s0, waiting, |waiting|);
      }
    }

    /** Looks up the registers that an instruction or a terminator reads. */
    method GetOperands(regs: seq<Reg>, b: Block) returns (vals: Option<seq<Value>>)
      requires Valid() && b < |p.blocks|
      modifies this`defs, this`body, this`term, this`toPromote, this`nextId, this`nextSlot, this`queries
      ensures vals.Some? <==> Operands(p, ll, old(View()), regs, b).Some?
      ensures vals.Some? ==> Valid() && Operands(p, ll, old(View()), regs, b) == Some((View(), vals.value))
    {
      hide Answered, Answer, Inv, Answers;
      ghost var s0 := View();
      var found := [];
      var i := 0;
      while i < |regs|
        invariant 0 <= i <= |regs|
        invariant Valid() && Operands(p, ll, s0, regs[..i], b) == Some((View(), found))
      {
        assert Front(regs[..i + 1]) == regs[..i] && Last(regs[..i + 1]) == regs[i];
        var v := GetReachingDef(regs[i], b, false);
        if v.None? {
          NoOperands(p, ll, s0, regs, b, i + 1);
          return None;
        }
        found := found + [v.value];
        i := i + 1;
      }
      assert regs[..i] == regs;
      return Some(found);
    }

    /** Raises the next instruction of block `b`: an operation computes a new value and records it, a register move
        records the source's value, and an instruction that only reads emits the values. Fails if it reads a register
        that has no value. */
    method RaiseInst(b: Block, k: nat) returns (ok: bool)
      requires Valid() && b < |p.blocks| && progress[b] == k < |p.blocks[b].insts|
      modifies this`defs, this`body, this`term, this`toPromote, this`nextId, this`nextSlot, this`queries, this`progress
      ensures ok <==> RaisedInst(p, ll, old(View()), b).Some?
      ensures ok ==> Valid() && RaisedInst(p, ll, old(View()), b) == Some(View())
    {
      hide Operands;
      var i := p.blocks[b].insts[k];
      var vals := GetOperands(ReadRegs(i), b);
      if vals.None? {
        return false;
      }
      var v := Inst(b, nextId);
      match i {
        case Op(dst, op, _) =>
          body := body[b := body[b] + [Compute(v, op, vals.value)]];
          nextId := nextId + 1;
          SetPhysRegSSAValue(dst, b, v);
        case Copy(dst, _) =>
          SetPhysRegSSAValue(dst, b, vals.value[0]);
        case Use(_) =>
          body := body[b := body[b] + [Emit(vals.value)]];
      }
      progress := progress[b := progress[b] + 1];
      return true;
    }

    /** Raises all instructions of block `b` but its terminator. */
    method RaiseBlock(b: Block) returns (ok: bool)
      requires Valid() && b < |p.blocks| && progress[b] == 0
      modifies this`defs, this`body, this`term, this`toPromote, this`nextId, this`nextSlot, this`queries,
               this`progress, this`started
      ensures ok <==> RaisedBlock(p, ll, old(View()), b).Some?
      ensures ok ==> Valid() && RaisedBlock(p, ll, old(View()), b) == Some(View())
    {
      hide RaisedInst;
      ghost var s0 := View().(started := started + {b});
      started := started + {b};
      for k := 0 to |p.blocks[b].insts|
        invariant Valid() && progress[b] == k
        invariant RaisedInsts(p, ll, s0, b, k) == Some(View())
      {
        var raised := RaiseInst(b, k);
        if !raised {
          NoInsts(p, ll, s0, b, k + 1, |p.blocks[b].insts|);
          return false;
        }
      }
      return true;
    }

    /** Raises the terminator of block `b`, after all blocks are raised. */
    method RaiseTerminator(b: Block) returns (ok: bool)
      requires Valid() && b < |p.blocks|
      modifies this`defs, this`body, this`toPromote, this`nextId, this`nextSlot, this`queries, this`term
      ensures ok <==> RaisedTerm(p, ll, old(View()), b).Some?
      ensures ok ==> Valid() && RaisedTerm(p, ll, old(View()), b) == Some(View())
      ensures ok && Inv(p, old(View())) && AllDone(p, old(View())) ==> Inv(p, View()) && AllDone(p, View())
    {
      hide Operands, Inv;
      if Inv(p, View()) && AllDone(p, View()) {
        TermKeepsAll(p, ll, View(), b);
      }
      var vals := GetOperands(p.blocks[b].term, b);
      if vals.None? {
        return false;
      }
      term := term[b := Some(vals.value)];
      return true;
    }

    /** Raises all blocks in the given order. */
    method RaiseBlocks(order: seq<Block>) returns (ok: bool)
      requires Initial(p, View()) && BlockOrder(p, order)
      modifies this`defs, this`body, this`term, this`toPromote, this`nextId, this`nextSlot, this`queries,
               this`progress, this`started
      ensures ok <==> RaisedBlocks(p, ll, old(View()), order, |order|).Some?
      ensures ok ==> Valid() && RaisedBlocks(p, ll, old(View()), order, |order|) == Some(View())
    {
      hide RaisedBlock;
      ghost var s0 := View();
      for i := 0 to |order|
        invariant Valid() && RaisedBlocks(p, ll, s0, order, i) == Some(View())
      {
        var raised := RaiseBlock(order[i]);
        if !raised {
          NoBlocks(p, ll, s0, order, i + 1, |order|);
          return false;
        }
      }
      return true;
    }

    /** Raises all terminators. */
    method RaiseTerminators(order: seq<Block>) returns (ok: bool)
      requires Valid() && BlockOrder(p, order)
      modifies this`defs, this`body, this`toPromote, this`nextId, this`nextSlot, this`queries, this`term
      ensures ok <==> RaisedTerms(p, ll, old(View()), order, |order|).Some?
      ensures ok ==> Valid() && RaisedTerms(p, ll, old(View()), order, |order|) == Some(View())
    {
      hide RaisedTerm, Inv;
      ghost var s0 := View();
      for i := 0 to |order|
        invariant Valid() && RaisedTerms(p, ll, s0, order, i) == Some(View())
      {
        assert order[i] in order;
        var raised := RaiseTerminator(order[i]);
        if !raised {
          NoTerms(p, ll, s0, order, i + 1, |order|);
          return false;
        }
      }
      return true;
    }

    /** Raises the whole function: all blocks in the given order, then the terminators, then the promotions that had to
        wait. It succeeds exactly if every register that is read has a value by then, and the raised function of a good
        program reads the machine's values on every run. */
    method RaiseFunction(order: seq<Block>) returns (ok: bool)
      requires Initial(p, View()) && BlockOrder(p, order)
      modifies this
      ensures ok ==> RaisedFunction(p, ll, old(View()), order, View())
      ensures ok && Good(p) ==> Refines(p, Raised(View()))
      ensures ok <==> EveryReadHasValue(p, order)
    {
      hide RaisedBlocks, RaisedTerms, Inv, Good, Refines, EveryReadHasValue, ResolvedUpTo;
      ghost var s0 := View();
      CodeIff(p, ll, s0, order);
      ok := RaiseBlocks(order);
      if !ok {
        return;
      }
      ok := RaiseTerminators(order);
      if !ok {
        return;
      }
      ghost var s2 := View();
      ghost var waiting;
      ok, waiting := HandleUnpromotedReachingDefs();
      WaitingSucceed(p, ll, s0, order, waiting);
      if Good(p) {
        RaisedFunctionRefines(p, ll, s0, order, View());
      }
    }
  }
}
