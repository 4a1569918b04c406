/** When a raised function is wrong: where it reads a value that was made anew after the register got its own. */
module Disturbance {
  import opened Wrappers
  import opened ControlFlow
  import opened ReachingDefinitions
  import opened RaisedSemantics
  import opened RaisingFunction
  import opened GoodPrograms
  import opened RaisingInvariant
  import opened RaisingCorrect

  // ----- how many operations and reads there are

  function OpCount(insts: seq<MInst>): nat {
    if insts == [] then 0 else OpCount(Front(insts)) + if Last(insts).Op? then 1 else 0
  }

  function UseCount(insts: seq<MInst>): nat {
    if insts == [] then 0 else UseCount(Front(insts)) + if Last(insts).Use? then 1 else 0
  }

  function ComputeCount(body: seq<RInst>): nat {
    if body == [] then 0 else ComputeCount(Front(body)) + if Last(body).Compute? then 1 else 0
  }

  function EmitCount(body: seq<RInst>): nat {
    if body == [] then 0 else EmitCount(Front(body)) + if Last(body).Emit? then 1 else 0
  }

  /** Every block of the raised function has as many operations and reads as the machine's. */
  ghost predicate Mirrors(p: Program, raised: seq<RBlock>) {
    && |raised| == |p.blocks|
    && forall b :: 0 <= b < |raised| ==>
         && raised[b].term.Some?
         && ComputeCount(raised[b].body) == OpCount(p.blocks[b].insts)
         && EmitCount(raised[b].body) == UseCount(p.blocks[b].insts)
  }

  lemma {:induction false} MClock(ev: Eval, insts: seq<MInst>, s: MState)
    ensures var t := MRun(ev, insts, s);
            t.tick == s.tick + OpCount(insts) && |t.out| == |s.out| + UseCount(insts) && s.out <= t.out
  {
    if insts != [] {
      MClock(ev, Front(insts), s);
    }
  }

  lemma {:induction false} RClock(ev: Eval, body: seq<RInst>, s: RState)
    ensures var t := RRun(ev, body, s);
            t.tick == s.tick + ComputeCount(body) && |t.out| == |s.out| + EmitCount(body) && s.out <= t.out
  {
    if body != [] {
      RClock(ev, Front(body), s);
    }
  }

  lemma {:induction false} SameClocks(p: Program, raised: seq<RBlock>, ev: Eval, ms: MState, rs: RState,
                                      path: seq<Block>)
    requires ValidProgram(p) && IsRun(p, path) && Mirrors(p, raised)
    requires ms.tick == rs.tick && |ms.out| == |rs.out|
    ensures var m, r := MPath(p, ev, ms, path), RPath(p, raised, ev, rs, path);
            m.tick == r.tick && |m.out| == |r.out|
    decreases |path|
  {
    RunFront(p, path);
    var b := Last(path);
    if |path| > 1 {
      SameClocks(p, raised, ev, ms, rs, Front(path));
    }
    MClock(ev, p.blocks[b].insts, if |path| == 1 then ms else MPath(p, ev, ms, Front(path)));
    RClock(ev, raised[b].body, if |path| == 1 then rs else RPath(p, raised, ev, rs, Front(path)));
  }

  // ----- operations that tell the time

  /** Every operation gives how many were executed before it, so that no two executions agree. */
  function Ticking(): Eval {
    (op: nat, tick: nat, args: seq<int>) => tick
  }

  /** Everything a register holds was made before. */
  ghost predicate Past(s: MState) {
    forall r :: r in s.regs ==> s.regs[r] < s.tick
  }

  ghost predicate NewValue(s: RState, loc: Location, since: int) {
    Lookup(s, loc).Some? ==> Lookup(s, loc).value >= since
  }

  function MEntry(p: Program): MState {
    MState(map r | r in p.args :: -1, [], 0)
  }

  function REntry(p: Program): RState {
    RState(map r | r in p.args :: Arg(r) := -1, map[], [], 0)
  }

  lemma Enters(p: Program)
    ensures EntryStates(p, MEntry(p), REntry(p)) && Past(MEntry(p))
  {
  }

  lemma {:induction false} StaysPast(insts: seq<MInst>, s: MState)
    requires Past(s)
    ensures Past(MRun(Ticking(), insts, s))
  {
    if insts != [] {
      StaysPast(Front(insts), s);
    }
  }

  lemma {:induction false} PathPast(p: Program, path: seq<Block>)
    requires ValidProgram(p) && IsRun(p, path)
    ensures Past(MPath(p, Ticking(), MEntry(p), path))
    decreases |path|
  {
    RunFront(p, path);
    if |path| == 1 {
      Enters(p);
      StaysPast(p.blocks[Last(path)].insts, MEntry(p));
    } else {
      PathPast(p, Front(path));
      StaysPast(p.blocks[Last(path)].insts, MPath(p, Ticking(), MEntry(p), Front(path)));
    }
  }

  lemma NotWritten(p: Program, r: Reg, b: Block, n: nat, ev: Eval, s: MState)
    requires b < |p.blocks| && n <= |p.blocks[b].insts|
    requires forall i :: 0 <= i < n ==> Target(p.blocks[b].insts[i]) != Some(r)
    ensures Get(MRun(ev, p.blocks[b].insts[..n], s).regs, r) == Get(s.regs, r)
  {
    RegisterFrame(ev, p.blocks[b].insts[..n], s, r);
  }

  /** The first blocks of a run are a run. */
  lemma RunPrefix(p: Program, path: seq<Block>, n: nat)
    requires IsRun(p, path) && 0 < n <= |path|
    ensures IsRun(p, path[..n])
    ensures n < |path| ==> Front(path)[..n] == path[..n]
  {
  }

  /** A register that is not written after block `i` of a run holds something made before that. */
  lemma {:induction false} Older(p: Program, path: seq<Block>, i: nat, r: Reg)
    requires ValidProgram(p) && IsRun(p, path) && i < |path|
    requires forall k :: i < k < |path| ==> !Writes(p, r, path[k])
    ensures IsRun(p, path[..i + 1])
    ensures var m := MPath(p, Ticking(), MEntry(p), path);
            r in m.regs ==> m.regs[r] < MPath(p, Ticking(), MEntry(p), path[..i + 1]).tick
    decreases |path|
  {
    RunFront(p, path);
    RunPrefix(p, path, i + 1);
    if |path| == i + 1 {
      assert path[..i + 1] == path;
      PathPast(p, path);
    } else {
      Older(p, Front(path), i, r);
      var insts := p.blocks[Last(path)].insts;
      assert insts[..|insts|] == insts;
      NotWritten(p, r, Last(path), |insts|, Ticking(), MPath(p, Ticking(), MEntry(p), Front(path)));
    }
  }

  // ----- values made anew

  ghost predicate OnlyComputed(body: seq<RInst>, v: Value) {
    forall i :: i in body && RTarget(i) == Some(v) ==> i.Compute?
  }

  /** The code computes `v`, and does not load it. */
  ghost predicate Makes(body: seq<RInst>, v: Value) {
    OnlyComputed(body, v) && exists i :: i in body && RTarget(i) == Some(v)
  }

  /** The last store of the code into the slot is of a value that the code made before. */
  ghost predicate StoresMade(body: seq<RInst>, slot: Slot) {
    && body != []
    && if Last(body).Store? && Last(body).slot == slot then Makes(Front(body), Last(body).v)
       else StoresMade(Front(body), slot)
  }

  lemma {:induction false} MakesNew(body: seq<RInst>, s: RState, v: Value, since: int)
    requires OnlyComputed(body, v) && since <= s.tick
    requires NewValue(s, Direct(v), since) || Makes(body, v)
    ensures NewValue(RRun(Ticking(), body, s), Direct(v), since)
  {
    if body != [] {
      var i, front := Last(body), Front(body);
      assert i in body && forall j :: j in front ==> j in body;
      assert forall j :: j in body ==> j in front || j == i;
      RClock(Ticking(), front, s);
      if RTarget(i) != Some(v) {
        MakesNew(front, s, v, since);
      }
    }
  }

  lemma {:induction false} StoresNew(body: seq<RInst>, s: RState, slot: Slot, since: int)
    requires since <= s.tick && StoresMade(body, slot)
    ensures NewValue(RRun(Ticking(), body, s), InSlot(slot), since)
  {
    var i, front := Last(body), Front(body);
    if i.Store? && i.slot == slot {
      MakesNew(front, s, i.v, since);
    } else {
      StoresNew(front, s, slot, since);
    }
  }

  function BodyOf(raised: seq<RBlock>, b: Block): seq<RInst> {
    if b < |raised| then raised[b].body else []
  }

  /** After block `i` of the path, what is at `loc` is made anew, and nothing older gets there later. */
  ghost predicate Remade(raised: seq<RBlock>, path: seq<Block>, i: nat, loc: Location)
  {
    match loc
    case Direct(v) =>
      && (forall k :: i < k < |path| ==> OnlyComputed(BodyOf(raised, path[k]), v))
      && exists j :: i < j < |path| && Makes(BodyOf(raised, path[j]), v)
    case InSlot(slot) =>
      exists j :: i < j < |path| && StoresMade(BodyOf(raised, path[j]), slot)
                  && forall k :: j < k < |path| ==> !StoresInto(BodyOf(raised, path[k]), slot)
  }

  /** What is made anew in one more block, or was before. */
  ghost predicate RemadeBefore(raised: seq<RBlock>, path: seq<Block>, i: nat, loc: Location)
    requires path != []
  {
    && i + 1 < |path|
    && match loc
       case Direct(v) => OnlyComputed(BodyOf(raised, Last(path)), v)
           && (Remade(raised, Front(path), i, loc) || Makes(BodyOf(raised, Last(path)), v))
       case InSlot(slot) => StoresMade(BodyOf(raised, Last(path)), slot)
                            || (Remade(raised, Front(path), i, loc) && !StoresInto(BodyOf(raised, Last(path)), slot))
  }

  lemma RemadeSplits(raised: seq<RBlock>, path: seq<Block>, i: nat, loc: Location)
    requires path != [] && Remade(raised, path, i, loc)
    ensures RemadeBefore(raised, path, i, loc)
  {
    hide OnlyComputed, Makes, StoresMade, StoresInto, BodyOf;
    var front := Front(path);
    assert forall k :: 0 <= k < |front| ==> front[k] == path[k];
    match loc
    case Direct(v) =>
      var j :| i < j < |path| && Makes(BodyOf(raised, path[j]), v);
      if j < |front| {
        assert Makes(BodyOf(raised, front[j]), v);
      }
    case InSlot(slot) =>
      var j :| i < j < |path| && StoresMade(BodyOf(raised, path[j]), slot)
          && forall k :: j < k < |path| ==> !StoresInto(BodyOf(raised, path[k]), slot);
      if j < |front| {
        assert StoresMade(BodyOf(raised, front[j]), slot);
      }
  }

  /** What is made anew after block `i` of a run is newer than that. */
  lemma {:induction false} Newer(p: Program, raised: seq<RBlock>, path: seq<Block>, i: nat, loc: Location)
    requires ValidProgram(p) && IsRun(p, path) && Mirrors(p, raised) && i < |path|
    requires Remade(raised, path, i, loc)
    ensures IsRun(p, path[..i + 1])
    ensures NewValue(RPath(p, raised, Ticking(), REntry(p), path), loc,
                     RPath(p, raised, Ticking(), REntry(p), path[..i + 1]).tick)
    decreases |path|
  {
    RunFront(p, path);
    RunPrefix(p, path, i + 1);
    RemadeSplits(raised, path, i, loc);
    var since := RPath(p, raised, Ticking(), REntry(p), path[..i + 1]).tick;
    var s := RPath(p, raised, Ticking(), REntry(p), Front(path));
    var body := BodyOf(raised, Last(path));
    LaterTicks(p, raised, Front(path), i);
    if Remade(raised, Front(path), i, loc) {
      Newer(p, raised, Front(path), i, loc);
    }
    match loc
    case Direct(v) =>
      MakesNew(body, s, v, since);
    case InSlot(slot) =>
      if StoresMade(body, slot) {
        StoresNew(body, s, slot, since);
      } else {
        SlotFrame(Ticking(), body, s, slot);
      }
  }

  lemma {:induction false} LaterTicks(p: Program, raised: seq<RBlock>, path: seq<Block>, i: nat)
    requires ValidProgram(p) && IsRun(p, path) && Mirrors(p, raised) && i < |path|
    ensures IsRun(p, path[..i + 1])
    ensures RPath(p, raised, Ticking(), REntry(p), path[..i + 1]).tick
            <= RPath(p, raised, Ticking(), REntry(p), path).tick
    decreases |path|
  {
    RunFront(p, path);
    RunPrefix(p, path, i + 1);
    if |path| == i + 1 {
      assert path[..i + 1] == path;
    } else {
      LaterTicks(p, raised, Front(path), i);
      RClock(Ticking(), BodyOf(raised, Last(path)), RPath(p, raised, Ticking(), REntry(p), Front(path)));
    }
  }

  /** Main result: if a register is not written after block `i` of a run and what is at `loc` is made anew after it,
      `loc` does not hold the register's value at the end of the run, for operations that tell the time. */
  lemma RemadeIsWrong(p: Program, raised: seq<RBlock>, path: seq<Block>, i: nat, loc: Location, r: Reg)
    requires ValidProgram(p) && IsRun(p, path) && Mirrors(p, raised) && i < |path|
    requires Remade(raised, path, i, loc)
    requires forall k :: i < k < |path| ==> !Writes(p, r, path[k])
    ensures var m, s := MPath(p, Ticking(), MEntry(p), path), RPath(p, raised, Ticking(), REntry(p), path);
            r in m.regs ==> Lookup(s, loc) != Some(m.regs[r])
  {
    Older(p, path, i, r);
    Newer(p, raised, path, i, loc);
    SameClocks(p, raised, Ticking(), MEntry(p), REntry(p), path[..i + 1]);
  }

  // ----- and what is read is wrong

  /** Instruction `n` of the code reads, as its operand `x`, what is at `loc` when the code begins, or something
      newer. */
  ghost predicate ReadsFrom(body: seq<RInst>, n: nat, x: nat, loc: Location) {
    && n < |body| && body[n].Emit? && x < |body[n].vals|
    && match loc
       case Direct(v) => body[n].vals[x] == v && OnlyComputed(body[..n], v)
       case InSlot(slot) => n > 0 && body[n - 1] == Load(body[n].vals[x], slot) && !StoresInto(body[..n - 1], slot)
  }

  lemma ReadsNew(body: seq<RInst>, n: nat, x: nat, loc: Location, s: RState, since: int)
    requires ReadsFrom(body, n, x, loc) && NewValue(s, loc, since) && since <= s.tick
    ensures NewValue(RRun(Ticking(), body[..n], s), Direct(body[n].vals[x]), since)
  {
    match loc
    case Direct(v) =>
      MakesNew(body[..n], s, v, since);
    case InSlot(slot) =>
      assert Front(body[..n]) == body[..n - 1] && Last(body[..n]) == body[n - 1];
      SlotFrame(Ticking(), body[..n - 1], s, slot);
  }

  lemma {:induction false} MOutGrows(ev: Eval, insts: seq<MInst>, k: nat, s: MState)
    requires k <= |insts|
    ensures MRun(ev, insts[..k], s).out <= MRun(ev, insts, s).out
  {
    if k == |insts| {
      assert insts[..k] == insts;
    } else {
      assert Front(insts)[..k] == insts[..k];
      MOutGrows(ev, Front(insts), k, s);
    }
  }

  lemma {:induction false} ROutGrows(ev: Eval, body: seq<RInst>, n: nat, s: RState)
    requires n <= |body|
    ensures RRun(ev, body[..n], s).out <= RRun(ev, body, s).out
  {
    if n == |body| {
      assert body[..n] == body;
    } else {
      assert Front(body)[..n] == body[..n];
      ROutGrows(ev, Front(body), n, s);
    }
  }

  /** What instruction `k` of the machine's block and instruction `n` of the raised block read. */
  lemma OutputsAre(ev: Eval, insts: seq<MInst>, k: nat, m: MState, body: seq<RInst>, n: nat, s: RState)
    requires k < |insts| && insts[k].Use? && n < |body| && body[n].Emit?
    requires EmitCount(body[..n]) == UseCount(insts[..k]) && |m.out| == |s.out|
    ensures var at := |m.out| + UseCount(insts[..k]);
            && at < |MRun(ev, insts, m).out| && MRun(ev, insts, m).out[at]
               == GetAll(MRun(ev, insts[..k], m).regs, insts[k].regs)
            && at < |RRun(ev, body, s).out| && RRun(ev, body, s).out[at]
               == GetAll(RRun(ev, body[..n], s).env, body[n].vals)
  {
    MClock(ev, insts[..k], m);
    RClock(ev, body[..n], s);
    assert Front(insts[..k + 1]) == insts[..k] && Last(insts[..k + 1]) == insts[k];
    assert Front(body[..n + 1]) == body[..n] && Last(body[..n + 1]) == body[n];
    MOutGrows(ev, insts, k + 1, m);
    ROutGrows(ev, body, n + 1, s);
  }

  /** The machine reads `r` in block `u`, where it is not written before, and the raised function reads at `loc`
      instead. */
  ghost predicate ReadFor(p: Program, raised: seq<RBlock>, u: Block, k: nat, n: nat, x: nat, r: Reg, loc: Location) {
    && u < |p.blocks| == |raised|
    && var insts, body := p.blocks[u].insts, raised[u].body;
    && k < |insts| && insts[k].Use? && x < |insts[k].regs| && insts[k].regs[x] == r
    && (forall j :: 0 <= j < k ==> Target(insts[j]) != Some(r))
    && ReadsFrom(body, n, x, loc) && EmitCount(body[..n]) == UseCount(insts[..k])
  }

  /** At the read, the machine has what the register held, and the raised function something newer. */
  lemma RemadeReadIsWrong(p: Program, raised: seq<RBlock>, path: seq<Block>, i: nat, loc: Location, r: Reg, u: Block,
                          k: nat, n: nat, x: nat)
    requires ValidProgram(p) && IsRun(p, path) && Mirrors(p, raised) && i < |path| && Remade(raised, path, i, loc)
    requires forall j :: i < j < |path| ==> !Writes(p, r, path[j])
    requires ReadFor(p, raised, u, k, n, x, r, loc)
    requires r in MPath(p, Ticking(), MEntry(p), path).regs
    ensures var m, s := MPath(p, Ticking(), MEntry(p), path), RPath(p, raised, Ticking(), REntry(p), path);
            && r in MRun(Ticking(), p.blocks[u].insts[..k], m).regs && |m.out| == |s.out|
            && Get(RRun(Ticking(), raised[u].body[..n], s).env, raised[u].body[n].vals[x])
               != Some(MRun(Ticking(), p.blocks[u].insts[..k], m).regs[r])
  {
    hide MRun, RRun, MPath, RPath, Remade, Refines;
    var ev := Ticking();
    var m, s := MPath(p, ev, MEntry(p), path), RPath(p, raised, ev, REntry(p), path);
    Older(p, path, i, r);
    Newer(p, raised, path, i, loc);
    SameClocks(p, raised, ev, MEntry(p), REntry(p), path[..i + 1]);
    SameClocks(p, raised, ev, MEntry(p), REntry(p), path);
    LaterTicks(p, raised, path, i);
    ReadsNew(raised[u].body, n, x, loc, s, RPath(p, raised, ev, REntry(p), path[..i + 1]).tick);
    NotWritten(p, r, u, k, ev, m);
  }

  /** Main result: a register that is looked up where its value is made anew in the meantime is read wrongly, and the
      raised function does not do what the machine function does. */
  lemma RemadeReadBreaks(p: Program, raised: seq<RBlock>, path: seq<Block>, i: nat, loc: Location, r: Reg, u: Block,
                         k: nat, n: nat, x: nat)
    requires ValidProgram(p) && IsRun(p, path) && Mirrors(p, raised) && i < |path| && Remade(raised, path, i, loc)
    requires forall j :: i < j < |path| ==> !Writes(p, r, path[j])
    requires Edge(p.preds, Last(path), u) && ReadFor(p, raised, u, k, n, x, r, loc)
    requires r in MPath(p, Ticking(), MEntry(p), path).regs
    ensures !Refines(p, raised)
  {
    hide MRun, RRun, MPath, RPath, Remade, Refines, ReadsFrom;
    RemadeReadIsWrong(p, raised, path, i, loc, r, u, k, n, x);
    var m, s := MPath(p, Ticking(), MEntry(p), path), RPath(p, raised, Ticking(), REntry(p), path);
    IsEmit(raised[u].body, n, x, loc);
    OutputsAre(Ticking(), p.blocks[u].insts, k, m, raised[u].body, n, s);
    ReadsDiffer(p, raised, path, u, |m.out| + UseCount(p.blocks[u].insts[..k]), x);
  }

  lemma IsEmit(body: seq<RInst>, n: nat, x: nat, loc: Location)
    requires ReadsFrom(body, n, x, loc)
    ensures n < |body| && body[n].Emit? && x < |body[n].vals|
  {
  }

  lemma LongerRun(p: Program, path: seq<Block>, u: Block)
    requires IsRun(p, path) && Edge(p.preds, Last(path), u)
    ensures var longer := path + [u]; IsRun(p, longer) && Front(longer) == path && Last(longer) == u
  {
  }

  lemma ReadsDiffer(p: Program, raised: seq<RBlock>, path: seq<Block>, u: Block, at: nat, x: nat)
    requires ValidProgram(p) && IsRun(p, path) && Mirrors(p, raised) && Edge(p.preds, Last(path), u) && u < |p.blocks|
    requires var m := MRun(Ticking(), p.blocks[u].insts, MPath(p, Ticking(), MEntry(p), path)).out;
             var s := RRun(Ticking(), raised[u].body, RPath(p, raised, Ticking(), REntry(p), path)).out;
             at < |m| && at < |s| && x < |m[at]| && m[at][x].Some? && x < |s[at]| && s[at][x] != m[at][x]
    ensures !Refines(p, raised)
  {
    hide MRun, RRun, IsRun;
    var longer := path + [u];
    LongerRun(p, path, u);
    Enters(p);
    var m, s := MPath(p, Ticking(), MEntry(p), longer).out, RPath(p, raised, Ticking(), REntry(p), longer).out;
    assert !Agree(m[at], s[at]);
    assert !OutAgree(m, s);
  }

  // ----- raising mirrors the machine's operations and reads, in every program

  ghost predicate SameCounts(s: Raising, t: Raising) {
    && |s.body| == |t.body|
    && forall b :: 0 <= b < |s.body| ==>
                   ComputeCount(t.body[b]) == ComputeCount(s.body[b]) && EmitCount(t.body[b]) == EmitCount(s.body[b])
  }

  lemma CountOneMore(body: seq<RInst>, i: RInst)
    ensures ComputeCount(body + [i]) == ComputeCount(body) + if i.Compute? then 1 else 0
    ensures EmitCount(body + [i]) == EmitCount(body) + if i.Emit? then 1 else 0
  {
    assert Front(body + [i]) == body;
  }

  lemma {:induction false} ReloadedCounts(body: seq<RInst>, v: Value, slot: Slot, u: Block, id: nat)
    ensures var code := Reloaded(body, v, slot, u, id).0;
            ComputeCount(code) == ComputeCount(body) && EmitCount(code) == EmitCount(body)
  {
    if body != [] {
      var i := Last(body);
      ReloadedCounts(Front(body), v, slot, u, id);
      var (front, n) := Reloaded(Front(body), v, slot, u, id);
      if v in Reads(i) {
        var a, b := Load(Inst(u, n), slot), Redirected(i, v, Inst(u, n));
        assert front + [a, b] == (front + [a]) + [b];
        CountOneMore(front, a);
        CountOneMore(front + [a], b);
      } else {
        CountOneMore(front, i);
      }
    }
  }

  lemma ReloadCounts(s: Raising, u: Block, v: Value, slot: Slot)
    requires u < |s.body| == |s.term|
    ensures SameCounts(s, WithTermReload(WithReloads(s, u, v, slot), u, v, slot))
  {
    ReloadedCounts(s.body[u], v, slot, u, s.nextId);
    var t := WithReloads(s, u, v, slot);
    CountOneMore(t.body[u], Load(Inst(u, t.nextId), slot));
  }

  lemma {:induction false} ReloadedUpToCounts(ll: Llvm, s: Raising, d: Block, v: Value, slot: Slot, n: nat)
    requires n <= |s.body| == |s.term|
    ensures SameCounts(s, ReloadedUpTo(ll, s, d, v, slot, n))
  {
    hide WithTermReload, WithReloads;
    if n > 0 {
      ReloadedUpToCounts(ll, s, d, v, slot, n - 1);
      ReloadCounts(ReloadedUpTo(ll, s, d, v, slot, n - 1), n - 1, v, slot);
    }
  }

  lemma PromotedCounts(ll: Llvm, s: Raising, d: Block, v: Value, slot: Slot)
    requires d < |s.body| == |s.term|
    ensures SameCounts(s, Promoted(ll, s, d, v, slot))
  {
    CountOneMore(s.body[d], Store(slot, v));
    ReloadedUpToCounts(ll, WithStore(s, d, slot, v), d, v, slot, |s.body|);
  }

  lemma {:induction false} PromotedUpToCounts(ll: Llvm, s: Raising, rds: seq<ReachingDef>, slot: Slot, n: nat)
    requires n <= |rds| && |s.body| == |s.term| && forall x :: x in rds ==> x.0 < |s.body|
    ensures SameCounts(s, PromotedUpTo(ll, s, rds, slot, n))
  {
    hide Promoted;
    if n > 0 {
      PromotedUpToCounts(ll, s, rds, slot, n - 1);
      if rds[n - 1].1.Some? {
        PromotedCounts(ll, PromotedUpTo(ll, s, rds, slot, n - 1), rds[n - 1].0, rds[n - 1].1.value, slot);
      }
    }
  }

  lemma AnsweredCounts(p: Program, ll: Llvm, s: Raising, r: Reg, b: Block, allPreds: bool)
    requires Shape(p, s) && b < |p.blocks|
    ensures SameCounts(s, Answered(p, ll, s, r, b, allPreds))
  {
    hide PromotedUpTo, Waiting;
    var rds := Defs(p, s, r, b, allPreds);
    var t := s.(nextSlot := s.nextSlot + 1);
    PromotedUpToCounts(ll, t, rds, s.nextSlot, |rds|);
    var t' := PromotedUpTo(ll, t, rds, s.nextSlot, |rds|);
    CountOneMore(t'.body[b], Load(Inst(b, t'.nextId), s.nextSlot));
  }

  lemma {:induction false} OperandsCounts(p: Program, ll: Llvm, s: Raising, regs: seq<Reg>, b: Block)
    requires Shape(p, s) && b < |p.blocks|
    ensures var o := Operands(p, ll, s, regs, b); o.Some? ==> SameCounts(s, o.value.0)
  {
    hide Answered, Answer;
    if regs != [] && Operands(p, ll, s, regs, b).Some? {
      OperandsCounts(p, ll, s, Front(regs), b);
      AnsweredCounts(p, ll, Operands(p, ll, s, Front(regs), b).value.0, Last(regs), b, false);
    }
  }

  /** So far, every block of the raised function has as many operations and reads as what is raised of the machine's. */
  ghost predicate Counts(p: Program, s: Raising)
    requires Shape(p, s)
  {
    forall b :: 0 <= b < |p.blocks| ==>
      && ComputeCount(s.body[b]) == OpCount(p.blocks[b].insts[..s.progress[b]])
      && EmitCount(s.body[b]) == UseCount(p.blocks[b].insts[..s.progress[b]])
  }

  lemma InstCounts(p: Program, ll: Llvm, s: Raising, b: Block)
    requires Shape(p, s) && b < |p.blocks| && s.progress[b] < |p.blocks[b].insts| && Counts(p, s)
    ensures var t := RaisedInst(p, ll, s, b); t.Some? ==> Counts(p, t.value)
  {
    hide Operands;
    var k, insts := s.progress[b], p.blocks[b].insts;
    assert Front(insts[..k + 1]) == insts[..k] && Last(insts[..k + 1]) == insts[k];
    OperandsCounts(p, ll, s, ReadRegs(insts[k]), b);
    var o := Operands(p, ll, s, ReadRegs(insts[k]), b);
    if o.Some? {
      var (t, vals) := o.value;
      match insts[k]
      case Op(_, op, _) => CountOneMore(t.body[b], Compute(Inst(b, t.nextId), op, vals));
      case Copy(_, _) =>
      case Use(_) => CountOneMore(t.body[b], Emit(vals));
    }
  }

  lemma {:induction false} InstsCounts(p: Program, ll: Llvm, s: Raising, b: Block, n: nat)
    requires Shape(p, s) && b < |p.blocks| && s.progress[b] == 0 && n <= |p.blocks[b].insts| && Counts(p, s)
    ensures var t := RaisedInsts(p, ll, s, b, n); t.Some? ==> Counts(p, t.value)
  {
    hide RaisedInst, Counts;
    if n > 0 && RaisedInsts(p, ll, s, b, n).Some? {
      InstsCounts(p, ll, s, b, n - 1);
      InstCounts(p, ll, RaisedInsts(p, ll, s, b, n - 1).value, b);
    }
  }

  lemma BlockCounts(p: Program, ll: Llvm, s: Raising, b: Block)
    requires Shape(p, s) && b < |p.blocks| && s.progress[b] == 0 && Counts(p, s)
    ensures var t := RaisedBlock(p, ll, s, b); t.Some? ==> Counts(p, t.value)
  {
    hide RaisedInsts;
    InstsCounts(p, ll, s.(started := s.started + {b}), b, |p.blocks[b].insts|);
  }

  lemma InitialCounts(p: Program, s: Raising)
    requires Initial(p, s)
    ensures Shape(p, s) && Counts(p, s)
  {
  }

  lemma {:induction false} BlocksCounts(p: Program, ll: Llvm, s: Raising, order: seq<Block>, n: nat)
    requires Initial(p, s) && BlockOrder(p, order) && n <= |order|
    ensures var t := RaisedBlocks(p, ll, s, order, n);
            t.Some? ==> Counts(p, t.value) && forall i :: 0 <= i < n ==> Finishes(p, t.value, order[i])
  {
    hide RaisedBlock, Counts, Initial;
    InitialCounts(p, s);
    if n > 0 && RaisedBlocks(p, ll, s, order, n).Some? {
      BlocksCounts(p, ll, s, order, n - 1);
      BlockCounts(p, ll, RaisedBlocks(p, ll, s, order, n - 1).value, order[n - 1]);
    }
  }

  ghost predicate Finishes(p: Program, s: Raising, b: Block)
    requires Shape(p, s)
  {
    b < |p.blocks| && s.progress[b] == |p.blocks[b].insts|
  }

  lemma {:induction false} TermsCounts(p: Program, ll: Llvm, s: Raising, order: seq<Block>, n: nat)
    requires Shape(p, s) && BlockOrder(p, order) && n <= |order|
    ensures var t := RaisedTerms(p, ll, s, order, n);
            t.Some? ==> SameCounts(s, t.value) && forall i :: 0 <= i < n ==>
                                                              order[i] < |p.blocks| && t.value.term[order[i]].Some?
  {
    hide Operands;
    if n > 0 && RaisedTerms(p, ll, s, order, n).Some? {
      TermsCounts(p, ll, s, order, n - 1);
      assert order[n - 1] in order;
      OperandsCounts(p, ll, RaisedTerms(p, ll, s, order, n - 1).value, p.blocks[order[n - 1]].term, order[n - 1]);
    }
  }

  lemma {:induction false} ResolvedCounts(p: Program, ll: Llvm, s: Raising, waiting: seq<(Reg, Block, Slot)>, n: nat)
    requires Shape(p, s) && n <= |waiting|
    ensures var t := ResolvedUpTo(p, ll, s, waiting, n); t.Some? ==> SameCounts(s, t.value)
  {
    hide Promoted;
    if n > 0 && ResolvedUpTo(p, ll, s, waiting, n).Some? {
      ResolvedCounts(p, ll, s, waiting, n - 1);
      var t, x := ResolvedUpTo(p, ll, s, waiting, n - 1).value, waiting[n - 1];
      PromotedCounts(ll, t, x.1, LocalVal(p, t, x.0, x.1).value, x.2);
    }
  }

  lemma CodeCounts(p: Program, ll: Llvm, s: Raising, order: seq<Block>)
    requires Initial(p, s) && BlockOrder(p, order)
    ensures var t := RaisedCode(p, ll, s, order);
            t.Some? ==> forall b: Block :: b < |p.blocks| ==> MirrorsBlock(p, t.value, b)
  {
    hide RaisedBlocks, RaisedTerms, Initial;
    if RaisedCode(p, ll, s, order).Some? {
      BlocksCounts(p, ll, s, order, |order|);
      var s1 := RaisedBlocks(p, ll, s, order, |order|).value;
      TermsCounts(p, ll, s1, order, |order|);
      forall b: Block | b < |p.blocks|
        ensures MirrorsBlock(p, RaisedTerms(p, ll, s1, order, |order|).value, b)
      {
        assert b in order;
        var i :| 0 <= i < |order| && order[i] == b;
        assert Finishes(p, s1, order[i]);
        assert p.blocks[b].insts[..s1.progress[b]] == p.blocks[b].insts;
      }
    }
  }

  ghost predicate MirrorsBlock(p: Program, s: Raising, b: Block)
    requires b < |p.blocks|
  {
    && b < |s.body| == |s.term| && s.term[b].Some?
    && ComputeCount(s.body[b]) == OpCount(p.blocks[b].insts) && EmitCount(s.body[b]) == UseCount(p.blocks[b].insts)
  }

  /** The raised function of any program, good or not, has the machine's operations and reads block by block. */
  lemma RaisedMirrors(p: Program, ll: Llvm, s: Raising, order: seq<Block>, t: Raising)
    requires Initial(p, s) && BlockOrder(p, order) && RaisedFunction(p, ll, s, order, t)
    ensures |t.body| == |t.term| && Mirrors(p, Raised(t))
  {
    hide RaisedCode, ResolvedUpTo, Initial, ComputeCount, OpCount, EmitCount, UseCount;
    CodeCounts(p, ll, s, order);
    var code := RaisedCode(p, ll, s, order).value;
    var waiting :| Enumerates(waiting, code.toPromote) && ResolvedUpTo(p, ll, code, waiting, |waiting|) == Some(t);
    ResolvedCounts(p, ll, code, waiting, |waiting|);
    assert SameShape(p, code, t);
    forall b | 0 <= b < |p.blocks|
      ensures MirrorsBlock(p, t, b) && Raised(t)[b] == RBlock(t.body[b], t.term[b])
    {
      assert MirrorsBlock(p, code, b);
    }
  }

  // ----- good programs

  /** No value that is taken directly is made in the block that takes it, or in a block that the search walked through
      and that the definition flows into: there a loop could make the value anew while the register keeps the old
      one. */
  ghost predicate Undisturbed(p: Program, queries: set<Query>) {
    forall q :: q in queries && q.loc.Direct? && q.loc.v.Inst? ==>
      && q.loc.v.block != q.block
      && (q.loc.v.block in q.through ==> forall d :: d in q.defs ==> !Carries(p, q.reg, d, q.loc.v.block))
  }

  /** In a good program no lookup is disturbed. */
  lemma GoodIsUndisturbed(p: Program, s: Raising)
    requires Inv(p, s)
    ensures Undisturbed(p, s.queries)
  {
    hide SimOk, UsesOk, TermsOk, Good, ProgressOk, BodiesOk, ValuesOk, DefsOk, NarrowOk, SlotOk, Carries, ReadIn,
         Disturbs;
    forall q | q in s.queries && q.loc.Direct? && q.loc.v.Inst?
      ensures q.loc.v.block != q.block
      ensures q.loc.v.block in q.through ==> forall d :: d in q.defs ==> !Carries(p, q.reg, d, q.loc.v.block)
    {
      assert QueryOk(p, s, q);
      var x :| DirectOk(p, s, q, x, q.loc.v);
      if q.loc.v.block in q.through && Carries(p, q.reg, x, q.loc.v.block) {
        ThroughDisturbs(p, s, q, x, q.loc.v.block);
      }
    }
  }
}
