/** Replacing the uses of a promoted value by loads from its slot keeps the invariant. */
module RaisingReload {
  import opened Wrappers
  import opened ControlFlow
  import opened ReachingDefinitions
  import opened RaisedSemantics
  import opened RaisingFunction
  import opened GoodPrograms
  import opened RaisingInvariant
  import opened RaisingCorrect
  import opened RaisingFrames
  import opened RaisingBorrows

  // ----- what a body with loads in front of the uses does

  /** The state from which the old code does what the new code does: the value is what the slot holds. */
  function Swapped(rs: RState, v: Value, slot: Slot): RState {
    rs.(env := Put(rs.env, v, Get(rs.slots, slot)))
  }

  ghost predicate FreshFrom(w: Value, u: Block, id: nat) {
    w.Inst? && w.block == u && w.id >= id
  }

  /** Two states that differ at most in `v` and in the values named from `id` on. */
  ghost predicate AgreeBut(t: RState, t2: RState, v: Value, u: Block, id: nat) {
    && t.slots == t2.slots && t.out == t2.out && t.tick == t2.tick
    && forall w :: w != v && !FreshFrom(w, u, id) ==> Get(t.env, w) == Get(t2.env, w)
  }

  /** No use of `v` comes after a store into the slot. */
  ghost predicate UsesFirst(body: seq<RInst>, v: Value, slot: Slot) {
    forall i, j :: 0 <= i < j < |body| && body[i].Store? && body[i].slot == slot ==> v !in Reads(body[j])
  }

  ghost predicate Settled(body: seq<RInst>, v: Value, u: Block, id: nat) {
    && (forall i :: i in body ==> RTarget(i) != Some(v))
    && (forall i, w :: i in body && w in Reads(i) ==> !FreshFrom(w, u, id))
  }

  lemma SameReads(e: map<Value, int>, e2: map<Value, int>, vals: seq<Value>, vals2: seq<Value>)
    requires |vals| == |vals2| && forall i :: 0 <= i < |vals| ==> Get(e, vals[i]) == Get(e2, vals2[i])
    ensures GetAll(e, vals) == GetAll(e2, vals2)
  {
  }

  lemma OtherStep(ev: Eval, i: RInst, t: RState, t2: RState, v: Value, u: Block, id: nat)
    requires AgreeBut(t, t2, v, u, id)
    requires v !in Reads(i) && forall w :: w in Reads(i) ==> !FreshFrom(w, u, id)
    ensures AgreeBut(RStep(ev, i, t), RStep(ev, i, t2), v, u, id)
  {
    assert forall k :: 0 <= k < |Reads(i)| ==> Reads(i)[k] in Reads(i);
    SameReads(t.env, t2.env, Reads(i), Reads(i));
    if i.Store? {
      assert i.v in Reads(i);
    }
  }

  lemma SameStep(ev: Eval, i: RInst, t: RState, t2: RState, v: Value, w: Value, u: Block, id: nat)
    requires AgreeBut(t, t2, v, u, id)
    requires GetAll(t.env, Reads(Redirected(i, v, w))) == GetAll(t2.env, Reads(i))
    ensures AgreeBut(RStep(ev, Redirected(i, v, w), t), RStep(ev, i, t2), v, u, id)
  {
    match i
    case Load(_, _) =>
    case Compute(_, _, _) =>
    case Store(_, x) =>
      var y := if x == v then w else x;
      assert Get(t.env, y) == GetAll(t.env, [y])[0] == GetAll(t2.env, [x])[0] == Get(t2.env, x);
    case Emit(_) =>
  }

  lemma UsingStep(ev: Eval, i: RInst, t: RState, t2: RState, v: Value, slot: Slot, u: Block, id: nat, n: nat)
    requires AgreeBut(t, t2, v, u, id) && id <= n && !FreshFrom(v, u, id)
    requires forall w :: w in Reads(i) ==> !FreshFrom(w, u, id)
    requires Get(t.slots, slot) == Get(t2.env, v)
    ensures var w := Inst(u, n);
            AgreeBut(RStep(ev, Redirected(i, v, w), RStep(ev, Load(w, slot), t)), RStep(ev, i, t2), v, u, id)
  {
    var w := Inst(u, n);
    var t1 := RStep(ev, Load(w, slot), t);
    var was, now := Reads(i), Reads(Redirected(i, v, w));
    assert forall k :: 0 <= k < |was| ==> was[k] in was;
    assert |was| == |now| && forall k :: 0 <= k < |was| ==> now[k] == if was[k] == v then w else was[k];
    SameReads(t1.env, t2.env, now, was);
    SameStep(ev, i, t1, t2, v, w, u, id);
  }

  lemma NothingStored(body: seq<RInst>, v: Value, slot: Slot)
    requires body != [] && UsesFirst(body, v, slot) && v in Reads(Last(body))
    ensures !StoresInto(Front(body), slot)
  {
    assert forall k :: 0 <= k < |body| - 1 ==> Front(body)[k] == body[k];
    assert forall k :: 0 <= k < |body| - 1 && body[k].Store? ==> body[k].slot != slot;
  }

  /** The new code does what the old code does, from the state in which the value is what the slot holds. */
  lemma {:induction false} ReloadedRuns(ev: Eval, body: seq<RInst>, v: Value, slot: Slot, u: Block, id: nat, rs: RState)
    requires UsesFirst(body, v, slot) && Settled(body, v, u, id) && !FreshFrom(v, u, id)
    ensures AgreeBut(RRun(ev, Reloaded(body, v, slot, u, id).0, rs), RRun(ev, body, Swapped(rs, v, slot)), v, u, id)
  {
    if body != [] {
      var i, front := Last(body), Front(body);
      assert i in body && forall j :: j in front ==> j in body;
      ReloadedRuns(ev, front, v, slot, u, id, rs);
      var (code, n) := Reloaded(front, v, slot, u, id);
      var t, t2 := RRun(ev, code, rs), RRun(ev, front, Swapped(rs, v, slot));
      if v in Reads(i) {
        var w := Inst(u, n);
        var a, b := Load(w, slot), Redirected(i, v, w);
        NothingStored(body, v, slot);
        SlotFrame(ev, front, Swapped(rs, v, slot), slot);
        ValueFrame(ev, front, Swapped(rs, v, slot), v);
        UsingStep(ev, i, t, t2, v, slot, u, id, n);
        assert Front(code + [a, b]) == code + [a] && Front(code + [a]) == code;
        assert Last(code + [a, b]) == b && Last(code + [a]) == a;
      } else {
        OtherStep(ev, i, t, t2, v, u, id);
        assert Front(code + [i]) == code && Last(code + [i]) == i;
      }
    }
  }

  /** What is in the new code: the old instructions, redirected, and the loads. */
  lemma {:induction false} ReloadedHas(body: seq<RInst>, v: Value, slot: Slot, u: Block, id: nat, j: RInst)
    requires j in Reloaded(body, v, slot, u, id).0
    ensures (exists i, n: nat :: i in body && v in Reads(i) && j == Redirected(i, v, Inst(u, n))
                                 && id <= n < Reloaded(body, v, slot, u, id).1)
            || (j in body && v !in Reads(j))
            || (j.Load? && j.v.Inst? && j.v.block == u && id <= j.v.id < Reloaded(body, v, slot, u, id).1
                && j.slot == slot)
  {
    var i, front := Last(body), Front(body);
    assert i in body && forall k :: k in front ==> k in body;
    var (code, n) := Reloaded(front, v, slot, u, id);
    if j in code {
      ReloadedHas(front, v, slot, u, id, j);
    } else if v in Reads(i) && j == Redirected(i, v, Inst(u, n)) {
      assert i in body && v in Reads(i) && j == Redirected(i, v, Inst(u, n)) && id <= n < n + 1;
    }
  }

  lemma AppendLast(code: seq<RInst>, more: seq<RInst>)
    requires StoresLast(code) && forall i, j :: 0 <= i < j < |more| && more[i].Store? ==>
                                                more[j].Store? || more[j].Load?
    requires (forall j :: j in more ==> j.Store? || j.Load?) || (forall j :: j in code ==> !j.Store?)
    ensures StoresLast(code + more)
  {
    var all := code + more;
    forall i, j | 0 <= i < j < |all| && all[i].Store?
      ensures all[j].Store? || all[j].Load?
    {
      if j >= |code| {
        assert all[j] == more[j - |code|] && all[j] in more;
        assert i < |code| ==> all[i] in code;
      }
    }
  }

  lemma FrontLast(body: seq<RInst>)
    requires StoresLast(body) && body != []
    ensures StoresLast(Front(body))
    ensures !Last(body).Store? && !Last(body).Load? ==> forall j :: j in Front(body) ==> !j.Store?
  {
    assert forall k :: 0 <= k < |body| - 1 ==> Front(body)[k] == body[k];
  }

  lemma {:induction false} ReloadedStoresLast(body: seq<RInst>, v: Value, slot: Slot, u: Block, id: nat)
    requires StoresLast(body)
    requires forall i :: i in body && i.Store? ==> i.v != v
    ensures StoresLast(Reloaded(body, v, slot, u, id).0)
    ensures forall j :: j in Reloaded(body, v, slot, u, id).0 && j.Store? ==> j in body
  {
    hide StoresLast;
    if body == [] {
      assert StoresLast([]) by { AppendsNothing(); }
    } else {
      var i, front := Last(body), Front(body);
      assert i in body && forall j :: j in front ==> j in body;
      FrontLast(body);
      ReloadedStoresLast(front, v, slot, u, id);
      var (code, n) := Reloaded(front, v, slot, u, id);
      var more := if v in Reads(i) then [Load(Inst(u, n), slot), Redirected(i, v, Inst(u, n))] else [i];
      AppendLast(code, more);
    }
  }

  lemma AppendsNothing()
    ensures StoresLast([])
  {
  }

  // ----- the invariant

  /** `v`, made in block `d` as the value of `r`, is stored in the slot, which is for `r` only. */
  ghost predicate Promoting(p: Program, s: Raising, r: Reg, d: Block, v: Value, slot: Slot) {
    && Inv(p, s)
    && v.Inst? && v.block == d && Done(p, s, d) && LocalVal(p, s, r, d) == Some(v)
    && MayPromote(p, r, d) && !IsLoaded(s.body, v)
    && slot < s.nextSlot && Stored(s, d, slot, v)
    && (forall q :: q in s.queries && q.loc == InSlot(slot) ==> q.reg == r)
    && (forall b :: 0 <= b < |s.body| && StoresInto(s.body[b], slot) ==> Defines(p.args, s.defs, r, b))
  }

  /** Another block may keep the value, but does not store it. */
  lemma NotStoredElsewhere(p: Program, s: Raising, r: Reg, d: Block, v: Value, slot: Slot, x: Reg, u: Block)
    requires Promoting(p, s, r, d, v, slot) && u != d && Done(p, s, u) && MayPromote(p, x, u)
    ensures !Keeps(s, x, u, v)
  {
    hide SimOk, UsesOk, TermsOk, DefsOk, BodiesOk, QueriesOk, ValuesOk, Stored, ProgressOk, Good, MayPromote, Disturbs,
         IsLoaded;
    if Keeps(s, x, u, v) {
      KeptIsSafe(p, s, x, u, v);
    }
  }

  /** What is promoted is read elsewhere in its own register only, so all direct answers with this value are for
      that. */
  lemma DirectIsFor(p: Program, s: Raising, r: Reg, d: Block, v: Value, slot: Slot, q: Query)
    requires Promoting(p, s, r, d, v, slot) && q in s.queries && q.loc == Direct(v)
    ensures q.reg == r && q.defs == {d}
  {
    hide SimOk, UsesOk, TermsOk, DefsOk, BodiesOk, NarrowOk, SlotOk, Stored, ProgressOk, CopiesSafe, Apart, MayPromote,
         IsLoaded, ReadIn, Carries, Disturbs, SharesOk;
    assert QueryOk(p, s, q);
    var x :| DirectOk(p, s, q, x, v);
    assert Keeps(s, r, d, v) && Keeps(s, q.reg, x, v);
    assert Wanted(p, q.reg, x) by { assert x in q.defs; }
    assert BorrowsOk(p, s, x);
    if x == d && q.reg != r {
      assert SharesOk(p, s, d);
      OwnIsApart(p, s, q.reg, r, d, v);
    }
  }

  /** A block that starts with the slot holding the register starts right for the old code, too. */
  lemma SwapEntry(p: Program, s: Raising, u: Block, v: Value, slot: Slot, queries: set<Query>, ms: MState, rs: RState)
    requires v.Inst?
    requires s.queries <= queries && ReloadedQueries(s.queries, u, v, slot) <= queries
    requires BlockEntry(p, queries, u, ms, rs)
    ensures BlockEntry(p, s.queries, u, ms, Swapped(rs, v, slot))
  {
    var rs2 := Swapped(rs, v, slot);
    forall q | q in s.queries && q.block == u && q.reg in ms.regs
      ensures Lookup(rs2, q.loc) == Some(ms.regs[q.reg])
    {
      if q.loc == Direct(v) {
        assert q.(loc := InSlot(slot)) in ReloadedQueries(s.queries, u, v, slot);
      }
    }
  }

  lemma ReloadSettled(p: Program, s: Raising, u: Block, v: Value, slot: Slot)
    requires Shape(p, s) && BodiesOk(p, s) && u < |p.blocks| && v.Inst? && v.block != u
    ensures UsesFirst(s.body[u], v, slot) && Settled(s.body[u], v, u, s.nextId) && !FreshFrom(v, u, s.nextId)
    ensures forall i :: i in s.body[u] && i.Store? ==> i.v != v
  {
    var body := s.body[u];
    assert StoresLast(body);
    forall i | i in body
      ensures RTarget(i) != Some(v) && (i.Store? ==> i.v != v)
              && forall w :: w in Reads(i) ==> !FreshFrom(w, u, s.nextId)
    {
      assert BodyInstOk(s, u, i);
    }
    forall i, j | 0 <= i < j < |body| && body[i].Store? && body[i].slot == slot
      ensures v !in Reads(body[j])
    {
      assert body[j] in body;
    }
  }

  /** The state with the uses in block `u` replaced. */
  ghost predicate Reloads(p: Program, s: Raising, s': Raising, u: Block, v: Value, slot: Slot) {
    && Shape(p, s) && BodiesOk(p, s) && u < |p.blocks| && v.Inst? && v.block != u
    && s' == WithReloads(s, u, v, slot)
  }

  lemma ReloadExec(p: Program, s: Raising, s': Raising, u: Block, v: Value, slot: Slot, ev: Eval, rs: RState)
    requires Reloads(p, s, s', u, v, slot)
    ensures AgreeBut(ExecR(s', ev, u, rs), ExecR(s, ev, u, Swapped(rs, v, slot)), v, u, s.nextId)
  {
    ReloadSettled(p, s, u, v, slot);
    ReloadedRuns(ev, s.body[u], v, slot, u, s.nextId, rs);
  }

  lemma ReloadKeepsHolds(p: Program, s: Raising, s': Raising, u: Block, v: Value, slot: Slot, r: Reg, w: Value)
    requires Reloads(p, s, s', u, v, slot) && Shape(p, s') && Holds(p, s, u, r, w)
    ensures Holds(p, s', u, r, w)
  {
    ReloadSettled(p, s, u, v, slot);
    forall ev: Eval, ms: MState, rs: RState
      ensures HoldsAt(p, s', u, r, w, ev, ms, rs)
    {
      hide UsesFirst, BodiesOk, ReloadedQueries, Swapped, Settled;
      if BlockEntry(p, s'.queries, u, ms, rs) {
        if w == v {
          assert HoldsAt(p, s, u, r, w, ev, ms, rs);
          ValueFrameSettled(ev, s.body[u], v, u, s.nextId, rs);
          ReloadKeepsValue(p, s, s', u, v, slot, ev, rs);
        } else {
          SwapEntry(p, s, u, v, slot, s'.queries, ms, rs);
          assert HoldsAt(p, s, u, r, w, ev, ms, Swapped(rs, v, slot));
          ReloadExec(p, s, s', u, v, slot, ev, rs);
        }
      }
    }
  }

  lemma ValueFrameSettled(ev: Eval, body: seq<RInst>, v: Value, u: Block, id: nat, rs: RState)
    requires Settled(body, v, u, id)
    ensures Get(RRun(ev, body, rs).env, v) == Get(rs.env, v)
  {
    ValueFrame(ev, body, rs, v);
  }

  lemma ReloadKeepsValue(p: Program, s: Raising, s': Raising, u: Block, v: Value, slot: Slot, ev: Eval, rs: RState)
    requires Reloads(p, s, s', u, v, slot)
    ensures Get(ExecR(s', ev, u, rs).env, v) == Get(rs.env, v)
  {
    ReloadSettled(p, s, u, v, slot);
    forall j | j in s'.body[u]
      ensures RTarget(j) != Some(v)
    {
      ReloadedHas(s.body[u], v, slot, u, s.nextId, j);
    }
    ValueFrame(ev, s'.body[u], rs, v);
  }

  lemma ReloadKeepsOut(p: Program, s: Raising, s': Raising, u: Block, v: Value, slot: Slot)
    requires Reloads(p, s, s', u, v, slot) && Shape(p, s') && OutHolds(p, s, u)
    ensures OutHolds(p, s', u)
  {
    forall ev: Eval, ms: MState, rs: RState
      ensures OutAt(p, s', u, ev, ms, rs)
    {
      hide BodiesOk, ReloadedQueries, Swapped;
      if BlockEntry(p, s'.queries, u, ms, rs) {
        SwapEntry(p, s, u, v, slot, s'.queries, ms, rs);
        assert OutAt(p, s, u, ev, ms, Swapped(rs, v, slot));
        ReloadExec(p, s, s', u, v, slot, ev, rs);
      }
    }
  }

  lemma ReloadKeepsStored(p: Program, s: Raising, s': Raising, u: Block, v: Value, slot: Slot, other: Slot, w: Value)
    requires Reloads(p, s, s', u, v, slot) && Stored(s, u, other, w) && w != v
    ensures Stored(s', u, other, w)
  {
    forall ev: Eval, rs: RState
      ensures StoredAt(s', u, other, w, ev, rs)
    {
      hide BodiesOk, Swapped;
      assert StoredAt(s, u, other, w, ev, Swapped(rs, v, slot));
      ReloadExec(p, s, s', u, v, slot, ev, rs);
    }
  }

  /** What replacing uses leaves alone: nothing else is known of any register or slot, and the only new lookups are into
      the slot, each with a single definition. */
  ghost predicate Replaces(p: Program, s: Raising, s': Raising, r: Reg, slot: Slot) {
    && SameDefs(p, s, s') && s'.toPromote == s.toPromote && s'.nextSlot == s.nextSlot
    && (forall c: Block, x, w :: c < |p.blocks| && Holds(p, s, c, x, w) ==> Holds(p, s', c, x, w))
    && (forall c: Block, x: Reg, sl: Slot :: MayPromote(p, x, c) && StoredFor(p, s, x, c, sl) ==>
                                             StoredFor(p, s', x, c, sl))
    && (forall c: Block, sl: Slot :: c < |p.blocks| && StoresInto(s'.body[c], sl) ==> StoresInto(s.body[c], sl))
    && (forall q :: q in s'.queries && q !in s.queries ==> q.loc == InSlot(slot) && q.reg == r && Narrow(q))
  }

  /** Block `b` leaves the value recorded for `r` in the slot. */
  ghost predicate StoredFor(p: Program, s: Raising, r: Reg, b: Block, slot: Slot) {
    && Shape(p, s) && Done(p, s, b)
    && LocalVal(p, s, r, b).Some? && Stored(s, b, slot, LocalVal(p, s, r, b).value)
  }

  lemma ReplacesTwice(p: Program, s: Raising, s1: Raising, s2: Raising, r: Reg, slot: Slot)
    requires Replaces(p, s, s1, r, slot) && Replaces(p, s1, s2, r, slot)
    ensures Replaces(p, s, s2, r, slot)
  {
    hide Holds, Stored, StoresInto, Narrow;
  }

  lemma ReloadsBodies(p: Program, s: Raising, s': Raising, u: Block, v: Value, slot: Slot)
    requires Reloads(p, s, s', u, v, slot) && SameDefs(p, s, s')
    ensures BodiesOk(p, s')
    ensures forall sl :: StoresInto(s'.body[u], sl) ==> StoresInto(s.body[u], sl)
  {
    hide UsesFirst, StoresLast, Settled;
    ReloadSettled(p, s, u, v, slot);
    ReloadedStoresLast(s.body[u], v, slot, u, s.nextId);
    assert forall c :: Done(p, s', c) <==> Done(p, s, c);
    forall c, j | 0 <= c < |s'.body| && j in s'.body[c]
      ensures BodyInstOk(s', c, j)
    {
      if c == u {
        ReloadedInstOk(p, s, s', u, v, slot, j);
      } else {
        assert BodyInstOk(s, c, j);
      }
    }
  }

  lemma ReloadedInstOk(p: Program, s: Raising, s': Raising, u: Block, v: Value, slot: Slot, j: RInst)
    requires Reloads(p, s, s', u, v, slot) && SameDefs(p, s, s') && j in s'.body[u]
    ensures BodyInstOk(s', u, j)
    ensures forall w :: w in Reads(j) ==>
                        (w.Inst? && w.block == u) || exists i :: i in s.body[u] && w in Reads(i) && w != v
  {
    hide StoresLast, UsesFirst, Settled, Reloaded, ReloadedQueries;
    ReloadSettled(p, s, u, v, slot);
    ReloadedHas(s.body[u], v, slot, u, s.nextId, j);
    if j in s.body[u] && v !in Reads(j) {
      assert BodyInstOk(s, u, j);
    } else if i, n: nat :| i in s.body[u] && v in Reads(i) && j == Redirected(i, v, Inst(u, n))
                           && s.nextId <= n < s'.nextId {
      assert BodyInstOk(s, u, i);
      RedirectedInstOk(s, s', u, i, v, n);
    }
  }

  lemma RedirectedInstOk(s: Raising, s': Raising, u: Block, i: RInst, v: Value, n: nat)
    requires BodyInstOk(s, u, i) && s.nextId <= n < s'.nextId && s.nextSlot <= s'.nextSlot
    ensures BodyInstOk(s', u, Redirected(i, v, Inst(u, n)))
    ensures forall w :: w in Reads(Redirected(i, v, Inst(u, n))) ==> w == Inst(u, n) || (w in Reads(i) && w != v)
  {
    var j := Redirected(i, v, Inst(u, n));
    forall w | w in Reads(j)
      ensures w == Inst(u, n) || (w in Reads(i) && w != v)
    {
      var k :| 0 <= k < |Reads(j)| && Reads(j)[k] == w;
      assert Reads(i)[k] in Reads(i) && w == if Reads(i)[k] == v then Inst(u, n) else Reads(i)[k];
    }
  }

  lemma ReloadsUses(p: Program, s: Raising, s': Raising, u: Block, v: Value, slot: Slot)
    requires Reloads(p, s, s', u, v, slot) && SameDefs(p, s, s') && UsesOk(p, s)
    ensures UsesOk(p, s')
  {
    hide BodiesOk, BodyInstOk;
    forall c, j, w | 0 <= c < |s'.body| && j in s'.body[c] && w in Reads(j)
      ensures Sourced(s', c, w)
    {
      if c == u {
        ReloadedInstOk(p, s, s', u, v, slot, j);
        if !(w.Inst? && w.block == u) {
          var i :| i in s.body[u] && w in Reads(i) && w != v;
          assert Sourced(s, u, w);
        }
      } else {
        assert Sourced(s, c, w);
      }
      KeepSourced(p, s, s', c, w);
    }
    forall c, w | 0 <= c < |s'.body| && s'.term[c].Some? && w in s'.term[c].value
      ensures SourcedAtEnd(p, s', c, w)
    {
      assert SourcedAtEnd(p, s, c, w);
      KeepSourced(p, s, s', c, w);
    }
  }

  /** Every register and output is as right as before. */
  lemma ReloadsHolds(p: Program, s: Raising, s': Raising, u: Block, v: Value, slot: Slot, c: Block, r: Reg, w: Value)
    requires Reloads(p, s, s', u, v, slot) && SameDefs(p, s, s') && c < |p.blocks| && Holds(p, s, c, r, w)
    ensures Holds(p, s', c, r, w)
  {
    if c == u {
      ReloadKeepsHolds(p, s, s', u, v, slot, r, w);
    } else {
      KeepHolds(p, s, s', c, Store(0, Arg(0)), r, w);
    }
  }

  lemma ReloadsSim(p: Program, s: Raising, s': Raising, u: Block, v: Value, slot: Slot)
    requires Reloads(p, s, s', u, v, slot) && SameDefs(p, s, s') && s'.term == s.term && SimOk(p, s) && TermsOk(p, s)
    ensures SimOk(p, s') && TermsOk(p, s')
  {
    hide BodiesOk, Holds, OutHolds, WithReloads;
    forall c | 0 <= c < |p.blocks|
      ensures OutHolds(p, s', c)
    {
      if c == u {
        ReloadKeepsOut(p, s, s', u, v, slot);
      } else {
        ElsewhereOut(p, s, s', u, v, slot, c);
      }
    }
    forall r: Reg, c: Block | c < |p.blocks| && LocalVal(p, s', r, c).Some?
      ensures Holds(p, s', c, r, LocalVal(p, s', r, c).value)
    {
      ReloadsHolds(p, s, s', u, v, slot, c, r, LocalVal(p, s, r, c).value);
    }
    forall c | 0 <= c < |p.blocks|
      ensures TermOk(p, s', c)
    {
      assert TermOk(p, s, c);
      if s.term[c].Some? {
        forall k | 0 <= k < |p.blocks[c].term|
          ensures Holds(p, s', c, p.blocks[c].term[k], s'.term[c].value[k])
        {
          ReloadsHolds(p, s, s', u, v, slot, c, p.blocks[c].term[k], s.term[c].value[k]);
        }
      }
    }
  }

  lemma ElsewhereOut(p: Program, s: Raising, s': Raising, u: Block, v: Value, slot: Slot, c: Block)
    requires Reloads(p, s, s', u, v, slot) && SameDefs(p, s, s') && c < |p.blocks| && c != u && OutHolds(p, s, c)
    ensures OutHolds(p, s', c)
  {
    KeepOut(p, s, s', c, Store(0, Arg(0)));
  }

  lemma ReloadsStored(p: Program, s: Raising, s': Raising, u: Block, v: Value, slot: Slot, c: Block, r: Reg, sl: Slot)
    requires Reloads(p, s, s', u, v, slot) && SameDefs(p, s, s') && StoredFor(p, s, r, c, sl)
    requires c == u ==> !Keeps(s, r, u, v)
    ensures StoredFor(p, s', r, c, sl)
  {
    hide BodiesOk;
    var w := LocalVal(p, s, r, c).value;
    if c == u {
      ReloadKeepsStored(p, s, s', u, v, slot, sl, w);
    } else {
      KeepStored(s, s', c, Store(sl + 1, Arg(0)), sl, w);
    }
  }

  /** A lookup whose register is stored wherever the slot is stored into. */
  lemma ReloadedSlotOk(p: Program, s: Raising, s': Raising, r: Reg, d: Block, v: Value, slot: Slot, q: Query)
    requires Promoting(p, s, r, d, v, slot) && Replaces(p, s, s', r, slot)
    requires q in s.queries && q.loc == Direct(v)
    ensures QueryOk(p, s', q.(loc := InSlot(slot)))
  {
    hide SimOk, UsesOk, TermsOk, BodiesOk, ValuesOk, DefsOk, ProgressOk, Good, Stored, Holds, StoresInto, MayPromote,
         Sets;
    DirectIsFor(p, s, r, d, v, slot, q);
    assert QueryOk(p, s, q);
    assert Narrow(q);
    SameDefsGrows(p, s, s');
    var q2 := q.(loc := InSlot(slot));
    assert QueryCloses(p, s', q2) && NarrowOk(p, s', q2);
    assert StoredFor(p, s, r, d, slot);
    forall b | (r, b, slot) in s'.toPromote
      ensures b !in q2.through
    {
      assert Pending(p, s, r, b, slot);
      assert Defines(p.args, s.defs, r, b);
    }
  }

  lemma ReloadsQueries(p: Program, s: Raising, s': Raising, r: Reg, d: Block, v: Value, slot: Slot)
    requires Promoting(p, s, r, d, v, slot) && Replaces(p, s, s', r, slot)
    requires forall q :: q in s'.queries && q !in s.queries ==>
                         exists o :: o in s.queries && o.loc == Direct(v) && q == o.(loc := InSlot(slot))
    ensures QueriesOk(p, s')
  {
    hide SimOk, UsesOk, TermsOk, BodiesOk, ValuesOk, DefsOk, ProgressOk, Good, Stored, Holds, StoresInto, NarrowOk,
         MayPromote;
    SameDefsGrows(p, s, s');
    forall q | q in s'.queries
      ensures QueryOk(p, s', q)
    {
      if q in s.queries {
        assert QueryOk(p, s, q);
        if q.loc.InSlot? {
          SlotStays(p, s, s', r, slot, q, q.loc.slot);
        }
        KeepQuery(p, s, s', q);
      } else {
        var o :| o in s.queries && o.loc == Direct(v) && q == o.(loc := InSlot(slot));
        ReloadedSlotOk(p, s, s', r, d, v, slot, o);
      }
    }
    KeepPending(p, s, s');
  }

  lemma SlotStays(p: Program, s: Raising, s': Raising, r: Reg, slot: Slot, q: Query, other: Slot)
    requires Replaces(p, s, s', r, slot) && (forall d :: d in q.defs ==> d < |p.blocks|) && SlotOk(p, s, q, other)
    ensures SlotOk(p, s', q, other)
  {
    hide Holds, Stored, StoresInto, Narrow;
    assert forall c :: Done(p, s', c) <==> Done(p, s, c);
    forall d | d in q.defs
      ensures Provided(p, s', q.reg, d, other)
    {
      assert Provided(p, s, q.reg, d, other);
      assert StoredFor(p, s, q.reg, d, other) ==> StoredFor(p, s', q.reg, d, other);
    }
  }

  lemma {:induction false} ReloadedLoads(body: seq<RInst>, v: Value, slot: Slot, u: Block, id: nat, i: RInst)
    requires i in body && i.Load?
    ensures i in Reloaded(body, v, slot, u, id).0
  {
    if i in Front(body) {
      ReloadedLoads(Front(body), v, slot, u, id, i);
    }
  }

  lemma ReloadLoads(s: Raising, u: Block, v: Value, slot: Slot)
    requires u < |s.body|
    ensures LoadsStay(s, WithReloads(s, u, v, slot))
  {
    hide Reloaded;
    var s' := WithReloads(s, u, v, slot);
    var x, y := s.body[u], s'.body[u];
    forall w
      ensures IsLoaded(s.body, w) ==> IsLoaded(s'.body, w)
      ensures Named(s, w) && IsLoaded(s'.body, w) ==> IsLoaded(s.body, w)
    {
      if IsLoaded(s.body, w) && w.block == u {
        var k :| 0 <= k < |x| && x[k].Load? && x[k].v == w;
        ReloadedLoads(x, v, slot, u, s.nextId, x[k]);
      }
      if Named(s, w) && IsLoaded(s'.body, w) && w.block == u {
        var k :| 0 <= k < |y| && y[k].Load? && y[k].v == w;
        ReloadedHas(x, v, slot, u, s.nextId, y[k]);
      }
    }
  }

  lemma ReloadsReplaces(p: Program, s: Raising, u: Block, r: Reg, d: Block, v: Value, slot: Slot)
    requires Promoting(p, s, r, d, v, slot) && u < |p.blocks| && u != d
    ensures Reloads(p, s, WithReloads(s, u, v, slot), u, v, slot) && Replaces(p, s, WithReloads(s, u, v, slot), r, slot)
  {
    hide SimOk, UsesOk, TermsOk, ValuesOk, ProgressOk, Good, Stored, Holds, StoresInto, BodiesOk, DefsOk, QueryCloses,
         NarrowOk, SlotOk;
    var s' := WithReloads(s, u, v, slot);
    ReloadLoads(s, u, v, slot);
    assert SameDefs(p, s, s') && Reloads(p, s, s', u, v, slot);
    ReloadsBodies(p, s, s', u, v, slot);
    forall c: Block, x, w | c < |p.blocks| && Holds(p, s, c, x, w)
      ensures Holds(p, s', c, x, w)
    {
      ReloadsHolds(p, s, s', u, v, slot, c, x, w);
    }
    forall c: Block, x: Reg, sl: Slot | MayPromote(p, x, c) && StoredFor(p, s, x, c, sl)
      ensures StoredFor(p, s', x, c, sl)
    {
      if c == u {
        NotStoredElsewhere(p, s, r, d, v, slot, x, u);
      }
      ReloadsStored(p, s, s', u, v, slot, c, x, sl);
    }
    forall q | q in s'.queries && q !in s.queries
      ensures q.loc == InSlot(slot) && q.reg == r && Narrow(q)
    {
      var o :| o in s.queries && o.block == u && o.loc == Direct(v) && q == o.(loc := InSlot(slot));
      DirectIsFor(p, s, r, d, v, slot, o);
    }
  }

  lemma StillPromoting(p: Program, s: Raising, s': Raising, r: Reg, d: Block, v: Value, slot: Slot)
    requires Promoting(p, s, r, d, v, slot) && Replaces(p, s, s', r, slot) && Inv(p, s')
    ensures Promoting(p, s', r, d, v, slot)
  {
    hide Inv, Holds, Stored, StoresInto, MayPromote, Narrow;
    SameDefsGrows(p, s, s');
    assert Shape(p, s) && d < |p.blocks|;
    assert StoredFor(p, s, r, d, slot);
    assert Named(s, v) by { StoredIsNamed(s, d, slot, v); }
  }

  lemma StoredIsNamed(s: Raising, b: Block, slot: Slot, v: Value)
    requires b < |s.body| && Stored(s, b, slot, v)
    ensures Named(s, v)
  {
  }

  lemma ReloadsKeepInv(p: Program, s: Raising, u: Block, r: Reg, d: Block, v: Value, slot: Slot)
    requires Promoting(p, s, r, d, v, slot) && u < |p.blocks| && u != d
    ensures Promoting(p, WithReloads(s, u, v, slot), r, d, v, slot)
    ensures Replaces(p, s, WithReloads(s, u, v, slot), r, slot)
  {
    var s' := WithReloads(s, u, v, slot);
    ReloadsReplaces(p, s, u, r, d, v, slot);
    assert Inv(p, s') by {
      hide SimOk, UsesOk, TermsOk, ValuesOk, ProgressOk, Good, BodiesOk, DefsOk, QueriesOk, Holds, Stored, StoresInto;
      ReloadsBodies(p, s, s', u, v, slot);
      ReloadsUses(p, s, s', u, v, slot);
      ReloadsSim(p, s, s', u, v, slot);
      ReloadsQueries(p, s, s', r, d, v, slot);
      KeepDefs(p, s, s');
    }
    StillPromoting(p, s, s', r, d, v, slot);
  }
}
