/** Promoting a value to a slot keeps the invariant: the store, and the loads in place of the value's uses elsewhere. */
module RaisingPromotion {
  import opened Wrappers
  import opened ControlFlow
  import opened ReachingDefinitions
  import opened RaisedSemantics
  import opened RaisingFunction
  import opened GoodPrograms
  import opened RaisingInvariant
  import opened RaisingCorrect
  import opened RaisingFrames
  import opened RaisingBorrows
  import opened RaisingReload

  /** A step that stores nothing keeps all lookups right. */
  lemma QuietLookups(p: Program, s: Raising, s': Raising, b: Block, i: RInst)
    requires QuietStep(p, s, s', b, i) && i.Load? && QueriesOk(p, s)
    requires s'.queries == s.queries && s'.toPromote == s.toPromote
    ensures QueriesOk(p, s')
  {
    hide QueryCloses, NarrowOk, SlotOk, DirectOk;
    SameDefsGrows(p, s, s');
    forall q | q in s'.queries
      ensures QueryOk(p, s', q)
    {
      assert QueryOk(p, s, q);
      if q.loc.InSlot? {
        assert forall d :: d in q.defs ==> d < |p.blocks| by { DefsInRange(p, s, q); }
        KeepSlot(p, s, s', b, i, q, q.loc.slot);
      }
      KeepQuery(p, s, s', q);
    }
    KeepPending(p, s, s');
  }

  lemma DefsInRange(p: Program, s: Raising, q: Query)
    requires Shape(p, s) && QueryOk(p, s, q)
    ensures forall d :: d in q.defs ==> d < |p.blocks|
  {
  }

  // ----- the store

  /** `v` is the value that `r` has on leaving block `d`, and may be stored in the slot. */
  ghost predicate CanPromote(p: Program, s: Raising, r: Reg, d: Block, v: Value, slot: Slot) {
    && Inv(p, s)
    && Done(p, s, d) && LocalVal(p, s, r, d) == Some(v) && MayPromote(p, r, d) && slot < s.nextSlot
    && (forall q :: q in s.queries && q.loc == InSlot(slot) ==> q.reg == r && d !in q.through)
    && (forall b :: 0 <= b < |s.body| && StoresInto(s.body[b], slot) ==> Defines(p.args, s.defs, r, b))
  }

  lemma ItsValue(p: Program, s: Raising, r: Reg, d: Block, v: Value)
    requires Inv(p, s) && d < |p.blocks| && LocalVal(p, s, r, d) == Some(v)
    ensures Defines(p.args, s.defs, r, d) && Named(s, v)
    ensures v.Inst? ==> Keeps(s, r, d, v) && Sound(p, s, d, SourceNow(p, s, d, r), v)
  {
    hide SimOk, UsesOk, TermsOk, ValuesOk, ProgressOk, Good, BodiesOk, QueriesOk;
    if (r, d) in s.defs {
      assert EntryOk(p, s, r, d);
    }
  }

  /** What is promoted is the block's own. */
  lemma PromotedIsOwn(p: Program, s: Raising, r: Reg, d: Block, v: Value, slot: Slot)
    requires CanPromote(p, s, r, d, v, slot)
    ensures v.Inst? ==> v.block == d
  {
    hide SimOk, UsesOk, TermsOk, DefsOk, BodiesOk, QueriesOk, ValuesOk, ProgressOk, Good, MayPromote, Disturbs,
         StoresInto;
    if v.Inst? && v.block != d {
      KeptIsSafe(p, s, r, d, v);
    }
  }

  lemma StoreStores(s: Raising, d: Block, slot: Slot, v: Value)
    requires d < |s.body| && Named(s, v)
    ensures Stored(WithStore(s, d, slot, v), d, slot, v)
  {
    var s' := WithStore(s, d, slot, v);
    forall ev: Eval, rs: RState
      ensures StoredAt(s', d, slot, v, ev, rs)
    {
      ExecAppend(s, s', d, Store(slot, v), ev, rs);
    }
  }

  lemma StoreKeepsSlot(p: Program, s: Raising, r: Reg, d: Block, v: Value, slot: Slot, q: Query)
    requires CanPromote(p, s, r, d, v, slot) && q in s.queries && q.loc == InSlot(slot)
    requires Shape(p, WithStore(s, d, slot, v)) && forall x :: x in q.defs ==> x < |p.blocks|
    ensures SlotOk(p, WithStore(s, d, slot, v), q, slot)
  {
    hide SimOk, UsesOk, TermsOk, ValuesOk, ProgressOk, Good, BodiesOk, QueryCloses, NarrowOk, StoredAt;
    var s' := WithStore(s, d, slot, v);
    assert QueryOk(p, s, q);
    ItsValue(p, s, r, d, v);
    StoreStores(s, d, slot, v);
    forall x | x in q.defs
      ensures Provided(p, s', q.reg, x, slot)
    {
      assert Provided(p, s, q.reg, x, slot);
      if x != d && (q.reg, x, slot) !in s.toPromote {
        KeepStored(s, s', x, Emit([]), slot, LocalVal(p, s, q.reg, x).value);
      }
    }
    forall b | 0 <= b < |s'.body| && StoresInto(s'.body[b], slot)
      ensures b !in q.through && Defines(p.args, s'.defs, q.reg, b)
    {
      if b != d {
        assert StoresInto(s.body[b], slot);
      }
    }
  }

  /** A store into a slot of its own register disturbs no lookup. */
  lemma StoreKeepsInv(p: Program, s: Raising, r: Reg, d: Block, v: Value, slot: Slot)
    requires CanPromote(p, s, r, d, v, slot)
    ensures Inv(p, WithStore(s, d, slot, v)) && Stored(WithStore(s, d, slot, v), d, slot, v)
  {
    hide SimOk, UsesOk, TermsOk, ValuesOk, ProgressOk, Good, BodiesOk, DefsOk, QueryCloses, NarrowOk, SlotOk, DirectOk,
         MayPromote, StoredAt, StoresInto;
    var s' := WithStore(s, d, slot, v);
    var i := Store(slot, v);
    ItsValue(p, s, r, d, v);
    PromotedIsOwn(p, s, r, d, v, slot);
    StoreStores(s, d, slot, v);
    AppendLoads(s, s', d, i);
    assert Shape(p, s') && QuietStep(p, s, s', d, i);
    SameDefsGrows(p, s, s');
    forall q | q in s'.queries
      ensures QueryOk(p, s', q)
    {
      assert QueryOk(p, s, q);
      if q.loc.InSlot? {
        DefsInRange(p, s, q);
        if q.loc.slot == slot {
          StoreKeepsSlot(p, s, r, d, v, slot, q);
        } else {
          KeepSlot(p, s, s', d, i, q, q.loc.slot);
        }
      }
      KeepQuery(p, s, s', q);
    }
    KeepPending(p, s, s');
    QuietKeeps(p, s, s', d, i);
  }

  // ----- the terminator's uses

  lemma LoadedIsStored(p: Program, s: Raising, s': Raising, u: Block, v: Value, slot: Slot, r: Reg, w: Value)
    requires Shape(p, s) && BodiesOk(p, s) && u < |p.blocks| && v.Inst? && v.block != u
    requires ReloadedQueries(s.queries, u, v, slot) <= s.queries && !StoresInto(s.body[u], slot)
    requires Holds(p, s, u, r, v) && Shape(p, s')
    requires w.Inst? && w.id < s'.nextId && s'.queries == s.queries && s'.progress == s.progress
    requires s'.body[u] == s.body[u] + [Load(w, slot)]
    ensures Holds(p, s', u, r, w)
  {
    ReloadSettled(p, s, u, v, slot);
    forall ev: Eval, ms: MState, rs: RState
      ensures HoldsAt(p, s', u, r, w, ev, ms, rs)
    {
      hide UsesFirst, BodiesOk, ReloadedQueries, Settled, StoresInto;
      if BlockEntry(p, s'.queries, u, ms, rs) {
        SwapEntry(p, s, u, v, slot, s.queries, ms, rs);
        assert HoldsAt(p, s, u, r, v, ev, ms, Swapped(rs, v, slot));
        ValueFrameSettled(ev, s.body[u], v, u, s.nextId, Swapped(rs, v, slot));
        ExecAppend(s, s', u, Load(w, slot), ev, rs);
        SlotFrame(ev, s.body[u], rs, slot);
      }
    }
  }

  /** The state with the load at the end of block `u`, before the terminator uses it. */
  function WithEndLoad(s: Raising, u: Block, slot: Slot): Raising
    requires u < |s.body|
  {
    s.(body := s.body[u := s.body[u] + [Load(Inst(u, s.nextId), slot)]], nextId := s.nextId + 1)
  }

  lemma EndLoadKeepsInv(p: Program, s: Raising, u: Block, slot: Slot)
    requires Inv(p, s) && u < |p.blocks|
    ensures Inv(p, WithEndLoad(s, u, slot)) && SameDefs(p, s, WithEndLoad(s, u, slot))
  {
    hide SimOk, UsesOk, TermsOk, ValuesOk, ProgressOk, Good, BodiesOk, DefsOk, QueriesOk;
    var s' := WithEndLoad(s, u, slot);
    var i := Load(Inst(u, s.nextId), slot);
    AppendLoads(s, s', u, i);
    assert Shape(p, s') && QuietStep(p, s, s', u, i);
    QuietLookups(p, s, s', u, i);
    QuietKeeps(p, s, s', u, i);
  }

  lemma NotStoredAtEnd(p: Program, s: Raising, u: Block, r: Reg, d: Block, v: Value, slot: Slot)
    requires Promoting(p, s, r, d, v, slot) && u < |p.blocks| && u != d
    requires s.term[u].Some? && v in s.term[u].value
    ensures !StoresInto(s.body[u], slot)
  {
    hide SimOk, TermsOk, ValuesOk, ProgressOk, Good, BodiesOk, DefsOk, SlotOk, DirectOk, StoresInto, Sets, MayPromote,
         StoredAt;
    assert SourcedAtEnd(p, s, u, v);
    NotAtEnd(p, s, u, r, d, v, slot);
    var q :| q in s.queries && q.block == u && q.loc == Direct(v) && !Sets(p, q.reg, u);
    DirectIsFor(p, s, r, d, v, slot, q);
    assert QueryOk(p, s, q) && Narrow(q);
  }

  /** No other block's terminator reads the value where that is borrowed. */
  lemma NotAtEnd(p: Program, s: Raising, u: Block, r: Reg, d: Block, v: Value, slot: Slot)
    requires Promoting(p, s, r, d, v, slot) && u < |p.blocks| && u != d && s.term[u].Some?
    ensures forall x :: Keeps(s, x, u, v) ==> x !in p.blocks[u].term
  {
    hide SimOk, UsesOk, ProgressOk, Good, BodiesOk, DefsOk, QueriesOk, StoresInto, MayPromote, Wanted, Stored, Holds,
         IsLoaded, SharesOk;
    assert TermOk(p, s, u) && BorrowsOk(p, s, u);
    assert Keeps(s, r, d, v);
  }

  lemma TermReloadKeepsInv(p: Program, s: Raising, u: Block, r: Reg, d: Block, v: Value, slot: Slot)
    requires Promoting(p, s, r, d, v, slot) && u < |p.blocks| && u != d
    requires ReloadedQueries(s.queries, u, v, slot) <= s.queries
    ensures Promoting(p, WithTermReload(s, u, v, slot), r, d, v, slot)
    ensures Replaces(p, s, WithTermReload(s, u, v, slot), r, slot)
  {
    hide SimOk, UsesOk, TermsOk, ValuesOk, ProgressOk, Good, BodiesOk, DefsOk, QueriesOk, MayPromote, Stored,
         StoresInto, ReloadedQueries, Holds, Narrow;
    var s' := WithTermReload(s, u, v, slot);
    if s.term[u].Some? && v in s.term[u].value {
      TermReloadInv(p, s, u, r, d, v, slot);
      AppendLoads(s, s', u, Load(Inst(u, s.nextId), slot));
      AppendReplaces(p, s, s', u, Load(Inst(u, s.nextId), slot), r, slot);
    } else {
      ReplacesItself(p, s, r, d, v, slot);
    }
    StillPromoting(p, s, s', r, d, v, slot);
  }

  lemma TermReloadInv(p: Program, s: Raising, u: Block, r: Reg, d: Block, v: Value, slot: Slot)
    requires Promoting(p, s, r, d, v, slot) && u < |p.blocks| && u != d
    requires ReloadedQueries(s.queries, u, v, slot) <= s.queries
    requires s.term[u].Some? && v in s.term[u].value
    ensures Inv(p, WithTermReload(s, u, v, slot))
  {
    hide SimOk, UsesOk, TermsOk, ValuesOk, ProgressOk, Good, BodiesOk, DefsOk, QueriesOk, MayPromote, Stored,
         StoresInto, ReloadedQueries, Holds;
    var s1 := WithEndLoad(s, u, slot);
    var vals := Substitute(s.term[u].value, v, Inst(u, s.nextId));
    EndLoadKeepsInv(p, s, u, slot);
    NotStoredAtEnd(p, s, u, r, d, v, slot);
    assert WithTermReload(s, u, v, slot) == s1.(term := s1.term[u := Some(vals)]);
    assert |vals| > 0;
    TermOperand(p, s, s1, u, r, d, v, slot, 0);
    forall i | 0 <= i < |vals|
      ensures Holds(p, s1, u, p.blocks[u].term[i], vals[i]) && SourcedAtEnd(p, s1, u, vals[i])
    {
      TermOperand(p, s, s1, u, r, d, v, slot, i);
    }
    TermKeepsInv(p, s1, u, vals);
  }

  lemma TermOperand(p: Program, s: Raising, s1: Raising, u: Block, r: Reg, d: Block, v: Value, slot: Slot, i: nat)
    requires Promoting(p, s, r, d, v, slot) && u < |p.blocks| && u != d
    requires ReloadedQueries(s.queries, u, v, slot) <= s.queries && !StoresInto(s.body[u], slot)
    requires s1 == WithEndLoad(s, u, slot) && Shape(p, s1)
    requires s.term[u].Some? && i < |s.term[u].value|
    ensures Done(p, s, u) && |s.term[u].value| == |p.blocks[u].term|
    ensures var w := Substitute(s.term[u].value, v, Inst(u, s.nextId))[i];
            Holds(p, s1, u, p.blocks[u].term[i], w) && SourcedAtEnd(p, s1, u, w)
  {
    hide SimOk, ValuesOk, ProgressOk, Good, BodiesOk, DefsOk, QueriesOk, Stored, StoresInto, HoldsAt;
    var w := Inst(u, s.nextId);
    assert TermOk(p, s, u);
    var x := s.term[u].value[i];
    assert Holds(p, s, u, p.blocks[u].term[i], x);
    if x == v {
      LoadedIsStored(p, s, s1, u, v, slot, p.blocks[u].term[i], w);
    } else {
      assert SourcedAtEnd(p, s, u, x);
      KeepSourced(p, s, s1, u, x);
      KeepHolds(p, s, s1, u, Load(w, slot), p.blocks[u].term[i], x);
    }
  }

  /** Appending a load leaves alone all that is known. */
  lemma AppendReplaces(p: Program, s: Raising, s': Raising, u: Block, i: RInst, r: Reg, slot: Slot)
    requires QuietStep(p, s, s', u, i) && i.Load?
    requires s'.queries == s.queries && s'.toPromote == s.toPromote && s'.nextSlot == s.nextSlot
    ensures Replaces(p, s, s', r, slot)
  {
    forall c: Block, x, w | c < |p.blocks| && Holds(p, s, c, x, w)
      ensures Holds(p, s', c, x, w)
    {
      KeepHolds(p, s, s', c, i, x, w);
    }
    forall c: Block, x: Reg, sl: Slot | MayPromote(p, x, c) && StoredFor(p, s, x, c, sl)
      ensures StoredFor(p, s', x, c, sl)
    {
      KeepStored(s, s', c, i, sl, LocalVal(p, s, x, c).value);
    }
    forall c: Block, sl: Slot | c < |p.blocks| && StoresInto(s'.body[c], sl)
      ensures StoresInto(s.body[c], sl)
    {
      StoresAppend(s, s', c, i, sl);
    }
  }

  // ----- the promotion

  lemma {:induction false} ReloadedUpToKeepsInv(p: Program, ll: Llvm, s: Raising, r: Reg, d: Block, v: Value,
                                                slot: Slot, n: nat)
    requires Promoting(p, s, r, d, v, slot) && n <= |p.blocks|
    ensures var t := ReloadedUpTo(ll, s, d, v, slot, n);
            Promoting(p, t, r, d, v, slot) && Replaces(p, s, t, r, slot)
  {
    hide Inv, Holds, Stored, StoresInto, MayPromote, Narrow, Promoting, Replaces, WithTermReload;
    if n == 0 {
      ReplacesItself(p, s, r, d, v, slot);
    } else {
      var u := n - 1;
      assert |s.body| == |s.term| == |p.blocks| by { Sizes(p, s, r, d, v, slot); }
      ReloadedUpToKeepsInv(p, ll, s, r, d, v, slot, u);
      var t := ReloadedUpTo(ll, s, d, v, slot, u);
      if u != d && ll.dominates(d, u) {
        var t1 := WithReloads(t, u, v, slot);
        ReloadsKeepInv(p, t, u, r, d, v, slot);
        assert ReloadedQueries(t1.queries, u, v, slot) <= t1.queries by { QueriesReloaded(t, u, v, slot); }
        TermReloadKeepsInv(p, t1, u, r, d, v, slot);
        ReplacesTwice(p, s, t, t1, r, slot);
        ReplacesTwice(p, s, t1, WithTermReload(t1, u, v, slot), r, slot);
      }
    }
  }

  lemma ReplacesItself(p: Program, s: Raising, r: Reg, d: Block, v: Value, slot: Slot)
    requires Promoting(p, s, r, d, v, slot)
    ensures Replaces(p, s, s, r, slot)
  {
  }

  lemma Sizes(p: Program, s: Raising, r: Reg, d: Block, v: Value, slot: Slot)
    requires Promoting(p, s, r, d, v, slot)
    ensures |s.body| == |s.term| == |p.blocks|
  {
  }

  lemma QueriesReloaded(s: Raising, u: Block, v: Value, slot: Slot)
    requires u < |s.body|
    ensures ReloadedQueries(WithReloads(s, u, v, slot).queries, u, v, slot) <= WithReloads(s, u, v, slot).queries
  {
  }

  /** What a promotion of the value of `r` in block `d` leaves alone. */
  ghost predicate Promotes(p: Program, s: Raising, s': Raising, r: Reg, d: Block, slot: Slot) {
    && SameDefs(p, s, s') && s'.toPromote == s.toPromote && s'.nextSlot == s.nextSlot
    && (forall c: Block, x, w :: c < |p.blocks| && Holds(p, s, c, x, w) ==> Holds(p, s', c, x, w))
    && (forall c: Block, x: Reg, sl: Slot :: c < |p.blocks| && (c, sl) != (d, slot) && StoredFor(p, s, x, c, sl)
                                             && MayPromote(p, x, c) ==>
                                             StoredFor(p, s', x, c, sl))
    && (forall c: Block, sl: Slot :: c < |p.blocks| && (c, sl) != (d, slot) && StoresInto(s'.body[c], sl) ==>
                                     StoresInto(s.body[c], sl))
    && (forall q :: q in s'.queries && q !in s.queries ==> q.loc == InSlot(slot) && q.reg == r && Narrow(q))
  }

  lemma StorePromotes(p: Program, s: Raising, r: Reg, d: Block, v: Value, slot: Slot)
    requires CanPromote(p, s, r, d, v, slot)
    ensures Promotes(p, s, WithStore(s, d, slot, v), r, d, slot)
  {
    hide SimOk, UsesOk, TermsOk, ValuesOk, ProgressOk, Good, BodiesOk, DefsOk, QueriesOk;
    var s' := WithStore(s, d, slot, v);
    AppendLoads(s, s', d, Store(slot, v));
    assert Shape(p, s) && QuietStep(p, s, s', d, Store(slot, v));
    forall c: Block, x, w | c < |p.blocks| && Holds(p, s, c, x, w)
      ensures Holds(p, s', c, x, w)
    {
      KeepHolds(p, s, s', c, Store(slot, v), x, w);
    }
    forall c: Block, x: Reg, sl: Slot | c < |p.blocks| && (c, sl) != (d, slot) && StoredFor(p, s, x, c, sl)
      ensures StoredFor(p, s', x, c, sl)
    {
      if c == d {
        KeepStored(s, s', c, Store(slot, v), sl, LocalVal(p, s, x, c).value);
      } else {
        KeepStored(s, s', c, Store(sl + 1, v), sl, LocalVal(p, s, x, c).value);
      }
    }
    forall c: Block, sl: Slot | c < |p.blocks| && (c, sl) != (d, slot) && StoresInto(s'.body[c], sl)
      ensures StoresInto(s.body[c], sl)
    {
      if c == d {
        StoresAppend(s, s', c, Store(slot, v), sl);
      }
    }
  }

  lemma PromotesThenReplaces(p: Program, s: Raising, s1: Raising, s2: Raising, r: Reg, d: Block, slot: Slot)
    requires Promotes(p, s, s1, r, d, slot) && Replaces(p, s1, s2, r, slot)
    ensures Promotes(p, s, s2, r, d, slot)
  {
    hide Holds, Stored, StoresInto, Narrow;
  }

  lemma StoreIsPromoting(p: Program, s: Raising, r: Reg, d: Block, v: Value, slot: Slot)
    requires CanPromote(p, s, r, d, v, slot) && v.Inst? && !IsLoaded(WithStore(s, d, slot, v).body, v)
    ensures Promoting(p, WithStore(s, d, slot, v), r, d, v, slot)
  {
    hide MayPromote, Stored, SimOk, UsesOk, TermsOk, ValuesOk, ProgressOk, Good, BodiesOk, DefsOk, QueriesOk;
    var s' := WithStore(s, d, slot, v);
    PromotedIsOwn(p, s, r, d, v, slot);
    StoreKeepsInv(p, s, r, d, v, slot);
    forall b | 0 <= b < |s'.body| && StoresInto(s'.body[b], slot)
      ensures Defines(p.args, s'.defs, r, b)
    {
      if b != d {
        assert StoresInto(s.body[b], slot);
      }
    }
  }

  /** The promotion of one value keeps the invariant and puts the value in the slot. */
  lemma PromotedKeepsInv(p: Program, ll: Llvm, s: Raising, r: Reg, d: Block, v: Value, slot: Slot)
    requires CanPromote(p, s, r, d, v, slot)
    ensures d < |s.body| == |s.term|
    ensures var t := Promoted(ll, s, d, v, slot);
            Inv(p, t) && StoredFor(p, t, r, d, slot) && Promotes(p, s, t, r, d, slot)
  {
    var s1 := WithStore(s, d, slot, v);
    StoreKeepsInv(p, s, r, d, v, slot);
    StorePromotes(p, s, r, d, v, slot);
    if !(v.Arg? || IsLoaded(s1.body, v) || ll.exempt(v, slot)) {
      hide Inv, CanPromote, Holds, Stored, MayPromote, StoresInto, Narrow;
      StoreIsPromoting(p, s, r, d, v, slot);
      ReloadedUpToKeepsInv(p, ll, s1, r, d, v, slot, |s1.body|);
      PromotesThenReplaces(p, s, s1, Promoted(ll, s, d, v, slot), r, d, slot);
    }
  }
}
