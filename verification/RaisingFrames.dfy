/** What the steps of raising leave alone. */
module RaisingFrames {
  import opened Wrappers
  import opened ControlFlow
  import opened ReachingDefinitions
  import opened RaisedSemantics
  import opened RaisingFunction
  import opened GoodPrograms
  import opened RaisingInvariant

  /** `s'` is `s` with block `b`'s body unchanged or longer by the instruction `i`. */
  ghost predicate Appends(s: Raising, s': Raising, b: Block, i: RInst) {
    && b < |s.body| == |s'.body|
    && (s'.body[b] == s.body[b] || s'.body[b] == s.body[b] + [i])
  }

  /** A store, or a load that makes a new value. */
  ghost predicate Quiet(s: Raising, i: RInst) {
    i.Store? || (i.Load? && i.v.Inst? && i.v.id >= s.nextId)
  }

  lemma ExecAppend(s: Raising, s': Raising, b: Block, i: RInst, ev: Eval, rs: RState)
    requires b < |s.body| == |s'.body| && s'.body[b] == s.body[b] + [i]
    ensures ExecR(s', ev, b, rs) == RStep(ev, i, ExecR(s, ev, b, rs))
  {
    assert Front(s'.body[b]) == s.body[b];
  }

  lemma KeepHolds(p: Program, s: Raising, s': Raising, b: Block, i: RInst, r: Reg, v: Value)
    requires Shape(p, s) && Shape(p, s') && b < |p.blocks|
    requires Holds(p, s, b, r, v)
    requires Appends(s, s', b, i) && RTarget(i) != Some(v)
    requires s.queries <= s'.queries && s'.progress[b] == s.progress[b] && s.nextId <= s'.nextId
    ensures Holds(p, s', b, r, v)
  {
    forall ev: Eval, ms: MState, rs: RState
      ensures HoldsAt(p, s', b, r, v, ev, ms, rs)
    {
      assert HoldsAt(p, s, b, r, v, ev, ms, rs);
      if s'.body[b] != s.body[b] {
        ExecAppend(s, s', b, i, ev, rs);
      }
    }
  }

  lemma KeepOut(p: Program, s: Raising, s': Raising, b: Block, i: RInst)
    requires Shape(p, s) && Shape(p, s') && b < |p.blocks|
    requires OutHolds(p, s, b)
    requires Appends(s, s', b, i) && (i.Load? || i.Store?)
    requires s.queries <= s'.queries && s'.progress[b] == s.progress[b]
    ensures OutHolds(p, s', b)
  {
    forall ev: Eval, ms: MState, rs: RState
      ensures OutAt(p, s', b, ev, ms, rs)
    {
      assert OutAt(p, s, b, ev, ms, rs);
      if s'.body[b] != s.body[b] {
        ExecAppend(s, s', b, i, ev, rs);
      }
    }
  }

  lemma KeepStored(s: Raising, s': Raising, b: Block, i: RInst, slot: Slot, v: Value)
    requires Appends(s, s', b, i)
    requires Stored(s, b, slot, v) && s.nextId <= s'.nextId
    requires RTarget(i) != Some(v) && (i.Store? ==> i.slot != slot)
    ensures Stored(s', b, slot, v)
  {
    forall ev: Eval, rs: RState
      ensures StoredAt(s', b, slot, v, ev, rs)
    {
      assert StoredAt(s, b, slot, v, ev, rs);
      if s'.body[b] != s.body[b] {
        ExecAppend(s, s', b, i, ev, rs);
      }
    }
  }

  lemma StoresAppend(s: Raising, s': Raising, b: Block, i: RInst, slot: Slot)
    requires Appends(s, s', b, i) && StoresInto(s'.body[b], slot)
    ensures StoresInto(s.body[b], slot) || (i.Store? && i.slot == slot)
  {
    var v :| Store(slot, v) in s'.body[b];
    assert Store(slot, v) in s.body[b] || Store(slot, v) == i;
  }

  /** Loads stay, and no value that had a name before is loaded anew. */
  ghost predicate LoadsStay(s: Raising, s': Raising) {
    forall v :: && (IsLoaded(s.body, v) ==> IsLoaded(s'.body, v))
                && (Named(s, v) && IsLoaded(s'.body, v) ==> IsLoaded(s.body, v))
  }

  lemma AppendLoads(s: Raising, s': Raising, b: Block, i: RInst)
    requires OnlyAppends(s, s', b, i) && (i.Load? ==> i.v.Inst? && i.v.id >= s.nextId)
    ensures LoadsStay(s, s')
  {
    forall v
      ensures IsLoaded(s.body, v) ==> IsLoaded(s'.body, v)
      ensures Named(s, v) && IsLoaded(s'.body, v) ==> IsLoaded(s.body, v)
    {
      if v.Inst? && v.block < |s.body| {
        assert Appends(s, s', v.block, i);
        var x, y := s.body[v.block], s'.body[v.block];
        if IsLoaded(s.body, v) {
          var k :| 0 <= k < |x| && x[k].Load? && x[k].v == v;
          assert y[k] == x[k];
        }
        if Named(s, v) && IsLoaded(s'.body, v) {
          var k :| 0 <= k < |y| && y[k].Load? && y[k].v == v;
          assert k < |x| && x[k] == y[k];
        }
      }
    }
  }

  lemma SameLoads(s: Raising, s': Raising)
    requires s'.body == s.body
    ensures LoadsStay(s, s')
  {
  }

  /** Raising only goes on: what is done stays done, and what is known stays known. */
  ghost predicate Grows(p: Program, s: Raising, s': Raising) {
    && Shape(p, s) && Shape(p, s')
    && s.started <= s'.started && s.nextId <= s'.nextId && s.nextSlot <= s'.nextSlot && s.queries <= s'.queries
    && LoadsStay(s, s')
    && (forall c :: Done(p, s, c) ==> Done(p, s', c))
    && (forall k :: k in s.defs ==> k in s'.defs)
    && (forall r: Reg, c: Block :: Done(p, s, c) && LocalVal(p, s, r, c).Some? ==>
                                   LocalVal(p, s', r, c) == LocalVal(p, s, r, c))
  }

  /** Every body is unchanged but that of `b`, which may be longer by `i`. */
  ghost predicate OnlyAppends(s: Raising, s': Raising, b: Block, i: RInst) {
    && |s.body| == |s'.body|
    && (forall c :: 0 <= c < |s.body| ==> Appends(s, s', c, i) && (c != b ==> s'.body[c] == s.body[c]))
  }

  /** The lookup into a slot stays right as long as the slot is not stored into. */
  lemma KeepSlot(p: Program, s: Raising, s': Raising, b: Block, i: RInst, q: Query, slot: Slot)
    requires Grows(p, s, s') && forall d :: d in q.defs ==> d < |p.blocks|
    requires SlotOk(p, s, q, slot)
    requires OnlyAppends(s, s', b, i) && (i.Store? ==> i.slot != slot)
    requires RTarget(i).Some? ==> RTarget(i).value.Inst? && RTarget(i).value.id >= s.nextId
    requires forall d :: (q.reg, d, slot) in s.toPromote ==> (q.reg, d, slot) in s'.toPromote
    requires forall d :: (q.reg, d, slot) in s'.toPromote ==> (q.reg, d, slot) in s.toPromote || d !in q.through
    ensures SlotOk(p, s', q, slot)
  {
    forall d | d in q.defs
      ensures Provided(p, s', q.reg, d, slot)
    {
      assert Provided(p, s, q.reg, d, slot);
      if (q.reg, d, slot) !in s.toPromote {
        KeepStored(s, s', d, i, slot, LocalVal(p, s, q.reg, d).value);
      }
    }
    forall c | 0 <= c < |s'.body| && StoresInto(s'.body[c], slot)
      ensures c !in q.through && Defines(p.args, s'.defs, q.reg, c)
    {
      StoresAppend(s, s', c, i, slot);
      assert Defines(p.args, s.defs, q.reg, c);
    }
  }

  lemma KeepQuery(p: Program, s: Raising, s': Raising, q: Query)
    requires Grows(p, s, s') && QueryOk(p, s, q)
    requires forall w :: Narrow(q) && (w in q.through || w == q.block) && Defines(p.args, s'.defs, q.reg, w) ==>
               Defines(p.args, s.defs, q.reg, w)
    requires q.loc.InSlot? ==> SlotOk(p, s', q, q.loc.slot)
    ensures QueryOk(p, s', q)
  {
    hide SlotOk;
    assert NarrowOk(p, s', q);
    if q.loc.Direct? {
      var d :| DirectOk(p, s, q, d, q.loc.v);
      assert DirectOk(p, s', q, d, q.loc.v);
    }
  }

  // ----- steps that change no definition

  /** A step that neither raises an instruction nor defines a register. */
  ghost predicate SameDefs(p: Program, s: Raising, s': Raising) {
    && Shape(p, s) && Shape(p, s')
    && s'.progress == s.progress && s'.defs == s.defs && s'.started == s.started
    && s.queries <= s'.queries && s.nextId <= s'.nextId && s.nextSlot <= s'.nextSlot
    && LoadsStay(s, s')
  }

  /** Such a step that at most appends `i` to block `b`. */
  ghost predicate QuietStep(p: Program, s: Raising, s': Raising, b: Block, i: RInst) {
    SameDefs(p, s, s') && Quiet(s, i) && OnlyAppends(s, s', b, i)
  }

  lemma SameDefsGrows(p: Program, s: Raising, s': Raising)
    requires SameDefs(p, s, s')
    ensures Grows(p, s, s')
    ensures forall c :: Done(p, s', c) <==> Done(p, s, c)
  {
  }

  lemma QuietSim(p: Program, s: Raising, s': Raising, b: Block, i: RInst)
    requires QuietStep(p, s, s', b, i) && SimOk(p, s)
    ensures SimOk(p, s')
  {
    forall c | 0 <= c < |p.blocks|
      ensures OutHolds(p, s', c)
    {
      KeepOut(p, s, s', c, i);
    }
    forall r: Reg, c: Block | c < |p.blocks| && LocalVal(p, s', r, c).Some?
      ensures Holds(p, s', c, r, LocalVal(p, s', r, c).value)
    {
      assert LocalVal(p, s', r, c) == LocalVal(p, s, r, c);
      KeepHolds(p, s, s', c, i, r, LocalVal(p, s, r, c).value);
    }
  }

  lemma KeepTerm(p: Program, s: Raising, s': Raising, b: Block, i: RInst)
    requires Shape(p, s) && Shape(p, s') && b < |p.blocks| && TermOk(p, s, b)
    requires s'.term[b] == s.term[b] && s'.progress[b] == s.progress[b]
    requires s.started <= s'.started && s.queries <= s'.queries && s.nextId <= s'.nextId
    requires Quiet(s, i) && Appends(s, s', b, i)
    ensures TermOk(p, s', b)
  {
    if s.term[b].Some? {
      forall k | 0 <= k < |p.blocks[b].term|
        ensures Holds(p, s', b, p.blocks[b].term[k], s'.term[b].value[k])
      {
        KeepHolds(p, s, s', b, i, p.blocks[b].term[k], s.term[b].value[k]);
      }
    }
  }

  lemma QuietTerms(p: Program, s: Raising, s': Raising, b: Block, i: RInst)
    requires QuietStep(p, s, s', b, i) && TermsOk(p, s) && s'.term == s.term
    ensures TermsOk(p, s')
  {
    forall c | 0 <= c < |p.blocks|
      ensures TermOk(p, s', c)
    {
      assert TermOk(p, s, c);
      KeepTerm(p, s, s', c, i);
    }
  }

  lemma QuietBodies(p: Program, s: Raising, s': Raising, b: Block, i: RInst)
    requires QuietStep(p, s, s', b, i) && BodiesOk(p, s) && b < |s.body|
    requires s'.body[b] == s.body[b] || (BodyInstOk(s', b, i) && (i.Store? ==> Done(p, s, b)))
    ensures BodiesOk(p, s')
  {
    forall c, j | 0 <= c < |s'.body| && j in s'.body[c]
      ensures BodyInstOk(s', c, j) && (!Done(p, s', c) ==> !j.Store?)
    {
      assert Appends(s, s', c, i);
      assert j in s.body[c] ==> BodyInstOk(s, c, j);
    }
    forall c | 0 <= c < |s'.body|
      ensures StoresLast(s'.body[c])
    {
      assert Appends(s, s', c, i) && StoresLast(s.body[c]);
    }
  }

  lemma KeepLent(p: Program, s: Raising, s': Raising, r: Reg, b: Block, v: Value)
    requires Grows(p, s, s') && Lent(p, s, r, b, v)
    ensures Lent(p, s', r, b, v)
  {
    hide ReadIn, Joined, Leads, Carries;
    var d :| LentBy(p, s, r, b, v, d);
    KeepsStay(p, s, s', d);
    assert LentBy(p, s', r, b, v, d);
    KeepSourced(p, s, s', b, v);
  }

  /** What may be known of a value stays known. */
  lemma KeepSound(p: Program, s: Raising, s': Raising, b: Block, source: Source, v: Value)
    requires Grows(p, s, s') && Sound(p, s, b, source, v)
    ensures Sound(p, s', b, source, v)
  {
    hide Grows, Lent;
    if v.Inst? && source.Came? && v.block != b {
      KeepLent(p, s, s', source.reg, b, v);
    }
    assert v.Inst? && IsLoaded(s.body, v) ==> IsLoaded(s'.body, v) by { LoadStays(p, s, s', v); }
    assert s.nextId <= s'.nextId by { NamesStay(p, s, s'); }
  }

  lemma LoadStays(p: Program, s: Raising, s': Raising, v: Value)
    requires Grows(p, s, s')
    ensures IsLoaded(s.body, v) ==> IsLoaded(s'.body, v)
  {
  }

  lemma NamesStay(p: Program, s: Raising, s': Raising)
    requires Grows(p, s, s')
    ensures s.nextId <= s'.nextId
  {
  }

  /** An entry that a step does not change stays right, unless the step goes on with its block. */
  lemma KeepEntry(p: Program, s: Raising, s': Raising, r: Reg, b: Block)
    requires Grows(p, s, s') && (r, b) in s.defs && EntryOk(p, s, r, b)
    requires s'.defs[(r, b)] == s.defs[(r, b)] && s'.progress[b] == s.progress[b]
    ensures EntryOk(p, s', r, b)
  {
    hide Sound, Meets, Sets, WrittenBefore;
    if s.defs[(r, b)].Some? {
      KeepSound(p, s, s', b, SourceNow(p, s, b, r), s.defs[(r, b)].value);
    }
  }

  lemma KeepShares(p: Program, s: Raising, s': Raising, b: Block)
    requires Grows(p, s, s') && b < |p.blocks| && SharesOk(p, s, b) && s'.progress[b] == s.progress[b]
    requires forall r, v :: Keeps(s', r, b, v) <==> Keeps(s, r, b, v)
    ensures SharesOk(p, s', b)
  {
    hide SameSource, IsLoaded;
    assert forall r, v :: Has(s', r, b, v) <==> Has(s, r, b, v);
  }

  lemma KeepBorrows(p: Program, s: Raising, s': Raising, b: Block)
    requires Grows(p, s, s') && b < |p.blocks| && BorrowsOk(p, s, b) && (Done(p, s', b) ==> Done(p, s, b))
    requires forall r, c, v :: Keeps(s', r, c, v) <==> Keeps(s, r, c, v)
    ensures BorrowsOk(p, s', b)
  {
    hide MayPromote, WantedAtEnd, IsLoaded;
  }

  lemma KeepDefs(p: Program, s: Raising, s': Raising)
    requires SameDefs(p, s, s') && ProgressOk(p, s) && DefsOk(p, s) && ValuesOk(p, s)
    ensures ProgressOk(p, s') && DefsOk(p, s') && ValuesOk(p, s')
  {
    hide Meets, Sets, WrittenBefore, Sound, EntryOk, SharesOk, BorrowsOk, IsLoaded;
    SameDefsGrows(p, s, s');
    forall r, c | (r, c) in s'.defs
      ensures EntryOk(p, s', r, c)
    {
      assert EntryOk(p, s, r, c);
      assert c < |p.blocks| by { EntryInRange(p, s, r, c); }
      KeepEntry(p, s, s', r, c);
    }
    assert forall r, c, v :: Keeps(s', r, c, v) <==> Keeps(s, r, c, v);
    forall c | 0 <= c < |p.blocks|
      ensures SharesOk(p, s', c) && BorrowsOk(p, s', c)
    {
      KeepShares(p, s, s', c);
      KeepBorrows(p, s, s', c);
    }
  }

  lemma EntryInRange(p: Program, s: Raising, r: Reg, b: Block)
    requires Shape(p, s) && (r, b) in s.defs && EntryOk(p, s, r, b)
    ensures b < |p.blocks|
  {
  }

  lemma KeepSourced(p: Program, s: Raising, s': Raising, b: Block, v: Value)
    requires s.queries <= s'.queries
    ensures Sourced(s, b, v) ==> Sourced(s', b, v)
    ensures (forall r :: Keeps(s, r, b, v) ==> Keeps(s', r, b, v)) ==> SourcedAtEnd(p, s, b, v) ==>
            SourcedAtEnd(p, s', b, v)
  {
    hide Sets;
  }

  /** The values of a block that is done are final. */
  lemma KeepsStay(p: Program, s: Raising, s': Raising, b: Block)
    requires Grows(p, s, s') && Done(p, s, b)
    ensures forall r, v :: Keeps(s, r, b, v) ==> Keeps(s', r, b, v)
  {
    forall r, v | Keeps(s, r, b, v)
      ensures Keeps(s', r, b, v)
    {
      assert LocalVal(p, s, r, b) == Some(v);
    }
  }

  lemma QuietUses(p: Program, s: Raising, s': Raising, b: Block, i: RInst)
    requires QuietStep(p, s, s', b, i) && UsesOk(p, s) && s'.term == s.term
    requires b < |s.body|
    requires s'.body[b] == s.body[b] || (i.Store? && i.v.Inst? ==> i.v.block == b)
    ensures UsesOk(p, s')
  {
    forall c, j, v | 0 <= c < |s'.body| && j in s'.body[c] && v in Reads(j)
      ensures Sourced(s', c, v)
    {
      assert Appends(s, s', c, i);
      if j in s.body[c] {
        assert Sourced(s, c, v);
        KeepSourced(p, s, s', c, v);
      }
    }
    forall c, v | 0 <= c < |s'.body| && s'.term[c].Some? && v in s'.term[c].value
      ensures SourcedAtEnd(p, s', c, v)
    {
      assert SourcedAtEnd(p, s, c, v);
      KeepSourced(p, s, s', c, v);
    }
  }

  /** A quiet step keeps the invariant, but for what it says of lookups. */
  lemma QuietKeeps(p: Program, s: Raising, s': Raising, b: Block, i: RInst)
    requires Inv(p, s) && QuietStep(p, s, s', b, i) && s'.term == s.term && b < |s.body|
    requires s'.body[b] == s.body[b] || (BodyInstOk(s', b, i) && (i.Store? ==> Done(p, s, b)))
    requires QueriesOk(p, s')
    ensures Inv(p, s') && Grows(p, s, s')
  {
    hide SimOk, TermsOk, BodiesOk, DefsOk, ValuesOk, UsesOk, QueriesOk, ProgressOk, Good;
    SameDefsGrows(p, s, s');
    QuietSim(p, s, s', b, i);
    QuietTerms(p, s, s', b, i);
    QuietBodies(p, s, s', b, i);
    KeepDefs(p, s, s');
    QuietUses(p, s, s', b, i);
  }

  /** The operands of the terminator of block `b`, once its registers are looked up or its uses replaced. */
  lemma TermKeepsInv(p: Program, s: Raising, b: Block, vals: seq<Value>)
    requires Inv(p, s) && Done(p, s, b) && |vals| == |p.blocks[b].term|
    requires forall i :: 0 <= i < |vals| ==>
                         Holds(p, s, b, p.blocks[b].term[i], vals[i]) && SourcedAtEnd(p, s, b, vals[i])
    ensures Inv(p, s.(term := s.term[b := Some(vals)]))
  {
    hide BodiesOk, Good, EntryOk, SharesOk, Holds, OutHolds;
    var s' := s.(term := s.term[b := Some(vals)]);
    var i := Store(0, Arg(0));
    assert Shape(p, s') && QuietStep(p, s, s', b, i);
    QuietSim(p, s, s', b, i);
    QuietBodies(p, s, s', b, i);
    KeepDefs(p, s, s');
    forall c | 0 <= c < |p.blocks|
      ensures TermOk(p, s', c)
    {
      assert TermOk(p, s, c);
      if c != b {
        KeepTerm(p, s, s', c, i);
      } else {
        forall k | 0 <= k < |vals|
          ensures Holds(p, s', b, p.blocks[b].term[k], vals[k])
        {
          KeepHolds(p, s, s', b, i, p.blocks[b].term[k], vals[k]);
        }
      }
    }
    SameLookups(p, s, s');
    forall c, j, v | 0 <= c < |s'.body| && j in s'.body[c] && v in Reads(j)
      ensures Sourced(s', c, v)
    {
      assert Sourced(s, c, v);
      KeepSourced(p, s, s', c, v);
    }
    forall c, v | 0 <= c < |s'.body| && s'.term[c].Some? && v in s'.term[c].value
      ensures SourcedAtEnd(p, s', c, v)
    {
      assert SourcedAtEnd(p, s, c, v);
      KeepSourced(p, s, s', c, v);
    }
  }

  /** Lookups stay right if no code, promotion or lookup is added. */
  lemma SameLookups(p: Program, s: Raising, s': Raising)
    requires SameDefs(p, s, s') && QueriesOk(p, s)
    requires s'.body == s.body && s'.queries == s.queries && s'.toPromote == s.toPromote
    ensures QueriesOk(p, s')
  {
    SameDefsGrows(p, s, s');
    forall q | q in s'.queries
      ensures QueryOk(p, s', q)
    {
      assert QueryOk(p, s, q);
      if q.loc.InSlot? {
        KeepSlot(p, s, s', 0, Store(q.loc.slot + 1, Arg(0)), q, q.loc.slot);
      }
      KeepQuery(p, s, s', q);
    }
    KeepPending(p, s, s');
  }

  lemma KeepPending(p: Program, s: Raising, s': Raising)
    requires s.queries <= s'.queries && s'.toPromote <= s.toPromote
    requires forall k :: k in s.defs ==> k in s'.defs
    requires forall r, b, slot :: (r, b, slot) in s.toPromote ==> Pending(p, s, r, b, slot)
    ensures forall r, b, slot :: (r, b, slot) in s'.toPromote ==> Pending(p, s', r, b, slot)
  {
    forall r, b, slot | (r, b, slot) in s'.toPromote
      ensures Pending(p, s', r, b, slot)
    {
      assert Pending(p, s, r, b, slot);
    }
  }
}
