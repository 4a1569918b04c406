/** Every step of raising keeps the invariant, and so the raised function does what the machine function does. */
module RaisingSteps {
  import opened Wrappers
  import opened ControlFlow
  import opened ReachingDefinitions
  import opened RaisedSemantics
  import opened RaisingFunction
  import opened GoodPrograms
  import opened RaisingInvariant
  import opened RaisingCorrect
  import opened RaisingFrames
  import opened RaisingBorrows
  import opened RaisingReload
  import opened RaisingPromotion
  import opened RaisingLookups

  // ----- operands

  ghost predicate AllHold(p: Program, s: Raising, b: Block, regs: seq<Reg>, vals: seq<Value>)
    requires Shape(p, s) && b < |p.blocks|
  {
    |regs| == |vals| && forall i :: 0 <= i < |regs| ==> Holds(p, s, b, regs[i], vals[i])
  }

  /** The values are those of the registers, and block `b` may use them. */
  ghost predicate OperandsOk(p: Program, s: Raising, b: Block, regs: seq<Reg>, vals: seq<Value>)
    requires Shape(p, s) && b < |p.blocks|
  {
    && AllHold(p, s, b, regs, vals)
    && forall v :: v in vals ==> Sourced(s, b, v) && (Done(p, s, b) ==> SourcedAtEnd(p, s, b, v))
  }

  lemma OperandsStay(p: Program, s: Raising, t: Raising, b: Block, regs: seq<Reg>, vals: seq<Value>)
    requires Grows(p, s, t) && b < |p.blocks| && OperandsOk(p, s, b, regs, vals)
    requires t.progress == s.progress && t.started == s.started
    requires forall x: Reg, w :: Holds(p, s, b, x, w) ==> Holds(p, t, b, x, w)
    ensures OperandsOk(p, t, b, regs, vals)
  {
    hide Holds, Keeps;
    if Done(p, s, b) {
      KeepsStay(p, s, t, b);
    }
    forall v | v in vals
      ensures Sourced(t, b, v) && (Done(p, t, b) ==> SourcedAtEnd(p, t, b, v))
    {
      assert Sourced(s, b, v) && (Done(p, s, b) ==> SourcedAtEnd(p, s, b, v));
      KeepSourced(p, s, t, b, v);
    }
  }

  lemma StillAsked(p: Program, s: Raising, t: Raising, r: Reg, b: Block)
    requires Shape(p, s) && Shape(p, t) && b < |p.blocks| && Asked(p, s, r, b)
    requires t.progress == s.progress && t.started == s.started
    ensures Asked(p, t, r, b)
  {
    hide ReadIn;
  }

  lemma {:induction false} OperandsKeepInv(p: Program, ll: Llvm, s: Raising, regs: seq<Reg>, b: Block)
    requires Inv(p, s) && OnlyOpen(p, s, b) && forall r :: r in regs ==> Asked(p, s, r, b)
    ensures var o := Operands(p, ll, s, regs, b);
            o.Some? ==>
              && Inv(p, o.value.0) && OnlyOpen(p, o.value.0, b) && Grows(p, s, o.value.0)
              && OperandsOk(p, o.value.0, b, regs, o.value.1)
  {
    hide SimOk, UsesOk, TermsOk, Good, ProgressOk, BodiesOk, QueriesOk, ValuesOk, DefsOk, Holds, Answered, Answer;
    var o := Operands(p, ll, s, regs, b);
    if regs != [] && o.Some? {
      OperandsKeepInv(p, ll, s, Front(regs), b);
      var front := Operands(p, ll, s, Front(regs), b).value;
      assert Last(regs) in regs;
      StillAsked(p, s, front.0, Last(regs), b);
      AnswerKeepsInv(p, ll, front.0, Last(regs), b, false);
      OperandsStay(p, front.0, o.value.0, b, Front(regs), front.1);
      assert regs == Front(regs) + [Last(regs)];
      OneMore(p, o.value.0, b, Front(regs), front.1, Last(regs), Answer(p, ll, front.0, Last(regs), b, false).value);
    }
  }

  lemma OneMore(p: Program, t: Raising, b: Block, regs: seq<Reg>, vals: seq<Value>, r: Reg, v: Value)
    requires Shape(p, t) && b < |p.blocks| && OperandsOk(p, t, b, regs, vals)
    requires Holds(p, t, b, r, v) && Sourced(t, b, v) && (Done(p, t, b) ==> SourcedAtEnd(p, t, b, v))
    ensures OperandsOk(p, t, b, regs + [r], vals + [v])
  {
    hide Holds, Sourced, SourcedAtEnd;
  }

  lemma AllHoldAgree(p: Program, s: Raising, b: Block, regs: seq<Reg>, vals: seq<Value>, ev: Eval, ms: MState,
                     rs: RState)
    requires Shape(p, s) && b < |p.blocks| && AllHold(p, s, b, regs, vals)
    requires BlockEntry(p, s.queries, b, ms, rs)
    ensures Agree(GetAll(ExecM(p, s, ev, b, ms).regs, regs), GetAll(ExecR(s, ev, b, rs).env, vals))
  {
    forall i | 0 <= i < |regs|
      ensures HoldsAt(p, s, b, regs[i], vals[i], ev, ms, rs)
    {
      assert Holds(p, s, b, regs[i], vals[i]);
    }
  }

  // ----- one machine instruction

  lemma ProgressExec(p: Program, s: Raising, s': Raising, b: Block, ev: Eval, ms: MState)
    requires Shape(p, s) && Shape(p, s') && b < |p.blocks|
    requires s.progress[b] < |p.blocks[b].insts| && s'.progress[b] == s.progress[b] + 1
    ensures ExecM(p, s', ev, b, ms) == MStep(ev, p.blocks[b].insts[s.progress[b]], ExecM(p, s, ev, b, ms))
  {
    assert Front(p.blocks[b].insts[..s'.progress[b]]) == p.blocks[b].insts[..s.progress[b]];
  }

  function Next(p: Program, s: Raising, b: Block): MInst
    requires b < |p.blocks| && b < |s.progress| && s.progress[b] < |p.blocks[b].insts|
  {
    p.blocks[b].insts[s.progress[b]]
  }

  /** What raising the next instruction of block `b` may change: it appends `i`, and records a value for the register
      that the instruction writes. */
  ghost predicate Steps(p: Program, s: Raising, s': Raising, b: Block, i: RInst) {
    && Inv(p, s) && Shape(p, s')
    && b < |p.blocks| && b in s.started && s.progress[b] < |p.blocks[b].insts|
    && s'.progress == s.progress[b := s.progress[b] + 1]
    && s'.term == s.term && s'.toPromote == s.toPromote && s'.started == s.started && s'.queries == s.queries
    && s'.nextSlot == s.nextSlot && s.nextId <= s'.nextId
    && !i.Store? && (RTarget(i).Some? ==> RTarget(i).value == Inst(b, s.nextId))
    && OnlyAppends(s, s', b, i)
    && (s'.body[b] != s.body[b] ==> BodyInstOk(s', b, i) && forall v :: v in Reads(i) ==> Sourced(s, b, v))
    && (Target(Next(p, s, b)).None? ==> s'.defs == s.defs)
    && (Target(Next(p, s, b)).Some? ==>
          var k := (Target(Next(p, s, b)).value, b);
          k in s'.defs && s'.defs == s.defs[k := s'.defs[k]] && s'.defs[k].Some?
              && Sound(p, s', b, SourceNow(p, s', b, k.0), s'.defs[k].value))
  }

  lemma StepGrows(p: Program, s: Raising, s': Raising, b: Block, i: RInst)
    requires Steps(p, s, s', b, i)
    ensures Grows(p, s, s') && !Done(p, s, b)
  {
    hide SimOk, UsesOk, TermsOk, Good, BodiesOk, QueriesOk, ValuesOk, DefsOk, ProgressOk;
    AppendLoads(s, s', b, i);
  }

  lemma StepKeepsDefs(p: Program, s: Raising, s': Raising, b: Block, i: RInst)
    requires Steps(p, s, s', b, i)
    ensures DefsOk(p, s') && ProgressOk(p, s')
  {
    hide SimOk, UsesOk, TermsOk, Good, BodiesOk, QueriesOk, ValuesOk, Meets, Sound, BodyInstOk, Sourced;
    StepGrows(p, s, s', b, i);
    assert Target(Next(p, s, b)).Some? ==> Writes(p, Target(Next(p, s, b)).value, b);
    forall r, c | (r, c) in s'.defs
      ensures EntryOk(p, s', r, c)
    {
      StepKeepsEntry(p, s, s', b, i, r, c);
    }
    forall c: Block, k | 0 <= c < |p.blocks| && 0 <= k < s'.progress[c] && Target(p.blocks[c].insts[k]).Some?
      ensures var r := Target(p.blocks[c].insts[k]).value; (r, c) in s'.defs && s'.defs[(r, c)].Some?
    {
      if k < s.progress[c] {
        var r := Target(p.blocks[c].insts[k]).value;
        assert (r, c) in s.defs && s.defs[(r, c)].Some?;
      }
    }
  }

  lemma StepKeepsEntry(p: Program, s: Raising, s': Raising, b: Block, i: RInst, r: Reg, c: Block)
    requires Steps(p, s, s', b, i) && (r, c) in s'.defs
    ensures EntryOk(p, s', r, c)
  {
    hide SimOk, UsesOk, TermsOk, Good, BodiesOk, QueriesOk, ValuesOk, ProgressOk, Meets, Sound, BodyInstOk, Sourced,
         Sets,
         WrittenBefore, Grows, OnlyAppends;
    StepGrows(p, s, s', b, i);
    NextSource(p, s, s', b, r);
    if c == b && Target(Next(p, s, b)) == Some(r) {
      NextWrites(p, s, b, r);
    } else {
      assert (r, c) in s.defs && EntryOk(p, s, r, c);
      if s.defs[(r, c)].Some? {
        KeepSound(p, s, s', c, SourceNow(p, s, c, r), s.defs[(r, c)].value);
      }
    }
  }

  lemma NextWrites(p: Program, s: Raising, b: Block, r: Reg)
    requires Shape(p, s) && b < |p.blocks| && s.progress[b] < |p.blocks[b].insts| && Target(Next(p, s, b)) == Some(r)
    ensures Sets(p, r, b)
  {
  }

  lemma StepKeepsCode(p: Program, s: Raising, s': Raising, b: Block, i: RInst)
    requires Steps(p, s, s', b, i)
    ensures BodiesOk(p, s') && UsesOk(p, s')
  {
    hide SimOk, Good, QueriesOk, ValuesOk, DefsOk, Holds;
    StepGrows(p, s, s', b, i);
    forall c, j | 0 <= c < |s'.body| && j in s'.body[c]
      ensures BodyInstOk(s', c, j) && (!Done(p, s', c) ==> !j.Store?)
      ensures forall v :: v in Reads(j) ==> Sourced(s', c, v)
    {
      assert Appends(s, s', c, i);
      if j in s.body[c] {
        assert BodyInstOk(s, c, j);
      }
      forall v | v in Reads(j)
        ensures Sourced(s', c, v)
      {
        assert Sourced(s, c, v);
        KeepSourced(p, s, s', c, v);
      }
    }
    forall c | 0 <= c < |s'.body|
      ensures StoresLast(s'.body[c])
    {
      assert StoresLast(s.body[c]);
      if c == b {
        assert forall k :: 0 <= k < |s.body[b]| ==> s.body[b][k] in s.body[b];
        assert forall j :: j in s.body[b] ==> !j.Store?;
      }
    }
    forall c, v | 0 <= c < |s'.body| && s'.term[c].Some? && v in s'.term[c].value
      ensures SourcedAtEnd(p, s', c, v)
    {
      assert SourcedAtEnd(p, s, c, v);
      assert TermOk(p, s, c);
      KeepsStay(p, s, s', c);
      KeepSourced(p, s, s', c, v);
    }
  }

  lemma StepKeepsLookups(p: Program, s: Raising, s': Raising, b: Block, i: RInst)
    requires Steps(p, s, s', b, i)
    ensures QueriesOk(p, s')
  {
    hide SimOk, TermsOk, UsesOk, Good, ValuesOk, BodiesOk, ProgressOk, NarrowOk, SlotOk, DirectOk, QueryCloses,
         MayPromote, BodyInstOk, Sourced;
    StepGrows(p, s, s', b, i);
    assert forall r, c :: Defines(p.args, s'.defs, r, c) ==>
                          Defines(p.args, s.defs, r, c) by { StepDefines(p, s, s', b, i); }
    forall q | q in s'.queries
      ensures QueryOk(p, s', q)
    {
      assert QueryOk(p, s, q);
      if q.loc.InSlot? {
        DefsInRange(p, s, q);
        KeepSlot(p, s, s', b, i, q, q.loc.slot);
      }
      KeepQuery(p, s, s', q);
    }
    KeepPending(p, s, s');
  }

  lemma StepDefines(p: Program, s: Raising, s': Raising, b: Block, i: RInst)
    requires Steps(p, s, s', b, i)
    ensures forall r, c :: Defines(p.args, s'.defs, r, c) ==> Defines(p.args, s.defs, r, c)
  {
    hide SimOk, TermsOk, UsesOk, Good, ValuesOk, BodiesOk, ProgressOk, QueriesOk, BodyInstOk, Sourced, MayPromote;
    if Target(Next(p, s, b)).Some? {
      var r := Target(Next(p, s, b)).value;
      assert Writes(p, r, b) && Sets(p, r, b);
    }
  }

  lemma NextKeepsHolds(p: Program, s: Raising, s': Raising, b: Block, i: RInst, r: Reg, v: Value)
    requires Shape(p, s) && Shape(p, s') && b < |p.blocks| && s.progress[b] < |p.blocks[b].insts|
    requires s'.progress[b] == s.progress[b] + 1 && s'.queries == s.queries && s.nextId <= s'.nextId
    requires Appends(s, s', b, i) && RTarget(i) != Some(v)
    requires Holds(p, s, b, r, v) && Target(Next(p, s, b)) != Some(r)
    ensures Holds(p, s', b, r, v)
  {
    forall ev: Eval, ms: MState, rs: RState
      ensures HoldsAt(p, s', b, r, v, ev, ms, rs)
    {
      hide BlockEntry;
      assert HoldsAt(p, s, b, r, v, ev, ms, rs);
      ProgressExec(p, s, s', b, ev, ms);
      if s'.body[b] != s.body[b] {
        ExecAppend(s, s', b, i, ev, rs);
      }
    }
  }

  /** The registers of a block after one more instruction: all but the one it writes keep their values. */
  lemma StepKeepsHolds(p: Program, s: Raising, s': Raising, b: Block, i: RInst, r: Reg, v: Value)
    requires Steps(p, s, s', b, i) && Holds(p, s, b, r, v) && Target(Next(p, s, b)) != Some(r)
    ensures Holds(p, s', b, r, v)
  {
    hide Inv, BodyInstOk, Sourced, HoldsAt;
    InvShape(p, s);
    NextKeepsHolds(p, s, s', b, i, r, v);
  }

  lemma InvShape(p: Program, s: Raising)
    requires Inv(p, s)
    ensures Shape(p, s)
  {
  }

  lemma StepKeepsSim(p: Program, s: Raising, s': Raising, b: Block, i: RInst)
    requires Steps(p, s, s', b, i) && OutHolds(p, s', b)
    requires Target(Next(p, s, b)).Some? ==>
             Holds(p, s', b, Target(Next(p, s, b)).value, s'.defs[(Target(Next(p, s, b)).value, b)].value)
    ensures SimOk(p, s') && TermsOk(p, s')
  {
    hide UsesOk, Good, ValuesOk, BodiesOk, ProgressOk, QueriesOk, BodyInstOk, Sourced, MayPromote, DefsOk, Holds,
         OutHolds;
    StepGrows(p, s, s', b, i);
    forall c | 0 <= c < |p.blocks|
      ensures OutHolds(p, s', c) && TermOk(p, s', c)
    {
      assert TermOk(p, s, c);
      if c != b {
        KeepOut(p, s, s', c, Store(0, Arg(0)));
        KeepTerm(p, s, s', c, Store(0, Arg(0)));
      }
    }
    forall x: Reg, c: Block | c < |p.blocks| && LocalVal(p, s', x, c).Some?
      ensures Holds(p, s', c, x, LocalVal(p, s', x, c).value)
    {
      if c == b && Target(Next(p, s, b)) == Some(x) {
      } else {
        assert LocalVal(p, s', x, c) == LocalVal(p, s, x, c);
        if c == b {
          StepKeepsHolds(p, s, s', b, i, x, LocalVal(p, s, x, c).value);
        } else {
          KeepHolds(p, s, s', c, Store(0, Arg(0)), x, LocalVal(p, s, x, c).value);
        }
      }
    }
  }

  /** What the next instruction of block `b`, a copy, may record: what comes from where its source does. */
  ghost predicate Copied(p: Program, s: Raising, b: Block, v: Value)
    requires Shape(p, s) && b < |p.blocks| && s.progress[b] < |p.blocks[b].insts| && Next(p, s, b).Copy?
  {
    var src := Next(p, s, b).src;
    Sound(p, s, b, SourceNow(p, s, b, src), v) && (v.Inst? && SourceNow(p, s, b, src).Made? ==> Keeps(s, src, b, v))
  }

  /** What the next instruction of block `b` records is new, or copied. */
  ghost predicate Records(p: Program, s: Raising, s': Raising, b: Block)
    requires Shape(p, s) && b < |p.blocks| && s.progress[b] < |p.blocks[b].insts|
  {
    && (Next(p, s, b).Op? ==> s'.defs == s.defs[(Next(p, s, b).dst, b) := Some(Inst(b, s.nextId))])
    && (Next(p, s, b).Copy? ==> exists v :: Copied(p, s, b, v) && s'.defs == s.defs[(Next(p, s, b).dst, b) := Some(v)])
  }

  /** Two registers of a block share a value only if it was loaded or one instruction made it: a new value is in no
      other register, and a copy has the source of what it copies. */
  lemma StepKeepsValues(p: Program, s: Raising, s': Raising, b: Block, i: RInst)
    requires Steps(p, s, s', b, i) && Records(p, s, s', b) && DefsOk(p, s')
    ensures ValuesOk(p, s')
  {
    hide UsesOk, CopiesSafe, Apart, BodiesOk, QueriesOk, BodyInstOk, Sourced, SimOk, TermsOk, ProgressOk, DefsOk,
         SharesOk,
         Records, BorrowsOk, Sound;
    forall c | 0 <= c < |p.blocks|
      ensures SharesOk(p, s', c) && (c != b ==> BorrowsOk(p, s', c))
    {
      assert SharesOk(p, s, c) && BorrowsOk(p, s, c);
      if c == b {
        NextShares(p, s, s', b, i);
      } else {
        OtherShares(p, s, s', b, i, c);
        OtherBorrows(p, s, s', b, i, c);
      }
    }
    BorrowsAtEnd(p, s', b);
  }

  lemma OtherShares(p: Program, s: Raising, s': Raising, b: Block, i: RInst, c: Block)
    requires Steps(p, s, s', b, i) && c < |p.blocks| && c != b && SharesOk(p, s, c)
    ensures SharesOk(p, s', c)
  {
    hide Inv, BodyInstOk, Sourced, Sound;
    InvShape(p, s);
    StepGrows(p, s, s', b, i);
    KeepShares(p, s, s', c);
  }

  lemma NextSource(p: Program, s: Raising, s': Raising, b: Block, r: Reg)
    requires Shape(p, s) && Shape(p, s') && b < |p.blocks| && s.progress[b] < |p.blocks[b].insts|
    requires s'.progress[b] == s.progress[b] + 1
    ensures SourceNow(p, s', b, r) == if Target(Next(p, s, b)) != Some(r) then SourceNow(p, s, b, r)
                                      else if Next(p, s, b).Copy? then SourceNow(p, s, b, Next(p, s, b).src)
                                      else Made(s.progress[b])
    ensures WrittenBefore(p, b, s'.progress[b], r) <==>
            WrittenBefore(p, b, s.progress[b], r) || Target(Next(p, s, b)) == Some(r)
  {
    var insts := p.blocks[b].insts[..s'.progress[b]];
    assert Front(insts) == p.blocks[b].insts[..s.progress[b]] && Last(insts) == Next(p, s, b);
    if Target(Next(p, s, b)) == Some(r) {
      assert Target(p.blocks[b].insts[s.progress[b]]) == Some(r);
    }
  }

  lemma NextShares(p: Program, s: Raising, s': Raising, b: Block, i: RInst)
    requires Steps(p, s, s', b, i) && SharesOk(p, s, b) && Records(p, s, s', b)
    ensures SharesOk(p, s', b)
  {
    hide Inv, BodyInstOk, Sourced, SourceOf, WrittenBefore, IsLoaded, Lent;
    InvShape(p, s);
    StepGrows(p, s, s', b, i);
    NewValue(p, s, b);
    forall r1: Reg, r2: Reg, v | r1 != r2 && Has(s', r1, b, v) && Has(s', r2, b, v)
      ensures IsLoaded(s'.body, v) || SameSource(p.blocks[b].insts[..s'.progress[b]], r1, r2)
    {
      NextSource(p, s, s', b, r1);
      NextSource(p, s, s', b, r2);
      LoadStays(p, s, s', v);
      if Target(Next(p, s, b)) == Some(r1) {
        NextShared(p, s, s', b, r1, r2, v);
      } else if Target(Next(p, s, b)) == Some(r2) {
        NextShared(p, s, s', b, r2, r1, v);
      } else {
        assert Has(s, r1, b, v) && Has(s, r2, b, v);
      }
    }
  }

  /** The register that the next instruction writes shares its value only with others of the same source. */
  lemma NextShared(p: Program, s: Raising, s': Raising, b: Block, dst: Reg, r: Reg, v: Value)
    requires Shape(p, s) && b < |p.blocks| && s.progress[b] < |p.blocks[b].insts| && SharesOk(p, s, b)
             && Records(p, s, s', b)
    requires Target(Next(p, s, b)) == Some(dst) && r != dst && Has(s', dst, b, v) && Has(s', r, b, v)
    requires forall x, c :: !Keeps(s, x, c, Inst(b, s.nextId))
    ensures Next(p, s, b).Copy?
    ensures var x, y := SourceNow(p, s, b, Next(p, s, b).src), SourceNow(p, s, b, r);
            IsLoaded(s.body, v) || (x.Made? && x == y)
  {
    hide SourceOf, IsLoaded, Lent;
    assert Has(s, r, b, v);
    if Next(p, s, b).Copy? && SourceNow(p, s, b, Next(p, s, b).src).Made? {
      assert Has(s, Next(p, s, b).src, b, v);
    }
  }

  /** A value of a block that is not done is borrowed by no other. */
  lemma NotBorrowedYet(p: Program, s: Raising, b: Block)
    requires Inv(p, s) && !Done(p, s, b)
    ensures forall r, c, v :: Keeps(s, r, c, v) && v.block == b ==> c == b
  {
    hide SimOk, UsesOk, TermsOk, Good, ProgressOk, BodiesOk, QueriesOk, ValuesOk, Meets, Sets, Leads, Sourced, Joined,
         ReadIn,
         IsLoaded;
    forall r, c, v | Keeps(s, r, c, v) && v.block == b
      ensures c == b
    {
      assert EntryOk(p, s, r, c);
    }
  }

  lemma OtherBorrows(p: Program, s: Raising, s': Raising, b: Block, i: RInst, c: Block)
    requires Steps(p, s, s', b, i) && c < |p.blocks| && c != b && BorrowsOk(p, s, c)
    ensures BorrowsOk(p, s', c)
  {
    hide Inv, Sound, BodyInstOk, Sourced, WantedAtEnd, MayPromote, IsLoaded;
    InvShape(p, s);
    StepGrows(p, s, s', b, i);
    NotBorrowedYet(p, s, b);
    assert Done(p, s', c) <==> Done(p, s, c);
    forall r, x, v | Done(p, s', c) && Keeps(s', r, c, v) && v.block != c && WantedAtEnd(p, r, c)
        && Keeps(s', x, v.block, v)
      ensures IsLoaded(s'.body, v) || !MayPromote(p, x, v.block)
    {
      assert Keeps(s, r, c, v) && Keeps(s, x, v.block, v);
      LoadStays(p, s, s', v);
    }
  }

  lemma StepKeepsInv(p: Program, s: Raising, s': Raising, b: Block, i: RInst)
    requires Steps(p, s, s', b, i) && OutHolds(p, s', b)
    requires Target(Next(p, s, b)).Some? ==>
             Holds(p, s', b, Target(Next(p, s, b)).value, s'.defs[(Target(Next(p, s, b)).value, b)].value)
    requires Records(p, s, s', b)
    ensures Inv(p, s')
  {
    hide SimOk, UsesOk, TermsOk, Good, ProgressOk, BodiesOk, QueriesOk, ValuesOk, DefsOk, Holds, OutHolds, BodyInstOk,
         Sourced, Records;
    StepKeepsDefs(p, s, s', b, i);
    StepKeepsCode(p, s, s', b, i);
    StepKeepsLookups(p, s, s', b, i);
    StepKeepsSim(p, s, s', b, i);
    StepKeepsValues(p, s, s', b, i);
  }

  lemma OpHolds(p: Program, s: Raising, b: Block, dst: Reg, op: nat, srcs: seq<Reg>, vals: seq<Value>)
    requires Inv(p, s) && b < |p.blocks| && s.progress[b] < |p.blocks[b].insts| && Next(p, s, b) == Op(dst, op, srcs)
    requires AllHold(p, s, b, srcs, vals) && Shape(p, WithOp(s, b, dst, op, vals))
    ensures var s' := WithOp(s, b, dst, op, vals); Holds(p, s', b, dst, Inst(b, s.nextId)) && OutHolds(p, s', b)
  {
    hide UsesOk, TermsOk, Good, ProgressOk, BodiesOk, QueriesOk, ValuesOk, DefsOk;
    var s' := WithOp(s, b, dst, op, vals);
    var v := Inst(b, s.nextId);
    assert s'.body[b] == s.body[b] + [Compute(v, op, vals)] && s'.queries == s.queries;
    forall ev: Eval, ms: MState, rs: RState
      ensures HoldsAt(p, s', b, dst, v, ev, ms, rs) && OutAt(p, s', b, ev, ms, rs)
    {
      hide Holds, AllHold, WithOp, BlockEntry;
      if BlockEntry(p, s.queries, b, ms, rs) {
        AllHoldAgree(p, s, b, srcs, vals, ev, ms, rs);
        ProgressExec(p, s, s', b, ev, ms);
        ExecAppend(s, s', b, Compute(v, op, vals), ev, rs);
        assert OutHolds(p, s, b) && OutAt(p, s, b, ev, ms, rs);
        ApplyAgree(ev, op, ExecM(p, s, ev, b, ms).tick, GetAll(ExecM(p, s, ev, b, ms).regs, srcs),
                   GetAll(ExecR(s, ev, b, rs).env, vals));
      }
    }
  }

  lemma OperandsNamed(p: Program, s: Raising, b: Block, regs: seq<Reg>, vals: seq<Value>)
    requires Shape(p, s) && b < |p.blocks| && OperandsOk(p, s, b, regs, vals)
    ensures forall v :: v in vals ==> Named(s, v) && Sourced(s, b, v)
  {
    hide HoldsAt;
    forall v | v in vals
      ensures Named(s, v)
    {
      var k :| 0 <= k < |vals| && vals[k] == v;
      assert Holds(p, s, b, regs[k], vals[k]);
    }
  }

  lemma OpKeepsInv(p: Program, s: Raising, b: Block, dst: Reg, op: nat, srcs: seq<Reg>, vals: seq<Value>)
    requires Inv(p, s) && b < |p.blocks| && b in s.started && s.progress[b] < |p.blocks[b].insts|
    requires Next(p, s, b) == Op(dst, op, srcs) && OperandsOk(p, s, b, srcs, vals)
    ensures Inv(p, WithOp(s, b, dst, op, vals))
  {
    hide SimOk, UsesOk, TermsOk, Good, ProgressOk, BodiesOk, QueriesOk, ValuesOk, DefsOk, Holds, OutHolds, Sourced;
    var s' := WithOp(s, b, dst, op, vals);
    assert Shape(p, s');
    OperandsNamed(p, s, b, srcs, vals);
    assert Steps(p, s, s', b, Compute(Inst(b, s.nextId), op, vals));
    OpHolds(p, s, b, dst, op, srcs, vals);
    StepKeepsInv(p, s, s', b, Compute(Inst(b, s.nextId), op, vals));
  }

  lemma CopyHolds(p: Program, s: Raising, b: Block, dst: Reg, src: Reg, v: Value)
    requires Inv(p, s) && b < |p.blocks| && s.progress[b] < |p.blocks[b].insts| && Next(p, s, b) == MInst.Copy(dst, src)
    requires Holds(p, s, b, src, v) && Shape(p, WithCopy(s, b, dst, v))
    ensures var s' := WithCopy(s, b, dst, v); Holds(p, s', b, dst, v) && OutHolds(p, s', b)
  {
    hide UsesOk, TermsOk, Good, ProgressOk, BodiesOk, QueriesOk, ValuesOk, DefsOk;
    var s' := WithCopy(s, b, dst, v);
    forall ev: Eval, ms: MState, rs: RState
      ensures HoldsAt(p, s', b, dst, v, ev, ms, rs) && OutAt(p, s', b, ev, ms, rs)
    {
      hide BlockEntry;
      ProgressExec(p, s, s', b, ev, ms);
      assert OutHolds(p, s, b) && OutAt(p, s, b, ev, ms, rs) && HoldsAt(p, s, b, src, v, ev, ms, rs);
    }
  }

  lemma CopyKeepsInv(p: Program, s: Raising, b: Block, dst: Reg, src: Reg, v: Value)
    requires Inv(p, s) && b < |p.blocks| && b in s.started && s.progress[b] < |p.blocks[b].insts|
    requires Next(p, s, b) == MInst.Copy(dst, src) && Holds(p, s, b, src, v) && Copied(p, s, b, v)
    ensures Inv(p, WithCopy(s, b, dst, v))
  {
    hide UsesOk, TermsOk, Good, ProgressOk, BodiesOk, QueriesOk, ValuesOk, DefsOk, HoldsAt, OutHolds, Sound, SourceOf;
    var s' := WithCopy(s, b, dst, v);
    assert Shape(p, s');
    NextSource(p, s, s', b, dst);
    assert Sound(p, s', b, SourceNow(p, s', b, dst), v) by { CopyStaysSound(p, s, b, dst, src, v); }
    assert Steps(p, s, s', b, Emit([]));
    CopyHolds(p, s, b, dst, src, v);
    StepKeepsInv(p, s, s', b, Emit([]));
  }

  lemma CopyStaysSound(p: Program, s: Raising, b: Block, dst: Reg, src: Reg, v: Value)
    requires Shape(p, s) && b < |p.blocks| && s.progress[b] < |p.blocks[b].insts| && Shape(p, WithCopy(s, b, dst, v))
    requires Next(p, s, b) == MInst.Copy(dst, src) && Sound(p, s, b, SourceNow(p, s, b, src), v) && b in s.started
    requires Inv(p, s)
    ensures Sound(p, WithCopy(s, b, dst, v), b, SourceNow(p, s, b, src), v)
  {
    hide Inv, SourceOf, Joined, ReadIn, Leads, Carries, IsLoaded;
    var s' := WithCopy(s, b, dst, v);
    if v.Inst? && SourceNow(p, s, b, src).Came? && v.block != b {
      var r := SourceNow(p, s, b, src).reg;
      var d :| LentBy(p, s, r, b, v, d);
      assert LentBy(p, s', r, b, v, d);
      KeepSourced(p, s, s', b, v);
    }
  }

  lemma UseHolds(p: Program, s: Raising, b: Block, regs: seq<Reg>, vals: seq<Value>)
    requires Inv(p, s) && b < |p.blocks| && s.progress[b] < |p.blocks[b].insts| && Next(p, s, b) == MInst.Use(regs)
    requires AllHold(p, s, b, regs, vals) && Shape(p, WithEmit(s, b, vals))
    ensures OutHolds(p, WithEmit(s, b, vals), b)
  {
    hide UsesOk, TermsOk, Good, ProgressOk, BodiesOk, QueriesOk, ValuesOk, DefsOk;
    var s' := WithEmit(s, b, vals);
    forall ev: Eval, ms: MState, rs: RState
      ensures OutAt(p, s', b, ev, ms, rs)
    {
      hide Holds, AllHold, BlockEntry;
      if BlockEntry(p, s.queries, b, ms, rs) {
        AllHoldAgree(p, s, b, regs, vals, ev, ms, rs);
        ProgressExec(p, s, s', b, ev, ms);
        ExecAppend(s, s', b, Emit(vals), ev, rs);
        assert OutHolds(p, s, b) && OutAt(p, s, b, ev, ms, rs);
      }
    }
  }

  lemma UseKeepsInv(p: Program, s: Raising, b: Block, regs: seq<Reg>, vals: seq<Value>)
    requires Inv(p, s) && b < |p.blocks| && b in s.started && s.progress[b] < |p.blocks[b].insts|
    requires Next(p, s, b) == MInst.Use(regs) && OperandsOk(p, s, b, regs, vals)
    ensures Inv(p, WithEmit(s, b, vals))
  {
    hide SimOk, UsesOk, TermsOk, Good, ProgressOk, BodiesOk, QueriesOk, ValuesOk, DefsOk, Holds, OutHolds, Sourced;
    var s' := WithEmit(s, b, vals);
    assert Shape(p, s');
    OperandsNamed(p, s, b, regs, vals);
    assert Steps(p, s, s', b, Emit(vals));
    UseHolds(p, s, b, regs, vals);
    StepKeepsInv(p, s, s', b, Emit(vals));
  }

  /** The next instruction of block `b`. */
  lemma InstKeepsInv(p: Program, ll: Llvm, s: Raising, b: Block)
    requires Inv(p, s) && OnlyOpen(p, s, b) && s.progress[b] < |p.blocks[b].insts|
    ensures var t := RaisedInst(p, ll, s, b); t.Some? ==> Inv(p, t.value) && OnlyOpen(p, t.value, b)
  {
    hide SimOk, UsesOk, TermsOk, Good, ProgressOk, BodiesOk, QueriesOk, ValuesOk, DefsOk, Holds, Answered, Answer;
    var i := Next(p, s, b);
    var o := Operands(p, ll, s, ReadRegs(i), b);
    if o.Some? {
      var (t, vals) := o.value;
      OperandsKeepInv(p, ll, s, ReadRegs(i), b);
      match i
      case Op(dst, op, srcs) =>
        OpKeepsInv(p, t, b, dst, op, srcs, vals);
      case Copy(dst, src) =>
        CopyIsSound(p, ll, s, b);
        CopyKeepsInv(p, t, b, dst, src, vals[0]);
      case Use(regs) =>
        UseKeepsInv(p, t, b, regs, vals);
    }
  }

  /** What is copied may be recorded. */
  lemma CopyIsSound(p: Program, ll: Llvm, s: Raising, b: Block)
    requires Inv(p, s) && OnlyOpen(p, s, b) && s.progress[b] < |p.blocks[b].insts| && Next(p, s, b).Copy?
    ensures var o := Operands(p, ll, s, [Next(p, s, b).src], b);
            o.Some? ==> |o.value.1| == 1 && Copied(p, o.value.0, b, o.value.1[0])
  {
    hide SimOk, UsesOk, TermsOk, Good, ProgressOk, BodiesOk, QueriesOk, ValuesOk, DefsOk, Answered, Holds, Copied;
    var src := Next(p, s, b).src;
    assert Front([src]) == [] && Last([src]) == src;
    NextAsked(p, s, b, src);
    AnswerKeepsInv(p, ll, s, src, b, false);
    var t := Answered(p, ll, s, src, b, false);
    if LocalVal(p, t, src, b).Some? {
      LocalIsCopied(p, t, b, LocalVal(p, t, src, b).value);
      AnswerIsLocal(p, ll, s, src, b);
    } else {
      FoundIsCopied(p, ll, s, b);
    }
  }

  /** The next instruction asks for what it reads. */
  lemma NextAsked(p: Program, s: Raising, b: Block, r: Reg)
    requires Shape(p, s) && b < |p.blocks| && s.progress[b] < |p.blocks[b].insts| && r in ReadRegs(Next(p, s, b))
    ensures Asked(p, s, r, b)
  {
  }

  /** What a block has a value for after a lookup is that. */
  lemma AnswerIsLocal(p: Program, ll: Llvm, s: Raising, r: Reg, b: Block)
    requires Shape(p, s) && b < |p.blocks|
    ensures LocalVal(p, Answered(p, ll, s, r, b, false), r, b).Some? && Answer(p, ll, s, r, b, false).Some? ==>
            Answer(p, ll, s, r, b, false) == LocalVal(p, Answered(p, ll, s, r, b, false), r, b)
  {
    var rds := Defs(p, s, r, b, false);
    if LocalVal(p, s, r, b).None? && |rds| == 1 && rds[0].1.Some? {
      assert LocalVal(p, WithQuery(s, SearchQuery(p, s, r, b, Direct(rds[0].1.value)), {}), r, b)
             == LocalVal(p, s, r, b);
    }
  }

  /** The source of a copy has a value in the block. */
  lemma LocalIsCopied(p: Program, s: Raising, b: Block, v: Value)
    requires Inv(p, s) && b < |p.blocks| && s.progress[b] < |p.blocks[b].insts| && Next(p, s, b).Copy?
    requires LocalVal(p, s, Next(p, s, b).src, b) == Some(v)
    ensures Copied(p, s, b, v)
  {
    hide SimOk, UsesOk, TermsOk, Good, ProgressOk, BodiesOk, QueriesOk, ValuesOk, Meets, Sets, Lent, IsLoaded;
    var src := Next(p, s, b).src;
    if v.Inst? {
      assert Keeps(s, src, b, v) && EntryOk(p, s, src, b);
    }
  }

  /** The source of a copy has its value from one block. */
  lemma FoundIsCopied(p: Program, ll: Llvm, s: Raising, b: Block)
    requires Inv(p, s) && OnlyOpen(p, s, b) && s.progress[b] < |p.blocks[b].insts| && Next(p, s, b).Copy?
    requires LocalVal(p, Answered(p, ll, s, Next(p, s, b).src, b, false), Next(p, s, b).src, b).None?
    ensures var src := Next(p, s, b).src;
            var v := Answer(p, ll, s, src, b, false);
            v.Some? ==> Copied(p, Answered(p, ll, s, src, b, false), b, v.value)
  {
    hide SimOk, UsesOk, TermsOk, Good, ProgressOk, BodiesOk, QueriesOk, ValuesOk, DefsOk, Meets, ReadIn, WrittenBefore,
         Sets,
         FromSlot, Lent, Carries;
    var src := Next(p, s, b).src;
    var rds := Defs(p, s, src, b, false);
    NextAsked(p, s, b, src);
    NotWrittenYet(p, s, src, b);
    SearchFinds(p, s, src, b);
    UnwrittenCame(p, b, s.progress[b], src);
    if |rds| == 1 && rds[0].1.Some? {
      var (d, v) := (rds[0].0, rds[0].1.value);
      assert rds == [(d, Some(v))];
      if v.Inst? {
        FoundIsLent(p, s, b, src, d, v);
      }
      assert SourceNow(p, WithQuery(s, SearchQuery(p, s, src, b, Direct(v)), {}), b, src) == Came(src);
    }
  }

  /** A value that is found in one block only is lent by that. */
  lemma FoundIsLent(p: Program, s: Raising, b: Block, src: Reg, d: Block, v: Value)
    requires Inv(p, s) && FoundDefs(p, s, src, b, [(d, Some(v))]) && v.Inst?
    ensures var t := WithQuery(s, SearchQuery(p, s, src, b, Direct(v)), {});
            Shape(p, t) && b != 0 && v.id < t.nextId && v.block != b && Lent(p, t, src, b, v)
  {
    hide SimOk, UsesOk, TermsOk, ProgressOk, BodiesOk, QueriesOk, ValuesOk, DefsOk, Meets, ReadIn, Joined, Sets,
         Disturbs,
         Clear, Flows, CopiesSafe, Apart, MayPromote;
    var q := SearchQuery(p, s, src, b, Direct(v));
    var t := WithQuery(s, q, {});
    var rd: ReachingDef := (d, Some(v));
    assert rd in [rd];
    ItsValue(p, s, src, d, v);
    NotJoined(p, s, src, b, rd);
    FlowsLeads(p.preds, SetBlocks(p, src), d, b);
    if v.block == d {
      ClearNowhere(p.preds, {}, d);
    } else {
      KeptIsSafe(p, s, src, d, v);
      ReadDisturbs(p, src, d, b);
      LentOnByWriting(p, s, src, d, v);
      ClearOn(p.preds, {}, v.block, d, b);
    }
    assert Done(p, s, v.block) by { HomeIsDone(p, s, src, d, v); }
    assert q in t.queries;
    assert Sourced(t, b, v);
    assert LentBy(p, t, src, b, v, d);
  }

  lemma HomeIsDone(p: Program, s: Raising, r: Reg, d: Block, v: Value)
    requires Shape(p, s) && DefsOk(p, s) && Done(p, s, d) && Keeps(s, r, d, v)
    ensures Done(p, s, v.block)
  {
    hide Meets, Sets, IsLoaded, Joined, ReadIn, Leads, Carries, DefsOk;
    ItsEntry(p, s, r, d, v);
  }

  /** Where the search finds one definition, two cannot be sure to come in. */
  lemma NotJoined(p: Program, s: Raising, r: Reg, b: Block, rd: ReachingDef)
    requires Shape(p, s) && DefsOk(p, s) && ReachingFrom(p.preds, p.args, s.defs, r, b, 0) == [rd]
    ensures !Joined(p, r, b)
  {
    hide DefsOk, Sets, Meets;
    var defBlocks := DefBlocks(p.args, s.defs, r, |p.preds|);
    assert defBlocks <= MaySet(p, r) by { DefsMaySet(p, s, r); }
    forall d: Block | Sets(p, r, d) && Reaches(p.preds, MaySet(p, r), d, b)
      ensures d == rd.0
    {
      ReachesFlows(p.preds, MaySet(p, r), d, b);
      FlowsFewer(p.preds, MaySet(p, r), defBlocks, d, b);
      SetsDefine(p, s, r, d);
      ReachesFlows(p.preds, defBlocks, d, b);
      assert (d, InBlock(p.args, s.defs, r, d).value) in [rd];
    }
  }

  lemma DefsMaySet(p: Program, s: Raising, r: Reg)
    requires Shape(p, s) && DefsOk(p, s)
    ensures DefBlocks(p.args, s.defs, r, |p.preds|) <= MaySet(p, r)
  {
    hide DefsOk, Sets, Meets;
    forall d | d in DefBlocks(p.args, s.defs, r, |p.preds|)
      ensures d in MaySet(p, r)
    {
      DefiningSets(p, s, r, d);
    }
  }

  lemma SetsDefine(p: Program, s: Raising, r: Reg, d: Block)
    requires Shape(p, s) && DefsOk(p, s) && Sets(p, r, d)
    ensures d < |p.preds| && Defines(p.args, s.defs, r, d)
  {
  }

  // ----- blocks

  lemma InitialInv(p: Program, s: Raising)
    requires Good(p) && Initial(p, s)
    ensures Inv(p, s)
  {
    hide Good;
    forall b, ev: Eval, ms: MState, rs: RState | 0 <= b < |p.blocks|
      ensures OutAt(p, s, b, ev, ms, rs)
      ensures ExecM(p, s, ev, b, ms) == ms && ExecR(s, ev, b, rs) == rs
    {
    }
    forall r: Reg, b: Block | b < |p.blocks| && LocalVal(p, s, r, b).Some?
      ensures Holds(p, s, b, r, LocalVal(p, s, r, b).value)
    {
      forall ev: Eval, ms: MState, rs: RState
        ensures HoldsAt(p, s, b, r, LocalVal(p, s, r, b).value, ev, ms, rs)
      {
        assert ExecM(p, s, ev, b, ms) == ms && ExecR(s, ev, b, rs) == rs;
      }
    }
  }

  /** Blocks are raised one at a time, the entry first. */
  ghost predicate CanBegin(p: Program, s: Raising, b: Block)
    requires Shape(p, s)
  {
    && b < |p.blocks| && b !in s.started
    && (s.started == {} ==> b == 0)
    && (forall c :: c in s.started ==> Done(p, s, c))
  }

  lemma BeginKeepsInv(p: Program, s: Raising, b: Block)
    requires Inv(p, s) && CanBegin(p, s, b)
    ensures s.progress[b] == 0
    ensures Inv(p, s.(started := s.started + {b})) && OnlyOpen(p, s.(started := s.started + {b}), b)
  {
    hide Good, BodyInstOk, StoresLast, SimOk, ValuesOk, Sourced, SourcedAtEnd, MayPromote, Sets;
    var s' := s.(started := s.started + {b});
    assert Grows(p, s, s');
    assert s.progress[b] == 0 && forall c :: c != b ==> (Done(p, s', c) <==> Done(p, s, c));
    BeginKeepsSim(p, s, s');
    forall c, i | 0 <= c < |s'.body| && i in s'.body[c]
      ensures BodyInstOk(s', c, i) && (!Done(p, s', c) ==> !i.Store?)
    {
      assert BodyInstOk(s, c, i) && BodyInstOk(s', c, i) by { SameInst(s, s', c, i); }
    }
    forall r, c | (r, c) in s'.defs
      ensures EntryOk(p, s', r, c)
    {
      assert EntryOk(p, s, r, c);
      BeginKeepsEntry(p, s, s', r, c);
    }
    BeginKeepsLookups(p, s, s');
    forall c, j, v | 0 <= c < |s'.body| && j in s'.body[c] && v in Reads(j)
      ensures Sourced(s', c, v)
    {
      assert Sourced(s, c, v);
      KeepSourced(p, s, s', c, v);
    }
    forall c, v | 0 <= c < |s'.body| && s'.term[c].Some? && v in s'.term[c].value
      ensures SourcedAtEnd(p, s', c, v)
    {
      assert SourcedAtEnd(p, s, c, v);
      KeepSourced(p, s, s', c, v);
    }
  }

  lemma BeginKeepsEntry(p: Program, s: Raising, s': Raising, r: Reg, c: Block)
    requires Grows(p, s, s') && s' == s.(started := s'.started) && (r, c) in s.defs && EntryOk(p, s, r, c)
    ensures EntryOk(p, s', r, c)
  {
    hide Meets, Sets, WrittenBefore, Sound;
    if s.defs[(r, c)].Some? {
      KeepSound(p, s, s', c, SourceNow(p, s, c, r), s.defs[(r, c)].value);
    }
  }

  lemma SameInst(s: Raising, s': Raising, c: Block, i: RInst)
    requires s'.nextId == s.nextId && s'.nextSlot == s.nextSlot && BodyInstOk(s, c, i)
    ensures BodyInstOk(s', c, i)
  {
  }

  lemma BeginKeepsShares(p: Program, s: Raising, s': Raising, c: Block)
    requires Grows(p, s, s') && s' == s.(started := s'.started) && DefsOk(p, s)
    requires c < |p.blocks| && SharesOk(p, s, c) && BorrowsOk(p, s, c)
    ensures SharesOk(p, s', c) && BorrowsOk(p, s', c)
  {
    hide SharesOk, DefsOk, MayPromote, WantedAtEnd, IsLoaded;
    assert forall r, d, v :: Keeps(s', r, d, v) <==> Keeps(s, r, d, v);
    KeepShares(p, s, s', c);
    if c !in s.started {
      forall r, v
        ensures !Keeps(s, r, c, v)
      {
        NotBegunKeepsNothing(p, s, r, c, v);
      }
    }
  }

  lemma NotBegunKeepsNothing(p: Program, s: Raising, r: Reg, c: Block, v: Value)
    requires Shape(p, s) && DefsOk(p, s) && c !in s.started
    ensures !Keeps(s, r, c, v)
  {
    hide Sound, Meets, Sets;
    assert (r, c) in s.defs ==> EntryOk(p, s, r, c);
  }

  lemma BeginKeepsSim(p: Program, s: Raising, s': Raising)
    requires Inv(p, s) && Grows(p, s, s') && s' == s.(started := s'.started)
    ensures SimOk(p, s') && TermsOk(p, s') && ValuesOk(p, s')
  {
    hide Good, BodiesOk, UsesOk, DefsOk, QueriesOk, Holds, OutHolds;
    forall c | 0 <= c < |p.blocks|
      ensures OutHolds(p, s', c) && TermOk(p, s', c) && SharesOk(p, s', c) && BorrowsOk(p, s', c)
    {
      assert TermOk(p, s, c) && SharesOk(p, s, c) && BorrowsOk(p, s, c);
      KeepOut(p, s, s', c, Store(0, Arg(0)));
      KeepTerm(p, s, s', c, Store(0, Arg(0)));
      assert Done(p, s', c) && !Done(p, s, c) ==> c !in s.started;
      BeginKeepsShares(p, s, s', c);
    }
    forall r: Reg, c: Block | c < |p.blocks| && LocalVal(p, s', r, c).Some?
      ensures Holds(p, s', c, r, LocalVal(p, s', r, c).value)
    {
      assert LocalVal(p, s', r, c) == LocalVal(p, s, r, c);
      KeepHolds(p, s, s', c, Emit([]), r, LocalVal(p, s, r, c).value);
    }
  }

  lemma BeginKeepsLookups(p: Program, s: Raising, s': Raising)
    requires Inv(p, s) && Grows(p, s, s') && s' == s.(started := s'.started)
    ensures QueriesOk(p, s')
  {
    hide Good, BodiesOk, UsesOk, DefsOk, SimOk, TermsOk, ValuesOk, ProgressOk, QueryCloses, NarrowOk, SlotOk, DirectOk;
    forall q | q in s'.queries
      ensures QueryOk(p, s', q)
    {
      assert QueryOk(p, s, q);
      if q.loc.InSlot? {
        DefsInRange(p, s, q);
        KeepSlot(p, s, s', 0, Store(q.loc.slot + 1, Arg(0)), q, q.loc.slot);
      }
      KeepQuery(p, s, s', q);
    }
    KeepPending(p, s, s');
  }

  lemma {:induction false} InstsKeepInv(p: Program, ll: Llvm, s: Raising, b: Block, n: nat)
    requires Inv(p, s) && OnlyOpen(p, s, b) && s.progress[b] == 0 && n <= |p.blocks[b].insts|
    ensures var t := RaisedInsts(p, ll, s, b, n); t.Some? ==> Inv(p, t.value) && OnlyOpen(p, t.value, b)
  {
    hide SimOk, UsesOk, TermsOk, Good, ProgressOk, BodiesOk, QueriesOk, ValuesOk, DefsOk, RaisedInst;
    if n > 0 {
      InstsKeepInv(p, ll, s, b, n - 1);
      var t := RaisedInsts(p, ll, s, b, n - 1);
      if t.Some? {
        InstKeepsInv(p, ll, t.value, b);
      }
    }
  }

  /** Which blocks are begun, and all of them are done. */
  ghost predicate DoneBlocks(p: Program, s: Raising, blocks: set<Block>)
    requires Shape(p, s)
  {
    s.started == blocks && forall c :: c in s.started ==> Done(p, s, c)
  }

  lemma BlockKeepsInv(p: Program, ll: Llvm, s: Raising, b: Block)
    requires Inv(p, s) && CanBegin(p, s, b) && s.progress[b] == 0
    ensures var t := RaisedBlock(p, ll, s, b); t.Some? ==> Inv(p, t.value) && DoneBlocks(p, t.value, s.started + {b})
  {
    hide SimOk, UsesOk, TermsOk, Good, ProgressOk, BodiesOk, QueriesOk, ValuesOk, DefsOk, RaisedInsts;
    BeginKeepsInv(p, s, b);
    InstsKeepInv(p, ll, s.(started := s.started + {b}), b, |p.blocks[b].insts|);
  }

  lemma {:induction false} BlocksKeepInv(p: Program, ll: Llvm, s: Raising, order: seq<Block>, n: nat)
    requires Good(p) && Initial(p, s) && BlockOrder(p, order) && n <= |order|
    ensures var t := RaisedBlocks(p, ll, s, order, n);
            t.Some? ==> Inv(p, t.value) && DoneBlocks(p, t.value, SetOf(order[..n]))
  {
    hide SimOk, UsesOk, TermsOk, Good, ProgressOk, BodiesOk, QueriesOk, ValuesOk, DefsOk, RaisedBlock;
    if n == 0 {
      InitialInv(p, s);
    } else {
      BlocksKeepInv(p, ll, s, order, n - 1);
      var t := RaisedBlocks(p, ll, s, order, n - 1);
      if t.Some? {
        assert order[..n] == order[..n - 1] + [order[n - 1]];
        assert order[n - 1] in order && order[n - 1] !in order[..n - 1];
        assert n > 1 ==> order[0] in order[..n - 1] && order[0] in SetOf(order[..n - 1]);
        assert CanBegin(p, t.value, order[n - 1]);
        BlockKeepsInv(p, ll, t.value, order[n - 1]);
      }
    }
  }

  // ----- terminators

  lemma StillDone(p: Program, s: Raising, t: Raising)
    requires AllDone(p, s) && SameShape(p, s, t)
    ensures AllDone(p, t)
  {
    forall b | 0 <= b < |p.blocks|
      ensures Done(p, t, b)
    {
      assert Done(p, s, b);
    }
  }

  /** Terminators are raised after all blocks: what is looked up for them is still right at the ends of the blocks. */
  lemma TermKeepsAll(p: Program, ll: Llvm, s: Raising, b: Block)
    requires Inv(p, s) && AllDone(p, s) && b < |p.blocks|
    ensures var t := RaisedTerm(p, ll, s, b); t.Some? ==> Inv(p, t.value) && AllDone(p, t.value)
  {
    hide SimOk, UsesOk, TermsOk, Good, BodiesOk, QueriesOk, ValuesOk, DefsOk, Holds, Operands;
    assert Done(p, s, b);
    assert OnlyOpen(p, s, b);
    var o := Operands(p, ll, s, p.blocks[b].term, b);
    if o.Some? {
      OperandsKeepInv(p, ll, s, p.blocks[b].term, b);
      StillDone(p, s, o.value.0);
      TermOperandsOk(p, o.value.0, b, o.value.1);
      TermKeepsInv(p, o.value.0, b, o.value.1);
      StillDone(p, s, RaisedTerm(p, ll, s, b).value);
    }
  }

  lemma TermOperandsOk(p: Program, s: Raising, b: Block, vals: seq<Value>)
    requires AllDone(p, s) && b < |p.blocks| && OperandsOk(p, s, b, p.blocks[b].term, vals)
    ensures Done(p, s, b) && |vals| == |p.blocks[b].term|
    ensures forall i :: 0 <= i < |vals| ==>
                        Holds(p, s, b, p.blocks[b].term[i], vals[i]) && SourcedAtEnd(p, s, b, vals[i])
  {
    assert forall i :: 0 <= i < |vals| ==> vals[i] in vals;
  }

  lemma {:induction false} TermsKeepInv(p: Program, ll: Llvm, s: Raising, order: seq<Block>, n: nat)
    requires Inv(p, s) && AllDone(p, s) && BlockOrder(p, order) && n <= |order|
    ensures var t := RaisedTerms(p, ll, s, order, n);
            t.Some? ==>
              && Inv(p, t.value) && AllDone(p, t.value)
              && forall i :: 0 <= i < n ==> order[i] < |p.blocks| && t.value.term[order[i]].Some?
  {
    hide SimOk, UsesOk, TermsOk, Good, ProgressOk, BodiesOk, QueriesOk, ValuesOk, DefsOk, RaisedTerm;
    if n > 0 {
      TermsKeepInv(p, ll, s, order, n - 1);
      var t := RaisedTerms(p, ll, s, order, n - 1);
      if t.Some? {
        assert order[n - 1] in order;
        TermKeepsAll(p, ll, t.value, order[n - 1]);
      }
    }
  }

  // ----- promotions that had to wait

  /** A pending promotion is struck off once its store is in place. */
  lemma StrikeKeepsInv(p: Program, s: Raising, r: Reg, b: Block, slot: Slot)
    requires Inv(p, s) && Done(p, s, b) && StoredFor(p, s, r, b, slot)
    ensures Inv(p, s.(toPromote := s.toPromote - {(r, b, slot)}))
  {
    hide SimOk, UsesOk, TermsOk, Good, ProgressOk, BodiesOk, ValuesOk, DefsOk, QueryCloses, NarrowOk, Stored, DirectOk,
         MayPromote;
    var s' := s.(toPromote := s.toPromote - {(r, b, slot)});
    assert Shape(p, s') && QuietStep(p, s, s', 0, Store(0, Arg(0)));
    SameDefsGrows(p, s, s');
    forall q | q in s'.queries
      ensures QueryOk(p, s', q)
    {
      assert QueryOk(p, s, q);
      if q.loc.InSlot? {
        DefsInRange(p, s, q);
        StrikeKeepsSlot(p, s, r, b, slot, q, q.loc.slot);
      }
      KeepQuery(p, s, s', q);
    }
    KeepPending(p, s, s');
    QuietKeeps(p, s, s', 0, Store(0, Arg(0)));
  }

  lemma StrikeKeepsSlot(p: Program, s: Raising, r: Reg, b: Block, slot: Slot, q: Query, other: Slot)
    requires Shape(p, s) && Done(p, s, b) && StoredFor(p, s, r, b, slot)
    requires (forall d :: d in q.defs ==> d < |p.blocks|) && SlotOk(p, s, q, other)
    ensures Shape(p, s.(toPromote := s.toPromote - {(r, b, slot)}))
    ensures SlotOk(p, s.(toPromote := s.toPromote - {(r, b, slot)}), q, other)
  {
    hide StoredAt;
    var s' := s.(toPromote := s.toPromote - {(r, b, slot)});
    assert forall c :: Done(p, s', c) <==> Done(p, s, c);
    forall d | d in q.defs
      ensures Provided(p, s', q.reg, d, other)
    {
      assert Provided(p, s, q.reg, d, other);
      if (q.reg, d, other) !in s'.toPromote {
        KeepStored(s, s', d, Emit([]), other, LocalVal(p, s, q.reg, d).value);
      }
    }
  }

  /** The last promotions: block `x.1`, raised by now, stores its register into the slot that waits for it. The register
      has a value. */
  lemma ResolvedKeepsInv(p: Program, ll: Llvm, s: Raising, x: (Reg, Block, Slot))
    requires Inv(p, s) && AllDone(p, s) && x in s.toPromote
    ensures var t := Resolved(p, ll, s, x);
            t.Some? && Inv(p, t.value) && AllDone(p, t.value) && t.value.toPromote == s.toPromote - {x}
  {
    hide SimOk, UsesOk, TermsOk, Good, ProgressOk, BodiesOk, ValuesOk, QueryCloses, NarrowOk, Stored, DirectOk,
         MayPromote, Promoted, Holds;
    var (r, b, slot) := x;
    assert Pending(p, s, r, b, slot) && EntryOk(p, s, r, b) && Done(p, s, b);
    assert LocalVal(p, s, r, b).Some? by { DoneHasValue(p, s, r, b); }
    var v := LocalVal(p, s, r, b).value;
    CanResolve(p, s, r, b, v, slot);
    PromotedKeepsInv(p, ll, s, r, b, v, slot);
    var t := Promoted(ll, s, b, v, slot);
    SameDefsGrows(p, s, t);
    assert SameShape(p, s, t);
    StillDone(p, s, t);
    StrikeKeepsInv(p, t, r, b, slot);
    StillDone(p, s, Resolved(p, ll, s, x).value);
  }

  lemma DoneHasValue(p: Program, s: Raising, r: Reg, b: Block)
    requires Shape(p, s) && DefsOk(p, s) && Done(p, s, b) && (r, b) in s.defs
    ensures LocalVal(p, s, r, b).Some?
  {
    assert EntryOk(p, s, r, b);
    if b != 0 && s.defs[(r, b)].None? {
      DoneUnset(p, s, r, b);
    }
    if Writes(p, r, b) {
      var i :| 0 <= i < |p.blocks[b].insts| && Target(p.blocks[b].insts[i]) == Some(r);
    }
  }

  lemma CanResolve(p: Program, s: Raising, r: Reg, b: Block, v: Value, slot: Slot)
    requires Inv(p, s) && (r, b, slot) in s.toPromote && Done(p, s, b) && LocalVal(p, s, r, b) == Some(v)
    ensures CanPromote(p, s, r, b, v, slot)
  {
    hide SimOk, UsesOk, TermsOk, Good, ProgressOk, BodiesOk, ValuesOk, DefsOk, QueryCloses, NarrowOk, Stored, DirectOk,
         MayPromote, StoresInto;
    assert Pending(p, s, r, b, slot);
    var q0 :| q0 in s.queries && q0.reg == r && q0.loc == InSlot(slot);
    assert QueryOk(p, s, q0);
    forall q | q in s.queries && q.loc == InSlot(slot)
      ensures q.reg == r && b !in q.through
    {
      assert QueryOk(p, s, q);
    }
  }

  lemma {:induction false} ResolvedAll(p: Program, ll: Llvm, s: Raising, waiting: seq<(Reg, Block, Slot)>, n: nat)
    requires Inv(p, s) && AllDone(p, s) && Enumerates(waiting, s.toPromote) && n <= |waiting|
    ensures var t := ResolvedUpTo(p, ll, s, waiting, n);
            t.Some? && Inv(p, t.value) && AllDone(p, t.value) && t.value.toPromote == s.toPromote - SetOf(waiting[..n])
  {
    hide SimOk, UsesOk, TermsOk, Good, ProgressOk, BodiesOk, QueriesOk, ValuesOk, DefsOk, Resolved;
    if n > 0 {
      ResolvedAll(p, ll, s, waiting, n - 1);
      assert waiting[..n] == waiting[..n - 1] + [waiting[n - 1]];
      assert waiting[n - 1] in waiting && waiting[n - 1] !in waiting[..n - 1];
      ResolvedKeepsInv(p, ll, ResolvedUpTo(p, ll, s, waiting, n - 1).value, waiting[n - 1]);
    }
  }

  /** All code of a good program that is raised at all is raised rightly. */
  lemma CodeIsDone(p: Program, ll: Llvm, s: Raising, order: seq<Block>)
    requires Good(p) && Initial(p, s) && BlockOrder(p, order)
    ensures var t := RaisedCode(p, ll, s, order);
            t.Some? ==>
                Inv(p, t.value) && AllDone(p, t.value) && forall b :: 0 <= b < |p.blocks| ==> t.value.term[b].Some?
  {
    hide Inv, RaisedBlocks, RaisedTerms, CopiesSafe, Apart;
    if RaisedCode(p, ll, s, order).Some? {
      BlocksKeepInv(p, ll, s, order, |order|);
      assert order[..|order|] == order;
      var s1 := RaisedBlocks(p, ll, s, order, |order|).value;
      assert AllDone(p, s1) by {
        assert forall b: Block :: b < |p.blocks| ==> b in SetOf(order);
      }
      TermsKeepInv(p, ll, s1, order, |order|);
      forall b: Block | b < |p.blocks|
        ensures RaisedCode(p, ll, s, order).value.term[b].Some?
      {
        assert b in order;
        var i :| 0 <= i < |order| && order[i] == b;
      }
    }
  }

  /** Main result: whatever LLVM answers, and in whatever order blocks and late promotions come, the raised function of
      a good program does what the machine function does on every run. */
  lemma RaisedFunctionRefines(p: Program, ll: Llvm, s: Raising, order: seq<Block>, t: Raising)
    requires Good(p) && Initial(p, s) && BlockOrder(p, order) && RaisedFunction(p, ll, s, order, t)
    ensures Finished(p, t) && Refines(p, Raised(t))
  {
    hide Inv, RaisedCode, ResolvedUpTo, Refines, CopiesSafe, Apart;
    CodeIsDone(p, ll, s, order);
    var code := RaisedCode(p, ll, s, order).value;
    var waiting :| Enumerates(waiting, code.toPromote) && ResolvedUpTo(p, ll, code, waiting, |waiting|) == Some(t);
    ResolvedAll(p, ll, code, waiting, |waiting|);
    assert waiting[..|waiting|] == waiting;
    FinishedRefines(p, t);
  }
}
