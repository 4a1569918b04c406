/** The pass over a whole function: new instructions are inserted before the one they replace, and the replaced
    instructions are taken out at the end. */
module ArmSplittingPass {
  import opened Wrappers
  import opened ArmMachine
  import opened ArmSplitting
  import opened ArmSplittingCorrect
  import opened ArmAccessCorrect
  import opened ArmEntangled

  // ----- what is left of a block

  /** The next free virtual register after a block. */
  function NextAfter(ms: seq<MI>, v: nat): nat {
    if ms == [] then v else NextAfter(ms[1..], SplitOne(ms[0], v).next)
  }

  lemma {:induction false} SplitAllAppend(ms: seq<MI>, mi: MI, v: nat)
    ensures SplitAll(ms + [mi], v) == SplitAll(ms, v) + Replacement(mi, NextAfter(ms, v))
    ensures NextAfter(ms + [mi], v) == SplitOne(mi, NextAfter(ms, v)).next
  {
    hide SplitOne, Replacement;
    if ms == [] {
      assert ([mi] + ms)[1..] == [] && ms + [mi] == [mi];
    } else {
      assert (ms + [mi])[0] == ms[0] && (ms + [mi])[1..] == ms[1..] + [mi];
      SplitAllAppend(ms[1..], mi, SplitOne(ms[0], v).next);
    }
  }

  /** A block without the instructions at the given positions. */
  function Without(ms: seq<MI>, removed: set<nat>): seq<MI> {
    if ms == [] then [] else
      var k := |ms| - 1;
      Without(ms[..k], removed) + if k in removed then [] else [ms[k]]
  }

  lemma {:induction false} WithoutAppend(a: seq<MI>, b: seq<MI>, removed: set<nat>, more: set<nat>)
    requires forall k :: k in removed ==> k < |a|
    requires forall k :: k in more <==> k in removed || k == |a| + |b|
    ensures Without(a + b, more) == Without(a, removed) + b
  {
    if b != [] {
      var k := |b| - 1;
      assert (a + b)[..|a| + k] == a + b[..k];
      WithoutShorter(a + b[..k], removed, more, |a| + |b|);
      WithoutKeeps(a, b[..k], removed);
      assert b == b[..k] + [b[k]];
    } else {
      assert a + b == a;
      WithoutShorter(a, removed, more, |a|);
    }
  }

  lemma {:induction false} WithoutShorter(a: seq<MI>, removed: set<nat>, more: set<nat>, n: nat)
    requires |a| <= n && forall k :: k < n ==> (k in more <==> k in removed)
    ensures Without(a, more) == Without(a, removed)
  {
    if a != [] {
      WithoutShorter(a[..|a| - 1], removed, more, n);
    }
  }

  lemma {:induction false} WithoutKeeps(a: seq<MI>, b: seq<MI>, removed: set<nat>)
    requires forall k :: k in removed ==> k < |a|
    ensures Without(a + b, removed) == Without(a, removed) + b
  {
    if b == [] {
      assert a + b == a;
    } else {
      var k := |b| - 1;
      assert (a + b)[..|a| + k] == a + b[..k];
      WithoutKeeps(a, b[..k], removed);
      assert b == b[..k] + [b[k]];
    }
  }

  lemma WithoutLast(a: seq<MI>, mi: MI, removed: set<nat>)
    requires |a| in removed
    ensures Without(a + [mi], removed) == Without(a, removed)
  {
    assert (a + [mi])[..|a|] == a;
  }

  /** The walk over a block that was `original`, at its instruction `k`: the block so far, the position in it, and
      the positions to be removed. */
  ghost predicate Walked(original: seq<MI>, k: nat, v0: nat, block: seq<MI>, i: nat, removed: set<nat>, nextVirt: nat)
    requires k <= |original|
  {
    && i <= |block|
    && block[i..] == original[k..]
    && (forall x :: x in removed ==> x < i)
    && Without(block[..i], removed) == SplitAll(original[..k], v0)
    && nextVirt == NextAfter(original[..k], v0)
  }

  lemma WalkBegins(original: seq<MI>, v0: nat)
    ensures Walked(original, 0, v0, original, 0, {}, v0)
  {
  }

  lemma WalkEnds(original: seq<MI>, k: nat, v0: nat, block: seq<MI>, i: nat, removed: set<nat>, nextVirt: nat)
    requires k <= |original| && Walked(original, k, v0, block, i, removed, nextVirt) && i >= |block|
    ensures Without(block, removed) == SplitAll(original, v0) && nextVirt == NextAfter(original, v0)
  {
    assert |original[k..]| == |block[i..]| == 0;
    assert block[..i] == block && original[..k] == original;
  }

  lemma WalkedHead(original: seq<MI>, k: nat, v0: nat, block: seq<MI>, i: nat, removed: set<nat>, nextVirt: nat)
    requires k <= |original| && Walked(original, k, v0, block, i, removed, nextVirt) && i < |block|
    ensures k < |original| && block[i] == original[k]
  {
    assert |block[i..]| == |original[k..]|;
    assert block[i] == block[i..][0];
  }

  lemma WalkStep(original: seq<MI>, k: nat, v0: nat, block: seq<MI>, i: nat, removed: set<nat>, nextVirt: nat)
    requires k < |original| && Walked(original, k, v0, block, i, removed, nextVirt) && i < |block|
    ensures var out := SplitOne(block[i], nextVirt).out;
            var next := SplitOne(block[i], nextVirt).next;
            if out.Some? then
              Walked(original, k + 1, v0, block[..i] + out.value + block[i..], i + |out.value| + 1,
                     removed + {i + |out.value|}, next)
            else
              Walked(original, k + 1, v0, block, i + 1, removed, next)
  {
    hide SplitOne, SplitAll, NextAfter;
    var mi := block[i];
    var out := SplitOne(mi, nextVirt).out;
    WalkedHead(original, k, v0, block, i, removed, nextVirt);
    assert original[..k + 1] == original[..k] + [mi];
    SplitAllAppend(original[..k], mi, v0);
    if out.Some? {
      var longer := block[..i] + out.value + block[i..];
      var j := i + |out.value|;
      assert longer[..j + 1] == (block[..i] + out.value) + [mi];
      WithoutAppend(block[..i], out.value, removed, removed + {j});
      WithoutLast(block[..i] + out.value, mi, removed + {j});
      assert longer[j + 1..] == block[i..][1..] == original[k + 1..];
    } else {
      assert block[..i + 1] == block[..i] + [mi];
      WithoutKeeps(block[..i], [mi], removed);
      assert block[i + 1..] == block[i..][1..] == original[k + 1..];
    }
  }

  // ----- the meaning of a block

  /** An instruction as the decoder delivers it: shifted data processing, a load or store, or anything else that
      the pass leaves alone. */
  datatype Source = DataSource(d: Data) | AccessSource(a: Access) | OtherSource(id: nat, ops: seq<Operand>)

  predicate SupportedSource(x: Source) {
    match x
    case DataSource(d) => ValidData(d) && (Supported(d) || (Entangled(d) && Exempt(d)))
    case AccessSource(a) => ValidAccess(a) && SupportedAccess(a)
    case OtherSource(_, _) => true
  }

  function EncodeSource(x: Source): MI {
    match x
    case DataSource(d) => Encode(d)
    case AccessSource(a) => EncodeAccess(a)
    case OtherSource(id, ops) => MI(Other(id), ops)
  }

  ghost predicate SupportedBlock(ms: seq<MI>) {
    forall mi :: mi in ms ==> exists x: Source :: SupportedSource(x) && EncodeSource(x) == mi
  }

  ghost predicate SameOutcome(ext: Ext, before: seq<MI>, after: seq<MI>, s: State, t: State)
    requires |s.r| == 16 && |t.r| == 16
  {
    var x, y := ExecAll(ext, before, s), ExecAll(ext, after, t);
    x.Some? && y.Some? && Agree(x.value, y.value)
  }

  /** From states that agree on registers, memory and flags, the two blocks lead to states that agree on them. */
  ghost predicate BlockPreserved(before: seq<MI>, after: seq<MI>) {
    forall ext: Ext, s: State, t: State :: |s.r| == 16 && |t.r| == 16 && Agree(s, t) ==>
                                           SameOutcome(ext, before, after, s, t)
  }

  lemma {:induction false} ExecAllAppend(ext: Ext, a: seq<MI>, b: seq<MI>, s: State)
    requires |s.r| == 16
    ensures ExecAll(ext, a + b, s) == match ExecAll(ext, a, s) case None => None case Some(t) => ExecAll(ext, b, t)
  {
    hide Exec;
    if a == [] {
      assert a + b == b;
    } else {
      assert (a + b)[1..] == a[1..] + b;
      var x := Exec(ext, a[0], s);
      if x.Some? {
        ExecAllAppend(ext, a[1..], b, x.value);
      }
    }
  }

  /** One supported instruction and its replacement, from states that agree. */
  lemma InstructionPreserved(ext: Ext, x: Source, v: nat, s: State, t: State)
    requires SupportedSource(x) && |s.r| == 16 && |t.r| == 16 && Agree(s, t)
    ensures SameOutcome(ext, [EncodeSource(x)], Replacement(EncodeSource(x), v), s, t)
  {
    var mi := EncodeSource(x);
    assert [mi] == [mi] + [];
    ExecAllCons(ext, mi, [], s);
    match x
    case DataSource(d) =>
      hide Meaning, Replacement, Exec, Exempt;
      EncodeMeans(ext, d, s);
      PreservedIff(d);
      assert PreservedFrom(ext, d, v, t);
      MeaningDepends(d, s, t);
    case AccessSource(a) =>
      hide AccessAt, Replacement, Exec, Address;
      AccessMeans(ext, a, s);
      SupportedAccessPreserved(a);
      assert AccessPreservedFrom(ext, a, v, t);
      AddressDepends(a, s, t);
      AccessDepends(a, Address(a, s), s, t);
    case OtherSource(id, ops) =>
      ExecAllCons(ext, mi, [], t);
      assert Replacement(mi, v) == [mi];
  }

  lemma MeaningDepends(d: Data, s: State, t: State)
    requires ValidData(d) && |s.r| == 16 && Agree(s, t)
    ensures Agree(Meaning(d, s), Meaning(d, t))
  {
    hide Alu, ShiftedValue, Passes;
    assert ShiftedValue(d, s) == ShiftedValue(d, t) by { ShiftedDepends(d, s, t); }
  }

  lemma ShiftedDepends(d: Data, s: State, t: State)
    requires ValidData(d) && |s.r| == 16 && Agree(s, t)
    ensures ShiftedValue(d, s) == ShiftedValue(d, t)
  {
  }

  lemma AddressDepends(a: Access, s: State, t: State)
    requires ValidAccess(a) && |s.r| == 16 && Agree(s, t)
    ensures Address(a, s) == Address(a, t)
  {
  }

  /** Splitting a block of supported instructions preserves its meaning, whatever virtual registers are free. */
  lemma {:induction false} SplitAllPreserved(ms: seq<MI>, v: nat)
    requires SupportedBlock(ms)
    ensures BlockPreserved(ms, SplitAll(ms, v))
  {
    hide Replacement, SplitOne, Exec;
    if ms != [] {
      var next := SplitOne(ms[0], v).next;
      var first := Replacement(ms[0], v);
      assert forall mi :: mi in ms[1..] ==> mi in ms;
      SplitAllPreserved(ms[1..], next);
      assert ms[0] in ms;
      var x: Source :| SupportedSource(x) && EncodeSource(x) == ms[0];
      forall ext: Ext, s: State, t: State | |s.r| == 16 && |t.r| == 16 && Agree(s, t)
        ensures SameOutcome(ext, ms, SplitAll(ms, v), s, t)
      {
        InstructionPreserved(ext, x, v, s, t);
        assert ms == [ms[0]] + ms[1..];
        ExecAllAppend(ext, [ms[0]], ms[1..], s);
        ExecAllAppend(ext, first, SplitAll(ms[1..], next), t);
        assert SameOutcome(ext, ms[1..], SplitAll(ms[1..], next), ExecAll(ext, [ms[0]], s).value,
                           ExecAll(ext, first, t).value);
      }
    }
  }

  /** The block is what splitting leaves, for some first free virtual register. */
  ghost predicate IsSplitOf(before: seq<MI>, after: seq<MI>) {
    exists v: nat :: after == SplitAll(before, v)
  }

  class ARMInstructionSplitting {
    var blocks: seq<seq<MI>>
    var nextVirt: nat

    constructor (blocks: seq<seq<MI>>)
      ensures this.blocks == blocks && nextVirt == 0
    {
      this.blocks, nextVirt := blocks, 0;
    }

    method CreateVirtualRegister() returns (v: nat)
      modifies this`nextVirt
      ensures v == old(nextVirt) && nextVirt == v + 1
    {
      v := nextVirt;
      nextVirt := nextVirt + 1;
    }

    /** Looks for the first operand that encodes a shift; every immediate operand on the way uses up a register. */
    method SplitShifter(mi: MI, newOp: Opcode) returns (out: Option<seq<MI>>)
      modifies this`nextVirt
      ensures Outcome(out, nextVirt) == SplitData(mi, newOp, old(nextVirt))
    {
      var ops := mi.ops;
      var tails := TailsOf(mi);
      var i := 0;
      while i < |ops|
        invariant 0 <= i <= |ops|
        invariant forall j :: 0 <= j < i ==> !IsShifter(ops[j])
        invariant nextVirt == old(nextVirt) + ImmCount(ops[..i])
      {
        if ops[i].ImmOp? {
          var v := CreateVirtualRegister();
          if IsShifter(ops[i]) {
            ShifterIdxIs(ops, i);
            return if i < 2 then None else Some(ShiftPair(mi, newOp, i, v, tails.first, tails.second));
          }
        }
        assert ops[..i + 1] == ops[..i] + [ops[i]];
        ImmCountAppend(ops[..i], ops[i]);
        i := i + 1;
      }
      assert ops[..i] == ops;
      ShifterIdxIs(ops, i);
      return None;
    }

    static lemma ShifterIdxIs(ops: seq<Operand>, k: nat)
      requires k <= |ops| && (forall j :: 0 <= j < k ==> !IsShifter(ops[j])) && (k < |ops| ==> IsShifter(ops[k]))
      ensures ShifterIdx(ops) == k
    {
    }

    static lemma {:induction false} ImmCountAppend(ops: seq<Operand>, o: Operand)
      ensures ImmCount(ops + [o]) == ImmCount(ops) + if o.ImmOp? then 1 else 0
    {
      if ops == [] {
        assert ops + [o] == [o];
      } else {
        assert (ops + [o])[1..] == ops[1..] + [o];
        ImmCountAppend(ops[1..], o);
      }
    }

    /** Adds the condition of the split instruction, if it has one. */
    method AddCondition(m: MI, mi: MI) returns (r: MI)
      ensures r == MI(m.op, m.ops + MemTail(mi.ops))
    {
      r := m;
      var idx := CpsrIdx(mi.ops);
      if idx.Some? && idx.value > 0 {
        r := r.(ops := r.ops + [mi.ops[idx.value - 1]]);
        r := r.(ops := r.ops + [mi.ops[idx.value]]);
      }
      assert idx.Some? && idx.value > 0 ==>
             m.ops + MemTail(mi.ops) == m.ops + [mi.ops[idx.value - 1]] + [mi.ops[idx.value]];
    }

    /** A pre-indexed access with an immediate: adds it to the base, and transfers there. */
    method SplitLDRSTRPreImm(mi: MI) returns (out: seq<MI>)
      requires mi.op.Mem? && |mi.ops| >= 4
      ensures out == ImmSequence(Mem(mi.op.load, mi.op.byte, I12), if mi.op.load then mi.ops[0] else mi.ops[1],
                                 mi.ops[2], mi.ops[2], mi.ops[3], MemTail(mi.ops))
    {
      var rd, rn, rm, rs := mi.ops[0], mi.ops[1], mi.ops[2], mi.ops[3];
      var fst := MI(Base(ADD), [rm, rm, rs]);
      var sec := MI(Mem(mi.op.load, mi.op.byte, I12), if mi.op.load then [rd, rm] else [rn, rm]);
      fst := AddCondition(fst, mi);
      sec := AddCondition(sec, mi);
      out := [fst, sec];
    }

    /** An access with an immediate offset: adds it to the base in a new register, and transfers there. */
    method SplitLDRSTRImm(mi: MI) returns (out: seq<MI>)
      requires mi.op.Mem? && |mi.ops| >= 3
      modifies this`nextVirt
      ensures nextVirt == old(nextVirt) + 1
      ensures out == ImmSequence(Mem(mi.op.load, mi.op.byte, I12), mi.ops[0], RegOp(Virt(old(nextVirt))), mi.ops[1],
                                 mi.ops[2],
                                 MemTail(mi.ops))
    {
      var v := CreateVirtualRegister();
      var fst := MI(Base(ADD), [RegOp(Virt(v)), mi.ops[1], mi.ops[2]]);
      var sec := MI(Mem(mi.op.load, mi.op.byte, I12), [mi.ops[0], RegOp(Virt(v))]);
      fst := AddCondition(fst, mi);
      sec := AddCondition(sec, mi);
      out := [fst, sec];
    }

    /** Shifts the offset register into `sv` if it is shifted, adds it to the base, and transfers at the sum. The rotate
        through carry gets no condition. */
    method BuildAddressSequence(mi: MI, rt: Operand, sum: Operand, base: Operand, rm: Operand, imm: int, sv: nat)
      returns (out: seq<MI>)
      requires mi.op.Mem?
      ensures out == AddressSequence(Mem(mi.op.load, mi.op.byte, I12), rt, sum, base, rm, imm, sv, MemTail(mi.ops))
    {
      var offset := Am2Amount(imm);
      var shiftOpc := ShiftOrPhi(Am2Code(imm), offset);
      var add, access;
      if offset > 0 {
        var shift := AddCondition(MI(shiftOpc, [RegOp(Virt(sv)), rm, ImmOp(offset)]), mi);
        add := AddCondition(MI(Base(ADD), [sum, base, RegOp(Virt(sv))]), mi);
        access := AddCondition(MI(Mem(mi.op.load, mi.op.byte, I12), [rt, sum]), mi);
        out := [shift, add, access];
      } else if shiftOpc == RRX {
        add := AddCondition(MI(Base(ADD), [sum, base, RegOp(Virt(sv))]), mi);
        access := AddCondition(MI(Mem(mi.op.load, mi.op.byte, I12), [rt, sum]), mi);
        out := [MI(shiftOpc, [RegOp(Virt(sv)), rm]), add, access];
      } else {
        add := AddCondition(MI(Base(ADD), [sum, base, rm]), mi);
        access := AddCondition(MI(Mem(mi.op.load, mi.op.byte, I12), [rt, sum]), mi);
        out := [add, access];
      }
    }

    /** A pre-indexed access with a register offset: the sum is written back to the base. */
    method SplitLDRSTRPre(mi: MI) returns (out: seq<MI>)
      requires mi.op.Mem? && |mi.ops| > 4 && mi.ops[4].ImmOp?
      modifies this`nextVirt
      ensures nextVirt == old(nextVirt) + 1
      ensures out == AddressSequence(Mem(mi.op.load, mi.op.byte, I12), if mi.op.load then mi.ops[0] else mi.ops[1],
                                     mi.ops[2], mi.ops[2], mi.ops[3], mi.ops[4].imm, old(nextVirt), MemTail(mi.ops))
    {
      var sv := CreateVirtualRegister();
      out := BuildAddressSequence(mi, if mi.op.load then mi.ops[0] else mi.ops[1], mi.ops[2], mi.ops[2], mi.ops[3],
                                  mi.ops[4].imm, sv);
    }

    /** An access with a register offset: the sum goes to a new register. */
    method SplitLDRSTR(mi: MI) returns (out: seq<MI>)
      requires mi.op.Mem? && |mi.ops| > 3 && mi.ops[3].ImmOp?
      modifies this`nextVirt
      ensures nextVirt == old(nextVirt) + 2
      ensures out == AddressSequence(Mem(mi.op.load, mi.op.byte, I12), mi.ops[0], RegOp(Virt(old(nextVirt) + 1)),
                                     mi.ops[1], mi.ops[2],
                                     mi.ops[3].imm, old(nextVirt), MemTail(mi.ops))
    {
      var sv := CreateVirtualRegister();
      var v := CreateVirtualRegister();
      out := BuildAddressSequence(mi, mi.ops[0], RegOp(Virt(v)), mi.ops[1], mi.ops[2], mi.ops[3].imm, sv);
    }

    /** Decides how a load or store is split: by its form, and whether its offset is a register or a number other than
        0. */
    method SplitLoadStore(mi: MI) returns (out: Option<seq<MI>>)
      requires mi.op.Mem?
      modifies this`nextVirt
      ensures Outcome(out, nextVirt) == SplitMem(mi, old(nextVirt))
    {
      hide AddressSequence, ImmSequence, MemTail;
      var ops := mi.ops;
      out := None;
      if mi.op.form == PreReg || mi.op.form == PreImm {
        if |ops| >= 4 {
          if ops[3].RegOp? {
            if |ops| > 4 && ops[4].ImmOp? {
              var code := SplitLDRSTRPre(mi);
              out := Some(code);
            }
          } else if ops[3].imm != 0 {
            var code := SplitLDRSTRPreImm(mi);
            out := Some(code);
          }
        }
      } else if |ops| >= 3 && ops[1].RegOp? && ops[1] != RegOp(SP) && ops[1] != RegOp(PC) {
        if ops[2].RegOp? {
          if |ops| > 3 && ops[3].ImmOp? {
            var code := SplitLDRSTR(mi);
            out := Some(code);
          }
        } else if ops[2].imm != 0 {
          var code := SplitLDRSTRImm(mi);
          out := Some(code);
        }
      }
    }

    /** Decides whether and how one instruction is split. */
    method SplitInstruction(mi: MI) returns (out: Option<seq<MI>>)
      modifies this`nextVirt
      ensures Outcome(out, nextVirt) == SplitOne(mi, old(nextVirt))
    {
      if mi.op.Mem? {
        out := SplitLoadStore(mi);
        return;
      }
      var newOp := CheckIsShifter(mi.op);
      if newOp.None? {
        return None;
      }
      out := SplitShifter(mi, newOp.value);
    }

    /** Walks one block, inserting before every instruction that is split, and collects what is to be removed. */
    method SplitBlock(b: nat) returns (removed: set<nat>)
      requires b < |blocks|
      modifies this
      ensures |blocks| == |old(blocks)| && forall c :: 0 <= c < |blocks| && c != b ==> blocks[c] == old(blocks)[c]
      ensures Without(blocks[b], removed) == SplitAll(old(blocks)[b], old(nextVirt))
      ensures nextVirt == NextAfter(old(blocks)[b], old(nextVirt))
    {
      hide Walked, SplitOne, SplitAll, NextAfter, Without;
      var original, v0 := blocks[b], nextVirt;
      var block := original;
      removed := {};
      var i: nat := 0;
      ghost var k: nat := 0;
      WalkBegins(original, v0);
      while i < |block|
        invariant k <= |original| && Walked(original, k, v0, block, i, removed, nextVirt)
        invariant blocks == old(blocks)
        decreases |original| - k
      {
        var mi := block[i];
        ghost var before := nextVirt;
        WalkedHead(original, k, v0, block, i, removed, before);
        var out := SplitInstruction(mi);
        WalkStep(original, k, v0, block, i, removed, before);
        if out.Some? {
          block := block[..i] + out.value + block[i..];
          i := i + |out.value|;
          removed := removed + {i};
        }
        i := i + 1;
        k := k + 1;
      }
      WalkEnds(original, k, v0, block, i, removed, nextVirt);
      blocks := blocks[b := block];
    }

    /** Takes the collected instructions out of a block. */
    method RemoveFromParent(b: nat, removed: set<nat>)
      requires b < |blocks|
      modifies this`blocks
      ensures blocks == old(blocks)[b := Without(old(blocks)[b], removed)]
    {
      var block := blocks[b];
      var kept := [];
      for k := 0 to |block|
        invariant kept == Without(block[..k], removed)
      {
        assert block[..k + 1][..k] == block[..k];
        if k !in removed {
          kept := kept + [block[k]];
        }
      }
      assert block[..|block|] == block;
      blocks := blocks[b := kept];
    }

    /** The whole pass: splits every block, then takes out what was split. */
    method Split()
      modifies this
      ensures |blocks| == |old(blocks)|
      ensures forall b :: 0 <= b < |blocks| ==> IsSplitOf(old(blocks)[b], blocks[b])
      ensures forall b :: 0 <= b < |blocks| && SupportedBlock(old(blocks)[b]) ==>
                          BlockPreserved(old(blocks)[b], blocks[b])
    {
      hide SplitAll, Without, NextAfter, SupportedBlock, BlockPreserved;
      var removeList: seq<set<nat>> := [];
      for b := 0 to |blocks|
        invariant |blocks| == |old(blocks)| && |removeList| == b
        invariant forall c :: b <= c < |blocks| ==> blocks[c] == old(blocks)[c]
        invariant forall c :: 0 <= c < b ==> IsSplitOf(old(blocks)[c], Without(blocks[c], removeList[c]))
      {
        ghost var v0 := nextVirt;
        var removed := SplitBlock(b);
        removeList := removeList + [removed];
        assert Without(blocks[b], removed) == SplitAll(old(blocks)[b], v0);
      }
      for b := 0 to |blocks|
        invariant |blocks| == |old(blocks)|
        invariant forall c :: 0 <= c < b ==> IsSplitOf(old(blocks)[c], blocks[c])
        invariant forall c :: b <= c < |blocks| ==> IsSplitOf(old(blocks)[c], Without(blocks[c], removeList[c]))
      {
        RemoveFromParent(b, removeList[b]);
      }
      forall b | 0 <= b < |blocks| && SupportedBlock(old(blocks)[b])
        ensures BlockPreserved(old(blocks)[b], blocks[b])
      {
        assert IsSplitOf(old(blocks)[b], blocks[b]);
        var v: nat :| blocks[b] == SplitAll(old(blocks)[b], v);
        SplitAllPreserved(old(blocks)[b], v);
      }
    }
  }
}
