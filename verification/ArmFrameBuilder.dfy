/** Replacing registers that were copied from the stack pointer by the stack pointer, in a straight line of code. */
module ArmFrameBuilder {
  import opened Wrappers

  const SP: nat := 13
  const REGS: nat := 16

  /** A copy of the stack pointer, or any other instruction: it reads some registers, memory and the condition flag and
      writes some registers, memory and the flag. A predicated instruction is executed only where the flag is set. */
  datatype Inst =
    | MovFromSp(rd: nat, predicated: bool)
    | Other(id: nat, predicated: bool, uses: seq<nat>, defs: set<nat>)

  predicate ValidInst(i: Inst) {
    match i
    case MovFromSp(rd, _) => rd < REGS
    case Other(_, _, uses, defs) => (forall r :: r in uses ==> r < REGS) && forall r :: r in defs ==> r < REGS
  }

  ghost predicate ValidCode(code: seq<Inst>) {
    forall k :: 0 <= k < |code| ==> ValidInst(code[k])
  }

  // ----- the machine

  /** Memory is one opaque value. */
  datatype State = State(regs: seq<int>, mem: int, flag: bool)

  /** What the other instructions do: the value written to a register, the memory and the flag, each from the values
      read. */
  datatype Meaning = Meaning(value: (nat, seq<int>, int, bool, nat) -> int,
                             mem: (nat, seq<int>, int, bool) -> int,
                             flag: (nat, seq<int>, int, bool) -> bool)

  function ReadAll(regs: seq<int>, uses: seq<nat>): seq<int>
    requires |regs| == REGS && forall r :: r in uses ==> r < REGS
  {
    seq(|uses|, k requires 0 <= k < |uses| && uses[k] in uses => regs[uses[k]])
  }

  function Exec(m: Meaning, i: Inst, s: State): (t: State)
    requires |s.regs| == REGS && ValidInst(i)
    ensures |t.regs| == REGS
  {
    if i.predicated && !s.flag then s else
      match i
      case MovFromSp(rd, _) => s.(regs := s.regs[rd := s.regs[SP]])
      case Other(id, _, uses, defs) =>
        var vals := ReadAll(s.regs, uses);
        State(seq(REGS, r requires 0 <= r < REGS => if r in defs then m.value(id, vals, s.mem, s.flag, r)
                  else s.regs[r]),
              m.mem(id, vals, s.mem, s.flag), m.flag(id, vals, s.mem, s.flag))
  }

  function ExecAll(m: Meaning, code: seq<Inst>, s: State): (t: State)
    requires |s.regs| == REGS && forall k :: 0 <= k < |code| ==> ValidInst(code[k])
    ensures |t.regs| == REGS
  {
    if code == [] then s else Exec(m, code[|code| - 1], ExecAll(m, code[..|code| - 1], s))
  }

  // ----- the replacement

  /** The registers that are recorded as copies of the stack pointer after an instruction. */
  function RecordAfter(i: Inst, record: set<nat>): set<nat> {
    match i
    case MovFromSp(rd, _) => record + {rd}
    case Other(_, _, _, defs) => record - defs
  }

  function Replace(uses: seq<nat>, record: set<nat>): (r: seq<nat>)
    ensures |r| == |uses| && forall k :: 0 <= k < |uses| ==> r[k] == if uses[k] in record then SP else uses[k]
  {
    seq(|uses|, k requires 0 <= k < |uses| => if uses[k] in record then SP else uses[k])
  }

  /** What becomes of an instruction: a copy of the stack pointer goes, and in any other recorded registers are
      replaced where they are read. */
  function Rewritten(i: Inst, record: set<nat>): seq<Inst> {
    match i
    case MovFromSp(_, _) => []
    case Other(id, predicated, uses, defs) => [Other(id, predicated, Replace(uses, record), defs)]
  }

  function Record(code: seq<Inst>): set<nat> {
    if code == [] then {} else RecordAfter(code[|code| - 1], Record(code[..|code| - 1]))
  }

  function RewriteAll(code: seq<Inst>): seq<Inst> {
    if code == [] then [] else RewriteAll(code[..|code| - 1]) + Rewritten(code[|code| - 1], Record(code[..|code| - 1]))
  }

  // ----- when it is right

  /** The two runs agree on memory, the flag, the stack pointer and all registers that are not recorded, and the
      recorded ones are copies of the stack pointer in the original. */
  predicate InStep(s: State, t: State, record: set<nat>)
    requires |s.regs| == REGS && |t.regs| == REGS
  {
    && s.mem == t.mem && s.flag == t.flag && s.regs[SP] == t.regs[SP]
    && (forall r :: 0 <= r < REGS && r !in record ==> s.regs[r] == t.regs[r])
    && (forall r :: 0 <= r < REGS && r in record ==> s.regs[r] == s.regs[SP])
  }

  /** The cases the replacement does not look for: a predicated copy to a register that is not recorded yet, a change of
      the stack pointer while other registers are recorded, and a predicated definition of a recorded register. */
  predicate Safe(i: Inst, record: set<nat>) {
    match i
    case MovFromSp(rd, predicated) => !predicated || rd in record || rd == SP
    case Other(_, predicated, _, defs) =>
      && (SP in defs ==> record - defs - {SP} == {})
      && (predicated ==> record * defs - {SP} == {})
  }

  predicate SafeAll(code: seq<Inst>) {
    forall k :: 0 <= k < |code| ==> Safe(code[k], Record(code[..k]))
  }

  lemma {:induction false} RecordValid(code: seq<Inst>)
    requires ValidCode(code)
    ensures forall r :: r in Record(code) ==> r < REGS
  {
    if code != [] {
      RecordValid(code[..|code| - 1]);
    }
  }

  lemma {:induction false} RewriteValid(code: seq<Inst>)
    requires ValidCode(code)
    ensures ValidCode(RewriteAll(code))
  {
    if code != [] {
      var k := |code| - 1;
      RewriteValid(code[..k]);
      RecordValid(code[..k]);
      ReplaceValid(code[k], Record(code[..k]));
    }
  }

  lemma ReplaceValid(i: Inst, record: set<nat>)
    requires ValidInst(i)
    ensures ValidCode(Rewritten(i, record)) && |Rewritten(i, record)| <= 1
  {
    if i.Other? {
      assert forall k :: 0 <= k < |i.uses| ==> i.uses[k] in i.uses;
    }
  }

  lemma ReplaceReads(s: State, t: State, uses: seq<nat>, record: set<nat>)
    requires |s.regs| == REGS && |t.regs| == REGS && InStep(s, t, record) && forall r :: r in uses ==> r < REGS
    ensures forall r :: r in Replace(uses, record) ==> r < REGS
    ensures ReadAll(s.regs, uses) == ReadAll(t.regs, Replace(uses, record))
  {
    var replaced := Replace(uses, record);
    assert forall k :: 0 <= k < |uses| ==> uses[k] in uses && replaced[k] in replaced;
    forall k | 0 <= k < |uses| ensures s.regs[uses[k]] == t.regs[replaced[k]] {
    }
  }

  /** A safe instruction and what becomes of it keep the runs in step. */
  lemma StepKeeps(m: Meaning, i: Inst, record: set<nat>, s: State, t: State)
    requires |s.regs| == REGS && |t.regs| == REGS && ValidInst(i) && (forall r :: r in record ==> r < REGS)
    requires InStep(s, t, record) && Safe(i, record)
    ensures ValidCode(Rewritten(i, record))
    ensures InStep(Exec(m, i, s), ExecAll(m, Rewritten(i, record), t), RecordAfter(i, record))
  {
    match i
    case MovFromSp(rd, predicated) =>
    case Other(id, predicated, uses, defs) =>
      ReplaceReads(s, t, uses, record);
      var j := Other(id, predicated, Replace(uses, record), defs);
      assert ExecAll(m, [j], t) == Exec(m, j, ExecAll(m, [], t)) by { assert [j][..0] == []; }
      StepKeepsOther(m, i, record, s, t, j);
  }

  lemma StepKeepsOther(m: Meaning, i: Inst, record: set<nat>, s: State, t: State, j: Inst)
    requires |s.regs| == REGS && |t.regs| == REGS && ValidInst(i) && ValidInst(j)
             && (forall r :: r in record ==> r < REGS)
    requires InStep(s, t, record) && Safe(i, record)
    requires i.Other? && j == Other(i.id, i.predicated, Replace(i.uses, record), i.defs)
    requires ReadAll(s.regs, i.uses) == ReadAll(t.regs, j.uses)
    ensures InStep(Exec(m, i, s), Exec(m, j, t), RecordAfter(i, record))
  {
    if i.predicated {
      OnlySp(record * i.defs);
      assert forall r :: r in record && r in i.defs ==> r in record * i.defs;
    }
    if SP in i.defs {
      OnlySp(record - i.defs);
    }
  }

  lemma OnlySp(regs: set<nat>)
    requires regs - {SP} == {}
    ensures forall r :: r in regs ==> r == SP
  {
    forall r | r in regs ensures r == SP {
      assert r !in regs - {SP};
    }
  }

  lemma {:induction false} ExecAllAppend(m: Meaning, a: seq<Inst>, b: seq<Inst>, s: State)
    requires |s.regs| == REGS && ValidCode(a) && ValidCode(b) && |b| <= 1
    ensures ValidCode(a + b) && ExecAll(m, a + b, s) == ExecAll(m, b, ExecAll(m, a, s))
  {
    if b == [] {
      assert a + b == a;
    } else {
      assert (a + b)[..|a|] == a && b[..0] == [];
      assert ExecAll(m, b, ExecAll(m, a, s)) == Exec(m, b[0], ExecAll(m, b[..0], ExecAll(m, a, s)));
    }
  }

  /** Safe code keeps the runs in step. */
  lemma {:induction false} SafeKeeps(m: Meaning, code: seq<Inst>, s: State)
    requires |s.regs| == REGS && ValidCode(code) && SafeAll(code)
    ensures ValidCode(RewriteAll(code))
    ensures InStep(ExecAll(m, code, s), ExecAll(m, RewriteAll(code), s), Record(code))
  {
    RewriteValid(code);
    if code != [] {
      var k := |code| - 1;
      var front := code[..k];
      assert forall j :: 0 <= j < k ==> front[..j] == code[..j];
      SafeKeeps(m, front, s);
      RecordValid(front);
      StepKeeps(m, code[k], Record(front), ExecAll(m, front, s), ExecAll(m, RewriteAll(front), s));
      ExecAllAppend(m, RewriteAll(front), Rewritten(code[k], Record(front)), s);
    }
  }

  /** For all meanings of the instructions and all states to begin with, every prefix keeps the runs in step. */
  ghost predicate Preserved(code: seq<Inst>)
    requires ValidCode(code)
  {
    forall m: Meaning, s: State, k: nat :: |s.regs| == REGS && k <= |code| ==> PrefixInStep(m, code, k, s)
  }

  ghost predicate PrefixInStep(m: Meaning, code: seq<Inst>, k: nat, s: State)
    requires ValidCode(code) && |s.regs| == REGS && k <= |code|
  {
    && ValidCode(RewriteAll(code[..k]))
    && InStep(ExecAll(m, code[..k], s), ExecAll(m, RewriteAll(code[..k]), s), Record(code[..k]))
  }

  // ----- and when it is not: a meaning and a state that show it

  /** Memory counts the instructions executed. The stack pointer only takes even values, a new one every time, and all
      other registers 1; the flag is what it was. */
  function Counting(): Meaning {
    Meaning((id: nat, vals: seq<int>, mem: int, flag: bool, r: nat) => if r == SP then 2 * (mem + 1) else 1,
            (id: nat, vals: seq<int>, mem: int, flag: bool) => mem + 1,
            (id: nat, vals: seq<int>, mem: int, flag: bool) => flag)
  }

  function Start(flag: bool): (s: State)
    ensures |s.regs| == REGS
  {
    State(seq(REGS, r => if r == SP then 0 else 1), 0, flag)
  }

  /** What holds throughout such a run. */
  predicate Counted(s: State, record: set<nat>, flag: bool)
    requires |s.regs| == REGS
  {
    && s.flag == flag && s.regs[SP] % 2 == 0 && s.regs[SP] <= 2 * s.mem
    && (forall r :: 0 <= r < REGS && r != SP && r !in record ==> s.regs[r] == 1)
    && (forall r :: 0 <= r < REGS && r in record ==> s.regs[r] == s.regs[SP])
  }

  lemma CountedStep(i: Inst, record: set<nat>, s: State, flag: bool)
    requires |s.regs| == REGS && ValidInst(i) && Safe(i, record) && Counted(s, record, flag)
    ensures Counted(Exec(Counting(), i, s), RecordAfter(i, record), flag)
  {
    if i.Other? {
      if i.predicated {
        OnlySp(record * i.defs);
        assert forall r :: r in record && r in i.defs ==> r in record * i.defs;
      }
      if SP in i.defs {
        OnlySp(record - i.defs);
      }
    }
  }

  lemma {:induction false} CountedRun(code: seq<Inst>, flag: bool)
    requires ValidCode(code) && SafeAll(code)
    ensures Counted(ExecAll(Counting(), code, Start(flag)), Record(code), flag)
  {
    if code != [] {
      var k := |code| - 1;
      assert forall j :: 0 <= j < k ==> code[..k][..j] == code[..j];
      CountedRun(code[..k], flag);
      CountedStep(code[k], Record(code[..k]), ExecAll(Counting(), code[..k], Start(flag)), flag);
    }
  }

  /** After safe code, an instruction that is not safe breaks the agreement in such a run, with the flag clear or
      set. */
  lemma UnsafeBreaks(i: Inst, record: set<nat>, s: State, t: State, flag: bool)
    requires |s.regs| == REGS && |t.regs| == REGS && ValidInst(i) && (forall r :: r in record ==> r < REGS)
    requires !Safe(i, record) && Counted(s, record, flag) && ValidCode(Rewritten(i, record))
    requires flag <==> i.Other? && SP in i.defs && record - i.defs - {SP} != {}
    requires forall r :: 0 <= r < REGS && r in record && r != SP ==> s.regs[r] != t.regs[r]
    ensures !InStep(Exec(Counting(), i, s), ExecAll(Counting(), Rewritten(i, record), t), RecordAfter(i, record))
  {
    if i.Other? {
      if flag {
        var r :| r in record - i.defs - {SP};
        assert r in RecordAfter(i, record);
      } else {
        var r :| r in record * i.defs - {SP};
        var j := Rewritten(i, record)[0];
        assert ExecAll(Counting(), [j], t) == Exec(Counting(), j, ExecAll(Counting(), [j][..0], t));
      }
    }
  }

  ghost predicate AllOnes(t: State)
    requires |t.regs| == REGS
  {
    forall r :: 0 <= r < REGS && r != SP ==> t.regs[r] == 1
  }

  /** The rewritten code copies the stack pointer nowhere. */
  lemma {:induction false} RewrittenOnes(code: seq<Inst>, flag: bool)
    requires ValidCode(code)
    ensures ValidCode(RewriteAll(code)) && AllOnes(ExecAll(Counting(), RewriteAll(code), Start(flag)))
  {
    RewriteValid(code);
    if code != [] {
      var k := |code| - 1;
      RewrittenOnes(code[..k], flag);
      RecordValid(code[..k]);
      ReplaceValid(code[k], Record(code[..k]));
      ExecAllAppend(Counting(), RewriteAll(code[..k]), Rewritten(code[k], Record(code[..k])), Start(flag));
      OnesStep(code[k], Record(code[..k]), ExecAll(Counting(), RewriteAll(code[..k]), Start(flag)));
    }
  }

  lemma OnesStep(i: Inst, record: set<nat>, t: State)
    requires |t.regs| == REGS && AllOnes(t) && ValidInst(i) && ValidCode(Rewritten(i, record))
    ensures AllOnes(ExecAll(Counting(), Rewritten(i, record), t))
  {
    if i.Other? {
      var j := Rewritten(i, record)[0];
      assert ExecAll(Counting(), [j], t) == Exec(Counting(), j, ExecAll(Counting(), [j][..0], t));
    }
  }

  lemma {:induction false} FirstUnsafe(code: seq<Inst>) returns (k: nat)
    requires !SafeAll(code)
    ensures k < |code| && !Safe(code[k], Record(code[..k])) && SafeAll(code[..k])
  {
    hide Safe, Record;
    var n := |code| - 1;
    var front := code[..n];
    assert forall j :: 0 <= j <= n ==> front[..j] == code[..j];
    if SafeAll(front) {
      k := n;
    } else {
      k := FirstUnsafe(front);
    }
  }

  /** In the two runs, a recorded register has an even and an odd value. */
  lemma CopiesDiffer(s: State, t: State, record: set<nat>, flag: bool)
    requires |s.regs| == REGS && |t.regs| == REGS && Counted(s, record, flag) && AllOnes(t)
    ensures forall r :: 0 <= r < REGS && r in record && r != SP ==> s.regs[r] != t.regs[r]
  {
  }

  lemma UnsafeShows(code: seq<Inst>)
    requires ValidCode(code) && !SafeAll(code)
    ensures !Preserved(code)
  {
    hide Safe, RecordAfter, Rewritten, Counted, InStep, Exec;
    var k := FirstUnsafe(code);
    var front, i := code[..k], code[k];
    var record := Record(front);
    var flag := i.Other? && SP in i.defs && record - i.defs - {SP} != {};
    CountedRun(front, flag);
    RewrittenOnes(front, flag);
    var s, t := ExecAll(Counting(), front, Start(flag)), ExecAll(Counting(), RewriteAll(front), Start(flag));
    RecordValid(front);
    ReplaceValid(i, record);
    CopiesDiffer(s, t, record, flag);
    UnsafeBreaks(i, record, s, t, flag);
    ExecAllAppend(Counting(), RewriteAll(front), Rewritten(i, record), Start(flag));
    assert code[..k + 1][..k] == front;
    assert !PrefixInStep(Counting(), code, k + 1, Start(flag));
  }

  /** The replacement keeps the runs in step, for all meanings of the instructions, from all states and after every
      prefix, exactly if the code has none of the cases that it does not look for. */
  lemma PreservedIffSafe(code: seq<Inst>)
    requires ValidCode(code)
    ensures Preserved(code) <==> SafeAll(code)
  {
    if SafeAll(code) {
      forall m: Meaning, s: State, k: nat | |s.regs| == REGS && k <= |code| ensures PrefixInStep(m, code, k, s) {
        assert forall j :: 0 <= j < k ==> code[..k][..j] == code[..j];
        SafeKeeps(m, code[..k], s);
      }
    } else {
      UnsafeShows(code);
    }
  }

  // ----- the pass

  class ARMFrameBuilder {
    var regAssignedBySP: seq<nat>

    ghost function Recorded(): set<nat>
      reads this
    {
      set r | r in regAssignedBySP
    }

    constructor ()
      ensures Recorded() == {}
    {
      regAssignedBySP := [];
    }

    /** Drops the registers that an instruction defines. */
    method Drop(defs: set<nat>)
      modifies this
      ensures Recorded() == old(Recorded()) - defs
    {
      var kept: seq<nat> := [];
      for k := 0 to |regAssignedBySP|
        invariant regAssignedBySP == old(regAssignedBySP)
        invariant forall r :: r in kept <==> r in regAssignedBySP[..k] && r !in defs
      {
        if regAssignedBySP[k] !in defs {
          kept := kept + [regAssignedBySP[k]];
        }
      }
      assert regAssignedBySP[..|regAssignedBySP|] == regAssignedBySP;
      regAssignedBySP := kept;
    }

    /** Handles one instruction; a copy of the stack pointer is to be removed. */
    method ReplaceNonSPBySP(i: Inst) returns (removed: bool, j: Inst)
      modifies this
      ensures Recorded() == RecordAfter(i, old(Recorded()))
      ensures (if removed then [] else [j]) == Rewritten(i, old(Recorded()))
    {
      match i
      case MovFromSp(rd, _) =>
        regAssignedBySP := regAssignedBySP + [rd];
        return true, i;
      case Other(id, predicated, uses, defs) =>
        var replaced: seq<nat> := [];
        for k := 0 to |uses|
          invariant replaced == Replace(uses, Recorded())[..k]
          invariant regAssignedBySP == old(regAssignedBySP)
        {
          replaced := replaced + [if uses[k] in regAssignedBySP then SP else uses[k]];
        }
        assert replaced == Replace(uses, Recorded());
        Drop(defs);
        return false, Other(id, predicated, replaced, defs);
    }

    /** The walk over a straight line of code. */
    method ReplaceAll(code: seq<Inst>) returns (out: seq<Inst>)
      requires Recorded() == {}
      modifies this
      ensures out == RewriteAll(code) && Recorded() == Record(code)
      ensures ValidCode(code) ==> (Preserved(code) <==> SafeAll(code))
    {
      out := [];
      for k := 0 to |code|
        invariant out == RewriteAll(code[..k]) && Recorded() == Record(code[..k])
      {
        assert code[..k + 1][..k] == code[..k];
        var removed, j := ReplaceNonSPBySP(code[k]);
        if !removed {
          out := out + [j];
        }
      }
      assert code[..|code|] == code;
      if ValidCode(code) {
        PreservedIffSafe(code);
      }
    }
  }
}
