/** The disassembly loop that fills the raiser of one function, and the whole way from bytes to the graph. */
module LeaderCollection {
  import opened Wrappers
  import opened OrderedMap
  import opened McInstStream
  import opened McInstRaiser
  import opened CfgExact
  import opened CfgEdges

  /** What the decoder says about the bytes at an offset; `kind` is missing where they are no instruction. */
  datatype Decoded = Decoded(size: nat, kind: Option<Kind>)

  type Decoder = nat -> Decoded

  /** Decoding goes on by at least one byte. */
  function SizeAtIndex(decode: Decoder, index: nat): (size: nat)
    ensures size > 0
  {
    if decode(index).size == 0 then 1 else decode(index).size
  }

  /** The instructions found from an offset up to the end. */
  function StreamOf(decode: Decoder, index: nat, end: nat): Stream
    decreases end - index
  {
    if index >= end then [] else
      var size, kind := SizeAtIndex(decode, index), decode(index).kind;
      (if kind.Some? then [Pair(index, Inst(MCInst(kind.value, size)))] else []) + StreamOf(decode, index + size, end)
  }

  function TargetsAt(inst: MCInst, index: nat, end: nat): set<nat> {
    if !inst.kind.Branch? then {} else
      var target := EvaluateBranch(inst, index, inst.size);
      (if target.Some? then {target.value} else {}) + (if index + inst.size < end then {index + inst.size} else {})
  }

  /** The targets of the branches found from an offset up to the end. */
  function LeadersOf(decode: Decoder, index: nat, end: nat): set<nat>
    decreases end - index
  {
    if index >= end then {} else
      var size, kind := SizeAtIndex(decode, index), decode(index).kind;
      (if kind.Some? then TargetsAt(MCInst(kind.value, size), index, end) else {})
      + LeadersOf(decode, index + size, end)
  }

  /** Instructions fill the bytes up to the end. */
  predicate Decodable(decode: Decoder, index: nat, end: nat)
    decreases end - index
  {
    index == end || (index < end && decode(index).kind.Some?
                     && Decodable(decode, index + SizeAtIndex(decode, index), end))
  }

  lemma {:induction false} StreamSorted(decode: Decoder, index: nat, end: nat)
    ensures var es := StreamOf(decode, index, end); Sorted(es) && InBounds(es, Bounds(index, end))
    decreases end - index
  {
    if index < end {
      var next := index + SizeAtIndex(decode, index);
      StreamSorted(decode, next, end);
      var es, rest := StreamOf(decode, index, end), StreamOf(decode, next, end);
      if decode(index).kind.Some? {
        assert es == [es[0]] + rest && es[0].key == index;
        EarlierFirst(es[0], rest, next, end);
      }
    }
  }

  lemma EarlierFirst(e: Pair<MCInstOrData>, rest: Stream, next: nat, end: nat)
    requires e.key < next && e.key < end && Sorted(rest) && InBounds(rest, Bounds(next, end))
    ensures Sorted([e] + rest) && InBounds([e] + rest, Bounds(e.key, end))
  {
    var es := [e] + rest;
    assert forall k :: 0 < k < |es| ==> es[k] == rest[k - 1];
  }

  /** Where everything decodes, the stream has no gaps. */
  lemma {:induction false} StreamContiguous(decode: Decoder, index: nat, end: nat)
    requires Decodable(decode, index, end)
    ensures Contiguous(StreamOf(decode, index, end), end)
    ensures index < end ==> |StreamOf(decode, index, end)| > 0 && StreamOf(decode, index, end)[0].key == index
    decreases end - index
  {
    if index < end {
      var next := index + SizeAtIndex(decode, index);
      StreamContiguous(decode, next, end);
      var es, rest := StreamOf(decode, index, end), StreamOf(decode, next, end);
      assert es[0].key == index && es[1..] == rest;
      forall k: nat | k < |es| ensures IsInst(es, k) && es[k].key + es[k].value.mcInst.size == NextOffset(es, end, k) {
        if k > 0 {
          var i: nat := k - 1;
          assert IsInst(rest, i) && es[k] == rest[i];
          assert NextOffset(es, end, k) == NextOffset(rest, end, i);
        }
      }
    }
  }

  /** The collected targets are closed. */
  lemma {:induction false} BranchTargetsIn(decode: Decoder, index: nat, end: nat, k: nat)
    requires var es := StreamOf(decode, index, end); IsBranch(es, k)
    ensures var es := StreamOf(decode, index, end);
            TargetsAt(es[k].value.mcInst, es[k].key, end) <= LeadersOf(decode, index, end)
    decreases end - index
  {
    var next := index + SizeAtIndex(decode, index);
    var es, rest := StreamOf(decode, index, end), StreamOf(decode, next, end);
    if decode(index).kind.None? {
      BranchTargetsIn(decode, next, end, k);
    } else if k > 0 {
      assert es[k] == rest[k - 1];
      BranchTargetsIn(decode, next, end, k - 1);
    }
  }

  lemma MadeByEither(a: Stream, b: Stream, end: nat, offset: nat)
    ensures MadeLeader(a + b, end, offset) <==> MadeLeader(a, end, offset) || MadeLeader(b, end, offset)
  {
    hide EvaluateBranch;
    var es := a + b;
    if k: nat :| MakesLeader(a, end, k, offset) {
      assert MakesLeader(es, end, k, offset);
    }
    if k: nat :| MakesLeader(b, end, k, offset) {
      assert es[|a| + k] == b[k];
      assert MakesLeader(es, end, |a| + k, offset);
    }
    if k: nat :| MakesLeader(es, end, k, offset) {
      if k < |a| {
        assert MakesLeader(a, end, k, offset);
      } else {
        assert MakesLeader(b, end, k - |a|, offset);
      }
    }
  }

  lemma MadeByOne(inst: MCInst, index: nat, end: nat, offset: nat)
    ensures MadeLeader([Pair(index, Inst(inst))], end, offset) <==> offset in TargetsAt(inst, index, end)
  {
    hide EvaluateBranch;
    var es := [Pair(index, Inst(inst))];
    assert MakesLeader(es, end, 0, offset) <==> offset in TargetsAt(inst, index, end);
  }

  /** The targets are what the branches of the stream make leaders, and nothing else. */
  lemma {:induction false} LeadersOfIff(decode: Decoder, index: nat, end: nat, offset: nat)
    ensures offset in LeadersOf(decode, index, end) <==> MadeLeader(StreamOf(decode, index, end), end, offset)
    decreases end - index
  {
    hide MadeLeader, TargetsAt;
    if index < end {
      var size, kind := SizeAtIndex(decode, index), decode(index).kind;
      var rest := StreamOf(decode, index + size, end);
      LeadersOfIff(decode, index + size, end, offset);
      if kind.Some? {
        MadeByOne(MCInst(kind.value, size), index, end, offset);
        MadeByEither([Pair(index, Inst(MCInst(kind.value, size)))], rest, end, offset);
      } else {
        assert StreamOf(decode, index, end) == rest;
      }
    } else {
      assert !MadeLeader([], end, offset) by { NoneMade(end, offset); }
    }
  }

  lemma NoneMade(end: nat, offset: nat)
    ensures !MadeLeader([], end, offset)
  {
  }

  /** The offset that decoding has come to after `n` steps. */
  function OffsetAfter(decode: Decoder, start: nat, n: nat): nat {
    if n == 0 then start else
      var before := OffsetAfter(decode, start, n - 1);
      before + if decode(before).size == 0 then 1 else decode(before).size
  }

  /** What is decoded at an offset that decoding comes to. */
  ghost predicate DecodedAt(decode: Decoder, start: nat, end: nat, e: Pair<MCInstOrData>) {
    && (exists n: nat :: OffsetAfter(decode, start, n) == e.key)
    && e.key < end
    && decode(e.key).kind.Some?
    && e.value == Inst(MCInst(decode(e.key).kind.value, if decode(e.key).size == 0 then 1 else decode(e.key).size))
  }

  lemma {:induction false} OffsetShifts(decode: Decoder, start: nat, n: nat)
    ensures OffsetAfter(decode, start + SizeAtIndex(decode, start), n) == OffsetAfter(decode, start, n + 1)
  {
    if n > 0 {
      OffsetShifts(decode, start, n - 1);
    }
  }

  lemma {:induction false} OffsetsGrow(decode: Decoder, start: nat, n: nat)
    ensures start + n <= OffsetAfter(decode, start, n)
  {
    if n > 0 {
      OffsetsGrow(decode, start, n - 1);
    }
  }

  lemma DecodedIff(decode: Decoder, index: nat, end: nat, e: Pair<MCInstOrData>)
    requires index < end
    ensures var size, kind := SizeAtIndex(decode, index), decode(index).kind;
            DecodedAt(decode, index, end, e) <==>
              (kind.Some? && e == Pair(index, Inst(MCInst(kind.value, size))))
                  || DecodedAt(decode, index + size, end, e)
  {
    var next := index + SizeAtIndex(decode, index);
    assert OffsetAfter(decode, index, 0) == index;
    if n: nat :| OffsetAfter(decode, index, n) == e.key && n > 0 {
      OffsetShifts(decode, index, n - 1);
    }
    if n: nat :| OffsetAfter(decode, next, n) == e.key {
      OffsetShifts(decode, index, n);
      assert OffsetAfter(decode, index, n + 1) == e.key;
    }
  }

  /** The stream is exactly what is decoded at the offsets that decoding comes to. */
  lemma {:induction false} StreamExact(decode: Decoder, index: nat, end: nat, e: Pair<MCInstOrData>)
    ensures e in StreamOf(decode, index, end) <==> DecodedAt(decode, index, end, e)
    decreases end - index
  {
    if index < end {
      StreamExact(decode, index + SizeAtIndex(decode, index), end, e);
      DecodedIff(decode, index, end, e);
    } else if n: nat :| OffsetAfter(decode, index, n) == e.key {
      OffsetsGrow(decode, index, n);
    }
  }

  /** The leaders that the raiser keeps. */
  function Kept(leaders: set<nat>, b: Bounds): set<nat> {
    set t | t in leaders && b.start <= t <= b.end
  }

  lemma CollectedClosed(decode: Decoder, start: nat, end: nat, k: nat)
    requires IsBranch(StreamOf(decode, start, end), k)
    ensures var b := Bounds(start, end);
            BranchClosed(StreamOf(decode, start, end), Kept({start} + LeadersOf(decode, start, end), b), b, k)
  {
    hide StreamOf, LeadersOf, EvaluateBranch, Decodable;
    StreamSorted(decode, start, end);
    BranchTargetsIn(decode, start, end, k);
  }

  lemma CollectedClean(decode: Decoder, start: nat, end: nat)
    requires Decodable(decode, start, end)
    requires var es := StreamOf(decode, start, end); |es| > 0 ==> !IsConditional(es, |es| - 1)
    ensures var b := Bounds(start, end);
            var es, leaders := StreamOf(decode, start, end),
                Kept({start} + LeadersOf(decode, start, end), Bounds(start, end));
            Clean(es, leaders, b) && Buildable(es, leaders, b)
  {
    hide StreamOf, LeadersOf, EvaluateBranch, Decodable, BranchClosed;
    var b := Bounds(start, end);
    var es, leaders := StreamOf(decode, start, end), Kept({start} + LeadersOf(decode, start, end), b);
    StreamSorted(decode, start, end);
    StreamContiguous(decode, start, end);
    forall k: nat | IsBranch(es, k) ensures BranchClosed(es, leaders, b, k) {
      CollectedClosed(decode, start, end, k);
    }
    if |es| > 0 {
      assert IsInst(es, 0) && IsInst(es, |es| - 1);
    }
    assert forall k: nat :: FirstInst(es, k) ==> k == 0;
  }

  /** Records one decoded instruction and its targets. */
  method Collect(raiser: MCInstRaiser, inst: MCInst, index: nat, end: nat,
                 branchTargets: set<nat>) returns (targets: set<nat>)
    requires raiser.Valid() && forall k :: 0 <= k < |raiser.instMap| ==> raiser.instMap[k].key < index
    modifies raiser`instMap, raiser`dataInCode
    ensures raiser.Valid() && raiser.instMap == old(raiser.instMap) + [Pair(index, Inst(inst))]
    ensures targets == branchTargets + TargetsAt(inst, index, end)
  {
    InsertLast(raiser.instMap, index, Inst(inst));
    raiser.AddMCInstOrData(index, Inst(inst));
    targets := branchTargets;
    if inst.kind.Branch? {
      var target := EvaluateBranch(inst, index, inst.size);
      if target.Some? {
        targets := targets + {target.value};
      }
      var fallThruIndex := index + inst.size;
      if fallThruIndex < end {
        targets := targets + {fallThruIndex};
      }
    }
  }

  lemma OneMore(decode: Decoder, index: nat, end: nat)
    requires index < end
    ensures var size := if decode(index).size == 0 then 1 else decode(index).size;
            var kind := decode(index).kind;
            && StreamOf(decode, index, end) ==
                 (if kind.Some? then [Pair(index, Inst(MCInst(kind.value, size)))] else [])
                 + StreamOf(decode, index + size, end)
            && LeadersOf(decode, index, end) ==
                 (if kind.Some? then TargetsAt(MCInst(kind.value, size), index, end) else {})
                 + LeadersOf(decode, index + size, end)
  {
  }

  /** The end has been reached. */
  lemma NoMore(decode: Decoder, index: nat, end: nat)
    requires index >= end
    ensures StreamOf(decode, index, end) == [] && LeadersOf(decode, index, end) == {}
  {
  }

  /** The disassembly loop over one function. */
  method Disassemble(decode: Decoder, raiser: MCInstRaiser, start: nat, end: nat) returns (branchTargets: set<nat>)
    requires raiser.Valid() && raiser.instMap == []
    modifies raiser`instMap, raiser`dataInCode
    ensures raiser.Valid() && raiser.instMap == StreamOf(decode, start, end)
    ensures branchTargets == {start} + LeadersOf(decode, start, end)
    // the instructions are what is decoded, and the targets what their branches make leaders
    ensures Sorted(raiser.instMap) && forall e :: e in raiser.instMap <==> DecodedAt(decode, start, end, e)
    ensures forall offset: nat :: offset in branchTargets <==>
              offset == start || MadeLeader(raiser.instMap, end, offset)
  {
    hide TargetsAt, Sorted, StreamOf, LeadersOf, SizeAtIndex, DecodedAt, MadeLeader;
    branchTargets := {start};
    var index := start;
    while index < end
      invariant raiser.Valid()
      invariant forall k :: 0 <= k < |raiser.instMap| ==> raiser.instMap[k].key < index
      invariant raiser.instMap + StreamOf(decode, index, end) == StreamOf(decode, start, end)
      invariant branchTargets + LeadersOf(decode, index, end) == {start} + LeadersOf(decode, start, end)
    {
      var decoded := decode(index);
      var size := decoded.size;
      if size == 0 {
        size := 1;
      }
      ghost var before := raiser.instMap;
      OneMore(decode, index, end);
      if decoded.kind.Some? {
        branchTargets := Collect(raiser, MCInst(decoded.kind.value, size), index, end, branchTargets);
        assert before + StreamOf(decode, index, end) == raiser.instMap + StreamOf(decode, index + size, end);
      }
      index := index + size;
    }
    NoMore(decode, index, end);
    StreamSorted(decode, start, end);
    assert raiser.instMap == StreamOf(decode, start, end);
    assert branchTargets == {start} + LeadersOf(decode, start, end);
    forall e
      ensures e in raiser.instMap <==> DecodedAt(decode, start, end, e)
    {
      StreamExact(decode, start, end, e);
    }
    forall offset: nat
      ensures offset in branchTargets <==>
              offset == start || MadeLeader(raiser.instMap, end, offset)
    {
      LeadersOfIff(decode, start, end, offset);
    }
  }

  /** Hands the collected targets to the raiser. */
  method FlushTargets(raiser: MCInstRaiser, branchTargets: set<nat>)
    requires raiser.Valid()
    modifies raiser`targetIndices
    ensures raiser.Valid()
    ensures raiser.targetIndices == old(raiser.targetIndices) + Kept(branchTargets, raiser.FunctionBounds())
  {
    var rest := branchTargets;
    while rest != {}
      invariant raiser.Valid() && rest <= branchTargets
      invariant raiser.targetIndices == old(raiser.targetIndices) + Kept(branchTargets - rest, raiser.FunctionBounds())
    {
      var target :| target in rest;
      rest := rest - {target};
      raiser.AddTarget(target);
    }
    assert branchTargets - rest == branchTargets;
  }

  /** From the bytes of a function, all of which decode, to its graph. */
  method RecoverCfg(decode: Decoder, start: nat, end: nat) returns (raiser: MCInstRaiser, mf: MachineFunction)
    requires Decodable(decode, start, end)
    requires var es := StreamOf(decode, start, end); |es| > 0 ==> !IsConditional(es, |es| - 1)
    ensures fresh(raiser) && fresh(mf) && Sorted(raiser.instMap)
    ensures forall e :: e in raiser.instMap <==> DecodedAt(decode, start, end, e)
    ensures LeadersExact(raiser.instMap, raiser.targetIndices, Bounds(start, end))
    ensures var b := Bounds(start, end);
            && Clean(raiser.instMap, raiser.targetIndices, b)
            && Recovered(raiser.instMap, raiser.targetIndices, b, mf.blocks, raiser.mbbNumToMCInstTargets,
                         raiser.instToMBBNum)
  {
    hide Clean, MapsDone, IsCfg, StartsWithLeader, Leads, DecodedAt, MadeLeader, Sorted, StreamOf;
    raiser := new MCInstRaiser(start, end);
    var branchTargets := Disassemble(decode, raiser, start, end);
    FlushTargets(raiser, branchTargets);
    assert raiser.targetIndices == Kept(branchTargets, Bounds(start, end));
    CollectedClean(decode, start, end);
    mf := new MachineFunction();
    raiser.BuildCFG(mf);
  }

  // ----- blocks are as long as they can be

  /** A block after the first begins after a branch or where a branch may go. */
  lemma BlocksMaximal(es: Stream, leaders: set<nat>, b: Bounds, n: nat)
    requires Clean(es, leaders, b) && LeadersExact(es, leaders, b)
    requires var leads := Leads(es, leaders); Leading(es, |es|, leads) && 0 < n < |leads|
    ensures var lead := Leads(es, leaders)[n];
            (lead > 0 && IsBranch(es, lead - 1)) || exists k: nat :: IsBranch(es, k)
                                                                     && BranchTarget(es, k) == Some(es[lead].key)
  {
    hide Leads, EvaluateBranch, Closed;
    var leads := Leads(es, leaders);
    var lead := leads[n];
    assert lead in leads && IsLeader(es, leaders, lead);
    assert leads[0] < lead;
    assert b.start <= es[0].key < es[lead].key;
    var k: nat :| MakesLeader(es, b.end, k, es[lead].key);
    if BranchTarget(es, k) != Some(es[lead].key) {
      FallsThrough(es, leaders, b, k, lead);
    }
  }
}
