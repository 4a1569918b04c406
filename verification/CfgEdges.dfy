/** The recorded edges against the steps of the instruction stream. */
module CfgEdges {
  import opened Wrappers
  import opened OrderedMap
  import opened McInstStream
  import opened McInstRaiser
  import opened CfgExact

  /** A stream of instructions only, without gaps, whose leaders are those the disassembler collects. */
  ghost predicate Clean(es: Stream, leaders: set<nat>, b: Bounds) {
    && Sorted(es) && Contiguous(es, b.end) && InBounds(es, b) && Closed(es, leaders, b)
    && (|es| > 0 ==> !IsConditional(es, |es| - 1))
  }

  /** The last instruction of block `n`. */
  function LastOf(es: Stream, leads: seq<nat>, n: nat): nat
    requires Leading(es, |es|, leads) && n < |leads|
  {
    assert leads[n] < |es| && (n + 1 < |leads| ==> leads[n] < leads[n + 1]);
    EndOf(|es|, leads, n) - 1
  }

  /** A conditional branch whose target the instruction does not say, or that leaves the function. */
  predicate Lost(es: Stream, b: Bounds, k: nat) {
    IsConditional(es, k) &&
    var target := EvaluateBranch(es[k].value.mcInst, es[k].key, es[k].value.mcInst.size);
    target.None? || !(b.start <= target.value < b.end)
  }

  ghost predicate HasEdge(leads: seq<nat>, mbb: MBB, j: nat) {
    exists c: nat :: c in mbb.successors && c < |leads| && leads[c] == j
  }

  /** The edges out of a block are the steps from its last instruction. */
  ghost predicate EdgesExact(es: Stream, leads: seq<nat>, mbb: MBB, last: nat) {
    forall j: nat :: Step(es, last, j) <==> HasEdge(leads, mbb, j)
  }

  // ----- blocks of a stream without data

  lemma {:induction false} InstsOfCode(es: Stream)
    requires forall k: nat :: k < |es| ==> es[k].value.Inst?
    ensures |Insts(es)| == |es|
    ensures forall k: nat :: k < |es| ==> Insts(es)[k] == Pair(es[k].key, es[k].value.mcInst)
  {
    if es != [] {
      InstsOfCode(es[..|es| - 1]);
    }
  }

  lemma BlockOfCode(es: Stream, leads: seq<nat>, n: nat)
    requires Leading(es, |es|, leads) && n < |leads| && forall k: nat :: k < |es| ==> IsInst(es, k)
    ensures var l, last := leads[n], LastOf(es, leads, n);
            var instrs := BlockInsts(es, |es|, leads, n);
            && l <= last < |es| && |instrs| == last + 1 - l
            && forall i: nat :: i < |instrs| ==>
                                IsInst(es, l + i) && instrs[i] == Pair(es[l + i].key, es[l + i].value.mcInst)
  {
    var l, e := leads[n], EndOf(|es|, leads, n);
    assert n + 1 < |leads| ==> leads[n] < leads[n + 1];
    forall k: nat | k < e - l ensures es[l..e][k].value.Inst? {
      assert IsInst(es, l + k);
    }
    InstsOfCode(es[l..e]);
  }

  // ----- what an edge is

  lemma {:induction false} ResolveMembers(targets: seq<nat>, begins: seq<Pair<nat>>, c: nat)
    ensures c in Resolve(targets, begins) <==> exists t: nat :: t in targets && Find(begins, t) == Some(c)
  {
    hide Find;
    if targets != [] {
      var k := |targets| - 1;
      var rest := Resolve(targets[..k], begins);
      ResolveMembers(targets[..k], begins, c);
      assert targets == targets[..k] + [targets[k]];
      assert c in Resolve(targets, begins) <==> c in rest || Find(begins, targets[k]) == Some(c);
      assert forall t: nat :: t in targets <==> t in targets[..k] || t == targets[k];
    }
  }

  lemma FindLead(es: Stream, leads: seq<nat>, t: nat, c: nat)
    requires Sorted(es) && Leading(es, |es|, leads)
    ensures Find(LeaderMap(es, leads), t) == Some(c) <==> c < |leads| && es[leads[c]].key == t
  {
    hide Find;
    var begins := LeaderMap(es, leads);
    LeaderMapSorted(es, |es|, leads);
    if c < |leads| && es[leads[c]].key == t {
      FindIs(begins, c);
    }
    if Find(begins, t) == Some(c) {
      assert Has(begins, t, c);
    }
  }

  /** There is an edge to block `c` exactly if its first offset is among the recorded targets. */
  lemma EdgeIs(es: Stream, leads: seq<nat>, n: nat, mbb: MBB, targets: seq<nat>, begins: seq<Pair<nat>>, c: nat)
    requires Sorted(es) && Leading(es, |es|, leads) && n < |leads| && (forall k: nat :: k < |es| ==> IsInst(es, k))
    requires begins == LeaderMap(es, leads) && IsBlock(es, leads, n, mbb, targets, begins)
    ensures c in mbb.successors <==> c < |leads| && !IsReturn(es, LastOf(es, leads, n)) && es[leads[c]].key in targets
  {
    BlockOfCode(es, leads, n);
    hide BlockInsts, Find, Resolve, LeaderMap;
    ResolveMembers(targets, begins, c);
    assert IsReturnBlock(mbb) <==> IsReturn(es, LastOf(es, leads, n));
    if c in Resolve(targets, begins) {
      var t: nat :| t in targets && Find(begins, t) == Some(c);
      FindLead(es, leads, t, c);
    }
    if c < |leads| {
      FindLead(es, leads, es[leads[c]].key, c);
    }
  }

  // ----- steps

  /** An offset of the stream is at one position. */
  lemma SamePosition(es: Stream, i: nat, j: nat)
    requires Sorted(es) && i < |es| && j < |es|
    ensures es[i].key == es[j].key ==> i == j
  {
    if i < j {
      assert es[i].key < es[j].key;
    } else if j < i {
      assert es[j].key < es[i].key;
    }
  }

  /** A step to where an instruction ends is a step to the next instruction, which there must be. */
  lemma FallsThrough(es: Stream, leaders: set<nat>, b: Bounds, i: nat, j: nat)
    requires Clean(es, leaders, b) && IsInst(es, i) && IsInst(es, j) && es[j].key == es[i].key + es[i].value.mcInst.size
    ensures j == i + 1
  {
    assert b.start <= es[j].key < b.end;
    assert es[i].key + es[i].value.mcInst.size == NextOffset(es, b.end, i);
    if i + 1 < |es| {
      SamePosition(es, i + 1, j);
    }
  }

  /** No instruction but the last of a block is a branch. */
  lemma InnerNoBranch(es: Stream, leaders: set<nat>, b: Bounds, n: nat, k: nat)
    requires Clean(es, leaders, b)
    requires var leads := Leads(es, leaders);
             Leading(es, |es|, leads) && n < |leads| && leads[n] <= k < LastOf(es, leads, n)
    ensures !IsBranch(es, k) && IsInst(es, k)
  {
    hide Leads, EvaluateBranch;
    assert IsInst(es, k) && IsInst(es, k + 1);
    assert es[k].key + es[k].value.mcInst.size == NextOffset(es, b.end, k);
    assert b.start <= es[k + 1].key < b.end;
    assert IsBranch(es, k) ==> BranchClosed(es, leaders, b, k);
    NoneBetween(es, leaders, n, k + 1);
  }

  /** An instruction that is no branch only steps to the one after it. */
  lemma PlainStep(es: Stream, leaders: set<nat>, b: Bounds, k: nat)
    requires Clean(es, leaders, b) && IsInst(es, k) && !IsBranch(es, k)
    ensures forall j: nat :: Step(es, k, j) <==> j == k + 1 && j < |es| && !IsReturn(es, k)
  {
    assert es[k].key + es[k].value.mcInst.size == NextOffset(es, b.end, k);
    assert k + 1 < |es| ==> IsInst(es, k + 1);
    hide EvaluateBranch, StaticTargets, Clean, Sorted;
    forall j: nat ensures Step(es, k, j) <==> j == k + 1 && j < |es| && !IsReturn(es, k) {
      if IsReturn(es, k) {
        ReturnsStay(es, k);
      } else if IsInst(es, j) {
        CleanSorted(es, leaders, b);
        StepIs(es, b, k, j);
        if es[j].key == es[k].key + es[k].value.mcInst.size {
          FallsThrough(es, leaders, b, k, j);
        }
      }
    }
  }

  lemma CleanSorted(es: Stream, leaders: set<nat>, b: Bounds)
    requires Clean(es, leaders, b)
    ensures Sorted(es)
  {
  }

  /** A step from the last instruction of a block leads to the first instruction of a block. */
  lemma StepsToLeads(es: Stream, leaders: set<nat>, b: Bounds, n: nat, j: nat)
    requires Clean(es, leaders, b)
    requires var leads := Leads(es, leaders);
             Leading(es, |es|, leads) && n < |leads| && Step(es, LastOf(es, leads, n), j)
    ensures j in Leads(es, leaders)
  {
    hide Leads, EvaluateBranch;
    var leads := Leads(es, leaders);
    var last := LastOf(es, leads, n);
    var inst := es[last].value.mcInst;
    assert b.start <= es[j].key < b.end;
    if es[j].key == es[last].key + inst.size {
      FallsThrough(es, leaders, b, last, j);
      assert leads[n + 1] == j;
    } else {
      assert IsBranch(es, last);
      assert BranchClosed(es, leaders, b, last);
      assert IsLeader(es, leaders, j);
    }
  }

  /** Where the branch of an instruction goes, by its own size. */
  function BranchTarget(es: Stream, k: nat): Option<nat>
    requires IsInst(es, k)
  {
    EvaluateBranch(es[k].value.mcInst, es[k].key, es[k].value.mcInst.size)
  }

  /** The steps of an instruction that does not return. */
  lemma StepIs(es: Stream, b: Bounds, k: nat, j: nat)
    requires Sorted(es) && IsInst(es, k) && IsInst(es, j) && !IsReturn(es, k)
    ensures var next := es[k].key + es[k].value.mcInst.size;
            Step(es, k, j) <==> (es[j].key == next && (!IsBranch(es, k) || IsConditional(es, k)))
                                || (IsBranch(es, k) && BranchTarget(es, k) == Some(es[j].key))
  {
    hide EvaluateBranch;
  }

  /** What is recorded for a block that another follows. */
  lemma PrevTargetsMean(es: Stream, b: Bounds, k: nat, j: nat)
    requires Sorted(es) && InBounds(es, b) && k + 1 < |es| && IsInst(es, k) && IsInst(es, k + 1) && IsInst(es, j)
             && !IsReturn(es, k)
    requires es[k].key + es[k].value.mcInst.size == es[k + 1].key
    ensures es[j].key in PrevTargets(es, b, k + 1) <==> Step(es, k, j) && !Lost(es, b, k)
  {
    StepIs(es, b, k, j);
    assert b.start <= es[j].key < b.end && b.start <= es[k + 1].key < b.end;
    hide EvaluateBranch, StaticTargets, Step, InBounds, Sorted;
    assert es[k + 1].key - es[k].key == es[k].value.mcInst.size;
  }

  lemma TermTargetsMean(es: Stream, b: Bounds, j: nat)
    requires |es| > 0 && Sorted(es) && InBounds(es, b) && IsInst(es, |es| - 1) && IsInst(es, j)
             && !IsReturn(es, |es| - 1)
    requires !IsConditional(es, |es| - 1) && es[|es| - 1].key + es[|es| - 1].value.mcInst.size == b.end
    ensures es[j].key in TermTargets(es, b) <==> Step(es, |es| - 1, j) && !Lost(es, b, |es| - 1)
  {
    StepIs(es, b, |es| - 1, j);
    assert b.start <= es[j].key < b.end;
    hide EvaluateBranch, StaticTargets, Step, InBounds, Sorted;
    assert b.end - es[|es| - 1].key == es[|es| - 1].value.mcInst.size;
  }

  /** The recorded targets of a block that does not return. */
  lemma TargetsMean(es: Stream, leaders: set<nat>, b: Bounds, n: nat, j: nat)
    requires Clean(es, leaders, b) && j < |es|
    requires var leads := Leads(es, leaders);
             Leading(es, |es|, leads) && n < |leads| && !IsReturn(es, LastOf(es, leads, n))
    ensures var leads, last := Leads(es, leaders), LastOf(es, Leads(es, leaders), n);
            es[j].key in RecordedTargets(es, b, leads, n) <==> Step(es, last, j) && !Lost(es, b, last)
  {
    hide Leads, EvaluateBranch, Closed, PrevTargets, TermTargets, Step, Lost;
    var leads := Leads(es, leaders);
    var last := LastOf(es, leads, n);
    assert IsInst(es, last) && IsInst(es, j);
    assert es[last].key + es[last].value.mcInst.size == NextOffset(es, b.end, last);
    if n + 1 < |leads| {
      assert leads[n + 1] == last + 1 && IsInst(es, last + 1);
      PrevTargetsMean(es, b, last, j);
    } else {
      TermTargetsMean(es, b, j);
    }
  }

  lemma ReturnsStay(es: Stream, k: nat)
    requires IsReturn(es, k)
    ensures forall j: nat :: !Step(es, k, j)
  {
  }

  /** An edge is recorded for every step from the last instruction, unless that is lost. */
  lemma EdgeMeans(es: Stream, leaders: set<nat>, b: Bounds, blocks: seq<MBB>, targets: map<nat, seq<nat>>,
                  begins: seq<Pair<nat>>, n: nat, c: nat)
    requires Clean(es, leaders, b) && Recovered(es, leaders, b, blocks, targets, begins) && n < |blocks|
    ensures var leads := Leads(es, leaders);
            && Leading(es, |es|, leads) && |leads| == |blocks|
            && (c in blocks[n].successors <==>
                  c < |leads| && Step(es, LastOf(es, leads, n), leads[c]) && !Lost(es, b, LastOf(es, leads, n)))
  {
    hide Leads, RecordedTargets, BlockInsts, Resolve, LeaderMap, StaticTargets;
    var leads := Leads(es, leaders);
    var last := LastOf(es, leads, n);
    assert n in targets && IsBlock(es, leads, n, blocks[n], targets[n], begins);
    assert targets[n] == RecordedTargets(es, b, leads, n);
    hide IsBlock, IsCfg, MapsDone, StartsWithLeader, Lost;
    assert forall k: nat :: k < |es| ==> IsInst(es, k);
    EdgeIs(es, leads, n, blocks[n], targets[n], begins, c);
    if IsReturn(es, last) {
      ReturnsStay(es, last);
    } else if c < |leads| {
      TargetsMean(es, leaders, b, n, leads[c]);
    }
  }

  /** The edges out of a block agree with the steps of the machine exactly if its last instruction is no conditional
      branch out of the function or to an unknown target; of such a branch all edges are dropped. */
  lemma EdgesExactIff(es: Stream, leaders: set<nat>, b: Bounds, blocks: seq<MBB>, targets: map<nat, seq<nat>>,
                      begins: seq<Pair<nat>>, n: nat)
    requires Clean(es, leaders, b) && Recovered(es, leaders, b, blocks, targets, begins) && n < |blocks|
    ensures var leads := Leads(es, leaders);
            && Leading(es, |es|, leads) && |leads| == |blocks|
            && (EdgesExact(es, leads, blocks[n], LastOf(es, leads, n)) <==> !Lost(es, b, LastOf(es, leads, n)))
  {
    hide Leads, IsCfg, MapsDone, StartsWithLeader, Step, Clean, Lost, Buildable;
    EdgeMeans(es, leaders, b, blocks, targets, begins, n, 0);
    var leads := Leads(es, leaders);
    var last := LastOf(es, leads, n);
    forall c: nat | c in blocks[n].successors
      ensures c < |leads| && Step(es, last, leads[c]) && !Lost(es, b, last)
    {
      EdgeMeans(es, leaders, b, blocks, targets, begins, n, c);
    }
    if Lost(es, b, last) {
      LostFallsThrough(es, leaders, b, last);
      assert !HasEdge(leads, blocks[n], last + 1);
    } else {
      forall j: nat | Step(es, last, j) ensures HasEdge(leads, blocks[n], j) {
        StepsToLeads(es, leaders, b, n, j);
        var c: nat :| c < |leads| && leads[c] == j;
        EdgeMeans(es, leaders, b, blocks, targets, begins, n, c);
      }
    }
  }

  /** A conditional branch can step to the next instruction. */
  lemma LostFallsThrough(es: Stream, leaders: set<nat>, b: Bounds, k: nat)
    requires Clean(es, leaders, b) && Lost(es, b, k)
    ensures Step(es, k, k + 1)
  {
    assert IsInst(es, k) && IsInst(es, k + 1);
    assert es[k].key + es[k].value.mcInst.size == NextOffset(es, b.end, k);
  }

  /** A block with data behind it has no edges at all, whatever its last instruction is. */
  lemma DataDropsEdges(es: Stream, leaders: set<nat>, b: Bounds, blocks: seq<MBB>, targets: map<nat, seq<nat>>,
                       begins: seq<Pair<nat>>, n: nat)
    requires Recovered(es, leaders, b, blocks, targets, begins) && n + 1 < |blocks|
    requires var leads := Leads(es, leaders);
             n + 1 < |leads| && 0 < leads[n + 1] <= |es| && es[leads[n + 1] - 1].value.Data?
    ensures blocks[n].successors == []
  {
    hide Leads, BlockInsts;
    assert n in targets && IsBlock(es, Leads(es, leaders), n, blocks[n], targets[n], begins);
    assert targets[n] == [];
  }
}
