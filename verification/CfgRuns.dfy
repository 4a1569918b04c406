/** Runs of the instruction stream and walks of the recovered graph. */
module CfgRuns {
  import opened Wrappers
  import opened OrderedMap
  import opened McInstStream
  import opened McInstRaiser
  import opened CfgExact
  import opened CfgEdges

  /** A run of the machine, by positions in the stream. */
  ghost predicate Run(es: Stream, p: seq<nat>) {
    && |p| > 0 && IsInst(es, p[0])
    && forall i: nat :: i + 1 < |p| ==> Step(es, p[i], p[i + 1])
  }

  /** The instructions of a run. */
  function Executed(es: Stream, p: seq<nat>): seq<MachineInstr>
    requires forall i: nat :: i < |p| ==> IsInst(es, p[i])
  {
    seq(|p|, i requires 0 <= i < |p| && IsInst(es, p[i]) => Pair(es[p[i]].key, es[p[i]].value.mcInst))
  }

  /** A walk of the graph, by block numbers. */
  ghost predicate Walk(blocks: seq<MBB>, w: seq<nat>) {
    && |w| > 0
    && (forall i :: 0 <= i < |w| ==> w[i] < |blocks|)
    && (forall i: nat :: i + 1 < |w| ==> w[i + 1] in blocks[w[i]].successors)
  }

  /** The instructions of the blocks of a walk. */
  function Expanded(blocks: seq<MBB>, w: seq<nat>): seq<MachineInstr>
    requires forall i :: 0 <= i < |w| ==> w[i] < |blocks|
  {
    if w == [] then [] else blocks[w[0]].instrs + Expanded(blocks, w[1..])
  }

  /** The run goes on after no branch whose edges are lost. */
  ghost predicate NothingLost(es: Stream, b: Bounds, p: seq<nat>) {
    forall i: nat :: i + 1 < |p| ==> !Lost(es, b, p[i])
  }

  lemma RunInsts(es: Stream, p: seq<nat>)
    requires Run(es, p)
    ensures forall i: nat :: i < |p| ==> IsInst(es, p[i])
  {
    forall i: nat | i < |p| ensures IsInst(es, p[i]) {
      if i > 0 {
        var k: nat := i - 1;
        assert Step(es, p[k], p[k + 1]);
      }
    }
  }

  /** From inside a block, a run goes on to the end of the block and then along a walk. */
  lemma {:induction false} RunFrom(es: Stream, leaders: set<nat>, b: Bounds, blocks: seq<MBB>,
                                   targets: map<nat, seq<nat>>,
                                   begins: seq<Pair<nat>>, p: seq<nat>, n: nat)
    returns (w: seq<nat>)
    requires Clean(es, leaders, b) && Recovered(es, leaders, b, blocks, targets, begins) && NothingLost(es, b, p)
    requires Run(es, p) && forall i: nat :: i < |p| ==> IsInst(es, p[i])
    requires var leads := Leads(es, leaders);
             Leading(es, |es|, leads) && |leads| == |blocks| && n < |leads| && leads[n] <= p[0] <= LastOf(es, leads, n)
    ensures Walk(blocks, w) && w[0] == n
    ensures var l := Leads(es, leaders)[n];
            p[0] - l <= |blocks[n].instrs| && Executed(es, p) <= blocks[n].instrs[p[0] - l..] + Expanded(blocks, w[1..])
    decreases |p|
  {
    hide Leads, Clean, Step, Lost, NothingLost, Expanded, Recovered;
    var leads := Leads(es, leaders);
    var last, l := LastOf(es, leads, n), leads[n];
    BlockInstrs(es, leaders, b, blocks, targets, begins, n);
    var instrs := blocks[n].instrs[p[0] - l..];
    assert instrs[0] == Executed(es, p)[0];
    if |p| == 1 {
      w := [n];
    } else {
      var rest := p[1..];
      RestRuns(es, p);
      RestLosesNothing(es, b, p);
      assert Executed(es, p) == [instrs[0]] + Executed(es, rest);
      if p[0] < last {
        StaysInside(es, leaders, b, n, p[0], p[1]);
        w := RunFrom(es, leaders, b, blocks, targets, begins, rest, n);
        assert instrs == [instrs[0]] + blocks[n].instrs[p[1] - l..];
      } else {
        var c := FollowsEdge(es, leaders, b, blocks, targets, begins, n, p[1]);
        var u := RunFrom(es, leaders, b, blocks, targets, begins, rest, c);
        w := [n] + u;
        WalkExtends(blocks, n, u);
        assert instrs == [instrs[0]];
        assert blocks[c].instrs[0..] == blocks[c].instrs;
      }
    }
  }

  lemma WalkExtends(blocks: seq<MBB>, n: nat, u: seq<nat>)
    requires Walk(blocks, u) && n < |blocks| && u[0] in blocks[n].successors
    ensures Walk(blocks, [n] + u) && ([n] + u)[1..] == u
    ensures Expanded(blocks, u) == blocks[u[0]].instrs + Expanded(blocks, u[1..])
    ensures Expanded(blocks, [n] + u) == blocks[n].instrs + Expanded(blocks, u)
  {
    var w := [n] + u;
    assert w[1..] == u;
    forall i: nat | i + 1 < |w| ensures w[i + 1] in blocks[w[i]].successors {
      if i > 0 {
        var k: nat := i - 1;
        assert w[i] == u[k] && w[i + 1] == u[k + 1];
      }
    }
  }

  lemma BlockInstrs(es: Stream, leaders: set<nat>, b: Bounds, blocks: seq<MBB>, targets: map<nat, seq<nat>>,
                    begins: seq<Pair<nat>>, n: nat)
    requires Clean(es, leaders, b) && Recovered(es, leaders, b, blocks, targets, begins) && n < |blocks|
    ensures var leads := Leads(es, leaders);
            && Leading(es, |es|, leads) && |leads| == |blocks|
            && var l, last := leads[n], LastOf(es, leads, n);
               var instrs := blocks[n].instrs;
               && l <= last < |es| && |instrs| == last + 1 - l
               && forall i: nat :: i < |instrs| ==>
                                   IsInst(es, l + i) && instrs[i] == Pair(es[l + i].key, es[l + i].value.mcInst)
  {
    hide Leads, MapsDone, StartsWithLeader;
    var leads := Leads(es, leaders);
    CfgInstrs(es, leads, blocks, targets, begins);
    assert forall k: nat :: k < |es| ==> IsInst(es, k);
    BlockOfCode(es, leads, n);
  }

  lemma StaysInside(es: Stream, leaders: set<nat>, b: Bounds, n: nat, k: nat, j: nat)
    requires Clean(es, leaders, b) && Step(es, k, j)
    requires var leads := Leads(es, leaders);
             Leading(es, |es|, leads) && n < |leads| && leads[n] <= k < LastOf(es, leads, n)
    ensures j == k + 1
  {
    hide Leads, Clean;
    InnerNoBranch(es, leaders, b, n, k);
    PlainStep(es, leaders, b, k);
  }

  lemma FollowsEdge(es: Stream, leaders: set<nat>, b: Bounds, blocks: seq<MBB>, targets: map<nat, seq<nat>>,
                    begins: seq<Pair<nat>>, n: nat, j: nat)
    returns (c: nat)
    requires Clean(es, leaders, b) && Recovered(es, leaders, b, blocks, targets, begins)
    requires var leads := Leads(es, leaders);
             Leading(es, |es|, leads) && n < |leads| && n < |blocks| && Step(es, LastOf(es, leads, n), j)
    requires !Lost(es, b, LastOf(es, Leads(es, leaders), n))
    ensures c in blocks[n].successors && c < |blocks| && |blocks| == |Leads(es, leaders)| && Leads(es, leaders)[c] == j
    ensures j <= LastOf(es, Leads(es, leaders), c)
  {
    hide Leads, Clean, Step, Lost, Recovered;
    StepsToLeads(es, leaders, b, n, j);
    var leads := Leads(es, leaders);
    c :| c < |leads| && leads[c] == j;
    EdgeMeans(es, leaders, b, blocks, targets, begins, n, c);
    assert c + 1 < |leads| ==> leads[c] < leads[c + 1];
  }

  lemma RestLosesNothing(es: Stream, b: Bounds, p: seq<nat>)
    requires NothingLost(es, b, p) && |p| > 1
    ensures !Lost(es, b, p[0]) && NothingLost(es, b, p[1..])
  {
    hide Lost;
    forall i: nat | i + 1 < |p[1..]| ensures !Lost(es, b, p[1..][i]) {
      assert p[1..][i] == p[i + 1];
    }
  }

  /** Every run of the machine from the beginning of a block that goes on after no lost branch executes the instructions
      of a walk of the graph from that block, up to where it stops. */
  lemma RunIsWalk(es: Stream, leaders: set<nat>, b: Bounds, blocks: seq<MBB>, targets: map<nat, seq<nat>>,
                  begins: seq<Pair<nat>>, p: seq<nat>, n: nat)
    returns (w: seq<nat>)
    requires Clean(es, leaders, b) && Recovered(es, leaders, b, blocks, targets, begins) && NothingLost(es, b, p)
    requires Run(es, p) && Begins(es, blocks, p, n)
    ensures forall i: nat :: i < |p| ==> IsInst(es, p[i])
    ensures Walk(blocks, w) && w[0] == n && Executed(es, p) <= Expanded(blocks, w)
  {
    hide Leads, Step, Lost, NothingLost, IsCfg, MapsDone;
    RunInsts(es, p);
    BlockInstrs(es, leaders, b, blocks, targets, begins, n);
    SamePosition(es, p[0], Leads(es, leaders)[n]);
    w := RunFrom(es, leaders, b, blocks, targets, begins, p, n);
    assert blocks[n].instrs[0..] == blocks[n].instrs;
  }

  /** The run begins where block `n` does. */
  ghost predicate Begins(es: Stream, blocks: seq<MBB>, p: seq<nat>, n: nat) {
    |p| > 0 && p[0] < |es| && n < |blocks| && |blocks[n].instrs| > 0 && es[p[0]].key == blocks[n].instrs[0].key
  }

  /** The run executes a walk from block `n`, up to where it stops. */
  ghost predicate IsWalked(es: Stream, blocks: seq<MBB>, p: seq<nat>, n: nat)
    requires forall i: nat :: i < |p| ==> IsInst(es, p[i])
  {
    exists w :: Walk(blocks, w) && w[0] == n && Executed(es, p) <= Expanded(blocks, w)
  }

  /** The run, inside the first block of the walk, executes what is left of that and then the others, up to where it
      stops. */
  ghost predicate Covered(es: Stream, leads: seq<nat>, blocks: seq<MBB>, p: seq<nat>, w: seq<nat>) {
    && Run(es, p) && (forall i: nat :: i < |p| ==> IsInst(es, p[i]))
    && Walk(blocks, w) && Leading(es, |es|, leads) && |leads| == |blocks|
    && var l, instrs := leads[w[0]], blocks[w[0]].instrs;
       && l <= p[0] <= LastOf(es, leads, w[0]) && p[0] - l <= |instrs|
       && Executed(es, p) <= instrs[p[0] - l..] + Expanded(blocks, w[1..])
  }

  /** A run that is a walk goes on after no lost branch, since no walk does. */
  lemma {:induction false} WalkLosesNothing(es: Stream, leaders: set<nat>, b: Bounds, blocks: seq<MBB>,
                                            targets: map<nat, seq<nat>>,
                                            begins: seq<Pair<nat>>, p: seq<nat>, w: seq<nat>)
    requires Clean(es, leaders, b) && Recovered(es, leaders, b, blocks, targets, begins)
    requires Covered(es, Leads(es, leaders), blocks, p, w)
    ensures NothingLost(es, b, p)
    decreases |p|
  {
    hide Leads, Clean, Step, Lost, Expanded, Recovered;
    var leads := Leads(es, leaders);
    var n, last, l := w[0], LastOf(es, leads, w[0]), leads[w[0]];
    BlockInstrs(es, leaders, b, blocks, targets, begins, n);
    if |p| > 1 {
      var rest := p[1..];
      RestRuns(es, p);
      if p[0] < last {
        StaysInside(es, leaders, b, n, p[0], p[1]);
        InnerNotLost(es, leaders, b, n, p[0]);
        assert blocks[n].instrs[p[0] - l..][1..] == blocks[n].instrs[p[1] - l..];
        WalkLosesNothing(es, leaders, b, blocks, targets, begins, rest, w);
      } else {
        LeavesBlock(es, leaders, b, blocks, targets, begins, p, w);
        WalkLosesNothing(es, leaders, b, blocks, targets, begins, rest, w[1..]);
      }
      forall i: nat | i + 1 < |p| ensures !Lost(es, b, p[i]) {
        if i > 0 {
          var k: nat := i - 1;
          assert p[i] == rest[k] && !Lost(es, b, rest[k]);
        }
      }
    }
  }

  lemma RestRuns(es: Stream, p: seq<nat>)
    requires Run(es, p) && |p| > 1 && forall i: nat :: i < |p| ==> IsInst(es, p[i])
    ensures Run(es, p[1..]) && Step(es, p[0], p[1])
    ensures forall i: nat :: i < |p[1..]| ==> IsInst(es, p[1..][i])
    ensures Executed(es, p)[1..] == Executed(es, p[1..])
  {
    hide Step;
    var k: nat := 0;
    assert Step(es, p[k], p[k + 1]);
    forall i: nat | i + 1 < |p[1..]| ensures Step(es, p[1..][i], p[1..][i + 1]) {
      var m: nat := i + 1;
      assert p[1..][i] == p[m] && p[1..][i + 1] == p[m + 1];
    }
  }

  lemma InnerNotLost(es: Stream, leaders: set<nat>, b: Bounds, n: nat, k: nat)
    requires Clean(es, leaders, b)
    requires var leads := Leads(es, leaders);
             Leading(es, |es|, leads) && n < |leads| && leads[n] <= k < LastOf(es, leads, n)
    ensures !Lost(es, b, k)
  {
    hide Leads, Clean;
    InnerNoBranch(es, leaders, b, n, k);
  }

  /** Where a run goes on after the last instruction of a block, a walk with the same instructions follows an edge. */
  lemma LeavesBlock(es: Stream, leaders: set<nat>, b: Bounds, blocks: seq<MBB>, targets: map<nat, seq<nat>>,
                    begins: seq<Pair<nat>>, p: seq<nat>, w: seq<nat>)
    requires Clean(es, leaders, b) && Recovered(es, leaders, b, blocks, targets, begins)
    requires Covered(es, Leads(es, leaders), blocks, p, w) && |p| > 1 && p[0] == LastOf(es, Leads(es, leaders), w[0])
    ensures !Lost(es, b, p[0]) && |w| > 1 && Covered(es, Leads(es, leaders), blocks, p[1..], w[1..])
  {
    hide Leads, Clean, Step, Lost, Recovered;
    var leads := Leads(es, leaders);
    var n, l := w[0], leads[w[0]];
    BlockInstrs(es, leaders, b, blocks, targets, begins, n);
    RestRuns(es, p);
    var tail := blocks[n].instrs[p[0] - l..];
    assert |tail| == 1 && Executed(es, p[1..]) <= Expanded(blocks, w[1..]);
    assert Executed(es, p[1..])[0] == Expanded(blocks, w[1..])[0];
    TailWalks(blocks, w);
    var c := w[1];
    assert w[1] in blocks[w[0]].successors;
    EdgeMeans(es, leaders, b, blocks, targets, begins, n, c);
    BlockInstrs(es, leaders, b, blocks, targets, begins, c);
    CleanSorted(es, leaders, b);
    SamePosition(es, p[1], leads[c]);
  }

  /** A run from the beginning of a block is a walk exactly if it goes on after no lost branch. */
  lemma RunIsWalkIff(es: Stream, leaders: set<nat>, b: Bounds, blocks: seq<MBB>, targets: map<nat, seq<nat>>,
                     begins: seq<Pair<nat>>, p: seq<nat>, n: nat)
    requires Clean(es, leaders, b) && Recovered(es, leaders, b, blocks, targets, begins)
    requires Run(es, p) && Begins(es, blocks, p, n)
    ensures forall i: nat :: i < |p| ==> IsInst(es, p[i])
    ensures IsWalked(es, blocks, p, n) <==> NothingLost(es, b, p)
  {
    hide Leads, Step, Lost, NothingLost, IsCfg, MapsDone;
    RunInsts(es, p);
    if NothingLost(es, b, p) {
      var w := RunIsWalk(es, leaders, b, blocks, targets, begins, p, n);
    }
    if IsWalked(es, blocks, p, n) {
      var w :| Walk(blocks, w) && w[0] == n && Executed(es, p) <= Expanded(blocks, w);
      BlockInstrs(es, leaders, b, blocks, targets, begins, n);
      SamePosition(es, p[0], Leads(es, leaders)[n]);
      assert blocks[n].instrs[0..] == blocks[n].instrs;
      WalkLosesNothing(es, leaders, b, blocks, targets, begins, p, w);
    }
  }

  // ----- and back

  /** Returns are last in their blocks. */
  ghost predicate ReturnsEnd(es: Stream, leads: seq<nat>) {
    forall k: nat :: IsReturn(es, k) ==> k + 1 == |es| || k + 1 in leads
  }

  function Positions(from: nat, last: nat): seq<nat>
    requires from <= last
  {
    seq(last + 1 - from, i requires 0 <= i < last + 1 - from => from + i)
  }

  lemma BlockIsRun(es: Stream, leaders: set<nat>, b: Bounds, n: nat)
    requires Clean(es, leaders, b) && ReturnsEnd(es, Leads(es, leaders))
    requires var leads := Leads(es, leaders);
             Leading(es, |es|, leads) && n < |leads| && leads[n] <= LastOf(es, leads, n)
    ensures var leads := Leads(es, leaders); Run(es, Positions(leads[n], LastOf(es, leads, n)))
  {
    hide Leads, Clean, Step;
    var leads := Leads(es, leaders);
    var l, last := leads[n], LastOf(es, leads, n);
    var p := Positions(l, last);
    forall i: nat | i + 1 < |p| ensures Step(es, p[i], p[i + 1]) {
      var k := p[i];
      NoneBetween(es, leaders, n, k + 1);
      InnerNoBranch(es, leaders, b, n, k);
      PlainStep(es, leaders, b, k);
    }
    CleanInsts(es, leaders, b);
  }

  lemma CleanInsts(es: Stream, leaders: set<nat>, b: Bounds)
    requires Clean(es, leaders, b)
    ensures forall k: nat :: k < |es| ==> IsInst(es, k)
  {
  }

  lemma RunsJoin(es: Stream, p: seq<nat>, q: seq<nat>)
    requires Run(es, p) && Run(es, q) && Step(es, p[|p| - 1], q[0])
    ensures Run(es, p + q)
  {
    hide Step;
    var r := p + q;
    forall i: nat | i + 1 < |r| ensures Step(es, r[i], r[i + 1]) {
      if i + 1 < |p| {
        assert r[i] == p[i] && r[i + 1] == p[i + 1];
      } else if i >= |p| {
        var k: nat := i - |p|;
        assert r[i] == q[k] && r[i + 1] == q[k + 1];
      }
    }
  }

  /** Every walk of the graph is a run of the machine, where returns are last in their blocks. */
  lemma {:induction false} WalkIsRun(es: Stream, leaders: set<nat>, b: Bounds, blocks: seq<MBB>,
                                     targets: map<nat, seq<nat>>,
                                     begins: seq<Pair<nat>>, w: seq<nat>)
    returns (p: seq<nat>)
    requires Clean(es, leaders, b) && Recovered(es, leaders, b, blocks, targets, begins)
             && ReturnsEnd(es, Leads(es, leaders))
    requires Walk(blocks, w)
    ensures Run(es, p) && (forall i: nat :: i < |p| ==> IsInst(es, p[i]))
    ensures |Leads(es, leaders)| == |blocks| && p[0] == Leads(es, leaders)[w[0]]
    ensures Executed(es, p) == Expanded(blocks, w)
    decreases |w|
  {
    hide Leads, Clean, Step, Lost, Recovered, ReturnsEnd;
    var leads := Leads(es, leaders);
    var n := w[0];
    BlockInstrs(es, leaders, b, blocks, targets, begins, n);
    BlockIsRun(es, leaders, b, n);
    var here := Positions(leads[n], LastOf(es, leads, n));
    RunInsts(es, here);
    assert Executed(es, here) == blocks[n].instrs;
    if |w| == 1 {
      p := here;
      assert Expanded(blocks, w[1..]) == [];
    } else {
      assert w[1] in blocks[n].successors;
      EdgeMeans(es, leaders, b, blocks, targets, begins, n, w[1]);
      TailWalks(blocks, w);
      var rest := WalkIsRun(es, leaders, b, blocks, targets, begins, w[1..]);
      p := here + rest;
      RunsJoin(es, here, rest);
      assert Executed(es, p) == Executed(es, here) + Executed(es, rest);
    }
  }

  lemma TailWalks(blocks: seq<MBB>, w: seq<nat>)
    requires Walk(blocks, w) && |w| > 1
    ensures Walk(blocks, w[1..])
  {
    var u := w[1..];
    forall i: nat | i + 1 < |u| ensures u[i + 1] in blocks[u[i]].successors {
      assert u[i] == w[i + 1] && u[i + 1] == w[i + 1 + 1];
    }
  }

  /** Some run of the machine executes the walk. */
  ghost predicate IsExecuted(es: Stream, blocks: seq<MBB>, w: seq<nat>)
    requires Walk(blocks, w)
  {
    exists p :: Run(es, p) && (forall i: nat :: i < |p| ==> IsInst(es, p[i])) && Executed(es, p) == Expanded(blocks, w)
  }

  /** The block that a position belongs to. */
  lemma {:induction false} BlockAround(es: Stream, leads: seq<nat>, k: nat, m: nat) returns (n: nat)
    requires Leading(es, |es|, leads) && 0 < m <= |leads| && leads[0] <= k && (m < |leads| ==> k < leads[m])
    ensures n < m && leads[n] <= k && (n + 1 < |leads| ==> k < leads[n + 1])
  {
    if leads[m - 1] <= k {
      n := m - 1;
    } else {
      n := BlockAround(es, leads, k, m - 1);
    }
  }

  /** No run goes on after a return, so none executes a block with a return before its end. */
  lemma ReturnStops(es: Stream, leaders: set<nat>, b: Bounds, blocks: seq<MBB>, targets: map<nat, seq<nat>>,
                    begins: seq<Pair<nat>>, n: nat, k: nat)
    requires Clean(es, leaders, b) && Recovered(es, leaders, b, blocks, targets, begins) && n < |blocks|
    requires IsReturn(es, k)
    requires var leads := Leads(es, leaders);
             n < |leads| && Leading(es, |es|, leads) && leads[n] <= k < LastOf(es, leads, n)
    ensures Walk(blocks, [n]) && !IsExecuted(es, blocks, [n])
  {
    hide Leads, Clean, Step, Recovered;
    BlockInstrs(es, leaders, b, blocks, targets, begins, n);
    var l := Leads(es, leaders)[n];
    assert [n][1..] == [];
    assert Expanded(blocks, [n]) == blocks[n].instrs;
    forall p | Run(es, p) && (forall i: nat :: i < |p| ==> IsInst(es, p[i]))
      ensures Executed(es, p) != Expanded(blocks, [n])
    {
      if Executed(es, p) == blocks[n].instrs {
        CleanSorted(es, leaders, b);
        var i: nat := k - l;
        assert Executed(es, p)[i] == blocks[n].instrs[i];
        SamePosition(es, p[i], k);
        assert Step(es, p[i], p[i + 1]);
        ReturnHasNoStep(es, p[i], p[i + 1]);
      }
    }
  }

  lemma ReturnHasNoStep(es: Stream, k: nat, j: nat)
    requires IsReturn(es, k)
    ensures !Step(es, k, j)
  {
  }

  /** All walks of the graph are runs of the machine exactly where returns are last in their blocks. */
  lemma WalksAreRunsIff(es: Stream, leaders: set<nat>, b: Bounds, blocks: seq<MBB>, targets: map<nat, seq<nat>>,
                        begins: seq<Pair<nat>>)
    requires Clean(es, leaders, b) && Recovered(es, leaders, b, blocks, targets, begins)
    ensures (forall w :: Walk(blocks, w) ==> IsExecuted(es, blocks, w)) <==> ReturnsEnd(es, Leads(es, leaders))
  {
    hide Leads, Clean, Recovered, Walk, Run, Expanded;
    var leads := Leads(es, leaders);
    if ReturnsEnd(es, leads) {
      forall w | Walk(blocks, w)
        ensures IsExecuted(es, blocks, w)
      {
        var p := WalkIsRun(es, leaders, b, blocks, targets, begins, w);
      }
    } else {
      var k: nat :| IsReturn(es, k) && !(k + 1 == |es| || k + 1 in leads);
      var n := EarlyReturn(es, leaders, b, blocks, targets, begins, k);
      ReturnStops(es, leaders, b, blocks, targets, begins, n, k);
    }
  }

  lemma EarlyReturn(es: Stream, leaders: set<nat>, b: Bounds, blocks: seq<MBB>, targets: map<nat, seq<nat>>,
                    begins: seq<Pair<nat>>, k: nat) returns (n: nat)
    requires Clean(es, leaders, b) && Recovered(es, leaders, b, blocks, targets, begins)
    requires IsReturn(es, k) && k + 1 != |es| && k + 1 !in Leads(es, leaders)
    ensures n < |blocks|
    ensures var leads := Leads(es, leaders);
            n < |leads| && Leading(es, |es|, leads) && leads[n] <= k < LastOf(es, leads, n)
  {
    hide Leads;
    var leads := Leads(es, leaders);
    assert es[..|es|] == es;
    LeadsLeading(es, |es|, leaders);
    assert IsLeader(es, leaders, 0) by { assert IsInst(es, 0); }
    NotBeforeFirst(es, leaders, 0);
    n := BlockAround(es, leads, k, |leads|);
    assert n + 1 < |leads| ==> leads[n + 1] in leads;
    assert |blocks| == |leads|;
  }
}
