/** What the recovered graph says about the runs of the instruction stream. */
module CfgExact {
  import opened Wrappers
  import opened OrderedMap
  import opened McInstStream
  import opened McInstRaiser

  // ----- the partition

  lemma {:induction false} InstsAppend(a: Stream, b: Stream)
    ensures Insts(a + b) == Insts(a) + Insts(b)
  {
    if b == [] {
      assert a + b == a;
    } else {
      var k := |b| - 1;
      assert (a + b)[..|a| + k] == a + b[..k];
      InstsAppend(a, b[..k]);
    }
  }

  lemma {:induction false} NoInsts(es: Stream)
    requires forall k :: 0 <= k < |es| ==> es[k].value.Data?
    ensures Insts(es) == []
  {
    if es != [] {
      NoInsts(es[..|es| - 1]);
    }
  }

  /** The instructions of the first `m` blocks, in block order. */
  function Concatenated(blocks: seq<MBB>, m: nat): seq<MachineInstr>
    requires m <= |blocks|
  {
    if m == 0 then [] else Concatenated(blocks, m - 1) + blocks[m - 1].instrs
  }

  /** What building the graph leaves. */
  ghost predicate Recovered(es: Stream, leaders: set<nat>, b: Bounds, blocks: seq<MBB>, targets: map<nat, seq<nat>>,
                            begins: seq<Pair<nat>>) {
    && Buildable(es, leaders, b)
    && MapsDone(es, Leads(es, leaders), b, begins, targets)
    && IsCfg(es, Leads(es, leaders), blocks, targets, begins)
  }

  ghost predicate InstrsAre(es: Stream, leads: seq<nat>, blocks: seq<MBB>) {
    && Leading(es, |es|, leads) && |blocks| == |leads|
    && forall n: nat :: n < |blocks| ==> blocks[n].instrs == BlockInsts(es, |es|, leads, n)
  }

  lemma CfgInstrs(es: Stream, leads: seq<nat>, blocks: seq<MBB>, targets: map<nat, seq<nat>>, begins: seq<Pair<nat>>)
    requires IsCfg(es, leads, blocks, targets, begins)
    ensures InstrsAre(es, leads, blocks)
  {
    hide BlockInsts, Resolve;
  }

  lemma {:induction false} ConcatenatedIs(es: Stream, leads: seq<nat>, blocks: seq<MBB>, m: nat)
    requires InstrsAre(es, leads, blocks) && m < |leads|
    ensures Insts(es[..EndOf(|es|, leads, m)]) == Insts(es[..leads[0]]) + Concatenated(blocks, m + 1)
  {
    hide Insts;
    var e := EndOf(|es|, leads, m);
    assert es[..e] == es[..leads[m]] + es[leads[m]..e];
    InstsAppend(es[..leads[m]], es[leads[m]..e]);
    assert Concatenated(blocks, m + 1) == Concatenated(blocks, m) + blocks[m].instrs;
    if m > 0 {
      ConcatenatedIs(es, leads, blocks, m - 1);
    }
  }

  /** The blocks in number order are the instructions of the stream. */
  lemma BlocksPartition(es: Stream, leaders: set<nat>, b: Bounds, blocks: seq<MBB>, targets: map<nat, seq<nat>>,
                        begins: seq<Pair<nat>>)
    requires Recovered(es, leaders, b, blocks, targets, begins)
    ensures Concatenated(blocks, |blocks|) == Insts(es)
  {
    var leads := Leads(es, leaders);
    CfgInstrs(es, leads, blocks, targets, begins);
    hide MapsDone, IsCfg;
    if es == [] {
      LeadsOfNone(leaders);
    } else {
      SomeBlock(es, leaders);
      InstrsPartition(es, leaders, blocks);
    }
  }

  lemma InstrsPartition(es: Stream, leaders: set<nat>, blocks: seq<MBB>)
    requires StartsWithLeader(es, leaders) && InstrsAre(es, Leads(es, leaders), blocks) && |blocks| > 0
    ensures Concatenated(blocks, |blocks|) == Insts(es)
  {
    hide StartsWithLeader, Insts, Leads;
    var leads := Leads(es, leaders);
    ConcatenatedIs(es, leads, blocks, |blocks| - 1);
    assert es[..|es|] == es;
    BeforeFirst(es, leaders);
  }

  lemma LeadsOfNone(leaders: set<nat>)
    ensures Leads([], leaders) == []
  {
  }

  lemma NotInst(es: Stream, leaders: set<nat>, k: nat)
    requires StartsWithLeader(es, leaders) && |Leads(es, leaders)| > 0 && k < Leads(es, leaders)[0] <= |es|
    ensures es[k].value.Data?
  {
    if es[k].value.Inst? {
      var i := FirstExists(es, k);
      NotBeforeFirst(es, leaders, i);
    }
  }

  lemma NotBeforeFirst(es: Stream, leaders: set<nat>, i: nat)
    requires IsLeader(es, leaders, i)
    ensures |Leads(es, leaders)| > 0 && Leads(es, leaders)[0] <= i
  {
    hide Leads;
    var leads := Leads(es, leaders);
    assert i in leads;
    var n: nat :| n < |leads| && leads[n] == i;
    assert n > 0 ==> leads[0] < leads[n];
  }

  lemma BeforeFirst(es: Stream, leaders: set<nat>)
    requires StartsWithLeader(es, leaders) && |Leads(es, leaders)| > 0
    ensures Leads(es, leaders)[0] <= |es| && Insts(es[..Leads(es, leaders)[0]]) == []
  {
    var l := Leads(es, leaders)[0];
    assert l in Leads(es, leaders);
    forall k: nat | k < l ensures es[k].value.Data? {
      NotInst(es, leaders, k);
    }
    NoInsts(es[..l]);
  }

  /** Between two leading instructions there is no leading instruction. */
  lemma NoneBetween(es: Stream, leaders: set<nat>, n: nat, k: nat)
    requires var leads := Leads(es, leaders); n < |leads| && leads[n] < k < EndOf(|es|, leads, n)
    ensures !IsLeader(es, leaders, k)
  {
    hide Leads;
    var leads := Leads(es, leaders);
    forall m: nat | m < |leads| ensures leads[m] != k {
      if m <= n {
        assert m < n ==> leads[m] < leads[n];
      } else {
        assert m > n + 1 ==> leads[n + 1] < leads[m];
      }
    }
  }

  /** A block begins with a leader, and no other of its instructions is one. */
  lemma LeadersBegin(es: Stream, leaders: set<nat>, b: Bounds, blocks: seq<MBB>, targets: map<nat, seq<nat>>,
                     begins: seq<Pair<nat>>, n: nat)
    requires Recovered(es, leaders, b, blocks, targets, begins) && n < |blocks|
    ensures |blocks[n].instrs| > 0 && blocks[n].instrs[0].key in leaders
    ensures forall i :: 0 < i < |blocks[n].instrs| ==> blocks[n].instrs[i].key !in leaders
  {
    hide MapsDone, StartsWithLeader, Leads;
    var leads := Leads(es, leaders);
    CfgInstrs(es, leads, blocks, targets, begins);
    hide IsCfg;
    var l, e := leads[n], EndOf(|es|, leads, n);
    assert l in leads && IsLeader(es, leaders, l);
    var rest := es[l + 1..e];
    assert es[l..e] == [es[l]] + rest;
    InstsAppend([es[l]], rest);
    assert Insts([es[l]]) == Insts([]) + [Pair(es[l].key, es[l].value.mcInst)];
    forall k: nat | k < |rest| && rest[k].value.Inst? ensures rest[k].key !in leaders {
      NoneBetween(es, leaders, n, l + 1 + k);
    }
    InstsFrom(rest, leaders);
  }

  lemma {:induction false} InstsFrom(es: Stream, leaders: set<nat>)
    requires forall k: nat :: k < |es| && es[k].value.Inst? ==> es[k].key !in leaders
    ensures forall i :: 0 <= i < |Insts(es)| ==> Insts(es)[i].key !in leaders
  {
    if es != [] {
      InstsFrom(es[..|es| - 1], leaders);
    }
  }
}
