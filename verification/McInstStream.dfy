/** The instruction stream of one function, the steps that a machine running it can take, and how leaders cut it into
    blocks. */
module McInstStream {
  import opened Wrappers
  import opened OrderedMap

  datatype Kind = Plain | Return | Branch(conditional: bool, displacement: Option<int>)

  /** `size` is the number of bytes the decoder consumed. */
  datatype MCInst = MCInst(kind: Kind, size: nat)

  datatype MCInstOrData = Inst(mcInst: MCInst) | Data(value: nat)

  /** Offsets and what is there, in increasing order of offsets. */
  type Stream = seq<Pair<MCInstOrData>>

  /** The bounds of a function. */
  datatype Bounds = Bounds(start: nat, end: nat)

  const ADDRESSES := 0x1_0000_0000_0000_0000

  /** The target of a branch of the given size at `index`, where the instruction says it. */
  function EvaluateBranch(inst: MCInst, index: nat, size: nat): Option<nat> {
    if inst.kind.Branch? && inst.kind.displacement.Some?
    then Some((index + size + inst.kind.displacement.value) % ADDRESSES)
    else None
  }

  predicate IsInst(es: Stream, k: nat) {
    k < |es| && es[k].value.Inst?
  }

  predicate IsBranch(es: Stream, k: nat) {
    IsInst(es, k) && es[k].value.mcInst.kind.Branch?
  }

  predicate IsConditional(es: Stream, k: nat) {
    IsBranch(es, k) && es[k].value.mcInst.kind.conditional
  }

  predicate IsReturn(es: Stream, k: nat) {
    IsInst(es, k) && es[k].value.mcInst.kind.Return?
  }

  // ----- what the machine does

  /** The offsets where control can go from an instruction, as far as the instruction itself says it. */
  function StaticTargets(offset: nat, inst: MCInst): set<nat> {
    match inst.kind
    case Plain => {offset + inst.size}
    case Return => {}
    case Branch(conditional, _) =>
      var target := EvaluateBranch(inst, offset, inst.size);
      (if conditional then {offset + inst.size} else {}) + (if target.Some? then {target.value} else {})
  }

  /** Control can go from the instruction at position `i` of the stream to the one at position `j`. */
  predicate Step(es: Stream, i: nat, j: nat) {
    IsInst(es, i) && IsInst(es, j) && es[j].key in StaticTargets(es[i].key, es[i].value.mcInst)
  }

  // ----- what a stream looks like

  /** Instructions only, each ending where the next begins, and the last where the function ends. */
  ghost predicate Contiguous(es: Stream, end: nat) {
    && (forall k: nat :: k < |es| ==> IsInst(es, k))
    && forall k: nat {:trigger NextOffset(es, end, k)} :: k < |es| ==>
         es[k].value.Inst? && es[k].key + es[k].value.mcInst.size == NextOffset(es, end, k)
  }

  function NextOffset(es: Stream, end: nat, k: nat): nat
    requires k < |es|
  {
    if k + 1 < |es| then es[k + 1].key else end
  }

  /** Every offset lies within the function. */
  ghost predicate InBounds(es: Stream, b: Bounds) {
    forall k :: 0 <= k < |es| ==> b.start <= es[k].key < b.end
  }

  /** The leaders contain the function's first offset, and for every branch its target, where that is in the function,
      and the instruction after it. */
  ghost predicate Closed(es: Stream, leaders: set<nat>, b: Bounds) {
    && (|es| > 0 ==> es[0].key in leaders)
    && forall k: nat :: IsBranch(es, k) ==> BranchClosed(es, leaders, b, k)
  }

  ghost predicate BranchClosed(es: Stream, leaders: set<nat>, b: Bounds, k: nat)
    requires IsBranch(es, k)
  {
    var inst := es[k].value.mcInst;
    var target := EvaluateBranch(inst, es[k].key, inst.size);
    && (target.Some? && b.start <= target.value <= b.end ==> target.value in leaders)
    && (es[k].key + inst.size < b.end ==> es[k].key + inst.size in leaders)
  }

  /** The branch at position `k` makes a leader of the offset: it may go there, or ends there before the function
      does. */
  ghost predicate MakesLeader(es: Stream, end: nat, k: nat, offset: nat) {
    && IsBranch(es, k)
    && var inst := es[k].value.mcInst;
       || EvaluateBranch(inst, es[k].key, inst.size) == Some(offset)
       || (offset == es[k].key + inst.size && offset < end)
  }

  /** Some branch of the stream does. */
  ghost predicate MadeLeader(es: Stream, end: nat, offset: nat) {
    exists k: nat :: MakesLeader(es, end, k, offset)
  }

  /** The leaders are the function's first offset and what its branches make leaders, as far as that is in the
      function. */
  ghost predicate LeadersExact(es: Stream, leaders: set<nat>, b: Bounds) {
    forall offset: nat :: offset in leaders <==>
      b.start <= offset <= b.end && (offset == b.start || MadeLeader(es, b.end, offset))
  }

  // ----- how leaders cut the stream

  predicate IsLeader(es: Stream, leaders: set<nat>, k: nat) {
    IsInst(es, k) && es[k].key in leaders
  }

  /** The positions of the leading instructions, in increasing order. */
  function Leads(es: Stream, leaders: set<nat>): (r: seq<nat>)
    ensures forall k: nat :: k in r <==> IsLeader(es, leaders, k)
    ensures forall a, b :: 0 <= a < b < |r| ==> r[a] < r[b]
  {
    if es == [] then [] else
      var k := |es| - 1;
      var r := Leads(es[..k], leaders);
      assert forall i: nat :: i < k ==> (IsLeader(es[..k], leaders, i) <==> IsLeader(es, leaders, i));
      assert forall i :: 0 <= i < |r| ==> r[i] in r;
      if IsLeader(es, leaders, k) then r + [k] else r
  }

  predicate FirstInst(es: Stream, k: nat) {
    IsInst(es, k) && forall i :: 0 <= i < k ==> es[i].value.Data?
  }

  /** The first instruction, if there is one, is a leader. */
  ghost predicate StartsWithLeader(es: Stream, leaders: set<nat>) {
    forall k: nat :: FirstInst(es, k) ==> es[k].key in leaders
  }

  lemma {:induction false} FirstExists(es: Stream, n: nat) returns (k: nat)
    requires IsInst(es, n)
    ensures k <= n && FirstInst(es, k)
    decreases n
  {
    if FirstInst(es, n) {
      k := n;
    } else {
      var i: nat :| i < n && es[i].value.Inst?;
      k := FirstExists(es, i);
    }
  }

  /** The position where block `b` of the first `n` entries ends. */
  function EndOf(n: nat, leads: seq<nat>, b: nat): nat
    requires b < |leads|
  {
    if b + 1 < |leads| then leads[b + 1] else n
  }

  /** A raised instruction keeps the offset it was raised from. */
  type MachineInstr = Pair<MCInst>

  /** The instructions of a stream, in order. */
  function Insts(es: Stream): seq<MachineInstr> {
    if es == [] then [] else
      var k := |es| - 1;
      Insts(es[..k]) + if es[k].value.Inst? then [Pair(es[k].key, es[k].value.mcInst)] else []
  }

  /** The positions of the leads are positions among the first `n` entries of the stream. */
  ghost predicate Leading(es: Stream, n: nat, leads: seq<nat>) {
    && n <= |es|
    && (forall a :: 0 <= a < |leads| ==> leads[a] < n)
    && (forall a, b :: 0 <= a < b < |leads| ==> leads[a] < leads[b])
  }

  /** The instructions of block `b`. */
  function BlockInsts(es: Stream, n: nat, leads: seq<nat>, b: nat): seq<MachineInstr>
    requires b < |leads| && leads[b] <= EndOf(n, leads, b) <= |es|
  {
    Insts(es[leads[b]..EndOf(n, leads, b)])
  }

  lemma LeadsLeading(es: Stream, n: nat, leaders: set<nat>)
    requires n <= |es|
    ensures Leading(es, n, Leads(es[..n], leaders))
  {
    var leads := Leads(es[..n], leaders);
    forall a | 0 <= a < |leads| ensures leads[a] < n {
      assert leads[a] in leads;
    }
  }

  /** One more entry that leads: a new block. */
  lemma LeadAppends(es: Stream, n: nat, leaders: set<nat>)
    requires n < |es| && IsLeader(es, leaders, n)
    ensures Leads(es[..n + 1], leaders) == Leads(es[..n], leaders) + [n]
    ensures var leads := Leads(es[..n], leaders);
            && Leading(es, n, leads) && Leading(es, n + 1, leads + [n])
            && BlockInsts(es, n + 1, leads + [n], |leads|) == [Pair(es[n].key, es[n].value.mcInst)]
            && forall b: nat :: b < |leads| ==> BlockInsts(es, n + 1, leads + [n], b) == BlockInsts(es, n, leads, b)
  {
    LeadsLeading(es, n, leaders);
    LeadsLeading(es, n + 1, leaders);
    assert es[..n + 1][..n] == es[..n];
    assert IsLeader(es[..n + 1], leaders, n);
    assert es[n..n + 1] == [es[n]] && [es[n]][..0] == [];
    assert Insts([es[n]]) == Insts([]) + [Pair(es[n].key, es[n].value.mcInst)];
  }

  /** One more entry that does not lead: an instruction joins the last block. */
  lemma OtherAppends(es: Stream, n: nat, leaders: set<nat>)
    requires n < |es| && !IsLeader(es, leaders, n)
    ensures Leads(es[..n + 1], leaders) == Leads(es[..n], leaders)
    ensures var leads := Leads(es[..n], leaders);
            && Leading(es, n, leads) && Leading(es, n + 1, leads)
            && (forall b: nat :: b + 1 < |leads| ==> BlockInsts(es, n + 1, leads, b) == BlockInsts(es, n, leads, b))
            && (|leads| > 0 ==>
                  var added := if IsInst(es, n) then [Pair(es[n].key, es[n].value.mcInst)] else [];
                  BlockInsts(es, n + 1, leads, |leads| - 1) == BlockInsts(es, n, leads, |leads| - 1) + added)
  {
    LeadsLeading(es, n, leaders);
    LeadsLeading(es, n + 1, leaders);
    assert es[..n + 1][..n] == es[..n];
    var leads := Leads(es[..n], leaders);
    hide Leads;
    if |leads| > 0 {
      var l := leads[|leads| - 1];
      assert es[l..n + 1] == es[l..n] + [es[n]] && es[l..n + 1][..n - l] == es[l..n];
    }
  }

  /** Where a leading instruction comes first, some block is open at every instruction. */
  lemma BlockOpen(es: Stream, n: nat, leaders: set<nat>)
    requires n < |es| && StartsWithLeader(es, leaders) && IsInst(es, n) && !IsLeader(es, leaders, n)
    ensures |Leads(es[..n], leaders)| > 0
  {
    var l := FirstExists(es, n);
    LedBefore(es, n, leaders, l);
  }

  lemma LedBefore(es: Stream, n: nat, leaders: set<nat>, l: nat)
    requires l < n <= |es| && IsLeader(es, leaders, l)
    ensures |Leads(es[..n], leaders)| > 0
  {
    assert IsLeader(es[..n], leaders, l);
    assert l in Leads(es[..n], leaders);
  }
}
