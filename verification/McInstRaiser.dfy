/** Recovery of a function's control-flow graph from its instruction stream. */
module McInstRaiser {
  import opened Wrappers
  import opened OrderedMap
  import opened McInstStream

  /** A basic block of the machine function: its instructions and the numbers of its successors. */
  datatype MBB = MBB(instrs: seq<MachineInstr>, successors: seq<nat>)

  predicate IsReturnBlock(mbb: MBB) {
    |mbb.instrs| > 0 && mbb.instrs[|mbb.instrs| - 1].value.kind.Return?
  }

  class MachineFunction {
    var blocks: seq<MBB>

    constructor ()
      ensures blocks == []
    {
      blocks := [];
    }
  }

  // ----- the specification of the edges

  /** What is recorded as the targets of the block that ends before the leading instruction at position `j`. */
  function PrevTargets(es: Stream, b: Bounds, j: nat): seq<nat>
    requires 0 < j < |es| && es[j - 1].key <= es[j].key
  {
    var index, prev := es[j].key, es[j - 1];
    if prev.value.Data? then []
    else if !prev.value.mcInst.kind.Branch? then if b.start <= index <= b.end then [index] else []
    else
      var target := EvaluateBranch(prev.value.mcInst, prev.key, index - prev.key);
      if target.None? || !(b.start <= target.value < b.end) then []
      else [target.value] + if prev.value.mcInst.kind.conditional && b.start <= index <= b.end then [index] else []
  }

  /** What is recorded as the targets of the last block. */
  function TermTargets(es: Stream, b: Bounds): seq<nat>
    requires |es| > 0 && IsInst(es, |es| - 1) && es[|es| - 1].key <= b.end
  {
    var last := es[|es| - 1];
    if !last.value.mcInst.kind.Branch? then []
    else
      var target := EvaluateBranch(last.value.mcInst, last.key, b.end - last.key);
      if target.Some? && b.start <= target.value < b.end then [target.value] else []
  }

  function RecordedTargets(es: Stream, b: Bounds, leads: seq<nat>, n: nat): seq<nat>
    requires Leading(es, |es|, leads) && n < |leads| && |es| > 0 && Sorted(es) && IsInst(es, |es| - 1)
             && es[|es| - 1].key <= b.end
  {
    if n + 1 < |leads| then
      assert leads[n] < leads[n + 1];
      PrevTargets(es, b, leads[n + 1])
    else TermTargets(es, b)
  }

  /** The block that every leading instruction begins. */
  function LeaderMap(es: Stream, leads: seq<nat>): seq<Pair<nat>>
    requires forall a :: 0 <= a < |leads| ==> leads[a] < |es|
  {
    seq(|leads|, n requires 0 <= n < |leads| => Pair(es[leads[n]].key, n))
  }

  /** The blocks that begin at the given targets; other targets are dropped. */
  function Resolve(targets: seq<nat>, begins: seq<Pair<nat>>): seq<nat> {
    if targets == [] then [] else
      var k := |targets| - 1;
      var found := Find(begins, targets[k]);
      Resolve(targets[..k], begins) + if found.Some? then [found.value] else []
  }

  lemma LeaderMapSorted(es: Stream, n: nat, leads: seq<nat>)
    requires Sorted(es) && Leading(es, n, leads)
    ensures Sorted(LeaderMap(es, leads))
  {
  }

  /** What building relies on: the first instruction is a leader, and the last entry is an instruction within the
      function that is no conditional branch. */
  ghost predicate Buildable(es: Stream, leaders: set<nat>, b: Bounds) {
    && Sorted(es)
    && StartsWithLeader(es, leaders)
    && (|es| > 0 ==> IsInst(es, |es| - 1) && !IsConditional(es, |es| - 1) && es[|es| - 1].key < b.end)
  }

  /** The finished maps: every block has a beginning and recorded targets. */
  ghost predicate MapsDone(es: Stream, leads: seq<nat>, b: Bounds, begins: seq<Pair<nat>>,
                           targets: map<nat, seq<nat>>) {
    && Sorted(es) && Leading(es, |es|, leads)
    && (|es| > 0 ==> IsInst(es, |es| - 1) && es[|es| - 1].key < b.end)
    && begins == LeaderMap(es, leads)
    && (forall n: nat :: n in targets <==> n < |leads|)
    && (forall n: nat :: n in targets ==> leads[n] < |es| && targets[n] == RecordedTargets(es, b, leads, n))
  }

  /** The finished block: its part of the stream, and an edge for every recorded target that begins a block, unless
      it returns. */
  ghost predicate IsBlock(es: Stream, leads: seq<nat>, n: nat, mbb: MBB, targets: seq<nat>, begins: seq<Pair<nat>>)
    requires Leading(es, |es|, leads) && n < |leads|
  {
    && mbb.instrs == BlockInsts(es, |es|, leads, n)
    && mbb.successors == if IsReturnBlock(mbb) then [] else Resolve(targets, begins)
  }

  /** The finished graph. */
  ghost predicate IsCfg(es: Stream, leads: seq<nat>, blocks: seq<MBB>, targets: map<nat, seq<nat>>,
                        begins: seq<Pair<nat>>) {
    && Leading(es, |es|, leads)
    && |blocks| == |leads|
    && (forall n: nat :: n < |blocks| ==> n in targets && IsBlock(es, leads, n, blocks[n], targets[n], begins))
  }

  function AllButLast(leads: seq<nat>): seq<nat> {
    if leads == [] then [] else leads[..|leads| - 1]
  }

  /** The blocks after `n` entries. */
  ghost predicate BlocksAre(es: Stream, n: nat, leads: seq<nat>, blocks: seq<MBB>) {
    && Leading(es, n, leads)
    && |blocks| == |leads|
    && (forall m: nat :: m < |blocks| ==> blocks[m] == MBB(BlockInsts(es, n, leads, m), []))
  }

  /** The maps after some entries: the last block is still open, so it is in no map. */
  ghost predicate MapsAre(es: Stream, leads: seq<nat>, b: Bounds, begins: seq<Pair<nat>>, targets: map<nat, seq<nat>>,
                          entry: nat) {
    && Sorted(es) && Leading(es, |es|, leads)
    && begins == LeaderMap(es, AllButLast(leads))
    && TargetsAre(es, leads, b, targets)
    && (|leads| > 0 ==> entry == es[leads[|leads| - 1]].key)
  }

  ghost predicate TargetsAre(es: Stream, leads: seq<nat>, b: Bounds, targets: map<nat, seq<nat>>)
    requires Sorted(es) && Leading(es, |es|, leads)
  {
    && (forall m: nat :: m in targets <==> m + 1 < |leads|)
    && (forall m: nat :: m in targets ==> leads[m] < leads[m + 1] && targets[m] == PrevTargets(es, b, leads[m + 1]))
  }

  lemma NoTargets(es: Stream, n: nat, b: Bounds, targets: map<nat, seq<nat>>)
    requires n < |es| && Sorted(es) && TargetsAre(es, [], b, targets)
    ensures TargetsAre(es, [n], b, targets)
  {
  }

  lemma TargetsLead(es: Stream, n: nat, leads: seq<nat>, b: Bounds, targets: map<nat, seq<nat>>)
    requires n < |es| && Sorted(es) && Leading(es, n, leads) && Leading(es, |es|, leads)
             && Leading(es, |es|, leads + [n])
    requires TargetsAre(es, leads, b, targets) && |leads| > 0
    ensures leads[|leads| - 1] < n
    ensures TargetsAre(es, leads + [n], b, InsertNew(targets, |leads| - 1, PrevTargets(es, b, n)))
  {
    hide PrevTargets;
  }

  function WithInst(blocks: seq<MBB>, i: MachineInstr): seq<MBB>
    requires |blocks| > 0
  {
    var k := |blocks| - 1;
    blocks[k := MBB(blocks[k].instrs + [i], blocks[k].successors)]
  }

  function InsertNew(targets: map<nat, seq<nat>>, n: nat, t: seq<nat>): map<nat, seq<nat>> {
    if n in targets then targets else targets[n := t]
  }

  lemma BeginsAppend(es: Stream, n: nat, leads: seq<nat>)
    requires Sorted(es) && Leading(es, n, leads) && |leads| > 0
    ensures var k := |leads| - 1; Insert<nat>(LeaderMap(es, leads[..k]), es[leads[k]].key, k) == LeaderMap(es, leads)
  {
    var k := |leads| - 1;
    InsertLast<nat>(LeaderMap(es, leads[..k]), es[leads[k]].key, k);
  }

  lemma NothingYet(es: Stream, leaders: set<nat>, b: Bounds)
    requires Sorted(es)
    ensures Leads(es[..0], leaders) == [] && BlocksAre(es, 0, [], []) && MapsAre(es, [], b, [], map[], 0)
  {
  }

  /** A leading instruction starts another block. */
  lemma BlocksLead(es: Stream, n: nat, leaders: set<nat>, blocks: seq<MBB>)
    requires n < |es| && IsLeader(es, leaders, n) && BlocksAre(es, n, Leads(es[..n], leaders), blocks)
    ensures |blocks| == |Leads(es[..n], leaders)|
    ensures BlocksAre(es, n + 1, Leads(es[..n + 1], leaders), blocks + [MBB([Pair(es[n].key, es[n].value.mcInst)], [])])
  {
    hide Leads, BlockInsts;
    LeadAppends(es, n, leaders);
  }

  /** Any other instruction joins the open block, and data is dropped. */
  lemma BlocksOther(es: Stream, n: nat, leaders: set<nat>, blocks: seq<MBB>)
    requires StartsWithLeader(es, leaders) && n < |es| && !IsLeader(es, leaders, n)
    requires BlocksAre(es, n, Leads(es[..n], leaders), blocks)
    ensures es[n].value.Inst? ==> |blocks| > 0
    ensures BlocksAre(es, n + 1, Leads(es[..n + 1], leaders),
                      if es[n].value.Inst? then WithInst(blocks, Pair(es[n].key, es[n].value.mcInst)) else blocks)
  {
    hide Leads, BlockInsts, StartsWithLeader;
    if es[n].value.Inst? {
      BlockOpen(es, n, leaders);
    }
    OtherAppends(es, n, leaders);
    hide IsLeader;
  }

  /** It closes the open block, which goes into the maps. */
  lemma MapsLead(es: Stream, n: nat, leads: seq<nat>, b: Bounds, begins: seq<Pair<nat>>, targets: map<nat, seq<nat>>,
                 entry: nat)
    requires n < |es| && MapsAre(es, leads, b, begins, targets, entry) && Leading(es, n, leads)
    ensures |leads| > 0 ==> n > 0
    ensures var k := |leads| - 1;
            MapsAre(es, leads + [n], b, if |leads| > 0 then Insert<nat>(begins, entry, k) else begins,
                    if |leads| > 0 then InsertNew(targets, k, PrevTargets(es, b, n)) else targets, es[n].key)
  {
    hide PrevTargets, LeaderMap, TargetsAre, Insert, InsertNew;
    assert AllButLast(leads + [n]) == leads;
    assert Leading(es, |es|, leads + [n]);
    if |leads| > 0 {
      BeginsAppend(es, n, leads);
      TargetsLead(es, n, leads, b, targets);
    } else {
      NoTargets(es, n, b, targets);
    }
  }

  /** The effect of a leading instruction on blocks and maps. */
  lemma EntryLeads(es: Stream, n: nat, leaders: set<nat>, b: Bounds, blocks: seq<MBB>, begins: seq<Pair<nat>>,
                   targets: map<nat, seq<nat>>, entry: nat)
    requires n < |es| && IsLeader(es, leaders, n)
    requires var leads := Leads(es[..n], leaders);
             BlocksAre(es, n, leads, blocks) && MapsAre(es, leads, b, begins, targets, entry)
    ensures |blocks| > 0 ==> n > 0
    ensures var leads := Leads(es[..n + 1], leaders);
            var k := |blocks| - 1;
            && BlocksAre(es, n + 1, leads, blocks + [MBB([Pair(es[n].key, es[n].value.mcInst)], [])])
            && MapsAre(es, leads, b, if |blocks| > 0 then Insert<nat>(begins, entry, k) else begins,
                       if |blocks| > 0 then InsertNew(targets, k, PrevTargets(es, b, n)) else targets, es[n].key)
  {
    LeadsLeading(es, n, leaders);
    LeadAppends(es, n, leaders);
    BlocksLead(es, n, leaders, blocks);
    hide BlocksAre, PrevTargets, Leads, BlockInsts;
    MapsLead(es, n, Leads(es[..n], leaders), b, begins, targets, entry);
  }

  lemma EntryJoins(es: Stream, n: nat, leaders: set<nat>, b: Bounds, blocks: seq<MBB>, begins: seq<Pair<nat>>,
                   targets: map<nat, seq<nat>>, entry: nat)
    requires StartsWithLeader(es, leaders) && n < |es| && !IsLeader(es, leaders, n)
    requires var leads := Leads(es[..n], leaders);
             BlocksAre(es, n, leads, blocks) && MapsAre(es, leads, b, begins, targets, entry)
    ensures es[n].value.Inst? ==> |blocks| > 0
    ensures var leads := Leads(es[..n + 1], leaders);
            && BlocksAre(es, n + 1, leads,
                         if es[n].value.Inst? then WithInst(blocks, Pair(es[n].key, es[n].value.mcInst)) else blocks)
            && MapsAre(es, leads, b, begins, targets, entry)
  {
    hide BlocksAre, MapsAre, Leads, BlockInsts;
    OtherAppends(es, n, leaders);
    BlocksOther(es, n, leaders, blocks);
  }

  /** The last block is closed by the end of the function. */
  lemma MapsClose(es: Stream, leads: seq<nat>, b: Bounds, begins: seq<Pair<nat>>, targets: map<nat, seq<nat>>,
                  entry: nat)
    requires MapsAre(es, leads, b, begins, targets, entry) && |leads| > 0
    requires IsInst(es, |es| - 1) && es[|es| - 1].key < b.end
    ensures MapsDone(es, leads, b, Insert<nat>(begins, entry, |leads| - 1),
                     InsertNew(targets, |leads| - 1, TermTargets(es, b)))
  {
    hide PrevTargets, TermTargets, LeaderMap, Insert;
    BeginsAppend(es, |es|, leads);
  }

  lemma MapsCloseEmpty(es: Stream, leads: seq<nat>, b: Bounds, begins: seq<Pair<nat>>, targets: map<nat, seq<nat>>,
                       entry: nat)
    requires MapsAre(es, leads, b, begins, targets, entry) && es == []
    ensures MapsDone(es, leads, b, begins, targets)
  {
  }

  /** Where the last entry is an instruction, there is a block. */
  lemma SomeBlock(es: Stream, leaders: set<nat>)
    requires |es| > 0 && StartsWithLeader(es, leaders) && IsInst(es, |es| - 1)
    ensures |Leads(es, leaders)| > 0
  {
    var k := FirstExists(es, |es| - 1);
    assert IsLeader(es, leaders, k);
    assert k in Leads(es, leaders);
  }

  // ----- looking up blocks

  const UNSIGNED := 0x1_0000_0000

  /** The size of the instruction at an offset, up to the next entry or the end of the function. */
  function SizeAt(es: Stream, end: nat, offset: nat): nat
    requires Sorted(es) && PositionOf(es, offset) < |es| && es[|es| - 1].key < end
  {
    var k := PositionOf(es, offset);
    assert k + 1 < |es| ==> es[k].key < es[k + 1].key;
    assert k < |es| - 1 ==> es[k].key < es[|es| - 1].key;
    NextOffset(es, end, k) - offset
  }

  /** An instruction reaches up to the nearest entry behind it, instruction or data, or to the end of the function. */
  lemma SizeReaches(es: Stream, end: nat, offset: nat)
    requires Sorted(es) && PositionOf(es, offset) < |es| && es[|es| - 1].key < end
    ensures var size := SizeAt(es, end, offset);
            && size > 0
            && (forall e: Pair<MCInstOrData> :: e in es && e.key > offset ==> e.key >= offset + size)
            && if exists e: Pair<MCInstOrData> :: e in es && e.key > offset
               then exists e: Pair<MCInstOrData> :: e in es && e.key == offset + size
               else offset + size == end
  {
    var k := PositionOf(es, offset);
    if k + 1 < |es| {
      assert es[k].key < es[k + 1].key;
      assert es[k + 1] in es;
    }
  }

  ghost predicate KnownInstrs(es: Stream, instrs: seq<MachineInstr>) {
    forall i :: 0 <= i < |instrs| ==> PositionOf(es, instrs[i].key) < |es|
  }

  /** The bytes of a block, added up in an unsigned variable. */
  function BlockBytes(es: Stream, end: nat, instrs: seq<MachineInstr>): nat
    requires Sorted(es) && (|es| > 0 ==> es[|es| - 1].key < end) && KnownInstrs(es, instrs)
  {
    if instrs == [] then 0 else
      var k := |instrs| - 1;
      (BlockBytes(es, end, instrs[..k]) + SizeAt(es, end, instrs[k].key)) % UNSIGNED
  }

  ghost predicate Covers(es: Stream, end: nat, blocks: seq<MBB>, item: Pair<nat>, offset: nat) {
    && Sorted(es) && (|es| > 0 ==> es[|es| - 1].key < end)
    && item.value < |blocks| && KnownInstrs(es, blocks[item.value].instrs)
    && item.key <= offset < item.key + BlockBytes(es, end, blocks[item.value].instrs)
  }

  /** The answer of the lookup: the block that begins at the offset, or else the first that covers it. */
  ghost predicate IsLookup(es: Stream, b: Bounds, begins: seq<Pair<nat>>, blocks: seq<MBB>, offset: nat, r: int) {
    if offset < b.start || offset > b.end then r == -1
    else if Find(begins, offset).Some? then r == Find(begins, offset).value
    else if r == -1 then forall i :: 0 <= i < |begins| ==> !Covers(es, b.end, blocks, begins[i], offset)
    else exists i :: 0 <= i < |begins| && begins[i].value == r && Covers(es, b.end, blocks, begins[i], offset)
                     && forall j :: 0 <= j < i ==> !Covers(es, b.end, blocks, begins[j], offset)
  }

  /** The answer of the reverse lookup: the first key with the value. */
  ghost predicate IsReverse(begins: seq<Pair<nat>>, n: nat, r: int) {
    if r == -1 then forall i :: 0 <= i < |begins| ==> begins[i].value != n
    else exists i :: 0 <= i < |begins| && begins[i].key == r && begins[i].value == n
                     && forall j :: 0 <= j < i ==> begins[j].value != n
  }

  class MCInstRaiser {
    var instMap: Stream
    var targetIndices: set<nat>
    var instToMBBNum: seq<Pair<nat>>
    var mbbNumToMCInstTargets: map<nat, seq<nat>>
    var funcStart: nat
    var funcEnd: nat
    var dataInCode: bool

    ghost function FunctionBounds(): Bounds
      reads this
    {
      Bounds(funcStart, funcEnd)
    }

    ghost predicate Valid()
      reads this
    {
      && Sorted(instMap)
      && (forall t :: t in targetIndices ==> funcStart <= t <= funcEnd)
      && (!dataInCode ==> forall p :: p in instMap ==> p.value.Inst?)
    }

    constructor (start: nat, end: nat)
      ensures Valid() && FunctionBounds() == Bounds(start, end)
      ensures instMap == [] && targetIndices == {} && instToMBBNum == [] && mbbNumToMCInstTargets == map[]
    {
      instMap, targetIndices, instToMBBNum, mbbNumToMCInstTargets := [], {}, [], map[];
      funcStart, funcEnd, dataInCode := start, end, false;
    }

    /** Adds a target if it lies within the function; its end counts as within. */
    method AddTarget(targetIndex: nat)
      requires Valid()
      modifies this`targetIndices
      ensures Valid()
      ensures targetIndices == old(targetIndices) + if funcStart <= targetIndex <= funcEnd then {targetIndex} else {}
    {
      if !(targetIndex >= funcStart && targetIndex <= funcEnd) {
        return;
      }
      targetIndices := targetIndices + {targetIndex};
    }

    /** The end of the function can only grow. */
    method AdjustFuncEnd(n: nat) returns (adjusted: bool)
      requires Valid()
      modifies this`funcEnd
      ensures Valid() && adjusted == (n >= old(funcEnd)) && funcEnd == if adjusted then n else old(funcEnd)
    {
      if funcEnd > n {
        return false;
      }
      funcEnd := n;
      return true;
    }

    method AddMCInstOrData(index: nat, item: MCInstOrData)
      requires Valid()
      modifies this`instMap, this`dataInCode
      ensures Valid() && instMap == Insert(old(instMap), index, item) && dataInCode == (old(dataInCode) || item.Data?)
    {
      if item.Data? && !dataInCode {
        dataInCode := true;
      }
      InsertSorted(instMap, index, item);
      InsertKeys(instMap, index, item);
      instMap := Insert(instMap, index, item);
    }

    /** The targets of the instruction before the leading instruction at position `j`. */
    method TargetsBefore(j: nat) returns (targets: seq<nat>)
      requires Valid() && 0 < j < |instMap|
      ensures targets == PrevTargets(instMap, FunctionBounds(), j)
    {
      var index, prev := instMap[j].key, instMap[j - 1];
      targets := [];
      if prev.value.Inst? {
        var prevInst := prev.value.mcInst;
        if prevInst.kind.Branch? {
          var target := EvaluateBranch(prevInst, prev.key, index - prev.key);
          if target.Some? {
            if target.value >= funcStart && target.value < funcEnd {
              targets := targets + [target.value];
              if prevInst.kind.conditional {
                if index >= funcStart && index <= funcEnd {
                  targets := targets + [index];
                }
              }
            }
          }
        } else if index >= funcStart && index <= funcEnd {
          targets := targets + [index];
        }
      }
    }

    /** Enters the open block into the maps. */
    method CloseBlock(j: nat, entry: nat, block: nat)
      requires Valid() && 0 < j < |instMap|
      modifies this`instToMBBNum, this`mbbNumToMCInstTargets
      ensures instToMBBNum == Insert<nat>(old(instToMBBNum), entry, block)
      ensures mbbNumToMCInstTargets == InsertNew(old(mbbNumToMCInstTargets), block,
                                                 PrevTargets(instMap, FunctionBounds(), j))
    {
      var prevTargets := TargetsBefore(j);
      mbbNumToMCInstTargets := InsertNew(mbbNumToMCInstTargets, block, prevTargets);
      instToMBBNum := Insert<nat>(instToMBBNum, entry, block);
    }

    /** First phase: cuts the stream into blocks. */
    method AddBlocks(mf: MachineFunction) returns (entry: nat)
      requires Valid() && StartsWithLeader(instMap, targetIndices)
      requires mf.blocks == [] && instToMBBNum == [] && mbbNumToMCInstTargets == map[]
      modifies this`instToMBBNum, this`mbbNumToMCInstTargets, mf
      ensures BlocksAre(instMap, |instMap|, Leads(instMap, targetIndices), mf.blocks)
      ensures MapsAre(instMap, Leads(instMap, targetIndices), FunctionBounds(), instToMBBNum, mbbNumToMCInstTargets,
                      entry)
    {
      hide BlocksAre, MapsAre, PrevTargets, Insts, LeaderMap, StartsWithLeader, Leads, BlockInsts;
      entry := 0;
      NothingYet(instMap, targetIndices, FunctionBounds());
      for n := 0 to |instMap|
        invariant BlocksAre(instMap, n, Leads(instMap[..n], targetIndices), mf.blocks)
        invariant MapsAre(instMap, Leads(instMap[..n], targetIndices), FunctionBounds(), instToMBBNum,
                          mbbNumToMCInstTargets, entry)
      {
        var index, item := instMap[n].key, instMap[n].value;
        if index in targetIndices && item.Inst? {
          EntryLeads(instMap, n, targetIndices, FunctionBounds(), mf.blocks, instToMBBNum, mbbNumToMCInstTargets,
                     entry);
          if |mf.blocks| > 0 {
            CloseBlock(n, entry, |mf.blocks| - 1);
          }
          mf.blocks := mf.blocks + [MBB([Pair(index, item.mcInst)], [])];
          entry := index;
        } else {
          EntryJoins(instMap, n, targetIndices, FunctionBounds(), mf.blocks, instToMBBNum, mbbNumToMCInstTargets,
                     entry);
          if item.Inst? {
            mf.blocks := WithInst(mf.blocks, Pair(index, item.mcInst));
          }
        }
      }
      assert instMap[..|instMap|] == instMap;
    }

    /** The targets of the last instruction of the stream. */
    method TargetsOfLast() returns (targets: seq<nat>)
      requires Valid() && |instMap| > 0 && IsInst(instMap, |instMap| - 1) && instMap[|instMap| - 1].key < funcEnd
      ensures targets == TermTargets(instMap, FunctionBounds())
    {
      var term := instMap[|instMap| - 1];
      targets := [];
      if term.value.mcInst.kind.Branch? {
        var target := EvaluateBranch(term.value.mcInst, term.key, funcEnd - term.key);
        if target.Some? && target.value >= funcStart && target.value < funcEnd {
          targets := targets + [target.value];
        }
      }
    }

    /** Second phase: adds the edges. That every block has recorded targets is what the lookup relies on. */
    method AddEdges(mf: MachineFunction, ghost leads: seq<nat>)
      requires Valid() && MapsDone(instMap, leads, FunctionBounds(), instToMBBNum, mbbNumToMCInstTargets)
      requires BlocksAre(instMap, |instMap|, leads, mf.blocks)
      modifies mf
      ensures IsCfg(instMap, leads, mf.blocks, mbbNumToMCInstTargets, instToMBBNum)
    {
      hide MapsDone, BlockInsts, Find, Resolve;
      assert forall n: nat :: n < |leads| ==> n in mbbNumToMCInstTargets by { EveryBlockHasTargets(leads); }
      for n := 0 to |mf.blocks|
        invariant |mf.blocks| == |leads|
        invariant forall m: nat :: m < n ==>
                    IsBlock(instMap, leads, m, mf.blocks[m], mbbNumToMCInstTargets[m], instToMBBNum)
        invariant forall m: nat :: n <= m < |leads| ==>
                                   mf.blocks[m] == MBB(BlockInsts(instMap, |instMap|, leads, m), [])
      {
        var targets := mbbNumToMCInstTargets[n];
        var successors := SuccessorsFor(mf.blocks[n], targets);
        mf.blocks := mf.blocks[n := MBB(mf.blocks[n].instrs, successors)];
      }
    }

    lemma EveryBlockHasTargets(leads: seq<nat>)
      requires MapsDone(instMap, leads, FunctionBounds(), instToMBBNum, mbbNumToMCInstTargets)
      ensures forall n: nat :: n < |leads| ==> n in mbbNumToMCInstTargets
    {
    }

    /** The edges of one block, in the order of its targets. */
    method SuccessorsFor(mbb: MBB, targets: seq<nat>) returns (successors: seq<nat>)
      requires mbb.successors == []
      ensures successors == if IsReturnBlock(mbb) then [] else Resolve(targets, instToMBBNum)
    {
      hide Find;
      successors := mbb.successors;
      for k := 0 to |targets|
        invariant successors == if IsReturnBlock(mbb) then [] else Resolve(targets[..k], instToMBBNum)
      {
        assert targets[..k + 1][..k] == targets[..k];
        var found := Find(instToMBBNum, targets[k]);
        if found.None? {
          // The target may be outside the function.
        } else if !IsReturnBlock(mbb) {
          successors := successors + [found.value];
        }
      }
      assert targets[..|targets|] == targets;
    }

    /** Builds the graph from the stream and the leaders. */
    method BuildCFG(mf: MachineFunction)
      requires Valid() && Buildable(instMap, targetIndices, FunctionBounds())
      requires mf.blocks == [] && instToMBBNum == [] && mbbNumToMCInstTargets == map[]
      modifies this`instToMBBNum, this`mbbNumToMCInstTargets, mf
      ensures Valid()
      ensures var leads := Leads(instMap, targetIndices);
              && MapsDone(instMap, leads, FunctionBounds(), instToMBBNum, mbbNumToMCInstTargets)
              && IsCfg(instMap, leads, mf.blocks, mbbNumToMCInstTargets, instToMBBNum)
    {
      hide MapsAre, MapsDone, IsBlock, StartsWithLeader;
      var entry := AddBlocks(mf);
      ghost var leads := Leads(instMap, targetIndices);
      if instMap == [] {
        MapsCloseEmpty(instMap, leads, FunctionBounds(), instToMBBNum, mbbNumToMCInstTargets, entry);
      } else {
        SomeBlock(instMap, targetIndices);
      }
      if |mf.blocks| > 0 {
        var last := |mf.blocks| - 1;
        var termTargets := TargetsOfLast();
        MapsClose(instMap, leads, FunctionBounds(), instToMBBNum, mbbNumToMCInstTargets, entry);
        mbbNumToMCInstTargets := InsertNew(mbbNumToMCInstTargets, last, termTargets);
        instToMBBNum := Insert<nat>(instToMBBNum, entry, last);
      }
      AddEdges(mf, leads);
    }

    /** The size of the instruction at an offset that the stream has. */
    method GetMCInstSize(offset: nat) returns (size: nat)
      requires Valid() && PositionOf(instMap, offset) < |instMap| && instMap[|instMap| - 1].key < funcEnd
      ensures size == SizeAt(instMap, funcEnd, offset)
    {
      var k := PositionOf(instMap, offset);
      if k + 1 != |instMap| {
        assert instMap[k].key < instMap[k + 1].key;
        return instMap[k + 1].key - offset;
      }
      return funcEnd - offset;
    }

    /** The bytes of the instructions of a block. */
    method SizeInBytes(instrs: seq<MachineInstr>) returns (bytes: nat)
      requires Valid() && KnownInstrs(instMap, instrs) && (|instMap| > 0 ==> instMap[|instMap| - 1].key < funcEnd)
      ensures bytes == BlockBytes(instMap, funcEnd, instrs)
    {
      bytes := 0;
      for k := 0 to |instrs|
        invariant KnownInstrs(instMap, instrs[..k]) && bytes == BlockBytes(instMap, funcEnd, instrs[..k])
      {
        var size := GetMCInstSize(instrs[k].key);
        assert instrs[..k + 1][..k] == instrs[..k];
        bytes := (bytes + size) % UNSIGNED;
      }
      assert instrs[..|instrs|] == instrs;
    }

    method GetMBBNumberOfMCInstOffset(offset: nat, mf: MachineFunction) returns (r: int)
      requires Valid() && (|instMap| > 0 ==> instMap[|instMap| - 1].key < funcEnd)
      requires forall i :: 0 <= i < |instToMBBNum| ==>
                 instToMBBNum[i].value < |mf.blocks| && KnownInstrs(instMap, mf.blocks[instToMBBNum[i].value].instrs)
      ensures IsLookup(instMap, FunctionBounds(), instToMBBNum, mf.blocks, offset, r)
    {
      if offset < funcStart || offset > funcEnd {
        return -1;
      }
      var found := Find(instToMBBNum, offset);
      if found.Some? {
        return found.value;
      }
      for i := 0 to |instToMBBNum|
        invariant forall j :: 0 <= j < i ==> !Covers(instMap, funcEnd, mf.blocks, instToMBBNum[j], offset)
      {
        var start, n := instToMBBNum[i].key, instToMBBNum[i].value;
        var bytes := SizeInBytes(mf.blocks[n].instrs);
        if start <= offset && offset < start + bytes {
          return n;
        }
      }
      return -1;
    }

    /** The first offset of a block, or -1 for no block. */
    method GetMCInstOffsetOfMBBNumber(n: nat) returns (r: int)
      ensures IsReverse(instToMBBNum, n, r)
    {
      for i := 0 to |instToMBBNum|
        invariant forall j :: 0 <= j < i ==> instToMBBNum[j].value != n
      {
        if instToMBBNum[i].value == n {
          return instToMBBNum[i].key;
        }
      }
      return -1;
    }
  }
}
