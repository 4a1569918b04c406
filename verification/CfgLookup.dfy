/** Looking up blocks by offset and offsets by block. */
module CfgLookup {
  import opened Wrappers
  import opened OrderedMap
  import opened McInstStream
  import opened McInstRaiser
  import opened CfgExact
  import opened CfgEdges

  /** The bytes from the first instruction of block `n` up to the next block or the end of the function. */
  predicate Within(es: Stream, end: nat, leads: seq<nat>, n: nat, offset: nat)
    requires Leading(es, |es|, leads)
  {
    n < |leads| && es[leads[n]].key <= offset < if n + 1 < |leads| then es[leads[n + 1]].key else end
  }

  lemma PositionIs(es: Stream, k: nat)
    requires Sorted(es) && k < |es|
    ensures PositionOf(es, es[k].key) == k
  {
    SamePosition(es, PositionOf(es, es[k].key), k);
  }

  lemma SizeIs(es: Stream, b: Bounds, k: nat)
    requires Sorted(es) && InBounds(es, b) && k < |es|
    ensures PositionOf(es, es[k].key) < |es| && es[|es| - 1].key < b.end
    ensures es[k].key < NextOffset(es, b.end, k) && SizeAt(es, b.end, es[k].key) == NextOffset(es, b.end, k) - es[k].key
    ensures NextOffset(es, b.end, k) <= b.end
  {
    PositionIs(es, k);
    assert es[k].key < b.end;
    assert k + 1 < |es| ==> es[k].key < es[k + 1].key < b.end;
  }

  /** Where code is without data, the sizes of consecutive instructions add up to the distance. */
  lemma {:induction false} BytesAdd(es: Stream, b: Bounds, l: nat, instrs: seq<MachineInstr>)
    requires Sorted(es) && InBounds(es, b) && 0 < |instrs| && l + |instrs| <= |es| && b.end - b.start < UNSIGNED
    requires forall i: nat :: i < |instrs| ==> instrs[i].key == es[l + i].key
    ensures KnownInstrs(es, instrs) && es[|es| - 1].key < b.end
    ensures BlockBytes(es, b.end, instrs) == NextOffset(es, b.end, l + |instrs| - 1) - es[l].key
  {
    hide PositionOf, SizeAt;
    var k := |instrs| - 1;
    forall i: nat | i < |instrs| ensures PositionOf(es, instrs[i].key) < |es| {
      SizeIs(es, b, l + i);
    }
    SizeIs(es, b, l + k);
    assert b.start <= es[l].key;
    if k > 0 {
      BytesAdd(es, b, l, instrs[..k]);
      assert es[l].key < es[l + k].key;
    } else {
      assert instrs[..k] == [];
    }
  }

  lemma LeadKeys(es: Stream, leads: seq<nat>, n: nat, m: nat)
    requires Sorted(es) && Leading(es, |es|, leads) && n < m < |leads|
    ensures n + 1 < |leads| && es[leads[n + 1]].key <= es[leads[m]].key
  {
    if n + 1 < m {
      assert leads[n + 1] < leads[m];
    }
  }

  /** The bytes of the blocks do not overlap. */
  lemma WithinOne(es: Stream, end: nat, leads: seq<nat>, n: nat, m: nat, offset: nat)
    requires Sorted(es) && Leading(es, |es|, leads) && Within(es, end, leads, n, offset)
             && Within(es, end, leads, m, offset)
    ensures n == m
  {
    if n < m {
      LeadKeys(es, leads, n, m);
    } else if m < n {
      LeadKeys(es, leads, m, n);
    }
  }

  /** A block covers an offset exactly if the offset is within the block's bytes. */
  lemma CoversWithin(es: Stream, leads: seq<nat>, b: Bounds, blocks: seq<MBB>, n: nat, offset: nat)
    requires Sorted(es) && InBounds(es, b) && b.end - b.start < UNSIGNED && InstrsAre(es, leads, blocks) && n < |leads|
    requires forall k: nat :: k < |es| ==> IsInst(es, k)
    ensures Covers(es, b.end, blocks, Pair(es[leads[n]].key, n), offset) <==> Within(es, b.end, leads, n, offset)
  {
    BlockBytesAre(es, leads, b, blocks, n);
    hide InstrsAre, BlockBytes, InBounds;
    LastIs(es, leads, b, n);
  }

  lemma LastIs(es: Stream, leads: seq<nat>, b: Bounds, n: nat)
    requires Sorted(es) && InBounds(es, b) && Leading(es, |es|, leads) && n < |leads|
    ensures var last := LastOf(es, leads, n);
            && leads[n] <= last < |es| && es[leads[n]].key < NextOffset(es, b.end, last)
            && NextOffset(es, b.end, last) == if n + 1 < |leads| then es[leads[n + 1]].key else b.end
  {
    var l, last := leads[n], LastOf(es, leads, n);
    assert es[l].key < b.end;
    assert n + 1 < |leads| ==> l < leads[n + 1] && es[l].key < es[leads[n + 1]].key;
  }

  lemma {:induction false} BlockBytesAre(es: Stream, leads: seq<nat>, b: Bounds, blocks: seq<MBB>, n: nat)
    requires Sorted(es) && InBounds(es, b) && b.end - b.start < UNSIGNED && InstrsAre(es, leads, blocks) && n < |leads|
    requires forall k: nat :: k < |es| ==> IsInst(es, k)
    ensures KnownInstrs(es, blocks[n].instrs) && es[|es| - 1].key < b.end
    ensures BlockBytes(es, b.end, blocks[n].instrs) == NextOffset(es, b.end, LastOf(es, leads, n)) - es[leads[n]].key
  {
    BlockOfCode(es, leads, n);
    hide BlockInsts, BlockBytes, KnownInstrs, PositionOf;
    BytesAdd(es, b, leads[n], blocks[n].instrs);
  }

  /** In a stream without data, the lookup finds the one block whose bytes contain the offset, and nothing outside. */
  lemma LookupExact(es: Stream, leads: seq<nat>, b: Bounds, blocks: seq<MBB>, offset: nat, r: int)
    requires Sorted(es) && InBounds(es, b) && b.end - b.start < UNSIGNED && InstrsAre(es, leads, blocks)
    requires forall k: nat :: k < |es| ==> IsInst(es, k)
    requires IsLookup(es, b, LeaderMap(es, leads), blocks, offset, r)
    ensures r >= -1
    ensures forall n: nat :: r == n <==> Within(es, b.end, leads, n, offset)
  {
    assert Leading(es, |es|, leads);
    hide Covers, Within, InstrsAre, Find, LeaderMap, IsLookup;
    forall n: nat ensures r == n <==> Within(es, b.end, leads, n, offset) {
      LookupMeans(es, leads, b, blocks, offset, r, n);
    }
    LookupRange(es, leads, b, blocks, offset, r);
  }

  lemma LookupRange(es: Stream, leads: seq<nat>, b: Bounds, blocks: seq<MBB>, offset: nat, r: int)
    requires Leading(es, |es|, leads) && IsLookup(es, b, LeaderMap(es, leads), blocks, offset, r)
    ensures r >= -1
  {
  }

  lemma LookupMeans(es: Stream, leads: seq<nat>, b: Bounds, blocks: seq<MBB>, offset: nat, r: int, n: nat)
    requires Sorted(es) && InBounds(es, b) && b.end - b.start < UNSIGNED && InstrsAre(es, leads, blocks)
    requires forall k: nat :: k < |es| ==> IsInst(es, k)
    requires IsLookup(es, b, LeaderMap(es, leads), blocks, offset, r)
    ensures r == n <==> Within(es, b.end, leads, n, offset)
  {
    hide Covers, Find, BlockInsts;
    var begins := LeaderMap(es, leads);
    if n < |leads| {
      CoversWithin(es, leads, b, blocks, n, offset);
      assert begins[n] == Pair(es[leads[n]].key, n);
    }
    if offset < b.start || offset > b.end {
      OutOfBounds(es, leads, b, n, offset);
    } else if Find(begins, offset).Some? {
      var m := Find(begins, offset).value;
      FindLead(es, leads, offset, m);
      AtStart(es, leads, b, m);
      if Within(es, b.end, leads, n, offset) {
        WithinOne(es, b.end, leads, n, m, offset);
      }
    } else if r != -1 {
      var i: nat :| i < |begins| && begins[i].value == r && Covers(es, b.end, blocks, begins[i], offset);
      CoversWithin(es, leads, b, blocks, i, offset);
      if Within(es, b.end, leads, n, offset) {
        WithinOne(es, b.end, leads, n, i, offset);
      }
    }
  }

  lemma OutOfBounds(es: Stream, leads: seq<nat>, b: Bounds, n: nat, offset: nat)
    requires InBounds(es, b) && Leading(es, |es|, leads) && (offset < b.start || offset > b.end)
    ensures !Within(es, b.end, leads, n, offset)
  {
  }

  lemma AtStart(es: Stream, leads: seq<nat>, b: Bounds, m: nat)
    requires Sorted(es) && InBounds(es, b) && Leading(es, |es|, leads) && m < |leads|
    ensures Within(es, b.end, leads, m, es[leads[m]].key)
  {
    assert m + 1 < |leads| ==> leads[m] < leads[m + 1];
  }

  /** The reverse lookup gives the first offset of a block, and -1 for no block. */
  lemma ReverseExact(es: Stream, leads: seq<nat>, n: nat, r: int)
    requires Leading(es, |es|, leads) && IsReverse(LeaderMap(es, leads), n, r)
    ensures r == if n < |leads| then es[leads[n]].key else -1
  {
    var begins := LeaderMap(es, leads);
    if n < |leads| {
      assert begins[n].value == n;
    }
  }

  /** Looking up the first offset of a block gives the block back, with or without data in the stream. */
  lemma LookupRoundTrip(es: Stream, leads: seq<nat>, b: Bounds, blocks: seq<MBB>, n: nat, offset: int, r: int)
    requires Sorted(es) && InBounds(es, b) && Leading(es, |es|, leads) && n < |leads|
    requires IsReverse(LeaderMap(es, leads), n, offset)
    requires offset >= 0 ==> IsLookup(es, b, LeaderMap(es, leads), blocks, offset, r)
    ensures offset >= 0 && r == n
  {
    hide Covers;
    ReverseExact(es, leads, n, offset);
    FindLead(es, leads, offset, n);
    assert b.start <= es[leads[n]].key < b.end;
  }
}
