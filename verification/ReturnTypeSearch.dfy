/** The search for the definition of the return register that reaches a return block. */
module ReturnTypeSearch {
  import opened Wrappers
  import opened ControlFlow

  datatype RetType = IntType(bits: nat) | FloatType | DoubleType | VectorType | VoidType

  /** What one block says: the type of its last definition of a return register, and whether it calls a function. */
  datatype Local = Local(ty: Option<RetType>, hasCall: bool)

  // ----- one block

  /** An instruction as far as it matters: a call of a function whose type may be known, a definition of RAX or a part
      of it, a definition of XMM0, or anything else. */
  datatype BlockInst = Call(callee: Option<RetType>) | DefinesGp(ty: RetType) | DefinesSse(ty: RetType) | Neither

  /** The last instruction that calls or defines, or the length of the block. */
  function LastSignificant(insts: seq<BlockInst>): (k: nat)
    ensures k <= |insts|
    ensures k < |insts| ==> !insts[k].Neither? && forall i :: k < i < |insts| ==> insts[i].Neither?
    ensures k == |insts| ==> forall i :: 0 <= i < |insts| ==> insts[i].Neither?
  {
    if insts == [] then 0 else
      var n := |insts| - 1;
      if !insts[n].Neither? then n else
        var k := LastSignificant(insts[..n]);
        if k == n then n + 1 else k
  }

  /** What the block ought to say. */
  function Intended(insts: seq<BlockInst>): Local {
    var k := LastSignificant(insts);
    if k == |insts| then Local(None, false)
    else if insts[k].Call? then Local(insts[k].callee, true)
    else Local(Some(insts[k].ty), false)
  }

  /** A definition of XMM0 right after a call. */
  predicate Overridden(insts: seq<BlockInst>) {
    var k := LastSignificant(insts);
    0 < k < |insts| && insts[k].DefinesSse? && insts[k - 1].Call?
  }

  /** Instruction `k` is the last that calls or defines. */
  ghost predicate IsLastOf(insts: seq<BlockInst>, k: nat) {
    k < |insts| && !insts[k].Neither? && forall i :: k < i < |insts| ==> insts[i].Neither?
  }

  /** A block that ends in a call answers the callee's type, one that ends in a definition the type defined, and one
      with neither answers nothing. */
  lemma IntendedMeans(insts: seq<BlockInst>, k: nat)
    requires IsLastOf(insts, k)
    ensures insts[k].Call? ==> Intended(insts) == Local(insts[k].callee, true)
    ensures !insts[k].Call? ==> Intended(insts) == Local(Some(insts[k].ty), false)
    ensures Overridden(insts) <==> insts[k].DefinesSse? && 0 < k && insts[k - 1].Call?
  {
    LastIs(insts, k);
  }

  lemma LastIs(insts: seq<BlockInst>, k: nat)
    requires IsLastOf(insts, k)
    ensures LastSignificant(insts) == k
  {
  }

  /** Walks the block backwards. The type of a definition of XMM0 does not end the walk, and a call right before it
      overrides it; that is the one case in which the block does not say what it ought to. */
  method GetReturnTypeFromMBB(insts: seq<BlockInst>) returns (local: Local)
    ensures local == Intended(insts) <==> !Overridden(insts)
    ensures Overridden(insts) ==> local == Local(insts[LastSignificant(insts) - 1].callee, true)
    ensures forall k: nat :: IsLastOf(insts, k) && insts[k].Call? ==> local == Local(insts[k].callee, true)
    ensures forall k: nat :: IsLastOf(insts, k) && insts[k].DefinesGp? ==> local == Local(Some(insts[k].ty), false)
    ensures forall k: nat :: IsLastOf(insts, k) && insts[k].DefinesSse? ==>
              local == if k > 0 && insts[k - 1].Call? then Local(insts[k - 1].callee, true)
                       else Local(Some(insts[k].ty), false)
    ensures (forall k: nat :: !IsLastOf(insts, k)) ==> local == Local(None, false)
  {
    forall k: nat | IsLastOf(insts, k) ensures LastSignificant(insts) == k {
      LastIs(insts, k);
    }
    assert LastSignificant(insts) < |insts| ==> IsLastOf(insts, LastSignificant(insts));
    var returnType: Option<RetType> := None;
    ghost var last := LastSignificant(insts);
    var k := |insts|;
    while k > 0
      invariant 0 <= k <= |insts|
      invariant returnType.None? ==> forall i :: k <= i < |insts| ==> insts[i].Neither?
      invariant returnType.Some? ==> k == last < |insts| && insts[k].DefinesSse? && returnType == Some(insts[k].ty)
    {
      k := k - 1;
      var inst := insts[k];
      if inst.Call? {
        return Local(inst.callee, true);
      }
      if returnType.Some? {
        return Local(returnType, false);
      }
      if inst.DefinesSse? {
        returnType := Some(inst.ty);
      } else if inst.DefinesGp? {
        return Local(Some(inst.ty), false);
      }
    }
    return Local(returnType, false);
  }

  // ----- where the search goes

  /** Neither a definition nor a call. */
  predicate Silent(local: Local) {
    local.ty.None? && !local.hasCall
  }

  /** The search goes on through silent blocks, but not beyond the entry block. */
  predicate Passes(local: seq<Local>, b: Block) {
    b < |local| && Silent(local[b]) && b != 0
  }

  /** The search ends at a definition, and at a silent entry block. */
  predicate Ends(local: seq<Local>, b: Block) {
    b < |local| && (local[b].ty.Some? || (Silent(local[b]) && b == 0))
  }

  /** A path backwards from block `from`, through blocks that the search passes. */
  ghost predicate BackPath(preds: Preds, local: seq<Local>, from: Block, p: seq<Block>) {
    && |p| > 0 && p[0] == from
    && (forall i: nat :: i + 1 < |p| ==> Edge(preds, p[i + 1], p[i]))
    && (forall i: nat :: 0 < i && i + 1 < |p| ==> Passes(local, p[i]))
  }

  ghost predicate ReachedBy(preds: Preds, local: seq<Local>, from: Block, b: Block, distance: nat) {
    exists p: seq<Block> :: BackPath(preds, local, from, p) && Last(p) == b && |p| == distance + 1
  }

  /** No shorter backward path comes to where the search ends. */
  ghost predicate NothingNearer(preds: Preds, local: seq<Local>, from: Block, distance: nat) {
    forall b: Block, d: nat :: 0 < d < distance && ReachedBy(preds, local, from, b, d) ==> !Ends(local, b)
  }

  /** A block that ends the search at the least distance. */
  ghost predicate Nearest(preds: Preds, local: seq<Local>, from: Block, b: Block) {
    exists d: nat :: d > 0 && ReachedBy(preds, local, from, b, d) && Ends(local, b)
                     && NothingNearer(preds, local, from, d)
  }

  /** The answer: the type of a nearest definition, or nothing if the entry block is nearest or no block ends the
      search. */
  ghost predicate IsReaching(preds: Preds, local: seq<Local>, from: Block, r: Option<RetType>) {
    match r
    case Some(_) => exists b: Block :: b < |local| && Nearest(preds, local, from, b) && local[b].ty == r
    case None =>
      || (|local| > 0 && Nearest(preds, local, from, 0) && Silent(local[0]))
      || forall d: nat :: NothingNearer(preds, local, from, d)
  }

  // ----- the breadth-first invariant

  /** The block was visited at that distance or nearer, or waits to be. */
  ghost predicate Covered(visited: map<Block, nat>, work: seq<Block>, levels: seq<nat>, b: Block, distance: nat)
    requires |work| == |levels|
  {
    || (b in visited && visited[b] <= distance)
    || exists i :: 0 <= i < |work| && work[i] == b && levels[i] <= distance
  }

  ghost predicate Expanded(preds: Preds, local: seq<Local>, from: Block, visited: map<Block, nat>, work: seq<Block>,
                           levels: seq<nat>)
    requires |work| == |levels|
  {
    && (forall y: Block :: Edge(preds, y, from) ==> Covered(visited, work, levels, y, 1))
    && (forall x: Block, y: Block :: x in visited && Passes(local, x) && Edge(preds, y, x) ==>
          Covered(visited, work, levels, y, visited[x] + 1))
  }

  ghost predicate Queue(preds: Preds, local: seq<Local>, from: Block, work: seq<Block>, levels: seq<nat>, level: nat) {
    && |work| == |levels|
    && (forall i :: 0 <= i < |work| ==> work[i] < |local| && ReachedBy(preds, local, from, work[i], levels[i]))
    && (forall i :: 0 <= i < |work| ==> 0 < levels[i] && level <= levels[i] <= level + 1)
    && (forall i, j :: 0 <= i < j < |work| ==> levels[i] >= levels[j])
  }

  ghost predicate Done(local: seq<Local>, visited: map<Block, nat>, level: nat) {
    forall v: Block :: v in visited ==> v < |local| && !Ends(local, v) && visited[v] <= level
  }

  /** Whatever a backward path comes to was visited, unless something as near is still waiting. */
  lemma {:induction false} PathCovered(preds: Preds, local: seq<Local>, from: Block, visited: map<Block, nat>,
                                       work: seq<Block>,
                                       levels: seq<nat>, p: seq<Block>, m: nat)
    requires |work| == |levels| && Expanded(preds, local, from, visited, work, levels)
    requires BackPath(preds, local, from, p) && 0 < m < |p|
    ensures (p[m] in visited && visited[p[m]] <= m) || exists i :: 0 <= i < |work| && levels[i] <= m
  {
    var k: nat := m - 1;
    assert Edge(preds, p[k + 1], p[k]);
    if k == 0 {
      assert Covered(visited, work, levels, p[m], 1);
    } else {
      PathCovered(preds, local, from, visited, work, levels, p, k);
      if p[k] in visited && visited[p[k]] <= k {
        assert Passes(local, p[k]);
        assert Covered(visited, work, levels, p[m], visited[p[k]] + 1);
      }
    }
  }

  /** Nothing that ends the search is nearer than all that waits. */
  lemma NothingMissed(preds: Preds, local: seq<Local>, from: Block, visited: map<Block, nat>, work: seq<Block>,
                      levels: seq<nat>,
                      level: nat, distance: nat)
    requires |work| == |levels| && Expanded(preds, local, from, visited, work, levels) && Done(local, visited, level)
    requires forall i :: 0 <= i < |work| ==> levels[i] >= distance
    ensures NothingNearer(preds, local, from, distance)
  {
    forall b: Block, d: nat | 0 < d < distance && ReachedBy(preds, local, from, b, d) ensures !Ends(local, b) {
      var p: seq<Block> :| BackPath(preds, local, from, p) && Last(p) == b && |p| == d + 1;
      PathCovered(preds, local, from, visited, work, levels, p, d);
    }
  }

  // ----- the steps of the search

  lemma PathExtends(preds: Preds, local: seq<Local>, from: Block, x: Block, y: Block, distance: nat)
    requires ReachedBy(preds, local, from, x, distance) && distance > 0 && Passes(local, x) && Edge(preds, y, x)
    ensures ReachedBy(preds, local, from, y, distance + 1)
  {
    var p: seq<Block> :| BackPath(preds, local, from, p) && Last(p) == x && |p| == distance + 1;
    var q := p + [y];
    forall i: nat | i + 1 < |q| ensures Edge(preds, q[i + 1], q[i]) {
      assert i + 1 < |p| ==> Edge(preds, p[i + 1], p[i]);
    }
    forall i: nat | 0 < i && i + 1 < |q| ensures Passes(local, q[i]) {
      assert i + 1 < |p| ==> Passes(local, p[i]);
    }
    assert BackPath(preds, local, from, q) && Last(q) == y && |q| == distance + 2;
  }

  lemma FirstStep(preds: Preds, local: seq<Local>, from: Block, y: Block)
    requires Edge(preds, y, from)
    ensures ReachedBy(preds, local, from, y, 1)
  {
    var q := [from, y];
    assert BackPath(preds, local, from, q) && Last(q) == y && |q| == 2;
  }

  /** Putting a block in front of the queue covers it and keeps what is covered. */
  lemma InsertCovers(visited: map<Block, nat>, work: seq<Block>, levels: seq<nat>, b: Block, distance: nat)
    requires |work| == |levels|
    ensures Covered(visited, [b] + work, [distance] + levels, b, distance)
    ensures forall c: Block, d: nat :: Covered(visited, work, levels, c, d) ==>
                                       Covered(visited, [b] + work, [distance] + levels, c, d)
  {
    var w, l := [b] + work, [distance] + levels;
    assert w[0] == b && l[0] == distance;
    forall c: Block, d: nat | Covered(visited, work, levels, c, d) ensures Covered(visited, w, l, c, d) {
      if !(c in visited && visited[c] <= d) {
        var i: nat :| i < |work| && work[i] == c && levels[i] <= d;
        assert w[i + 1] == c && l[i + 1] <= d;
      }
    }
  }

  /** Taking a block from the back of the queue uncovers nothing if it is then marked as visited at its level. */
  lemma VisitCovers(visited: map<Block, nat>, work: seq<Block>, levels: seq<nat>, c: Block, d: nat)
    requires |work| == |levels| > 0 && Covered(visited, work, levels, c, d)
    ensures var k := |work| - 1;
            var v := if work[k] in visited then visited else visited[work[k] := levels[k]];
            (work[k] in visited ==> visited[work[k]] <= levels[k]) ==> Covered(v, work[..k], levels[..k], c, d)
  {
    var k := |work| - 1;
    var w, l := work[..k], levels[..k];
    if !(c in visited && visited[c] <= d) {
      var i: nat :| i < |work| && work[i] == c && levels[i] <= d;
      if i < k {
        assert w[i] == c && l[i] <= d;
      }
    }
  }

  ghost predicate Marks(blockVisited: seq<bool>, visited: map<Block, nat>, blocks: nat) {
    |blockVisited| == blocks && forall b: Block :: b in visited <==> b < blocks && blockVisited[b]
  }

  function Unmarked(marks: seq<bool>): nat {
    if marks == [] then 0 else (if marks[0] then 0 else 1) + Unmarked(marks[1..])
  }

  lemma {:induction false} MarkDecreases(marks: seq<bool>, b: Block)
    requires b < |marks| && !marks[b]
    ensures Unmarked(marks[b := true]) < Unmarked(marks)
  {
    if b > 0 {
      assert marks[b := true][1..] == marks[1..][b - 1 := true];
      MarkDecreases(marks[1..], b - 1);
    } else {
      assert marks[b := true][1..] == marks[1..];
    }
  }

  /** Inserts the predecessors of block `x` that were not visited in front of the queue. */
  method InsertPredecessors(preds: Preds, local: seq<Local>, ghost from: Block, x: Block,
                            ghost visited: map<Block, nat>,
                            blockVisited: seq<bool>, work0: seq<Block>, ghost levels0: seq<nat>, ghost level: nat)
    returns (work: seq<Block>, ghost levels: seq<nat>)
    requires ValidCfg(preds) && |preds| == |local| && x < |preds| && Marks(blockVisited, visited, |preds|)
    requires Queue(preds, local, from, work0, levels0, level) && Done(local, visited, level)
    requires forall y: Block :: Edge(preds, y, x) ==> ReachedBy(preds, local, from, y, level + 1)
    ensures Queue(preds, local, from, work, levels, level)
    ensures forall c: Block, d: nat :: Covered(visited, work0, levels0, c, d) ==> Covered(visited, work, levels, c, d)
    ensures forall y: Block :: Edge(preds, y, x) ==> Covered(visited, work, levels, y, level + 1)
  {
    hide ReachedBy, Covered;
    work, levels := work0, levels0;
    var ps := preds[x];
    for n := 0 to |ps|
      invariant Queue(preds, local, from, work, levels, level)
      invariant forall c: Block, d: nat :: Covered(visited, work0, levels0, c, d) ==>
                                           Covered(visited, work, levels, c, d)
      invariant forall i :: 0 <= i < n ==> Covered(visited, work, levels, ps[i], level + 1)
    {
      assert Edge(preds, ps[n], x);
      if !blockVisited[ps[n]] {
        InsertCovers(visited, work, levels, ps[n], level + 1);
        work, levels := [ps[n]] + work, [level + 1] + levels;
      } else {
        VisitedCovers(local, visited, work, levels, ps[n], level);
      }
    }
  }

  lemma VisitedCovers(local: seq<Local>, visited: map<Block, nat>, work: seq<Block>, levels: seq<nat>, b: Block,
                      level: nat)
    requires |work| == |levels| && Done(local, visited, level) && b in visited
    ensures Covered(visited, work, levels, b, level + 1)
  {
  }

  /** The state of the search between two iterations. */
  ghost predicate Searching(preds: Preds, local: seq<Local>, from: Block, visited: map<Block, nat>, work: seq<Block>,
                            levels: seq<nat>, level: nat) {
    && Queue(preds, local, from, work, levels, level) && Done(local, visited, level)
    && Expanded(preds, local, from, visited, work, levels)
  }

  /** The block taken from the queue is a nearest one if the search ends at it. */
  lemma TakenNearest(preds: Preds, local: seq<Local>, from: Block, visited: map<Block, nat>, work: seq<Block>,
                     levels: seq<nat>,
                     level: nat)
    requires Searching(preds, local, from, visited, work, levels, level) && |work| > 0
    ensures Ends(local, Last(work)) ==> Nearest(preds, local, from, Last(work))
  {
    var d := Last(levels);
    NothingMissed(preds, local, from, visited, work, levels, level, d);
  }

  lemma NothingLeft(preds: Preds, local: seq<Local>, from: Block, visited: map<Block, nat>, level: nat)
    requires Searching(preds, local, from, visited, [], [], level)
    ensures forall d: nat :: NothingNearer(preds, local, from, d)
  {
    forall d: nat ensures NothingNearer(preds, local, from, d) {
      NothingMissed(preds, local, from, visited, [], [], level, d);
    }
  }

  /** After a block has been taken, all is covered except its own predecessors. */
  lemma Taken(preds: Preds, local: seq<Local>, from: Block, visited: map<Block, nat>, work: seq<Block>,
              levels: seq<nat>, level: nat)
    requires Searching(preds, local, from, visited, work, levels, level) && |work| > 0
    ensures var k := |work| - 1;
            var b, d := work[k], levels[k];
            var v := if b in visited then visited else visited[b := d];
            && Queue(preds, local, from, work[..k], levels[..k], d)
            && (!Ends(local, b) ==> Done(local, v, d))
            && (forall y: Block :: Edge(preds, y, from) ==> Covered(v, work[..k], levels[..k], y, 1))
            && (forall x: Block, y: Block :: x in visited && Passes(local, x) && Edge(preds, y, x) ==>
                  Covered(v, work[..k], levels[..k], y, visited[x] + 1))
  {
    hide ReachedBy, Covered;
    var k := |work| - 1;
    var b, d := work[k], levels[k];
    var v := if b in visited then visited else visited[b := d];
    forall c: Block, e: nat | Covered(visited, work, levels, c, e) ensures Covered(v, work[..k], levels[..k], c, e) {
      VisitCovers(visited, work, levels, c, e);
    }
  }

  lemma Beginning(preds: Preds, local: seq<Local>, from: Block)
    ensures Queue(preds, local, from, [], [], 0) && Done(local, map[], 0)
    ensures forall y: Block :: Edge(preds, y, from) ==> ReachedBy(preds, local, from, y, 1)
  {
    forall y: Block | Edge(preds, y, from) ensures ReachedBy(preds, local, from, y, 1) {
      FirstStep(preds, local, from, y);
    }
  }

  /** What the predecessors of a passed block need on entering the queue. */
  lemma PredecessorsReached(preds: Preds, local: seq<Local>, from: Block, x: Block, d: nat)
    requires ReachedBy(preds, local, from, x, d) && d > 0 && Passes(local, x)
    ensures forall y: Block :: Edge(preds, y, x) ==> ReachedBy(preds, local, from, y, d + 1)
  {
    forall y: Block | Edge(preds, y, x) ensures ReachedBy(preds, local, from, y, d + 1) {
      PathExtends(preds, local, from, x, y, d);
    }
  }

  /** The worklist loop. New blocks enter at the front and are taken from the back. */
  method SearchPredecessors(preds: Preds, local: seq<Local>, mbb: Block) returns (returnType: Option<RetType>)
    requires ValidCfg(preds) && |preds| == |local| && mbb < |local|
    ensures IsReaching(preds, local, mbb, returnType)
  {
    hide ReachedBy, Covered, Nearest, NothingNearer;
    returnType := None;
    var blockVisited := seq(|preds|, _ => false);
    ghost var visited: map<Block, nat> := map[];
    ghost var level: nat := 0;
    Beginning(preds, local, mbb);
    var work, levels := InsertPredecessors(preds, local, mbb, mbb, visited, blockVisited, [], [], level);
    while work != [] && returnType.None?
      invariant returnType.None? ==> Searching(preds, local, mbb, visited, work, levels, level)
      invariant Marks(blockVisited, visited, |preds|)
      invariant returnType.Some? ==> IsReaching(preds, local, mbb, returnType)
      decreases Unmarked(blockVisited), |work|
    {
      var k := |work| - 1;
      var predMBB := work[k];
      TakenNearest(preds, local, mbb, visited, work, levels, level);
      Taken(preds, local, mbb, visited, work, levels, level);
      ghost var d := levels[k];
      work := work[..k];
      levels := levels[..k];
      level := d;
      if !blockVisited[predMBB] {
        MarkDecreases(blockVisited, predMBB);
        blockVisited := blockVisited[predMBB := true];
        visited := visited[predMBB := d];
        var onPath, hasCall := local[predMBB].ty, local[predMBB].hasCall;
        if !hasCall && onPath.None? {
          if predMBB == 0 {
            return None;
          }
          PredecessorsReached(preds, local, mbb, predMBB, d);
          work, levels := InsertPredecessors(preds, local, mbb, predMBB, visited, blockVisited, work, levels, level);
        } else if onPath.Some? {
          // The conflict with a type found earlier cannot arise: finding one ends the loop.
          assert returnType.None?;
          returnType := onPath;
        }
      }
    }
    if returnType.None? {
      NothingLeft(preds, local, mbb, visited, level);
    }
  }

  /** The whole search from block `mbb`. */
  method GetReachingReturnType(preds: Preds, local: seq<Local>, mbb: Block) returns (returnType: Option<RetType>)
    requires ValidCfg(preds) && |preds| == |local| && mbb < |local|
    ensures !Silent(local[mbb]) ==> returnType == local[mbb].ty
    ensures Silent(local[mbb]) ==> IsReaching(preds, local, mbb, returnType)
  {
    returnType := local[mbb].ty;
    if !local[mbb].hasCall {
      if returnType.None? {
        returnType := SearchPredecessors(preds, local, mbb);
      }
    }
  }
}
