/** Control-flow graphs of a machine function, given by the predecessor list of every block. */
module ControlFlow {
  import opened Wrappers

  type Block = nat
  type Preds = seq<seq<Block>>

  /** Every listed predecessor is a block of the function. */
  ghost predicate ValidCfg(preds: Preds) {
    forall b: Block, p: Block :: Edge(preds, p, b) ==> p < |preds|
  }

  predicate Edge(preds: Preds, p: Block, b: Block) {
    b < |preds| && p in preds[b]
  }

  function Last<T>(s: seq<T>): T
    requires |s| > 0
  {
    s[|s| - 1]
  }

  function Front<T>(s: seq<T>): seq<T>
    requires |s| > 0
  {
    s[..|s| - 1]
  }

  /** A path of the graph, in execution order, none of whose blocks after the first is in `defs`. */
  ghost predicate DefFreePath(preds: Preds, defs: set<Block>, path: seq<Block>) {
    && |path| > 0
    && forall i :: 0 < i < |path| ==> path[i] !in defs && Edge(preds, path[i - 1], path[i])
  }

  ghost predicate Joins(preds: Preds, defs: set<Block>, path: seq<Block>, d: Block, b: Block) {
    DefFreePath(preds, defs, path) && path[0] == d && Last(path) == b
  }

  /** A path, perhaps of no edges, leads from block `a` to block `b`, with no definition after block `a`. */
  ghost predicate Clear(preds: Preds, defs: set<Block>, a: Block, b: Block) {
    exists path: seq<Block> :: Joins(preds, defs, path, a, b)
  }

  /** A path of at least one edge leads from block `a` to block `u`, with no definition strictly in between. */
  ghost predicate Flows(preds: Preds, defs: set<Block>, a: Block, u: Block) {
    exists x: Block :: Edge(preds, x, u) && Clear(preds, defs, a, x)
  }

  ghost predicate Leads(preds: Preds, a: Block, b: Block) {
    Clear(preds, {}, a, b)
  }

  lemma ClearNowhere(preds: Preds, defs: set<Block>, a: Block)
    ensures Clear(preds, defs, a, a)
  {
    assert Joins(preds, defs, [a], a, a);
  }

  lemma ClearOn(preds: Preds, defs: set<Block>, a: Block, b: Block, c: Block)
    requires Clear(preds, defs, a, b) && Clear(preds, defs, b, c)
    ensures Clear(preds, defs, a, c)
  {
    var x: seq<Block> :| Joins(preds, defs, x, a, b);
    var y: seq<Block> :| Joins(preds, defs, y, b, c);
    var path := x + y[1..];
    forall i | 0 < i < |path|
      ensures path[i] !in defs && Edge(preds, path[i - 1], path[i])
    {
      if i >= |x| {
        assert path[i] == y[i - |x| + 1] && path[i - 1] == y[i - |x|];
      }
    }
    assert Joins(preds, defs, path, a, c);
  }

  lemma EdgeClear(preds: Preds, defs: set<Block>, a: Block, b: Block)
    requires Edge(preds, a, b) && b !in defs
    ensures Clear(preds, defs, a, b)
  {
    assert Joins(preds, defs, [a, b], a, b);
  }

  /** With fewer definitions more paths are clear. */
  lemma ClearFewer(preds: Preds, defs: set<Block>, fewer: set<Block>, a: Block, b: Block)
    requires Clear(preds, defs, a, b) && fewer <= defs
    ensures Clear(preds, fewer, a, b)
  {
    var path: seq<Block> :| Joins(preds, defs, path, a, b);
    assert Joins(preds, fewer, path, a, b);
  }

  lemma FlowsFewer(preds: Preds, defs: set<Block>, fewer: set<Block>, a: Block, u: Block)
    requires Flows(preds, defs, a, u) && fewer <= defs
    ensures Flows(preds, fewer, a, u)
  {
    var x: Block :| Edge(preds, x, u) && Clear(preds, defs, a, x);
    ClearFewer(preds, defs, fewer, a, x);
  }

  /** Through a block that does not define, what flows in flows on. */
  lemma FlowsOn(preds: Preds, defs: set<Block>, a: Block, b: Block, u: Block)
    requires Flows(preds, defs, a, b) && b !in defs && Flows(preds, defs, b, u)
    ensures Flows(preds, defs, a, u)
  {
    var x: Block :| Edge(preds, x, b) && Clear(preds, defs, a, x);
    var y: Block :| Edge(preds, y, u) && Clear(preds, defs, b, y);
    EdgeClear(preds, defs, x, b);
    ClearOn(preds, defs, a, x, b);
    ClearOn(preds, defs, a, b, y);
  }

  lemma FlowsLeads(preds: Preds, defs: set<Block>, a: Block, u: Block)
    requires Flows(preds, defs, a, u)
    ensures Leads(preds, a, u)
  {
    var x: Block :| Edge(preds, x, u) && Clear(preds, defs, a, x);
    ClearFewer(preds, defs, {}, a, x);
    EdgeClear(preds, {}, x, u);
    ClearOn(preds, {}, a, x, u);
  }

  lemma ReachesFlows(preds: Preds, defs: set<Block>, d: Block, u: Block)
    ensures Reaches(preds, defs, d, u) <==> d in defs && Flows(preds, defs, d, u)
  {
    if Reaches(preds, defs, d, u) {
      var y: Block :| Edge(preds, y, u) && LiveOut(preds, defs, d, y);
      assert Clear(preds, defs, d, y);
    }
    if d in defs && Flows(preds, defs, d, u) {
      var y: Block :| Edge(preds, y, u) && Clear(preds, defs, d, y);
      assert LiveOut(preds, defs, d, y);
    }
  }

  /** The definition made by block `d` is live on leaving block `b`. */
  ghost predicate LiveOut(preds: Preds, defs: set<Block>, d: Block, b: Block) {
    d in defs && exists path: seq<Block> :: Joins(preds, defs, path, d, b)
  }

  /** Block `d` defines, and some path of at least one edge leads from `d` to `u` with no other definition
      strictly in between. */
  ghost predicate Reaches(preds: Preds, defs: set<Block>, d: Block, u: Block) {
    exists p: Block :: Edge(preds, p, u) && LiveOut(preds, defs, d, p)
  }

  /** Every path from the entry to `u` comes through `d`. */
  ghost predicate Dominates(preds: Preds, d: Block, u: Block) {
    forall path: seq<Block> :: Joins(preds, {}, path, 0, u) ==> d in path
  }

  /** What a finished backward walk has seen: with every block that does not define, all its predecessors. */
  ghost predicate ClosedBackwards(preds: Preds, defs: set<Block>, visited: set<Block>) {
    forall w: Block, p: Block :: w in visited && w !in defs && Edge(preds, p, w) ==> p in visited
  }

  /** Completeness of a backward walk: it sees the first block of every definition-free path into it. */
  lemma {:induction false} WalkSeesPathStart(preds: Preds, defs: set<Block>, visited: set<Block>, path: seq<Block>)
    requires ClosedBackwards(preds, defs, visited)
    requires DefFreePath(preds, defs, path) && Last(path) in visited
    ensures path[0] in visited
    decreases |path|
  {
    if |path| > 1 {
      assert Edge(preds, path[|path| - 2], path[|path| - 1]);
      WalkSeesPathStart(preds, defs, visited, Front(path));
    }
  }

  lemma WalkSeesLiveOut(preds: Preds, defs: set<Block>, visited: set<Block>, d: Block, b: Block)
    requires ClosedBackwards(preds, defs, visited)
    requires b in visited && LiveOut(preds, defs, d, b)
    ensures d in visited
  {
    var path: seq<Block> :| Joins(preds, defs, path, d, b);
    WalkSeesPathStart(preds, defs, visited, path);
  }

  /** Soundness of a backward walk: stepping from a block that does not define to a predecessor keeps a
      definition-free path to the start of the walk. */
  lemma StepBack(preds: Preds, defs: set<Block>, path: seq<Block>, w: Block, p: Block, start: Block)
    requires Joins(preds, defs, path, w, start)
    requires w !in defs && Edge(preds, p, w)
    ensures Joins(preds, defs, [p] + path, p, start)
  {
    var longer := [p] + path;
    forall i | 0 < i < |longer|
      ensures longer[i] !in defs && Edge(preds, longer[i - 1], longer[i])
    {
      if i > 1 {
        assert longer[i] == path[i - 1] && longer[i - 1] == path[i - 2];
      }
    }
  }
}
