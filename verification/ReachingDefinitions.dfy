/** Per-block register definitions, and the backward walk that finds the definitions reaching a block. */
module ReachingDefinitions {
  import opened Wrappers
  import opened ControlFlow

  type Reg = nat

  /** A value of the raised function: made by an instruction of a raised block, or a function argument. */
  datatype Value = Inst(block: Block, id: nat) | Arg(reg: Reg)

  /** Register definitions by register and block; a `None` entry belongs to a block that is not raised yet. */
  type DefMap = map<(Reg, Block), Option<Value>>

  datatype BlockDef = BlockDef(block: Option<Block>, value: Option<Value>)

  /** What is known about the definition of `r` in block `b`: which block defines it, and its value. */
  function InBlock(args: set<Reg>, defs: DefMap, r: Reg, b: Block): BlockDef {
    var entry := if (r, b) in defs then BlockDef(Some(b), defs[(r, b)]) else BlockDef(None, None);
    if entry.value.None? && b == 0 && r in args then BlockDef(Some(0), Some(Arg(r))) else entry
  }

  predicate Defines(args: set<Reg>, defs: DefMap, r: Reg, b: Block) {
    (r, b) in defs || (b == 0 && r in args)
  }

  /** The blocks that define `r`. */
  ghost function DefBlocks(args: set<Reg>, defs: DefMap, r: Reg, blocks: nat): set<Block> {
    set b: Block | b < blocks && Defines(args, defs, r, b)
  }

  type ReachingDef = (Block, Option<Value>)

  ghost function SetOf<T>(s: seq<T>): set<T> {
    set x | x in s
  }

  /** Definitions in strictly increasing block order: sorted and without duplicates. */
  ghost predicate Ascending(rds: seq<ReachingDef>) {
    forall i, j :: 0 <= i < j < |rds| ==> rds[i].0 < rds[j].0
  }

  /** Inserts a definition into a list in ascending order unless it is there already. */
  function InsertUnique(rd: ReachingDef, rds: seq<ReachingDef>): (r: seq<ReachingDef>)
    requires Ascending(rds)
    requires forall x :: x in rds && x.0 == rd.0 ==> x == rd
    ensures Ascending(r)
    ensures forall x :: x in r <==> x == rd || x in rds
  {
    if |rds| == 0 || rd.0 < rds[0].0 then [rd] + rds
    else if rd == rds[0] then rds
    else
      var tail := InsertUnique(rd, rds[1..]);
      assert rds[0] in rds;
      assert forall x :: x in rds[1..] ==> rds[0].0 < x.0;
      assert forall x :: x in tail ==> rds[0].0 < x.0;
      assert forall i :: 0 <= i < |tail| ==> tail[i] in tail;
      [rds[0]] + tail
  }

  /** std::sort followed by std::unique and erase. */
  function SortUnique(rds: seq<ReachingDef>): (r: seq<ReachingDef>)
    requires forall x, y :: x in rds && y in rds && x.0 == y.0 ==> x == y
    ensures Ascending(r)
    ensures forall x :: x in r <==> x in rds
  {
    if rds == [] then [] else
      var tail := SortUnique(rds[1..]);
      assert forall x :: x in rds <==> x == rds[0] || x in rds[1..];
      InsertUnique(rds[0], tail)
  }

  ghost predicate Found(found: seq<ReachingDef>, b: Block) {
    exists x :: x in found && x.0 == b
  }

  function BlocksOf(found: seq<ReachingDef>): set<Block> {
    set x | x in found :: x.0
  }

  /** A block from which a definition-free path leads to `start`. */
  ghost predicate LeadsTo(preds: Preds, defs: set<Block>, b: Block, start: Block) {
    b < |preds| && exists path: seq<Block> :: Joins(preds, defs, path, b, start)
  }

  ghost predicate SomeLiveOut(preds: Preds, defs: set<Block>, b: Block) {
    exists d :: LiveOut(preds, defs, d, b)
  }

  /** Every predecessor of `b` has a definition that is live on leaving it. */
  ghost predicate EveryPredDefines(preds: Preds, defs: set<Block>, b: Block) {
    forall p: Block :: Edge(preds, p, b) ==> SomeLiveOut(preds, defs, p)
  }

  /** The definitions of `r` that reach block `b`, from block `d` on. */
  ghost function ReachingFrom(preds: Preds, args: set<Reg>, defs: DefMap, r: Reg, b: Block,
                              d: Block): (rds: seq<ReachingDef>)
    ensures Ascending(rds)
    ensures forall x :: x in rds <==> d <= x.0 && Reaches(preds, DefBlocks(args, defs, r, |preds|), x.0, b)
                                      && x.1 == InBlock(args, defs, r, x.0).value
    decreases |preds| - d
  {
    if d >= |preds| then [] else
      var rest := ReachingFrom(preds, args, defs, r, b, d + 1);
      if Reaches(preds, DefBlocks(args, defs, r, |preds|), d, b) then
        assert forall i :: 0 <= i < |rest| ==> rest[i] in rest;
        [(d, InBlock(args, defs, r, d).value)] + rest
      else rest
  }

  /** The definitions of `r` that reach block `b`: the one in `b` itself if its value is known. With `allPreds` there
      are none unless every predecessor has one that is live on leaving it. */
  ghost function ReachingDefs(preds: Preds, args: set<Reg>, defs: DefMap, r: Reg, b: Block,
                              allPreds: bool): seq<ReachingDef> {
    if InBlock(args, defs, r, b).value.Some? then [(b, InBlock(args, defs, r, b).value)]
    else if allPreds && !EveryPredDefines(preds, DefBlocks(args, defs, r, |preds|), b) then []
    else ReachingFrom(preds, args, defs, r, b, 0)
  }

  /** The blocks from which a path leads to block `b` without any definition of `r` on it. */
  ghost function Through(preds: Preds, args: set<Reg>, defs: DefMap, r: Reg, b: Block): set<Block> {
    var defBlocks := DefBlocks(args, defs, r, |preds|);
    set w: Block | w < |preds| && w !in defBlocks && exists x: Block :: Edge(preds, x, b)
                                                                        && LeadsTo(preds, defBlocks, w, x)
  }

  /** All paths into block `b` come through these blocks, up to the definitions that reach it. */
  lemma ThroughCloses(preds: Preds, args: set<Reg>, defs: DefMap, r: Reg, b: Block)
    requires ValidCfg(preds)
    ensures var found := ReachingFrom(preds, args, defs, r, b, 0);
            var through := Through(preds, args, defs, r, b);
            && BlocksOf(found) !! through
            && (forall x: Block :: Edge(preds, x, b) ==> x in BlocksOf(found) || x in through)
            && (forall w: Block, x: Block :: w in through && Edge(preds, x, w) ==> x in BlocksOf(found) || x in through)
  {
    var defBlocks := DefBlocks(args, defs, r, |preds|);
    var found := ReachingFrom(preds, args, defs, r, b, 0);
    var through := Through(preds, args, defs, r, b);
    forall d: Block
      ensures d in BlocksOf(found) <==> Reaches(preds, defBlocks, d, b)
    {
      if Reaches(preds, defBlocks, d, b) {
        assert (d, InBlock(args, defs, r, d).value) in found;
      }
    }
    forall x: Block | Edge(preds, x, b)
      ensures x in BlocksOf(found) || x in through
    {
      assert Joins(preds, defBlocks, [x], x, x);
      assert x in defBlocks ==> LiveOut(preds, defBlocks, x, x);
      assert LeadsTo(preds, defBlocks, x, x);
    }
    forall w: Block, x: Block | w in through && Edge(preds, x, w)
      ensures x in BlocksOf(found) || x in through
    {
      var y: Block :| Edge(preds, y, b) && LeadsTo(preds, defBlocks, w, y);
      var path: seq<Block> :| Joins(preds, defBlocks, path, w, y);
      StepBack(preds, defBlocks, path, w, x, y);
      assert x in defBlocks ==> LiveOut(preds, defBlocks, x, y);
      assert LeadsTo(preds, defBlocks, x, y);
    }
  }

  lemma Inhabited<T>(s: seq<T>)
    ensures s != [] <==> exists x :: x in s
  {
    if s != [] {
      assert s[0] in s;
    }
  }

  /** Ascending lists are determined by what is in them. */
  lemma {:induction false} AscendingUnique(a: seq<ReachingDef>, b: seq<ReachingDef>)
    requires Ascending(a) && Ascending(b)
    requires forall x :: x in a <==> x in b
    ensures a == b
  {
    Inhabited(a);
    Inhabited(b);
    if a != [] {
      assert b[0] in b && b[0] in a && a[0] in b;
      var i :| 0 <= i < |b| && b[i] == a[0];
      var j :| 0 <= j < |a| && a[j] == b[0];
      assert a[0] == b[0];
      forall x
        ensures x in a[1..] <==> x in b[1..]
      {
        assert x in a <==> x == a[0] || x in a[1..];
        assert x in b <==> x == b[0] || x in b[1..];
        assert forall k :: 0 < k < |a| ==> a[k] != a[0];
        assert forall k :: 0 < k < |b| ==> b[k] != b[0];
      }
      AscendingUnique(a[1..], b[1..]);
    }
  }

  lemma FoundAppend(a: seq<ReachingDef>, b: seq<ReachingDef>, d: Block)
    ensures Found(a + b, d) <==> Found(a, d) || Found(b, d)
  {
    if Found(a, d) {
      var x :| x in a && x.0 == d;
      assert x in a + b;
    }
    if Found(b, d) {
      var x :| x in b && x.0 == d;
      assert x in a + b;
    }
  }

  /** One walk of the search, part of the way: the blocks `seen`, the blocks still in `workList`, and the answer
      so far. */
  ghost predicate Walk(preds: Preds, args: set<Reg>, defs: DefMap, r: Reg, start: Block,
                       seen: set<Block>, workList: seq<Block>, found: seq<ReachingDef>)
  {
    var defBlocks := DefBlocks(args, defs, r, |preds|);
    && (forall b: Block :: b in workList ==> LeadsTo(preds, defBlocks, b, start))
    && (forall x :: x in found ==>
                    x.0 in seen && LiveOut(preds, defBlocks, x.0, start) && x.1 == InBlock(args, defs, r, x.0).value)
    && (forall b :: b in seen && b in defBlocks ==> Found(found, b))
    && (start in workList || start in seen)
    && (forall w: Block, p: Block :: w in seen && w !in defBlocks && Edge(preds, p, w) ==> p in seen || p in workList)
  }

  lemma WalkBegins(preds: Preds, args: set<Reg>, defs: DefMap, r: Reg, start: Block)
    requires start < |preds|
    ensures Walk(preds, args, defs, r, start, {}, [start], [])
  {
    assert Joins(preds, DefBlocks(args, defs, r, |preds|), [start], start, start);
  }

  lemma WalkMeetsDefinition(preds: Preds, args: set<Reg>, defs: DefMap, r: Reg, start: Block,
                            seen: set<Block>, workList: seq<Block>, found: seq<ReachingDef>, b: Block)
    requires Walk(preds, args, defs, r, start, seen, workList + [b], found)
    requires b !in seen && b in DefBlocks(args, defs, r, |preds|)
    ensures Walk(preds, args, defs, r, start, seen + {b}, workList, found + [(b, InBlock(args, defs, r, b).value)])
  {
    var hit := (b, InBlock(args, defs, r, b).value);
    assert b in workList + [b];
    forall d: Block
      ensures Found(found + [hit], d) <==> Found(found, d) || d == b
    {
      FoundAppend(found, [hit], d);
      assert [hit][0] == hit;
    }
  }

  lemma WalkGoesThrough(preds: Preds, args: set<Reg>, defs: DefMap, r: Reg, start: Block,
                        seen: set<Block>, workList: seq<Block>, found: seq<ReachingDef>, b: Block, longer: seq<Block>)
    requires ValidCfg(preds)
    requires Walk(preds, args, defs, r, start, seen, workList + [b], found)
    requires b !in seen && b !in DefBlocks(args, defs, r, |preds|)
    requires forall x :: x in longer ==> x in workList || Edge(preds, x, b)
    requires forall x :: x in workList ==> x in longer
    requires forall p: Block :: Edge(preds, p, b) ==> p in seen + {b} || p in longer
    ensures Walk(preds, args, defs, r, start, seen + {b}, longer, found)
  {
    var defBlocks := DefBlocks(args, defs, r, |preds|);
    assert b in workList + [b];
    forall x: Block | x in longer
      ensures LeadsTo(preds, defBlocks, x, start)
    {
      if x in workList {
        assert x in workList + [b];
      } else {
        var path: seq<Block> :| Joins(preds, defBlocks, path, b, start);
        StepBack(preds, defBlocks, path, b, x, start);
      }
    }
    assert forall p :: p in workList + [b] ==> p in workList || p == b;
  }

  lemma WalkSkips(preds: Preds, args: set<Reg>, defs: DefMap, r: Reg, start: Block,
                  seen: set<Block>, workList: seq<Block>, found: seq<ReachingDef>, b: Block)
    requires Walk(preds, args, defs, r, start, seen, workList + [b], found)
    requires b in seen
    ensures Walk(preds, args, defs, r, start, seen, workList, found)
  {
    assert forall p :: p in workList + [b] <==> p in workList || p == b;
  }

  lemma WalkEnds(preds: Preds, args: set<Reg>, defs: DefMap, r: Reg, start: Block, seen: set<Block>,
                 found: seq<ReachingDef>)
    requires Walk(preds, args, defs, r, start, seen, [], found)
    ensures forall d: Block :: Found(found, d) <==> LiveOut(preds, DefBlocks(args, defs, r, |preds|), d, start)
  {
    var defBlocks := DefBlocks(args, defs, r, |preds|);
    assert ClosedBackwards(preds, defBlocks, seen);
    forall d: Block | LiveOut(preds, defBlocks, d, start)
      ensures Found(found, d)
    {
      WalkSeesLiveOut(preds, defBlocks, seen, d, start);
    }
  }
}
