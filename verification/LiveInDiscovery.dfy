/** Discovery of the registers that are live on entry to a function: a forward dataflow over the blocks in some
    order, in which every block looks at what its predecessors are known to define. */
module LiveInDiscovery {
  import opened Wrappers
  import opened ControlFlow
  import opened LiveInRegisters

  /** An instruction, by the registers it reads before it writes any, and the registers it writes. */
  datatype Inst = Inst(uses: seq<Reg>, defs: seq<Reg>)

  /** The families that are defined, each with the bytes of its last definition. */
  type Defined = map<Family, nat>

  // ----- definitions along paths

  function AfterDefs(m: Defined, defs: seq<Reg>): Defined {
    if defs == [] then m else
      var k := |defs| - 1;
      AfterDefs(m, defs[..k])[FamilyOf(defs[k]) := BytesOf(defs[k])]
  }

  function AfterInsts(m: Defined, insts: seq<Inst>): Defined {
    if insts == [] then m else
      var k := |insts| - 1;
      AfterDefs(AfterInsts(m, insts[..k]), insts[k].defs)
  }

  /** What a block itself defines. */
  function Local(insts: seq<Inst>): Defined {
    AfterInsts(map[], insts)
  }

  /** The blocks that define a family. */
  function DefBlocks(code: seq<seq<Inst>>, f: Family): set<Block> {
    set b: Block | 0 <= b < |code| && f in Local(code[b])
  }

  /** On leaving block `b`, a definition of the family by block `d` that is `bytes` wide is live. */
  ghost predicate DefLiveOut(preds: Preds, code: seq<seq<Inst>>, f: Family, d: Block, b: Block, bytes: nat) {
    d < |code| && f in Local(code[d]) && Local(code[d])[f] == bytes && LiveOut(preds, DefBlocks(code, f), d, b)
  }

  lemma {:induction false} AfterDefsIs(m: Defined, defs: seq<Reg>, f: Family)
    ensures f in AfterDefs(m, defs) <==> f in m || f in AfterDefs(map[], defs)
    ensures f in AfterDefs(map[], defs) ==> AfterDefs(m, defs)[f] == AfterDefs(map[], defs)[f]
    ensures f in m && f !in AfterDefs(map[], defs) ==> AfterDefs(m, defs)[f] == m[f]
  {
    if defs != [] {
      AfterDefsIs(m, defs[..|defs| - 1], f);
    }
  }

  /** A block's own definitions override what comes in. */
  lemma {:induction false} AfterInstsIs(m: Defined, insts: seq<Inst>, f: Family)
    ensures f in AfterInsts(m, insts) <==> f in m || f in Local(insts)
    ensures f in Local(insts) ==> f in AfterInsts(m, insts) && AfterInsts(m, insts)[f] == Local(insts)[f]
    ensures f in m && f !in Local(insts) ==> f in AfterInsts(m, insts) && AfterInsts(m, insts)[f] == m[f]
  {
    if insts != [] {
      var k := |insts| - 1;
      AfterInstsIs(m, insts[..k], f);
      AfterDefsIs(AfterInsts(m, insts[..k]), insts[k].defs, f);
      AfterDefsIs(AfterInsts(map[], insts[..k]), insts[k].defs, f);
    }
  }

  /** Operand `k` of instruction `i` is the last definition of the family in the block. */
  predicate LastDef(insts: seq<Inst>, f: Family, i: nat, k: nat) {
    && i < |insts| && k < |insts[i].defs| && FamilyOf(insts[i].defs[k]) == f
    && (forall x: nat :: k < x < |insts[i].defs| ==> FamilyOf(insts[i].defs[x]) != f)
    && (forall j: nat, x: nat :: i < j < |insts| && x < |insts[j].defs| ==> FamilyOf(insts[j].defs[x]) != f)
  }

  lemma {:induction false} AfterNoDef(m: Defined, defs: seq<Reg>, f: Family)
    requires forall x: nat :: x < |defs| ==> FamilyOf(defs[x]) != f
    ensures f in AfterDefs(m, defs) <==> f in m
    ensures f in m ==> AfterDefs(m, defs)[f] == m[f]
  {
    if defs != [] {
      AfterNoDef(m, defs[..|defs| - 1], f);
    }
  }

  lemma {:induction false} AfterLastDef(m: Defined, defs: seq<Reg>, f: Family, k: nat)
    requires k < |defs| && FamilyOf(defs[k]) == f && forall x: nat :: k < x < |defs| ==> FamilyOf(defs[x]) != f
    ensures f in AfterDefs(m, defs) && AfterDefs(m, defs)[f] == BytesOf(defs[k])
  {
    if k < |defs| - 1 {
      AfterLastDef(m, defs[..|defs| - 1], f, k);
    }
  }

  /** A block defines the families its instructions write, and the last definition counts. */
  lemma {:induction false} LocalIsLast(insts: seq<Inst>, f: Family, i: nat, k: nat)
    requires LastDef(insts, f, i, k)
    ensures f in Local(insts) && Local(insts)[f] == BytesOf(insts[i].defs[k])
  {
    var n := |insts| - 1;
    if i < n {
      assert LastDef(insts[..n], f, i, k);
      LocalIsLast(insts[..n], f, i, k);
      AfterNoDef(Local(insts[..n]), insts[n].defs, f);
    } else {
      AfterLastDef(Local(insts[..n]), insts[n].defs, f, k);
    }
  }

  /** A block that defines a family has a last definition of it. */
  lemma {:induction false} LocalHasLast(insts: seq<Inst>, f: Family) returns (i: nat, k: nat)
    requires f in Local(insts)
    ensures LastDef(insts, f, i, k)
  {
    i := |insts| - 1;
    var defs := insts[i].defs;
    if k': nat :| k' < |defs| && FamilyOf(defs[k']) == f {
      k := LastOf(defs, f, k');
    } else {
      AfterNoDef(Local(insts[..i]), defs, f);
      var n := i;
      i, k := LocalHasLast(insts[..n], f);
      assert forall j: nat :: i < j < n ==> insts[j] == insts[..n][j];
    }
  }

  lemma LastOf(defs: seq<Reg>, f: Family, k: nat) returns (last: nat)
    requires k < |defs| && FamilyOf(defs[k]) == f
    ensures last < |defs| && FamilyOf(defs[last]) == f && forall x: nat :: last < x < |defs| ==> FamilyOf(defs[x]) != f
    decreases |defs| - k
  {
    last := k;
    if x: nat :| k < x < |defs| && FamilyOf(defs[x]) == f {
      last := LastOf(defs, f, x);
    }
  }

  /** A definition is live on leaving a block if the block makes it, or does not define and it is live on leaving a
      predecessor. */
  lemma LiveOutStep(preds: Preds, defs: set<Block>, d: Block, p: Block, b: Block)
    requires LiveOut(preds, defs, d, p) && Edge(preds, p, b) && b !in defs
    ensures LiveOut(preds, defs, d, b)
  {
    var path: seq<Block> :| Joins(preds, defs, path, d, p);
    var longer := path + [b];
    assert Joins(preds, defs, longer, d, b);
  }

  lemma LiveOutHere(preds: Preds, defs: set<Block>, b: Block)
    requires b in defs
    ensures LiveOut(preds, defs, b, b)
  {
    assert Joins(preds, defs, [b], b, b);
  }

  // ----- what the recorded maps say

  /** Every recorded definition is live on leaving its block. */
  ghost predicate Sound(preds: Preds, code: seq<seq<Inst>>, recorded: map<Block, Defined>) {
    forall b: Block, f: Family :: b in recorded && f in recorded[b] ==> SoundAt(preds, code, f, b, recorded[b][f])
  }

  ghost predicate SoundAt(preds: Preds, code: seq<seq<Inst>>, f: Family, b: Block, bytes: nat) {
    exists d: Block :: DefLiveOut(preds, code, f, d, b, bytes)
  }

  /** Every definition that is live on leaving a recorded block is recorded, at least as wide. */
  ghost predicate Complete(preds: Preds, code: seq<seq<Inst>>, recorded: map<Block, Defined>) {
    forall b: Block, f: Family, d: Block, bytes: nat :: b in recorded && DefLiveOut(preds, code, f, d, b, bytes) ==>
      f in recorded[b] && recorded[b][f] >= bytes
  }

  /** The widest definitions among those of some blocks. */
  ghost predicate IsUnion(m: Defined, blocks: seq<Block>, recorded: map<Block, Defined>) {
    && (forall f: Family :: f in m ==> exists p: Block :: p in blocks && p in recorded && f in recorded[p]
                                                          && recorded[p][f] == m[f])
    && (forall f: Family, p: Block :: p in blocks && p in recorded && f in recorded[p] ==>
                                      f in m && m[f] >= recorded[p][f])
  }

  // ----- what is recorded after some visits

  /** The blocks of the path are visited in this order, with other visits in between. */
  predicate Subsequence(path: seq<Block>, visits: seq<Block>) {
    || path == []
    || (visits != [] && Subsequence(path, Front(visits)))
    || (visits != [] && Last(path) == Last(visits) && Subsequence(Front(path), Front(visits)))
  }

  /** The path carries what block `d` defines to the end of block `b`, and was visited along the way. Empty blocks are
      not visited. */
  ghost predicate Carried(preds: Preds, code: seq<seq<Inst>>, visits: seq<Block>, defs: set<Block>, path: seq<Block>,
                          d: Block, b: Block) {
    && Joins(preds, defs, path, d, b)
    && Subsequence(path, visits)
    && forall x: Block :: x in path ==> x < |code| && code[x] != []
  }

  /** After the visits, a definition of the family by block `d` that is `bytes` wide is known to be live on leaving
      block `b`. */
  ghost predicate SeenLive(preds: Preds, code: seq<seq<Inst>>, visits: seq<Block>, f: Family, d: Block, b: Block,
                           bytes: nat) {
    && d < |code| && f in Local(code[d]) && Local(code[d])[f] == bytes
    && exists path: seq<Block> :: Carried(preds, code, visits, DefBlocks(code, f), path, d, b)
  }

  /** A visited block's record has exactly the families of which a definition was seen live, with the greatest width. */
  ghost predicate RecordedExact(preds: Preds, code: seq<seq<Inst>>, visits: seq<Block>, recorded: map<Block, Defined>) {
    && (forall b: Block :: b in recorded <==> b in visits && b < |code| && code[b] != [])
    && (forall b: Block, f: Family :: b in recorded && f in recorded[b] ==>
                                      exists d: Block :: SeenLive(preds, code, visits, f, d, b, recorded[b][f]))
    && (forall b: Block, f: Family, d: Block, bytes: nat :: b in recorded
                                                            && SeenLive(preds, code, visits, f, d, b, bytes) ==>
                                                            f in recorded[b] && recorded[b][f] >= bytes)
  }

  lemma {:induction false} SubsequenceFront(path: seq<Block>, visits: seq<Block>)
    requires Subsequence(path, visits) && path != []
    ensures Subsequence(Front(path), visits)
    decreases |visits|
  {
    if Subsequence(path, Front(visits)) {
      SubsequenceFront(path, Front(visits));
    }
  }

  lemma SubsequenceMore(path: seq<Block>, visits: seq<Block>, b: Block)
    ensures Front(visits + [b]) == visits
    ensures Subsequence(path, visits) ==> Subsequence(path, visits + [b])
    ensures Subsequence(path, visits) ==> Subsequence(path + [b], visits + [b])
  {
    assert Front(path + [b]) == path;
  }

  lemma {:induction false} SubsequenceMember(path: seq<Block>, visits: seq<Block>)
    requires Subsequence(path, visits) && path != []
    ensures Last(path) in visits
    decreases |visits|
  {
    if Subsequence(path, Front(visits)) {
      SubsequenceMember(path, Front(visits));
    }
  }

  lemma SeenStays(preds: Preds, code: seq<seq<Inst>>, visits: seq<Block>, f: Family, d: Block, c: Block, bytes: nat,
                  b: Block)
    requires SeenLive(preds, code, visits, f, d, c, bytes)
    ensures SeenLive(preds, code, visits + [b], f, d, c, bytes)
  {
    var path: seq<Block> :| Carried(preds, code, visits, DefBlocks(code, f), path, d, c);
    SubsequenceMore(path, visits, b);
    assert Carried(preds, code, visits + [b], DefBlocks(code, f), path, d, c);
  }

  lemma SeenHere(preds: Preds, code: seq<seq<Inst>>, visits: seq<Block>, f: Family, b: Block)
    requires b < |code| && code[b] != [] && f in Local(code[b])
    ensures SeenLive(preds, code, visits + [b], f, b, b, Local(code[b])[f])
  {
    var none: seq<Block> := [];
    SubsequenceMore(none, visits, b);
    assert none + [b] == [b];
    assert Carried(preds, code, visits + [b], DefBlocks(code, f), [b], b, b);
  }

  lemma SeenOn(preds: Preds, code: seq<seq<Inst>>, visits: seq<Block>, f: Family, d: Block, p: Block, bytes: nat,
               b: Block)
    requires SeenLive(preds, code, visits, f, d, p, bytes) && Edge(preds, p, b)
    requires b < |code| && code[b] != [] && f !in Local(code[b])
    ensures SeenLive(preds, code, visits + [b], f, d, b, bytes)
  {
    var path: seq<Block> :| Carried(preds, code, visits, DefBlocks(code, f), path, d, p);
    SubsequenceMore(path, visits, b);
    assert Carried(preds, code, visits + [b], DefBlocks(code, f), path + [b], d, b);
  }

  /** What is seen live after the visit of `b` was made there, or seen before on leaving a predecessor. */
  lemma SeenFrom(preds: Preds, code: seq<seq<Inst>>, visits: seq<Block>, f: Family, d: Block, bytes: nat, b: Block)
    requires SeenLive(preds, code, visits + [b], f, d, b, bytes)
    ensures b < |code|
    ensures d == b || (f !in Local(code[b]) && exists p: Block :: Edge(preds, p, b)
                                                                  && SeenLive(preds, code, visits, f, d, p, bytes))
  {
    var defs := DefBlocks(code, f);
    var path: seq<Block> :| Carried(preds, code, visits + [b], defs, path, d, b);
    SubsequenceMore(path, visits, b);
    if |path| > 1 {
      var p := path[|path| - 2];
      if Subsequence(path, visits) {
        SubsequenceFront(path, visits);
      }
      assert Edge(preds, p, b) && Last(Front(path)) == p;
      assert forall x :: x in Front(path) ==> x in path;
      assert b in path && b !in defs;
      assert Carried(preds, code, visits, defs, Front(path), d, p);
    }
  }

  /** Another block's record is of earlier visits. */
  lemma SeenElsewhere(preds: Preds, code: seq<seq<Inst>>, visits: seq<Block>, f: Family, d: Block, c: Block, bytes: nat,
                      b: Block)
    requires SeenLive(preds, code, visits + [b], f, d, c, bytes) && c != b
    ensures SeenLive(preds, code, visits, f, d, c, bytes)
  {
    var path: seq<Block> :| Carried(preds, code, visits + [b], DefBlocks(code, f), path, d, c);
    SubsequenceMore(path, visits, b);
    assert Carried(preds, code, visits, DefBlocks(code, f), path, d, c);
  }

  lemma VisitRecords(preds: Preds, code: seq<seq<Inst>>, visits: seq<Block>, recorded: map<Block, Defined>, b: Block,
                     m: Defined)
    requires |preds| == |code| && b < |code| && code[b] != []
    requires RecordedExact(preds, code, visits, recorded) && IsUnion(m, preds[b], recorded)
    ensures RecordedExact(preds, code, visits + [b], recorded[b := AfterInsts(m, code[b])])
  {
    hide SeenLive, IsUnion;
    var after := AfterInsts(m, code[b]);
    var recorded' := recorded[b := after];
    forall c: Block, f: Family | c in recorded' && f in recorded'[c]
      ensures exists d: Block :: SeenLive(preds, code, visits + [b], f, d, c, recorded'[c][f])
    {
      if c == b {
        RecordIsSeen(preds, code, visits, recorded, b, m, f);
      } else {
        var d: Block :| SeenLive(preds, code, visits, f, d, c, recorded[c][f]);
        SeenStays(preds, code, visits, f, d, c, recorded[c][f], b);
      }
    }
    forall c: Block, f: Family, d: Block, bytes: nat | c in recorded'
        && SeenLive(preds, code, visits + [b], f, d, c, bytes)
      ensures f in recorded'[c] && recorded'[c][f] >= bytes
    {
      if c == b {
        SeenIsRecorded(preds, code, visits, recorded, b, m, f, d, bytes);
      } else {
        SeenElsewhere(preds, code, visits, f, d, c, bytes, b);
      }
    }
  }

  lemma RecordIsSeen(preds: Preds, code: seq<seq<Inst>>, visits: seq<Block>, recorded: map<Block, Defined>, b: Block,
                     m: Defined, f: Family)
    requires |preds| == |code| && b < |code| && code[b] != []
    requires RecordedExact(preds, code, visits, recorded) && IsUnion(m, preds[b], recorded)
             && f in AfterInsts(m, code[b])
    ensures exists d: Block :: SeenLive(preds, code, visits + [b], f, d, b, AfterInsts(m, code[b])[f])
  {
    hide SeenLive;
    AfterInstsIs(m, code[b], f);
    if f in Local(code[b]) {
      SeenHere(preds, code, visits, f, b);
    } else {
      var p: Block :| p in preds[b] && p in recorded && f in recorded[p] && recorded[p][f] == m[f];
      var d: Block :| SeenLive(preds, code, visits, f, d, p, m[f]);
      assert Edge(preds, p, b);
      SeenOn(preds, code, visits, f, d, p, m[f], b);
    }
  }

  lemma SeenPredecessor(preds: Preds, code: seq<seq<Inst>>, visits: seq<Block>, recorded: map<Block, Defined>, p: Block,
                        f: Family, d: Block, bytes: nat)
    requires RecordedExact(preds, code, visits, recorded) && SeenLive(preds, code, visits, f, d, p, bytes)
    ensures p in recorded && f in recorded[p] && recorded[p][f] >= bytes
  {
    var path: seq<Block> :| Carried(preds, code, visits, DefBlocks(code, f), path, d, p);
    SubsequenceMember(path, visits);
    assert p in path;
  }

  lemma SeenIsRecorded(preds: Preds, code: seq<seq<Inst>>, visits: seq<Block>, recorded: map<Block, Defined>, b: Block,
                       m: Defined, f: Family, d: Block, bytes: nat)
    requires |preds| == |code| && b < |code| && code[b] != []
    requires RecordedExact(preds, code, visits, recorded) && IsUnion(m, preds[b], recorded)
    requires SeenLive(preds, code, visits + [b], f, d, b, bytes)
    ensures f in AfterInsts(m, code[b]) && AfterInsts(m, code[b])[f] >= bytes
  {
    AfterInstsIs(m, code[b], f);
    assert d < |code| && f in Local(code[d]) && Local(code[d])[f] == bytes;
    hide SeenLive, RecordedExact;
    SeenFrom(preds, code, visits, f, d, bytes, b);
    if d != b {
      var p: Block :| Edge(preds, p, b) && SeenLive(preds, code, visits, f, d, p, bytes);
      SeenPredecessor(preds, code, visits, recorded, p, f, d, bytes);
    }
  }

  // ----- uses

  /** Instruction `i` of block `b` reads a register none of whose family is defined on any path to it. */
  ghost predicate FreeUse(preds: Preds, code: seq<seq<Inst>>, b: Block, i: nat, r: Reg) {
    && b < |code| && i < |code[b]| && r in code[b][i].uses
    && FamilyOf(r) !in Local(code[b][..i])
    && forall d: Block :: !Reaches(preds, DefBlocks(code, FamilyOf(r)), d, b)
  }

  ghost predicate ValidCode(code: seq<seq<Inst>>) {
    forall b: Block, i: nat, r: Reg :: b < |code| && i < |code[b]| && r in code[b][i].uses ==> IsReg(r)
  }

  /** Every free use in the blocks was added. */
  ghost predicate FreeAdded(preds: Preds, code: seq<seq<Inst>>, blocks: set<Block>, added: set<Reg>) {
    forall b: Block, i: nat, r: Reg :: b in blocks && FreeUse(preds, code, b, i, r) ==> r in added
  }

  /** Every register that was added has a free use. */
  ghost predicate AddedFree(preds: Preds, code: seq<seq<Inst>>, added: set<Reg>) {
    forall r: Reg :: r in added ==> exists b: Block, i: nat :: FreeUse(preds, code, b, i, r)
  }

  /** The uses that the visit of a block adds. */
  ghost predicate VisitAdds(code: seq<seq<Inst>>, b: Block, m: Defined, before: set<Reg>, added: set<Reg>) {
    && b < |code| && before <= added
    && (forall i: nat, r: Reg ::
          i < |code[b]| && r in code[b][i].uses && FamilyOf(r) !in AfterInsts(m, code[b][..i]) ==> r in added)
    && (forall r: Reg :: r in added && r !in before ==>
          exists i: nat :: i < |code[b]| && r in code[b][i].uses && FamilyOf(r) !in AfterInsts(m, code[b][..i]))
  }

  /** When block `b` is visited after the visits, its instruction `i` reads a register none of whose family is defined
      before in the block or seen live on leaving a predecessor. */
  ghost predicate FreeNow(preds: Preds, code: seq<seq<Inst>>, visits: seq<Block>, b: Block, i: nat, r: Reg) {
    && b < |code| && i < |code[b]| && r in code[b][i].uses
    && FamilyOf(r) !in Local(code[b][..i])
    && !Incoming(preds, code, visits, b, FamilyOf(r))
  }

  /** Some definition of the family is known to come into block `b`. */
  ghost predicate Incoming(preds: Preds, code: seq<seq<Inst>>, visits: seq<Block>, b: Block, f: Family) {
    exists p: Block, d: Block, bytes: nat :: Edge(preds, p, b) && SeenLive(preds, code, visits, f, d, p, bytes)
  }

  /** A register was added exactly if at some visit it was read freely. */
  ghost predicate AddedExact(preds: Preds, code: seq<seq<Inst>>, visits: seq<Block>, added: set<Reg>) {
    forall r: Reg :: r in added <==> AddedBy(preds, code, visits, r)
  }

  ghost predicate AddedBy(preds: Preds, code: seq<seq<Inst>>, visits: seq<Block>, r: Reg) {
    exists n: nat, i: nat :: n < |visits| && FreeNow(preds, code, visits[..n], visits[n], i, r)
  }

  lemma AddedByMore(preds: Preds, code: seq<seq<Inst>>, visits: seq<Block>, b: Block, r: Reg)
    ensures AddedBy(preds, code, visits + [b], r) <==>
            AddedBy(preds, code, visits, r) || exists i: nat :: FreeNow(preds, code, visits, b, i, r)
  {
    hide FreeNow;
    var more := visits + [b];
    assert forall n: nat :: n <= |visits| ==> more[..n] == visits[..n];
    assert visits[..|visits|] == visits;
    if i: nat :| FreeNow(preds, code, visits, b, i, r) {
      assert FreeNow(preds, code, more[..|visits|], more[|visits|], i, r);
    }
    if n: nat, i: nat :| n < |visits| && FreeNow(preds, code, visits[..n], visits[n], i, r) {
      assert FreeNow(preds, code, more[..n], more[n], i, r);
    }
  }

  /** What is merged has the families of which a definition is known to come in. */
  lemma MergedIncoming(preds: Preds, code: seq<seq<Inst>>, visits: seq<Block>, recorded: map<Block, Defined>, b: Block,
                       m: Defined, f: Family)
    requires |preds| == |code| && b < |code|
    requires RecordedExact(preds, code, visits, recorded) && IsUnion(m, preds[b], recorded)
    ensures f in m <==> Incoming(preds, code, visits, b, f)
  {
    hide SeenLive;
    if f in m {
      var p: Block :| p in preds[b] && p in recorded && f in recorded[p];
      var d: Block :| SeenLive(preds, code, visits, f, d, p, recorded[p][f]);
      assert Edge(preds, p, b);
    }
    if p: Block, d: Block, bytes: nat :| Edge(preds, p, b) && SeenLive(preds, code, visits, f, d, p, bytes) {
      SeenPredecessor(preds, code, visits, recorded, p, f, d, bytes);
    }
  }

  lemma VisitAdded(preds: Preds, code: seq<seq<Inst>>, visits: seq<Block>, recorded: map<Block, Defined>, b: Block,
                   m: Defined, before: set<Reg>, added: set<Reg>)
    requires |preds| == |code| && b < |code|
    requires RecordedExact(preds, code, visits, recorded) && IsUnion(m, preds[b], recorded)
    requires VisitAdds(code, b, m, before, added) && AddedExact(preds, code, visits, before)
    ensures AddedExact(preds, code, visits + [b], added)
  {
    hide RecordedExact, IsUnion, Local, Incoming, AddedBy;
    forall r: Reg
      ensures r in added <==> AddedBy(preds, code, visits + [b], r)
    {
      AddedByMore(preds, code, visits, b, r);
      MergedIncoming(preds, code, visits, recorded, b, m, FamilyOf(r));
      forall i: nat | i < |code[b]|
        ensures FreeNow(preds, code, visits, b, i, r) <==>
                r in code[b][i].uses && FamilyOf(r) !in AfterInsts(m, code[b][..i])
      {
        AfterInstsIs(m, code[b][..i], FamilyOf(r));
      }
      assert AddedBy(preds, code, visits, r) <==> r in before;
      if r in added && r !in before {
        var i: nat :| i < |code[b]| && r in code[b][i].uses && FamilyOf(r) !in AfterInsts(m, code[b][..i]);
        assert FreeNow(preds, code, visits, b, i, r);
      }
      if i: nat :| FreeNow(preds, code, visits, b, i, r) {
        assert i < |code[b]| && r in code[b][i].uses;
      }
    }
  }

  // ----- consequences for paths, visited or not

  /** Every recorded definition is live on leaving its block. */
  lemma ExactIsSound(preds: Preds, code: seq<seq<Inst>>, visits: seq<Block>, recorded: map<Block, Defined>)
    requires RecordedExact(preds, code, visits, recorded)
    ensures Sound(preds, code, recorded)
  {
    forall b: Block, f: Family | b in recorded && f in recorded[b]
      ensures SoundAt(preds, code, f, b, recorded[b][f])
    {
      var d: Block :| SeenLive(preds, code, visits, f, d, b, recorded[b][f]);
      SeenIsLive(preds, code, visits, f, d, b, recorded[b][f]);
    }
  }

  lemma SeenIsLive(preds: Preds, code: seq<seq<Inst>>, visits: seq<Block>, f: Family, d: Block, b: Block, bytes: nat)
    requires SeenLive(preds, code, visits, f, d, b, bytes)
    ensures DefLiveOut(preds, code, f, d, b, bytes)
  {
    var path: seq<Block> :| Carried(preds, code, visits, DefBlocks(code, f), path, d, b);
  }

  /** Every free use in the visited blocks was added. */
  lemma ExactIsFreeAdded(preds: Preds, code: seq<seq<Inst>>, visits: seq<Block>, added: set<Reg>)
    requires AddedExact(preds, code, visits, added)
    ensures FreeAdded(preds, code, Blocks(visits), added)
  {
    forall b: Block, i: nat, r: Reg | b in Blocks(visits) && FreeUse(preds, code, b, i, r)
      ensures r in added
    {
      var n: nat :| n < |visits| && visits[n] == b;
      if p: Block, d: Block, bytes: nat :|
           Edge(preds, p, b) && SeenLive(preds, code, visits[..n], FamilyOf(r), d, p, bytes) {
        SeenIsLive(preds, code, visits[..n], FamilyOf(r), d, p, bytes);
        assert Reaches(preds, DefBlocks(code, FamilyOf(r)), d, b);
      }
      assert FreeNow(preds, code, visits[..n], visits[n], i, r);
    }
  }

  lemma {:induction false} SubsequenceOfMore(path: seq<Block>, visits: seq<Block>, j: nat, k: nat)
    requires j <= k <= |visits| && Subsequence(path, visits[..j])
    ensures Subsequence(path, visits[..k])
    decreases k
  {
    if j < k {
      SubsequenceOfMore(path, visits, j, k - 1);
      SubsequenceMore(path, visits[..k - 1], visits[k - 1]);
      assert visits[..k] == visits[..k - 1] + [visits[k - 1]];
    }
  }

  /** In topological order every path into a block is visited along the way. */
  lemma {:induction false} TopologicalVisits(preds: Preds, code: seq<seq<Inst>>, order: seq<Block>, path: seq<Block>,
                                             k: nat)
    requires Topological(preds, code, order) && k < |order| && path != [] && Last(path) == order[k]
    requires forall i :: 0 < i < |path| ==> Edge(preds, path[i - 1], path[i])
    ensures Subsequence(path, order[..k + 1]) && forall x: Block :: x in path ==> x < |code| && code[x] != []
    decreases |path|
  {
    assert order[..k + 1] == order[..k] + [order[k]];
    SubsequenceMore(Front(path), order[..k], order[k]);
    assert path == Front(path) + [order[k]];
    if |path| > 1 {
      var p := Last(Front(path));
      assert Edge(preds, path[|path| - 2], path[|path| - 1]);
      assert p in order[..k];
      var j: nat :| j < k && order[j] == p;
      TopologicalVisits(preds, code, order, Front(path), j);
      SubsequenceOfMore(Front(path), order, j + 1, k);
    }
  }

  lemma LiveIsSeen(preds: Preds, code: seq<seq<Inst>>, order: seq<Block>, k: nat, f: Family, d: Block, b: Block,
                   bytes: nat)
    requires Topological(preds, code, order) && k <= |order| && b in order[..k]
             && DefLiveOut(preds, code, f, d, b, bytes)
    ensures SeenLive(preds, code, order[..k], f, d, b, bytes)
  {
    var path: seq<Block> :| Joins(preds, DefBlocks(code, f), path, d, b);
    var j: nat :| j < k && order[j] == b;
    TopologicalVisits(preds, code, order, path, j);
    SubsequenceOfMore(path, order, j + 1, k);
    assert Carried(preds, code, order[..k], DefBlocks(code, f), path, d, b);
  }

  /** In topological order the record is complete, and only registers that are read freely are added. */
  lemma TopologicalIsComplete(preds: Preds, code: seq<seq<Inst>>, order: seq<Block>, recorded: map<Block, Defined>,
                              added: set<Reg>)
    requires Topological(preds, code, order)
    requires RecordedExact(preds, code, order, recorded) && AddedExact(preds, code, order, added)
    ensures Complete(preds, code, recorded) && AddedFree(preds, code, added) && recorded.Keys == Blocks(order)
  {
    hide SeenLive, DefLiveOut;
    assert order[..|order|] == order;
    forall b: Block, f: Family, d: Block, bytes: nat | b in recorded && DefLiveOut(preds, code, f, d, b, bytes)
      ensures f in recorded[b] && recorded[b][f] >= bytes
    {
      LiveIsSeen(preds, code, order, |order|, f, d, b, bytes);
    }
    forall r: Reg | r in added
      ensures exists b: Block, i: nat :: FreeUse(preds, code, b, i, r)
    {
      var n: nat, i: nat :| n < |order| && FreeNow(preds, code, order[..n], order[n], i, r);
      FreeNowIsFree(preds, code, order, n, i, r);
    }
  }

  lemma FreeNowIsFree(preds: Preds, code: seq<seq<Inst>>, order: seq<Block>, n: nat, i: nat, r: Reg)
    requires Topological(preds, code, order) && n < |order| && FreeNow(preds, code, order[..n], order[n], i, r)
    ensures FreeUse(preds, code, order[n], i, r)
  {
    hide SeenLive;
    var f, b := FamilyOf(r), order[n];
    forall d: Block
      ensures !Reaches(preds, DefBlocks(code, f), d, b)
    {
      if p: Block :| Edge(preds, p, b) && LiveOut(preds, DefBlocks(code, f), d, p) {
        assert p in order[..n];
        assert DefLiveOut(preds, code, f, d, p, Local(code[d])[f]);
        LiveIsSeen(preds, code, order, n, f, d, p, Local(code[d])[f]);
      }
    }
  }

  // ----- the discovery

  /** Merges what one predecessor is known to define, keeping the wider definition. */
  method MergeMax(m0: Defined, other: Defined) returns (m: Defined)
    ensures forall f: Family :: f in m <==> f in m0 || f in other
    ensures forall f: Family :: f in m ==> (f in m0 && m[f] == m0[f]) || (f in other && m[f] == other[f])
    ensures forall f: Family :: (f in m0 ==> m[f] >= m0[f]) && (f in other ==> m[f] >= other[f])
  {
    m := m0;
    var rest := other.Keys;
    while rest != {}
      invariant rest <= other.Keys
      invariant forall f: Family :: f in m <==> f in m0 || f in other.Keys - rest
      invariant forall f: Family :: f in m ==>
                                    (f in m0 && m[f] == m0[f]) || (f in other.Keys - rest && m[f] == other[f])
      invariant forall f: Family :: (f in m0 ==> m[f] >= m0[f]) && (f in other.Keys - rest ==> m[f] >= other[f])
    {
      var f :| f in rest;
      rest := rest - {f};
      if f in m {
        if other[f] > m[f] {
          m := m[f := other[f]];
        }
      } else {
        m := m[f := other[f]];
      }
    }
  }

  /** The union of what the predecessors are known to define. */
  method MergePredecessors(ps: seq<Block>, recorded: map<Block, Defined>) returns (m: Defined)
    ensures IsUnion(m, ps, recorded)
  {
    m := map[];
    for k := 0 to |ps|
      invariant IsUnion(m, ps[..k], recorded)
    {
      assert ps[..k + 1] == ps[..k] + [ps[k]];
      if ps[k] in recorded {
        m := MergeMax(m, recorded[ps[k]]);
      }
    }
    assert ps[..|ps|] == ps;
  }

  /** Adds the registers of an instruction that are read without being defined. */
  method AddUses(uses: seq<Reg>, m: Defined, liveIns0: set<Reg>,
                 ghost added0: set<Reg>) returns (liveIns: set<Reg>, ghost added: set<Reg>)
    requires (forall r :: r in uses ==> IsReg(r)) && (forall r :: r in added0 ==> IsReg(r))
             && IsWidest(liveIns0, added0)
    ensures IsWidest(liveIns, added) && (forall r :: r in added ==> IsReg(r))
    ensures forall r: Reg :: r in added <==> r in added0 || (r in uses && FamilyOf(r) !in m)
  {
    hide IsWidest;
    liveIns, added := liveIns0, added0;
    for k := 0 to |uses|
      invariant IsWidest(liveIns, added) && (forall r :: r in added ==> IsReg(r))
      invariant forall r: Reg :: r in added <==> r in added0 || (r in uses[..k] && FamilyOf(r) !in m)
    {
      assert uses[..k + 1] == uses[..k] + [uses[k]];
      if FamilyOf(uses[k]) !in m {
        liveIns := AddRegisterToFunctionLiveInSet(liveIns, uses[k], added);
        added := added + {uses[k]};
      }
    }
    assert uses[..|uses|] == uses;
  }

  /** Records the registers that an instruction writes; the last definition counts. */
  method RecordDefs(defs: seq<Reg>, m0: Defined) returns (m: Defined)
    ensures m == AfterDefs(m0, defs)
  {
    m := m0;
    for k := 0 to |defs|
      invariant m == AfterDefs(m0, defs[..k])
    {
      assert defs[..k + 1][..k] == defs[..k];
      m := m[FamilyOf(defs[k]) := BytesOf(defs[k])];
    }
    assert defs[..|defs|] == defs;
  }

  lemma AfterNone(m: Defined, insts: seq<Inst>)
    ensures AfterInsts(m, insts[..0]) == m
  {
  }

  lemma AfterOneMore(m: Defined, insts: seq<Inst>, k: nat)
    requires k < |insts|
    ensures AfterInsts(m, insts[..k + 1]) == AfterDefs(AfterInsts(m, insts[..k]), insts[k].defs)
  {
    assert insts[..k + 1][..k] == insts[..k];
  }

  /** The walk over one block, from what comes in. */
  method VisitBlock(code: seq<seq<Inst>>, b: Block, m0: Defined, liveIns0: set<Reg>, ghost added0: set<Reg>)
    returns (m: Defined, liveIns: set<Reg>, ghost added: set<Reg>)
    requires ValidCode(code) && b < |code| && (forall r :: r in added0 ==> IsReg(r)) && IsWidest(liveIns0, added0)
    ensures m == AfterInsts(m0, code[b]) && IsWidest(liveIns, added) && (forall r :: r in added ==> IsReg(r))
    ensures VisitAdds(code, b, m0, added0, added)
  {
    hide IsWidest, AfterInsts, AfterDefs, FamilyOf;
    m, liveIns, added := m0, liveIns0, added0;
    var insts := code[b];
    AfterNone(m0, insts);
    for k := 0 to |insts|
      invariant m == AfterInsts(m0, insts[..k]) && IsWidest(liveIns, added) && (forall r :: r in added ==> IsReg(r))
                && added0 <= added
      invariant forall i: nat, r: Reg :: i < k && r in insts[i].uses && FamilyOf(r) !in AfterInsts(m0, insts[..i]) ==>
                                         r in added
      invariant forall r: Reg :: r in added && r !in added0 ==>
                  exists i: nat :: i < k && r in insts[i].uses && FamilyOf(r) !in AfterInsts(m0, insts[..i])
    {
      AfterOneMore(m0, insts, k);
      liveIns, added := AddUses(insts[k].uses, m, liveIns, added);
      m := RecordDefs(insts[k].defs, m);
    }
    assert insts[..|insts|] == insts;
  }

  /** Every block comes after its predecessors, and no block is empty. */
  ghost predicate Topological(preds: Preds, code: seq<seq<Inst>>, order: seq<Block>) {
    forall k :: 0 <= k < |order| ==> order[k] < |code| && code[order[k]] != [] && order[k] < |preds|
                                     && forall p: Block :: p in preds[order[k]] ==> p in order[..k]
  }

  function Blocks(order: seq<Block>): set<Block> {
    set b: Block | b in order
  }

  /** The discovery, for blocks visited in any order and any number of times. */
  method DiscoverLiveIns(preds: Preds, code: seq<seq<Inst>>, order: seq<Block>)
    returns (liveIns: set<Reg>, recorded: map<Block, Defined>, ghost added: set<Reg>)
    requires |preds| == |code| && ValidCode(code) && forall k :: 0 <= k < |order| ==> order[k] < |code|
    ensures IsWidest(liveIns, added)
    ensures RecordedExact(preds, code, order, recorded) && AddedExact(preds, code, order, added)
    ensures Sound(preds, code, recorded) && FreeAdded(preds, code, Blocks(order), added)
    ensures Topological(preds, code, order) ==>
              Complete(preds, code, recorded) && AddedFree(preds, code, added) && recorded.Keys == Blocks(order)
  {
    hide IsWidest, Sound, Complete, FreeAdded, AddedFree, VisitAdds, IsUnion, RecordedExact, AddedExact;
    liveIns, recorded, added := {}, map[], {};
    NothingYet(preds, code);
    for k := 0 to |order|
      invariant IsWidest(liveIns, added) && (forall r :: r in added ==> IsReg(r))
      invariant RecordedExact(preds, code, order[..k], recorded) && AddedExact(preds, code, order[..k], added)
    {
      var b := order[k];
      assert order[..k + 1] == order[..k] + [b];
      if code[b] == [] {
        EmptyVisit(preds, code, order[..k], recorded, b, added);
        continue;
      }
      var m0 := MergePredecessors(preds[b], recorded);
      ghost var before := added;
      var m;
      m, liveIns, added := VisitBlock(code, b, m0, liveIns, added);
      VisitAdded(preds, code, order[..k], recorded, b, m0, before, added);
      VisitRecords(preds, code, order[..k], recorded, b, m0);
      recorded := recorded[b := m];
    }
    assert order[..|order|] == order;
    ExactIsSound(preds, code, order, recorded);
    ExactIsFreeAdded(preds, code, order, added);
    if Topological(preds, code, order) {
      TopologicalIsComplete(preds, code, order, recorded, added);
    }
  }

  lemma NothingYet(preds: Preds, code: seq<seq<Inst>>)
    ensures IsWidest({}, {}) && RecordedExact(preds, code, [], map[]) && AddedExact(preds, code, [], {})
  {
  }

  /** The visit of an empty block changes nothing. */
  lemma EmptyVisit(preds: Preds, code: seq<seq<Inst>>, visits: seq<Block>, recorded: map<Block, Defined>, b: Block,
                   added: set<Reg>)
    requires b < |code| && code[b] == []
    requires RecordedExact(preds, code, visits, recorded) && AddedExact(preds, code, visits, added)
    ensures RecordedExact(preds, code, visits + [b], recorded) && AddedExact(preds, code, visits + [b], added)
  {
    hide SeenLive, AddedBy;
    forall c: Block, f: Family | c in recorded && f in recorded[c]
      ensures exists d: Block :: SeenLive(preds, code, visits + [b], f, d, c, recorded[c][f])
    {
      var d: Block :| SeenLive(preds, code, visits, f, d, c, recorded[c][f]);
      SeenStays(preds, code, visits, f, d, c, recorded[c][f], b);
    }
    forall c: Block, f: Family, d: Block, bytes: nat | c in recorded
        && SeenLive(preds, code, visits + [b], f, d, c, bytes)
      ensures f in recorded[c] && recorded[c][f] >= bytes
    {
      SeenElsewhere(preds, code, visits, f, d, c, bytes, b);
    }
    forall r: Reg
      ensures AddedBy(preds, code, visits + [b], r) <==> AddedBy(preds, code, visits, r)
    {
      AddedByMore(preds, code, visits, b, r);
    }
  }

  /** The sound direction, for any order: a register read with none of its family defined on any path leaves a member
      of the family in the set, at least as wide. */
  lemma LiveInSound(preds: Preds, code: seq<seq<Inst>>, order: seq<Block>, liveIns: set<Reg>, added: set<Reg>,
                    b: Block, i: nat, r: Reg)
    requires IsWidest(liveIns, added) && FreeAdded(preds, code, Blocks(order), added) && b in order
             && FreeUse(preds, code, b, i, r)
    ensures exists w: Reg :: w in liveIns && FamilyOf(w) == FamilyOf(r) && BytesOf(w) >= BytesOf(r)
  {
    WidestCovers(liveIns, added, r);
  }

  ghost predicate ReadFreely(preds: Preds, code: seq<seq<Inst>>, r: Reg) {
    exists b: Block, i: nat :: FreeUse(preds, code, b, i, r)
  }

  /** In topological order the set holds exactly the widest register of every family that is read with none of it
      defined on any path. */
  lemma LiveInExact(preds: Preds, code: seq<seq<Inst>>, order: seq<Block>, liveIns: set<Reg>, added: set<Reg>, w: Reg)
    requires IsWidest(liveIns, added) && FreeAdded(preds, code, Blocks(order), added) && AddedFree(preds, code, added)
    requires forall b: Block :: b < |code| ==> b in order
    ensures w in liveIns <==> ReadFreely(preds, code, w) && forall q: Reg :: ReadFreely(preds, code, q) ==> !IsSub(w, q)
  {
    forall r: Reg ensures r in added <==> ReadFreely(preds, code, r) {
      if ReadFreely(preds, code, r) {
        var b: Block, i: nat :| FreeUse(preds, code, b, i, r);
        assert b in Blocks(order);
      }
    }
  }

  /** A block's record has exactly the families some definition of which is live on leaving the block, each with the
      greatest width of those definitions. */
  lemma RecordExact(preds: Preds, code: seq<seq<Inst>>, recorded: map<Block, Defined>, b: Block, f: Family)
    requires Sound(preds, code, recorded) && Complete(preds, code, recorded) && b in recorded
    ensures f in recorded[b] <==> exists d: Block, bytes: nat :: DefLiveOut(preds, code, f, d, b, bytes)
    ensures f in recorded[b] ==>
              && (exists d: Block :: DefLiveOut(preds, code, f, d, b, recorded[b][f]))
              && (forall d: Block, bytes: nat :: DefLiveOut(preds, code, f, d, b, bytes) ==> bytes <= recorded[b][f])
  {
    if f in recorded[b] {
      assert SoundAt(preds, code, f, b, recorded[b][f]);
    }
  }

  // ----- against reading without a definition on some path

  /** A path of the graph from the entry block. */
  ghost predicate IsPath(preds: Preds, path: seq<Block>) {
    |path| > 0 && path[0] == 0 && forall i: nat :: i + 1 < |path| ==> Edge(preds, path[i], path[i + 1])
  }

  /** On the path into block `b`, the register is read without any of its family being defined before. */
  ghost predicate ReadOnPath(preds: Preds, code: seq<seq<Inst>>, path: seq<Block>, b: Block, i: nat, r: Reg) {
    && b < |code| && i < |code[b]| && r in code[b][i].uses
    && IsPath(preds, path) && Last(path) == b
    && FamilyOf(r) !in Local(code[b][..i])
    && forall k: nat :: k + 1 < |path| ==> path[k] !in DefBlocks(code, FamilyOf(r))
  }

  lemma {:induction false} SomeLiveAlong(preds: Preds, defs: set<Block>, path: seq<Block>, k: nat) returns (d: Block)
    requires IsPath(preds, path) && k < |path| && path[k] in defs
    ensures LiveOut(preds, defs, d, Last(path))
    decreases |path|
  {
    var b := Last(path);
    if b in defs {
      d := b;
      LiveOutHere(preds, defs, b);
    } else {
      d := SomeLiveAlong(preds, defs, Front(path), k);
      LiveOutStep(preds, defs, d, Last(Front(path)), b);
    }
  }

  /** A use that no definition reaches is read without a definition on every path to it. */
  lemma FreeUseIsRead(preds: Preds, code: seq<seq<Inst>>, path: seq<Block>, b: Block, i: nat, r: Reg)
    requires FreeUse(preds, code, b, i, r) && IsPath(preds, path) && Last(path) == b
    ensures ReadOnPath(preds, code, path, b, i, r)
  {
    var defs := DefBlocks(code, FamilyOf(r));
    forall k: nat | k + 1 < |path| ensures path[k] !in defs {
      if path[k] in defs {
        assert Edge(preds, path[|path| - 2], path[|path| - 2 + 1]);
        var d := SomeLiveAlong(preds, defs, Front(path), k);
        assert Reaches(preds, defs, d, b);
      }
    }
  }

  const RDI: Reg := Gp(7, 8)

  /** A branch over two blocks, one of which defines a register that is read behind them. */
  function DiamondPreds(): Preds {
    [[], [0], [0], [1, 2]]
  }

  function DiamondCode(): seq<seq<Inst>> {
    [[Inst([], [])], [Inst([], [RDI])], [Inst([], [])], [Inst([RDI], [])]]
  }

  /** The converse fails: on the path that does not define it, the register is read as it was on entry, but a definition
      reaches the use on the other path, so the discovery does not count it. */
  lemma DefinedOnOnePath()
    ensures ReadOnPath(DiamondPreds(), DiamondCode(), [0, 2, 3], 3, 0, RDI)
    ensures forall b: Block, i: nat :: !FreeUse(DiamondPreds(), DiamondCode(), b, i, RDI)
  {
    var preds, code, f := DiamondPreds(), DiamondCode(), GpFamily(7);
    forall b: Block | b < 4 ensures f in Local(code[b]) <==> b == 1 {
      LocalOfOne(code[b][0], f);
    }
    var defs := DefBlocks(code, f);
    LiveOutHere(preds, defs, 1);
    assert Edge(preds, 1, 3) && Reaches(preds, defs, 1, 3);
    assert code[3][..0] == [];
  }

  lemma LocalOfOne(i: Inst, f: Family)
    requires |i.defs| <= 1
    ensures f in Local([i]) <==> |i.defs| == 1 && FamilyOf(i.defs[0]) == f
  {
    assert [i][..0] == [];
    assert AfterInsts(map[], [i]) == AfterDefs(AfterInsts(map[], []), i.defs);
    if |i.defs| == 1 {
      assert i.defs[..0] == [];
      assert AfterDefs(map[], i.defs) == AfterDefs(map[], [])[FamilyOf(i.defs[0]) := BytesOf(i.defs[0])];
    }
  }
}
