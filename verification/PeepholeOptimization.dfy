/** The rewriting of pointer arithmetic done on integers into pointer arithmetic, over a straight line of code in static
    single assignment form. Pointers are byte addresses. */
module PeepholeOptimization {
  import opened Wrappers

  const WORD: nat := 0x1_0000_0000_0000_0000

  type Name = nat

  datatype Operand = Var(n: Name) | Const(v: nat)

  datatype BinOp = Add | Or | Sub | OtherOp(id: nat)

  /** `IntToPtr`, `PtrToInt` and `Cast` keep the value. `Other` stands for everything else: it also reads and writes
      memory. */
  datatype Kind =
    | PtrToInt(src: Operand)
    | IntToPtr(src: Operand)
    | Cast(src: Operand)
    | Bin(op: BinOp, a: Operand, b: Operand)
    | Gep(ptr: Operand, idx: Operand)
    | Other(id: nat, args: seq<Operand>)

  datatype Instr = Instr(name: Name, kind: Kind)

  // ----- meaning

  type Env = map<Name, nat>

  datatype State = State(env: Env, mem: int)

  /** What the uninterpreted operators and instructions do. */
  datatype Meaning = Meaning(bin: (nat, nat, nat) -> nat, value: (nat, seq<nat>, int) -> nat,
                             mem: (nat, seq<nat>, int) -> int)

  function Read(env: Env, o: Operand): (v: nat)
    ensures v < WORD
  {
    match o
    case Var(n) => if n in env then env[n] % WORD else 0
    case Const(v) => v % WORD
  }

  /** Bitwise or of two words. */
  function BitOr(x: nat, y: nat): (r: nat)
    decreases x + y
  {
    if x == 0 && y == 0 then 0 else (if x % 2 == 1 || y % 2 == 1 then 1 else 0) + 2 * BitOr(x / 2, y / 2)
  }

  /** No bit is set in both. */
  predicate Disjoint(x: nat, y: nat)
    decreases x + y
  {
    (x == 0 && y == 0) || (!(x % 2 == 1 && y % 2 == 1) && Disjoint(x / 2, y / 2))
  }

  function EvalBin(m: Meaning, op: BinOp, x: nat, y: nat): nat {
    match op
    case Add => (x + y) % WORD
    case Or => BitOr(x, y)
    case Sub => (x - y) % WORD
    case OtherOp(id) => m.bin(id, x, y)
  }

  function ReadAll(env: Env, args: seq<Operand>): seq<nat> {
    seq(|args|, k requires 0 <= k < |args| => Read(env, args[k]))
  }

  function Eval(m: Meaning, kind: Kind, s: State): nat {
    match kind
    case PtrToInt(src) => Read(s.env, src)
    case IntToPtr(src) => Read(s.env, src)
    case Cast(src) => Read(s.env, src)
    case Bin(op, a, b) => EvalBin(m, op, Read(s.env, a), Read(s.env, b))
    case Gep(ptr, idx) => (Read(s.env, ptr) + Read(s.env, idx)) % WORD
    case Other(id, args) => m.value(id, ReadAll(s.env, args), s.mem)
  }

  function Exec(m: Meaning, i: Instr, s: State): State {
    State(s.env[i.name := Eval(m, i.kind, s)],
          if i.kind.Other? then m.mem(i.kind.id, ReadAll(s.env, i.kind.args), s.mem) else s.mem)
  }

  function Run(m: Meaning, code: seq<Instr>, s: State): State {
    if code == [] then s else Run(m, code[1..], Exec(m, code[0], s))
  }

  lemma {:induction false} RunAppend(m: Meaning, a: seq<Instr>, b: seq<Instr>, s: State)
    ensures Run(m, a + b, s) == Run(m, b, Run(m, a, s))
  {
    if a == [] {
      assert a + b == b;
    } else {
      assert (a + b)[0] == a[0] && (a + b)[1..] == a[1..] + b;
      RunAppend(m, a[1..], b, Exec(m, a[0], s));
    }
  }

  // ----- the sum of disjoint words

  function BitAnd(x: nat, y: nat): (r: nat)
    decreases x + y
  {
    if x == 0 && y == 0 then 0 else (if x % 2 == 1 && y % 2 == 1 then 1 else 0) + 2 * BitAnd(x / 2, y / 2)
  }

  lemma {:induction false} OrAndAnd(x: nat, y: nat)
    ensures BitOr(x, y) + BitAnd(x, y) == x + y
    ensures BitAnd(x, y) <= x
    ensures Disjoint(x, y) <==> BitAnd(x, y) == 0
    decreases x + y
  {
    if x != 0 || y != 0 {
      OrAndAnd(x / 2, y / 2);
    }
  }

  lemma {:induction false} OrFits(x: nat, y: nat, k: nat)
    requires x < Pow2(k) && y < Pow2(k)
    ensures BitOr(x, y) < Pow2(k)
  {
    if k > 0 {
      OrFits(x / 2, y / 2, k - 1);
    }
  }

  /** The bitwise or of two words is their sum exactly if they have no bit in common. */
  lemma OrIsSumIff(x: nat, y: nat)
    requires x < WORD && y < WORD
    ensures BitOr(x, y) == (x + y) % WORD <==> Disjoint(x, y)
  {
    WordIs();
    OrAndAnd(x, y);
    OrFits(x, y, 64);
    Wraps(x + y);
  }

  lemma {:induction false} PowersMultiply(a: nat, b: nat)
    ensures Pow2(a + b) == Pow2(a) * Pow2(b)
  {
    if a > 0 {
      PowersMultiply(a - 1, b);
    }
  }

  lemma WordIs()
    ensures Pow2(64) == WORD
  {
    assert Pow2(1) == 2 && Pow2(2) == 4 && Pow2(3) == 8 && Pow2(4) == 16;
    PowersMultiply(4, 4);
    PowersMultiply(8, 8);
    PowersMultiply(16, 16);
    PowersMultiply(32, 32);
  }

  lemma Wraps(s: nat)
    requires s < 2 * WORD
    ensures s % WORD == if s < WORD then s else s - WORD
  {
  }

  // ----- single assignment

  function Operands(kind: Kind): seq<Operand> {
    match kind
    case PtrToInt(src) => [src]
    case IntToPtr(src) => [src]
    case Cast(src) => [src]
    case Bin(_, a, b) => [a, b]
    case Gep(ptr, idx) => [ptr, idx]
    case Other(_, args) => args
  }

  predicate Uses(i: Instr, n: Name) {
    Var(n) in Operands(i.kind)
  }

  predicate UsedIn(code: seq<Instr>, n: Name) {
    exists k :: 0 <= k < |code| && Uses(code[k], n)
  }

  /** No instruction of `b` defines what one of `a` defines or uses. */
  ghost predicate Before(a: seq<Instr>, b: seq<Instr>) {
    forall x: Instr, y: Instr :: x in a && y in b ==> x.name != y.name && !Uses(x, y.name)
  }

  /** Every name is defined once, and not used up to its definition. */
  ghost predicate SingleAssignment(code: seq<Instr>) {
    && (forall j, k :: 0 <= j < k < |code| ==> code[j].name != code[k].name)
    && (forall j, k :: 0 <= j <= k < |code| ==> !Uses(code[j], code[k].name))
  }

  lemma AssignedInParts(a: seq<Instr>, b: seq<Instr>)
    ensures SingleAssignment(a + b) <==> SingleAssignment(a) && SingleAssignment(b) && Before(a, b)
  {
    var c := a + b;
    assert forall j :: 0 <= j < |a| ==> c[j] == a[j];
    assert forall k :: 0 <= k < |b| ==> c[|a| + k] == b[k];
    if SingleAssignment(c) {
      forall x: Instr, y: Instr | x in a && y in b ensures x.name != y.name && !Uses(x, y.name) {
        var j :| 0 <= j < |a| && a[j] == x;
        var k :| 0 <= k < |b| && b[k] == y;
        assert c[j] == x && c[|a| + k] == y;
      }
      forall j, k | 0 <= j <= k < |b| ensures !Uses(b[j], b[k].name) && (j < k ==> b[j].name != b[k].name) {
        assert c[|a| + j] == b[j] && c[|a| + k] == b[k];
      }
      forall j, k | 0 <= j <= k < |a| ensures !Uses(a[j], a[k].name) && (j < k ==> a[j].name != a[k].name) {
        assert c[j] == a[j] && c[k] == a[k];
      }
    }
  }

  /** The states agree, but perhaps for some names. */
  ghost predicate AgreeBut(s: State, t: State, names: set<Name>) {
    s.mem == t.mem && forall n: Name :: n !in names ==> Read(s.env, Var(n)) == Read(t.env, Var(n))
  }

  lemma EvalAgrees(m: Meaning, kind: Kind, s: State, t: State, names: set<Name>)
    requires AgreeBut(s, t, names) && forall n: Name :: Var(n) in Operands(kind) ==> n !in names
    ensures Eval(m, kind, s) == Eval(m, kind, t)
    ensures kind.Other? ==> ReadAll(s.env, kind.args) == ReadAll(t.env, kind.args)
  {
    forall o | o in Operands(kind) ensures Read(s.env, o) == Read(t.env, o) {
    }
    match kind
    case PtrToInt(src) => assert src in Operands(kind);
    case IntToPtr(src) => assert src in Operands(kind);
    case Cast(src) => assert src in Operands(kind);
    case Bin(_, a, b) => assert a in Operands(kind) && b in Operands(kind);
    case Gep(ptr, idx) => assert ptr in Operands(kind) && idx in Operands(kind);
    case Other(_, args) =>
      assert forall k :: 0 <= k < |args| ==> args[k] in args;
      assert ReadAll(s.env, args) == ReadAll(t.env, args);
  }

  /** Code that uses none of some names runs alike from states that agree but for these. */
  lemma {:induction false} RunAgrees(m: Meaning, code: seq<Instr>, s: State, t: State, names: set<Name>)
    requires AgreeBut(s, t, names) && forall n: Name :: n in names ==> !UsedIn(code, n)
    ensures AgreeBut(Run(m, code, s), Run(m, code, t), names)
  {
    if code != [] {
      var i := code[0];
      assert forall n: Name :: n in names ==> !Uses(i, n);
      EvalAgrees(m, i.kind, s, t, names);
      assert forall n: Name :: UsedIn(code[1..], n) ==> UsedIn(code, n) by { TailUses(code); }
      RunAgrees(m, code[1..], Exec(m, i, s), Exec(m, i, t), names);
    }
  }

  lemma TailUses(code: seq<Instr>)
    requires code != []
    ensures forall n: Name :: UsedIn(code[1..], n) ==> UsedIn(code, n)
  {
    forall n: Name | UsedIn(code[1..], n) ensures UsedIn(code, n) {
      var k :| 0 <= k < |code[1..]| && Uses(code[1..][k], n);
      assert Uses(code[k + 1], n);
    }
  }

  lemma {:induction false} RunKeeps(m: Meaning, code: seq<Instr>, s: State, n: Name)
    requires forall i: Instr :: i in code ==> i.name != n
    ensures Read(Run(m, code, s).env, Var(n)) == Read(s.env, Var(n))
  {
    if code != [] {
      RunKeeps(m, code[1..], Exec(m, code[0], s), n);
    }
  }

  /** In single assignment form, a name has from its definition on the value that its definition has. */
  lemma DefinitionHolds(m: Meaning, a: seq<Instr>, i: Instr, b: seq<Instr>, s: State)
    requires SingleAssignment(a + [i] + b) && !i.kind.Other?
    ensures var t := Run(m, a + [i] + b, s); Read(t.env, Var(i.name)) == Eval(m, i.kind, t) % WORD
  {
    AssignedInParts(a + [i], b);
    AssignedInParts(a, [i]);
    var s0 := Run(m, a, s);
    var s1 := Exec(m, i, s0);
    RunAppend(m, a + [i], b, s);
    RunAppend(m, a, [i], s);
    assert Run(m, [i], s0) == s1 by { assert [i][1..] == []; }
    var t := Run(m, b, s1);
    assert i in a + [i] && i in [i];
    forall x: Instr | x in b ensures x.name != i.name && !Uses(i, x.name) {
    }
    RunKeeps(m, b, s1, i.name);
    assert [i][0] == i && !Uses([i][0], [i][0].name);
    forall o | o in Operands(i.kind) ensures Read(t.env, o) == Read(s0.env, o) {
      if o.Var? {
        assert Uses(i, o.n);
        RunKeeps(m, b, s1, o.n);
      }
    }
    SameOperands(m, i.kind, s0, t);
  }

  lemma SameOperands(m: Meaning, kind: Kind, s: State, t: State)
    requires !kind.Other? && forall o :: o in Operands(kind) ==> Read(t.env, o) == Read(s.env, o)
    ensures Eval(m, kind, s) == Eval(m, kind, t)
  {
    match kind
    case PtrToInt(src) => assert src in Operands(kind);
    case IntToPtr(src) => assert src in Operands(kind);
    case Cast(src) => assert src in Operands(kind);
    case Bin(_, a, b) => assert a in Operands(kind) && b in Operands(kind);
    case Gep(ptr, idx) => assert ptr in Operands(kind) && idx in Operands(kind);
  }

  // ----- the patterns

  /** The position of the definition of a name, or the length of the code. */
  function FindDef(code: seq<Instr>, n: Name): (p: nat)
    ensures p <= |code|
    ensures p < |code| ==> code[p].name == n
    ensures p == |code| ==> forall i: Instr :: i in code ==> i.name != n
  {
    if code == [] then 0 else if code[0].name == n then 0 else 1 + FindDef(code[1..], n)
  }

  /** An integer made of a pointer and an index, by the positions of the sum and of the conversion of the pointer; or
      just a converted pointer. */
  datatype Pattern = NoMatch | Arithmetic(sum: nat, conv: nat) | Conversion(conv: nat)

  /** The instruction at the end of `front + [i]` converts such an integer to a pointer. The pointer that goes into a
      sum must itself come from an integer. */
  function Match(front: seq<Instr>, i: Instr): (r: Pattern)
    ensures r.Arithmetic? ==>
              && r.sum < |front| && r.conv < |front| && i.kind.IntToPtr? && i.kind.src == Var(front[r.sum].name)
              && front[r.sum].kind.Bin? && front[r.sum].kind.op in {Add, Or}
                 && front[r.sum].kind.a == Var(front[r.conv].name)
              && front[r.conv].kind.PtrToInt? && front[r.conv].kind.src.Var?
    ensures r.Conversion? ==>
              r.conv < |front| && i.kind.IntToPtr? && i.kind.src == Var(front[r.conv].name)
                  && front[r.conv].kind.PtrToInt?
  {
    if !i.kind.IntToPtr? || !i.kind.src.Var? then NoMatch else
      var j := FindDef(front, i.kind.src.n);
      if j == |front| then NoMatch
      else if front[j].kind.PtrToInt? then Conversion(j)
      else if !front[j].kind.Bin? || !front[j].kind.a.Var? then NoMatch
      else
        var l := FindDef(front, front[j].kind.a.n);
        if l == |front| || !front[l].kind.PtrToInt? || front[j].kind.op !in {Add, Or}
            || !front[l].kind.src.Var? then NoMatch
        else
          var h := FindDef(front, front[l].kind.src.n);
          if h < |front| && front[h].kind.IntToPtr? then Arithmetic(j, l) else NoMatch
  }

  /** What takes the place of the matched instruction; the last new instruction takes over its name. */
  function NewInstrs(front: seq<Instr>, i: Instr, next: Name): seq<Instr> {
    match Match(front, i)
    case NoMatch => [i]
    case Conversion(conv) => [Instr(i.name, Cast(front[conv].kind.src))]
    case Arithmetic(sum, conv) =>
      Address(i.name, front[conv].kind.src, front[sum].kind.b, next)
  }

  /** Where the matched sum is a bitwise or, its operands have no bit in common. */
  ghost predicate OrDisjoint(front: seq<Instr>, i: Instr, env: Env) {
    var r := Match(front, i);
    r.Arithmetic? && front[r.sum].kind.op.Or? ==>
        Disjoint(Read(env, front[r.sum].kind.a), Read(env, front[r.sum].kind.b))
  }

  /** All names that occur are below `next`. */
  ghost predicate NamesBelow(code: seq<Instr>, next: Name) {
    forall i: Instr :: i in code ==> i.name < next && forall n: Name :: Uses(i, n) ==> n < next
  }

  lemma DefinitionAt(m: Meaning, front: seq<Instr>, j: nat, s: State)
    requires SingleAssignment(front) && j < |front| && !front[j].kind.Other?
    ensures var t := Run(m, front, s); Read(t.env, Var(front[j].name)) == Eval(m, front[j].kind, t) % WORD
  {
    assert front == front[..j] + [front[j]] + front[j + 1..];
    DefinitionHolds(m, front[..j], front[j], front[j + 1..], s);
  }

  lemma RunOne(m: Meaning, x: Instr, s: State)
    ensures Run(m, [x], s) == Exec(m, x, s)
  {
    assert [x][1..] == [];
  }

  lemma ExecReads(m: Meaning, i: Instr, s: State, n: Name)
    ensures Read(Exec(m, i, s).env, Var(n)) == if n == i.name then Eval(m, i.kind, s) % WORD else Read(s.env, Var(n))
  {
  }

  /** The byte address that the three new instructions compute. */
  function Address(name: Name, src: Operand, idx: Operand, next: Name): seq<Instr> {
    [Instr(next, Cast(src)), Instr(next + 1, Gep(Var(next), idx)), Instr(name, Cast(Var(next + 1)))]
  }

  lemma AddressValue(m: Meaning, name: Name, src: Operand, idx: Operand, next: Name, s: State)
    requires name < next && (idx.Var? ==> idx.n < next)
    ensures var t := Run(m, Address(name, src, idx, next), s);
            && t.mem == s.mem
            && Read(t.env, Var(name)) == (Read(s.env, src) + Read(s.env, idx)) % WORD
            && forall n: Name :: n != name && n != next && n != next + 1 ==> Read(t.env, Var(n)) == Read(s.env, Var(n))
  {
    var code := Address(name, src, idx, next);
    var x, y, z := code[0], code[1], code[2];
    var s1 := Exec(m, x, s);
    var s2 := Exec(m, y, s1);
    assert code[1..] == [y, z] && [y, z][1..] == [z];
    RunOne(m, z, s2);
    var t := Exec(m, z, s2);
    hide Run, Exec;
    assert Read(s1.env, idx) == Read(s.env, idx) by {
      if idx.Var? { ExecReads(m, x, s, idx.n); }
    }
    ExecReads(m, x, s, next);
    ExecReads(m, y, s1, next + 1);
    ExecReads(m, z, s2, name);
    MemoryKept(m, x, s);
    MemoryKept(m, y, s1);
    MemoryKept(m, z, s2);
    forall n: Name | n != name && n != next && n != next + 1 ensures Read(t.env, Var(n)) == Read(s.env, Var(n)) {
      ExecReads(m, x, s, n);
      ExecReads(m, y, s1, n);
      ExecReads(m, z, s2, n);
    }
  }

  lemma MemoryKept(m: Meaning, i: Instr, s: State)
    ensures !i.kind.Other? ==> Exec(m, i, s).mem == s.mem
  {
  }

  /** The new instructions give the pointer the value it had, exactly if the operands of a bitwise or are disjoint. */
  lemma NewValueIff(m: Meaning, front: seq<Instr>, i: Instr, next: Name, s: State)
    requires SingleAssignment(front + [i]) && NamesBelow(front + [i], next)
    ensures var s0 := Run(m, front, s);
            var old', new' := Exec(m, i, s0), Run(m, NewInstrs(front, i, next), s0);
            && (Read(old'.env, Var(i.name)) == Read(new'.env, Var(i.name)) <==> OrDisjoint(front, i, s0.env))
            && (OrDisjoint(front, i, s0.env) ==> AgreeBut(old', new', {next, next + 1}))
  {
    AssignedInParts(front, [i]);
    var s0 := Run(m, front, s);
    assert i in front + [i];
    hide Run, SingleAssignment, Disjoint, BitOr;
    match Match(front, i)
    case NoMatch => RunOne(m, i, s0);
    case Conversion(conv) => NewConversion(m, front, i, next, s, conv);
    case Arithmetic(sum, conv) => NewArithmetic(m, front, i, next, s, sum, conv);
  }

  lemma NewConversion(m: Meaning, front: seq<Instr>, i: Instr, next: Name, s: State, conv: nat)
    requires SingleAssignment(front) && Match(front, i) == Conversion(conv)
    ensures var s0 := Run(m, front, s);
            var old', new' := Exec(m, i, s0), Run(m, NewInstrs(front, i, next), s0);
            AgreeBut(old', new', {}) && Read(old'.env, Var(i.name)) == Read(new'.env, Var(i.name))
  {
    var s0 := Run(m, front, s);
    var j := Instr(i.name, Cast(front[conv].kind.src));
    DefinitionAt(m, front, conv, s);
    RunOne(m, j, s0);
    hide Exec, Run;
    MemoryKept(m, i, s0);
    MemoryKept(m, j, s0);
    forall n: Name ensures Read(Exec(m, i, s0).env, Var(n)) == Read(Exec(m, j, s0).env, Var(n)) {
      ExecReads(m, i, s0, n);
      ExecReads(m, j, s0, n);
    }
  }

  lemma NewArithmetic(m: Meaning, front: seq<Instr>, i: Instr, next: Name, s: State, sum: nat, conv: nat)
    requires SingleAssignment(front) && NamesBelow(front + [i], next) && Match(front, i) == Arithmetic(sum, conv)
    ensures var s0 := Run(m, front, s);
            var old', new' := Exec(m, i, s0), Run(m, NewInstrs(front, i, next), s0);
            && (Read(old'.env, Var(i.name)) == Read(new'.env, Var(i.name)) <==> OrDisjoint(front, i, s0.env))
            && (OrDisjoint(front, i, s0.env) ==> AgreeBut(old', new', {next, next + 1}))
  {
    hide Run, Exec, SingleAssignment, Disjoint, NewInstrs, Address, EvalBin, NamesBelow, Match, OrDisjoint, BitOr;
    var s0 := Run(m, front, s);
    var src, idx := front[conv].kind.src, front[sum].kind.b;
    SumReads(m, front, i, s, sum, conv);
    ArithmeticNames(front, i, next, sum, conv);
    NewIsAddress(front, i, next, sum, conv);
    OrDisjointIs(front, i, s0.env, sum, conv);
    OldValue(m, i, s0, Read(s0.env, i.kind.src));
    AddressValue(m, i.name, src, idx, next, s0);
    SumIsIff(m, front[sum].kind.op, Read(s0.env, src), Read(s0.env, idx));
  }

  lemma NewIsAddress(front: seq<Instr>, i: Instr, next: Name, sum: nat, conv: nat)
    requires Match(front, i) == Arithmetic(sum, conv)
    ensures NewInstrs(front, i, next) == Address(i.name, front[conv].kind.src, front[sum].kind.b, next)
  {
  }

  lemma OrDisjointIs(front: seq<Instr>, i: Instr, env: Env, sum: nat, conv: nat)
    requires Match(front, i) == Arithmetic(sum, conv) && Read(env, front[sum].kind.a) == Read(env, front[conv].kind.src)
    ensures OrDisjoint(front, i, env) <==>
              (front[sum].kind.op.Or? ==> Disjoint(Read(env, front[conv].kind.src), Read(env, front[sum].kind.b)))
  {
  }

  lemma OldValue(m: Meaning, i: Instr, s: State, v: nat)
    requires i.kind.IntToPtr? && v == Read(s.env, i.kind.src)
    ensures Exec(m, i, s).mem == s.mem && Read(Exec(m, i, s).env, Var(i.name)) == v
    ensures forall n: Name :: n != i.name ==> Read(Exec(m, i, s).env, Var(n)) == Read(s.env, Var(n))
  {
  }

  lemma SumIsIff(m: Meaning, op: BinOp, x: nat, y: nat)
    requires x < WORD && y < WORD && op in {Add, Or}
    ensures EvalBin(m, op, x, y) % WORD == (x + y) % WORD <==> (op.Or? ==> Disjoint(x, y))
    ensures EvalBin(m, op, x, y) % WORD % WORD == EvalBin(m, op, x, y) % WORD
  {
    OrIsSumIff(x, y);
    OrIsWord(x, y);
  }

  /** The integer that is converted is the sum of the pointer and the index. */
  lemma SumReads(m: Meaning, front: seq<Instr>, i: Instr, s: State, sum: nat, conv: nat)
    requires SingleAssignment(front) && Match(front, i) == Arithmetic(sum, conv)
    ensures var env := Run(m, front, s).env;
            var x, y := Read(env, front[conv].kind.src), Read(env, front[sum].kind.b);
            && Read(env, front[sum].kind.a) == x
            && Read(env, i.kind.src) == EvalBin(m, front[sum].kind.op, x, y) % WORD
  {
    hide Run, SingleAssignment, BitOr, Match;
    DefinitionAt(m, front, sum, s);
    DefinitionAt(m, front, conv, s);
  }

  lemma ArithmeticNames(front: seq<Instr>, i: Instr, next: Name, sum: nat, conv: nat)
    requires NamesBelow(front + [i], next) && Match(front, i) == Arithmetic(sum, conv)
    ensures i.name < next && (front[sum].kind.b.Var? ==> front[sum].kind.b.n < next)
  {
    var idx := front[sum].kind.b;
    assert front[sum] in front + [i] && i in front + [i] && idx in Operands(front[sum].kind);
    assert idx.Var? ==> Uses(front[sum], idx.n);
  }

  lemma OrIsWord(x: nat, y: nat)
    requires x < WORD && y < WORD
    ensures BitOr(x, y) % WORD == BitOr(x, y)
  {
    WordIs();
    OrFits(x, y, 64);
  }

  // ----- one replacement and one erasure

  lemma AgreeChains(s: State, t: State, u: State, a: set<Name>, b: set<Name>)
    requires AgreeBut(s, t, a) && AgreeBut(t, u, b)
    ensures AgreeBut(s, u, a + b)
  {
    forall n: Name | n !in a + b ensures Read(s.env, Var(n)) == Read(u.env, Var(n)) {
    }
  }

  lemma UnusedAbove(code: seq<Instr>, next: Name, n: Name)
    requires NamesBelow(code, next) && n >= next
    ensures !UsedIn(code, n)
  {
    forall k | 0 <= k < |code| ensures !Uses(code[k], n) {
      assert code[k] in code;
    }
  }

  lemma BelowInParts(a: seq<Instr>, b: seq<Instr>, next: Name)
    ensures NamesBelow(a + b, next) <==> NamesBelow(a, next) && NamesBelow(b, next)
  {
    forall i: Instr | i in a ensures i in a + b {
    }
    forall i: Instr | i in b ensures i in a + b {
    }
    assert forall i: Instr :: i in a + b ==> i in a || i in b;
  }

  lemma BelowMore(code: seq<Instr>, a: Name, b: Name)
    requires NamesBelow(code, a) && a <= b
    ensures NamesBelow(code, b)
  {
  }

  /** A replacement keeps all values but those of the new names. */
  lemma ReplaceKeeps(m: Meaning, front: seq<Instr>, i: Instr, rest: seq<Instr>, next: Name, s: State)
    requires SingleAssignment(front + [i] + rest) && NamesBelow(front + [i] + rest, next)
    requires OrDisjoint(front, i, Run(m, front, s).env)
    ensures AgreeBut(Run(m, front + [i] + rest, s), Run(m, front + NewInstrs(front, i, next) + rest, s),
                     {next, next + 1})
  {
    AssignedInParts(front + [i], rest);
    BelowInParts(front + [i], rest, next);
    hide SingleAssignment, Run, NewInstrs, NamesBelow, OrDisjoint;
    var s0, news := Run(m, front, s), NewInstrs(front, i, next);
    RunAppend(m, front + [i], rest, s);
    RunAppend(m, front, [i], s);
    RunOne(m, i, s0);
    RunAppend(m, front + news, rest, s);
    RunAppend(m, front, news, s);
    NewValueIff(m, front, i, next, s);
    UnusedAbove(rest, next, next);
    UnusedAbove(rest, next, next + 1);
    RunAgrees(m, rest, Exec(m, i, s0), Run(m, news, s0), {next, next + 1});
  }

  /** An erasure of an unused name keeps all values but its own. */
  lemma EraseKeeps(m: Meaning, a: seq<Instr>, j: Instr, b: seq<Instr>, s: State)
    requires !j.kind.Other? && !UsedIn(b, j.name)
    ensures AgreeBut(Run(m, a + [j] + b, s), Run(m, a + b, s), {j.name})
  {
    var s0 := Run(m, a, s);
    RunAppend(m, a + [j], b, s);
    RunAppend(m, a, [j], s);
    RunAppend(m, a, b, s);
    RunOne(m, j, s0);
    MemoryKept(m, j, s0);
    hide Run, Exec;
    forall n: Name | n != j.name ensures Read(Exec(m, j, s0).env, Var(n)) == Read(s0.env, Var(n)) {
      ExecReads(m, j, s0, n);
    }
    RunAgrees(m, b, Exec(m, j, s0), s0, {j.name});
  }

  lemma EraseAssigned(a: seq<Instr>, j: Instr, b: seq<Instr>)
    requires SingleAssignment(a + [j] + b)
    ensures SingleAssignment(a + b)
  {
    AssignedInParts(a + [j], b);
    AssignedInParts(a, [j]);
    AssignedInParts(a, b);
    hide SingleAssignment;
    forall x: Instr | x in a ensures x in a + [j] {
    }
  }

  /** The new instructions keep single assignment form. */
  lemma ReplaceAssigned(front: seq<Instr>, i: Instr, rest: seq<Instr>, next: Name)
    requires SingleAssignment(front + [i] + rest) && NamesBelow(front + [i] + rest, next)
    ensures SingleAssignment(front + NewInstrs(front, i, next) + rest)
    ensures NamesBelow(front + NewInstrs(front, i, next) + rest, next + 2)
  {
    hide SingleAssignment, NewInstrs, Match, NamesBelow;
    var news := NewInstrs(front, i, next);
    AssignedInParts(front + [i], rest);
    AssignedInParts(front, [i]);
    BelowInParts(front + [i], rest, next);
    BelowInParts(front, [i], next);
    NewsFit(front, i, rest, next);
    BelowMore(front, next, next + 2);
    BelowMore(rest, next, next + 2);
    AssignedInParts(front, news);
    AssignedInParts(front + news, rest);
    BelowInParts(front + news, rest, next + 2);
    BelowInParts(front, news, next + 2);
    forall x: Instr, y: Instr | x in front + news && y in rest ensures x.name != y.name && !Uses(x, y.name) {
      if x in front {
        assert x in front + [i];
      }
    }
  }

  lemma NewsFit(front: seq<Instr>, i: Instr, rest: seq<Instr>, next: Name)
    requires SingleAssignment(front) && SingleAssignment([i]) && Before(front, [i]) && Before(front + [i], rest)
    requires NamesBelow(front, next) && NamesBelow([i], next) && NamesBelow(rest, next)
    ensures var news := NewInstrs(front, i, next);
            SingleAssignment(news) && Before(front, news) && Before(news, rest) && NamesBelow(news, next + 2)
  {
    assert i in [i] && i in front + [i] && [i][0] == i;
    match Match(front, i)
    case NoMatch =>
    case Conversion(conv) =>
      OperandFits(front, i, rest, next, front[conv], front[conv].kind.src);
      CastFits(front, i, rest, next, front[conv].kind.src);
    case Arithmetic(sum, conv) =>
      OperandFits(front, i, rest, next, front[conv], front[conv].kind.src);
      OperandFits(front, i, rest, next, front[sum], front[sum].kind.b);
      NewIsAddress(front, i, next, sum, conv);
      hide NewInstrs, Match, SingleAssignment, Address;
      AddressFits(front, i, rest, next, front[conv].kind.src, front[sum].kind.b);
  }

  /** An operand of an earlier instruction is defined neither by `i` nor later. */
  lemma OperandFits(front: seq<Instr>, i: Instr, rest: seq<Instr>, next: Name, x: Instr, o: Operand)
    requires x in front && o in Operands(x.kind) && NamesBelow(front, next) && Before(front, [i])
             && Before(front + [i], rest)
    ensures o != Var(i.name) && (forall y: Instr :: y in rest ==> o != Var(y.name)) && (o.Var? ==> o.n < next)
  {
    assert i in [i] && x in front + [i];
    if o.Var? {
      assert Uses(x, o.n);
    }
  }

  lemma CastFits(front: seq<Instr>, i: Instr, rest: seq<Instr>, next: Name, src: Operand)
    requires i.name < next && (forall x: Instr :: x in front ==> x.name != i.name && !Uses(x, i.name))
    requires forall y: Instr :: y in rest ==> i.name != y.name && src != Var(y.name)
    requires src != Var(i.name) && (src.Var? ==> src.n < next)
    ensures var news := [Instr(i.name, Cast(src))];
            SingleAssignment(news) && Before(front, news) && Before(news, rest) && NamesBelow(news, next + 2)
  {
    var j := Instr(i.name, Cast(src));
    forall n: Name ensures Uses(j, n) <==> src == Var(n) {}
  }

  lemma AddressFits(front: seq<Instr>, i: Instr, rest: seq<Instr>, next: Name, src: Operand, idx: Operand)
    requires NamesBelow(front, next) && NamesBelow(rest, next) && i.name < next
    requires forall x: Instr :: x in front ==> x.name != i.name && !Uses(x, i.name)
    requires forall y: Instr :: y in rest ==> i.name != y.name && src != Var(y.name) && idx != Var(y.name)
    requires src != Var(i.name) && idx != Var(i.name) && (src.Var? ==> src.n < next) && (idx.Var? ==> idx.n < next)
    ensures var news := Address(i.name, src, idx, next);
            SingleAssignment(news) && Before(front, news) && Before(news, rest) && NamesBelow(news, next + 2)
  {
    var news := Address(i.name, src, idx, next);
    forall n: Name ensures Uses(news[0], n) <==> src == Var(n) {}
    forall n: Name ensures Uses(news[1], n) <==> n == next || idx == Var(n) {}
    forall n: Name ensures Uses(news[2], n) <==> n == next + 1 {}
    hide Uses, Operands;
  }

  // ----- the pass

  /** `i` is a bitwise or of a converted pointer, and becomes a pointer again. */
  ghost predicate PointerOr(code: seq<Instr>, i: Instr) {
    && i in code && i.kind.Bin? && i.kind.op.Or?
    && (exists x: Instr :: x in code && x.kind.PtrToInt? && i.kind.a == Var(x.name))
    && (exists y: Instr :: y in code && y.kind.IntToPtr? && y.kind.src == Var(i.name))
  }

  /** In a run of the original, the operands of every bitwise or between a pointer and a pointer have no bit in
      common. */
  ghost predicate OrsDisjoint(code: seq<Instr>, env: Env) {
    forall i: Instr :: PointerOr(code, i) ==> Disjoint(Read(env, i.kind.a), Read(env, i.kind.b))
  }

  function NewNames(from: Name, next: Name): (r: set<Name>)
    ensures forall n: Name :: n in r <==> from <= n < next
  {
    if next <= from then {} else NewNames(from, next - 1) + {next - 1}
  }

  /** The code that is left keeps the values of all names that were neither erased nor are new. */
  ghost predicate Keeps(code0: seq<Instr>, code: seq<Instr>, gone: set<Name>) {
    forall m: Meaning, s: State :: OrsDisjoint(code0, Run(m, code0, s).env) ==>
                                   AgreeBut(Run(m, code0, s), Run(m, code, s), gone)
  }

  /** Between two iterations: nothing that was erased is used, sums and converted pointers are the original ones, and
      only instructions that make pointers of integers have changed. */
  ghost predicate Rewriting(code0: seq<Instr>, code: seq<Instr>, outer: set<Name>, erased: set<Name>, next0: Name,
                            next: Name) {
    && next0 <= next && SingleAssignment(code) && NamesBelow(code0, next0) && NamesBelow(code, next)
    && (forall x: Instr :: x in code && (x.kind.Bin? || x.kind.PtrToInt? || x.kind.IntToPtr?) ==> x in code0)
    && (forall n: Name :: n in erased ==> n < next && n !in outer && !UsedIn(code, n))
    && (forall x: Instr :: x in code0 && x.name !in erased ==> exists y: Instr :: y in code && y.name == x.name)
    && (forall x: Instr :: x in code0 && x.name !in erased && !x.kind.IntToPtr? ==> x in code)
    && Keeps(code0, code, erased + NewNames(next0, next))
  }

  lemma PartsOf(code: seq<Instr>, k: nat)
    requires k < |code|
    ensures code == code[..k] + [code[k]] + code[k + 1..]
  {
  }

  /** The condition on the original carries over to the code as it is when a match is found. */
  lemma OrCarried(m: Meaning, code0: seq<Instr>, code: seq<Instr>, k: nat, outer: set<Name>, erased: set<Name>,
                  next0: Name,
                  next: Name, s: State)
    requires Rewriting(code0, code, outer, erased, next0, next) && k < |code|
    requires OrsDisjoint(code0, Run(m, code0, s).env)
    ensures OrDisjoint(code[..k], code[k], Run(m, code[..k], s).env)
  {
    hide Run, SingleAssignment, Match, Disjoint, NamesBelow, Keeps, UsedIn, Read;
    var front, i := code[..k], code[k];
    var r := Match(front, i);
    if r.Arithmetic? && front[r.sum].kind.op.Or? {
      var x := front[r.sum];
      assert x in code && front[r.conv] in code && i in code;
      assert PointerOr(code0, x);
      OperandCarried(m, code0, code, k, outer, erased, next0, next, s, x, x.kind.a);
      OperandCarried(m, code0, code, k, outer, erased, next0, next, s, x, x.kind.b);
    }
  }

  lemma OperandCarried(m: Meaning, code0: seq<Instr>, code: seq<Instr>, k: nat, outer: set<Name>, erased: set<Name>,
                       next0: Name,
                       next: Name, s: State, x: Instr, o: Operand)
    requires Rewriting(code0, code, outer, erased, next0, next) && k < |code| && x in code[..k] && x in code0
    requires OrsDisjoint(code0, Run(m, code0, s).env) && o in Operands(x.kind)
    ensures Read(Run(m, code[..k], s).env, o) == Read(Run(m, code0, s).env, o)
  {
    var front, rest := code[..k], code[k..];
    assert code == front + rest;
    AssignedInParts(front, rest);
    RunAppend(m, front, rest, s);
    hide Run, SingleAssignment, Match, NamesBelow;
    if o.Var? {
      assert Uses(x, o.n);
      RunKeeps(m, rest, Run(m, front, s), o.n);
      var j: nat :| j < |front| && front[j] == x;
      assert Uses(code[j], o.n);
      assert o.n !in erased && o.n < next0;
    }
  }

  lemma UsedInParts(a: seq<Instr>, b: seq<Instr>, n: Name)
    ensures UsedIn(a + b, n) <==> UsedIn(a, n) || UsedIn(b, n)
  {
    var c := a + b;
    if UsedIn(a, n) {
      var k :| 0 <= k < |a| && Uses(a[k], n);
      assert Uses(c[k], n);
    }
    if UsedIn(b, n) {
      var k :| 0 <= k < |b| && Uses(b[k], n);
      assert Uses(c[|a| + k], n);
    }
    if UsedIn(c, n) {
      var k :| 0 <= k < |c| && Uses(c[k], n);
      assert k < |a| ==> Uses(a[k], n);
      assert k >= |a| ==> Uses(b[k - |a|], n);
    }
  }

  /** New instructions only use new names and what matched instructions use. */
  lemma NewsUse(front: seq<Instr>, i: Instr, next: Name, n: Name)
    requires Match(front, i) != NoMatch && UsedIn(NewInstrs(front, i, next), n) && n < next
    ensures UsedIn(front, n)
  {
    var news := NewInstrs(front, i, next);
    var k :| 0 <= k < |news| && Uses(news[k], n);
    match Match(front, i)
    case Conversion(conv) => assert Uses(front[conv], n);
    case Arithmetic(sum, conv) =>
      if k == 0 {
        assert Uses(front[conv], n);
      } else {
        assert Uses(front[sum], n);
      }
  }

  lemma ReplaceUses(front: seq<Instr>, i: Instr, rest: seq<Instr>, next: Name, n: Name)
    requires Match(front, i) != NoMatch && n < next && !UsedIn(front + [i] + rest, n)
    ensures !UsedIn(front + NewInstrs(front, i, next) + rest, n)
  {
    hide Match, NewInstrs, UsedIn;
    var news := NewInstrs(front, i, next);
    UsedInParts(front + [i], rest, n);
    UsedInParts(front, [i], n);
    UsedInParts(front + news, rest, n);
    UsedInParts(front, news, n);
    if UsedIn(news, n) {
      NewsUse(front, i, next, n);
    }
  }

  lemma ReplaceKeepsAll(code0: seq<Instr>, code: seq<Instr>, k: nat, outer: set<Name>, erased: set<Name>, next0: Name,
                        next: Name)
    requires Rewriting(code0, code, outer, erased, next0, next) && k < |code|
    ensures Keeps(code0, code[..k] + NewInstrs(code[..k], code[k], next) + code[k + 1..],
                  erased + NewNames(next0, next + 2))
  {
    var front, i, rest := code[..k], code[k], code[k + 1..];
    var code' := front + NewInstrs(front, i, next) + rest;
    PartsOf(code, k);
    var gone, gone' := erased + NewNames(next0, next), erased + NewNames(next0, next + 2);
    assert gone + {next, next + 1} == gone';
    forall m: Meaning, s: State | OrsDisjoint(code0, Run(m, code0, s).env)
      ensures AgreeBut(Run(m, code0, s), Run(m, code', s), gone')
    {
      hide SingleAssignment, Match, NewInstrs, UsedIn, NamesBelow, OrsDisjoint, OrDisjoint, Run, NewNames;
      OrCarried(m, code0, code, k, outer, erased, next0, next, s);
      ReplaceKeeps(m, front, i, rest, next, s);
      AgreeChains(Run(m, code0, s), Run(m, code, s), Run(m, code', s), gone, {next, next + 1});
    }
  }

  lemma ReplaceRewriting(code0: seq<Instr>, code: seq<Instr>, k: nat, outer: set<Name>, erased: set<Name>, next0: Name,
                         next: Name)
    requires Rewriting(code0, code, outer, erased, next0, next) && k < |code| && Match(code[..k], code[k]) != NoMatch
    ensures Rewriting(code0, code[..k] + NewInstrs(code[..k], code[k], next) + code[k + 1..], outer, erased, next0,
                      next + 2)
  {
    hide SingleAssignment, Match, NewInstrs, UsedIn, NamesBelow, Keeps;
    var front, i, rest := code[..k], code[k], code[k + 1..];
    PartsOf(code, k);
    ReplaceAssigned(front, i, rest, next);
    forall n: Name | n in erased ensures !UsedIn(front + NewInstrs(front, i, next) + rest, n) {
      ReplaceUses(front, i, rest, next, n);
    }
    ReplaceNames(code0, code, k, erased, next);
    ReplaceKeepsAll(code0, code, k, outer, erased, next0, next);
  }

  /** No name is lost, and no sum or conversion is new. */
  lemma ReplaceNames(code0: seq<Instr>, code: seq<Instr>, k: nat, erased: set<Name>, next: Name)
    requires k < |code| && Match(code[..k], code[k]) != NoMatch
    requires forall x: Instr :: x in code && (x.kind.Bin? || x.kind.PtrToInt? || x.kind.IntToPtr?) ==> x in code0
    requires forall x: Instr :: x in code0 && x.name !in erased ==> exists y: Instr :: y in code && y.name == x.name
    requires forall x: Instr :: x in code0 && x.name !in erased && !x.kind.IntToPtr? ==> x in code
    ensures var code' := code[..k] + NewInstrs(code[..k], code[k], next) + code[k + 1..];
            && (forall x: Instr :: x in code' && (x.kind.Bin? || x.kind.PtrToInt? || x.kind.IntToPtr?) ==> x in code0)
            && (forall x: Instr :: x in code0 && x.name !in erased ==>
                                   exists y: Instr :: y in code' && y.name == x.name)
            && (forall x: Instr :: x in code0 && x.name !in erased && !x.kind.IntToPtr? ==> x in code')
  {
    var front, i, rest := code[..k], code[k], code[k + 1..];
    var news := NewInstrs(front, i, next);
    var code' := front + news + rest;
    PartsOf(code, k);
    assert news[|news| - 1].name == i.name && news[|news| - 1] in code';
    forall x: Instr | x in news ensures !x.kind.Bin? && !x.kind.PtrToInt? {
    }
    hide Match, NewInstrs;
    forall x: Instr | x in code0 && x.name !in erased ensures exists y: Instr :: y in code' && y.name == x.name {
      var y: Instr :| y in code && y.name == x.name;
      if y != i {
        assert y in front || y in rest;
        assert y in code';
      }
    }
  }

  lemma EraseRewriting(code0: seq<Instr>, code: seq<Instr>, p: nat, outer: set<Name>, erased: set<Name>, next0: Name,
                       next: Name)
    requires Rewriting(code0, code, outer, erased, next0, next) && p < |code|
             && (code[p].kind.Bin? || code[p].kind.PtrToInt?)
    requires !UsedIn(code, code[p].name) && code[p].name !in outer
    ensures Rewriting(code0, code[..p] + code[p + 1..], outer, erased + {code[p].name}, next0, next)
  {
    var a, j, b := code[..p], code[p], code[p + 1..];
    var code' := a + b;
    PartsOf(code, p);
    EraseAssigned(a, j, b);
    BelowInParts(a + [j], b, next);
    BelowInParts(a, [j], next);
    BelowInParts(a, b, next);
    forall n: Name | UsedIn(code', n) ensures UsedIn(code, n) {
      UsedInParts(a, b, n);
      UsedInParts(a + [j], b, n);
      UsedInParts(a, [j], n);
    }
    UsedInParts(a + [j], b, j.name);
    assert j in [j] && j.name < next;
    hide SingleAssignment, UsedIn, NamesBelow, OrsDisjoint, Run;
    var gone, gone' := erased + NewNames(next0, next), erased + {j.name} + NewNames(next0, next);
    assert gone + {j.name} == gone';
    forall m: Meaning, s: State | OrsDisjoint(code0, Run(m, code0, s).env)
      ensures AgreeBut(Run(m, code0, s), Run(m, code', s), gone')
    {
      EraseKeeps(m, a, j, b, s);
      AgreeChains(Run(m, code0, s), Run(m, code, s), Run(m, code', s), gone, {j.name});
    }
    forall x: Instr | x in code0 && x.name !in erased + {j.name}
      ensures exists y: Instr :: y in code' && y.name == x.name
    {
      var y: Instr :| y in code && y.name == x.name;
      assert y in code';
    }
  }

  /** Erases the definition of a name that is used no more. */
  method EraseIfUnused(code: seq<Instr>, n: Name, outer: set<Name>) returns (left: seq<Instr>, gone: bool)
    ensures var p := FindDef(code, n);
            && gone == (p < |code| && !UsedIn(code, n) && n !in outer)
            && left == if gone then code[..p] + code[p + 1..] else code
  {
    var p := FindDef(code, n);
    gone := p < |code| && !UsedIn(code, n) && n !in outer;
    left := if gone then code[..p] + code[p + 1..] else code;
  }

  lemma OneDefinition(code: seq<Instr>, i: nat, j: nat)
    requires SingleAssignment(code) && i < |code| && j < |code|
    ensures code[i].name == code[j].name ==> i == j
  {
    if i < j {
      assert code[i].name != code[j].name;
    } else if j < i {
      assert code[j].name != code[i].name;
    }
  }

  lemma DefIsOriginal(code: seq<Instr>, x: Instr)
    requires SingleAssignment(code) && x in code
    ensures FindDef(code, x.name) < |code| && code[FindDef(code, x.name)] == x
  {
    var j: nat :| j < |code| && code[j] == x;
    OneDefinition(code, FindDef(code, x.name), j);
  }

  // ----- what is left

  /** `x` is a sum of an index and an integer made of a pointer that comes from an integer. */
  ghost predicate PointerSum(code: seq<Instr>, x: Instr) {
    && x.kind.Bin? && x.kind.op in {Add, Or}
    && exists c: Instr, h: Instr :: c in code && h in code && x.kind.a == Var(c.name) && c.kind.PtrToInt?
                                    && c.kind.src == Var(h.name) && h.kind.IntToPtr?
  }

  /** `i` makes a pointer of a converted pointer, or of a sum of one. */
  ghost predicate Convertible(code: seq<Instr>, i: Instr, x: Instr) {
    i in code && x in code && i.kind == IntToPtr(Var(x.name)) && (x.kind.PtrToInt? || PointerSum(code, x))
  }

  ghost predicate NoneConvertible(code: seq<Instr>) {
    forall i: Instr, x: Instr :: !Convertible(code, i, x)
  }

  /** The sums and conversions that the original code uses. */
  ghost predicate UsedInteger(code0: seq<Instr>, x: Instr) {
    x in code0 && (x.kind.Bin? || x.kind.PtrToInt?) && UsedIn(code0, x.name)
  }

  ghost predicate Defines(code: seq<Instr>, n: Name) {
    exists y: Instr :: y in code && y.name == n
  }

  /** Of the names of the original, exactly those are gone that were used sums or conversions, and are used no more,
      neither here nor elsewhere. */
  ghost predicate ErasedExact(code0: seq<Instr>, code: seq<Instr>, outer: set<Name>) {
    forall x: Instr :: x in code0 ==>
                         (!Defines(code, x.name) <==>
                          UsedInteger(code0, x) && x.name !in outer && !UsedIn(code, x.name))
  }

  /** Between two iterations, where the pending names are still to be looked at: what was used is used or erased. */
  ghost predicate Clearing(code0: seq<Instr>, code: seq<Instr>, outer: set<Name>, erased: set<Name>,
                           pending: set<Name>) {
    && (forall x: Instr :: UsedInteger(code0, x) && x.name !in outer + erased + pending ==> UsedIn(code, x.name))
    && (forall n: Name :: n in erased ==> !Defines(code, n) && exists x: Instr :: UsedInteger(code0, x) && x.name == n)
  }

  ghost predicate UsedBesides(code: seq<Instr>, x: Instr, n: Name) {
    exists z: Instr :: z in code && z != x && Uses(z, n)
  }

  /** Other code uses what the instruction uses, but for the pending names. */
  ghost predicate LeftUsed(code: seq<Instr>, x: Instr, pending: set<Name>) {
    forall n: Name :: Uses(x, n) && n !in pending ==> UsedBesides(code, x, n)
  }

  /** What is defined in code in single assignment form is defined before its uses. */
  lemma UsedIsBefore(front: seq<Instr>, i: Instr, y: Instr, x: Instr)
    requires SingleAssignment(front + [i]) && y in front + [i] && x in front + [i] && Uses(y, x.name)
    ensures x in front
  {
    AssignedInParts(front, [i]);
    assert i in [i] && [i][0] == i && !Uses([i][0], [i][0].name);
  }

  lemma SumIsBefore(front: seq<Instr>, i: Instr, x: Instr)
    requires SingleAssignment(front + [i]) && PointerSum(front + [i], x) && x in front
    ensures PointerSum(front, x)
  {
    hide SingleAssignment;
    var c: Instr, h: Instr :| c in front + [i] && h in front + [i] && x.kind.a == Var(c.name) && c.kind.PtrToInt?
                              && c.kind.src == Var(h.name) && h.kind.IntToPtr?;
    assert Uses(x, c.name) && Uses(c, h.name);
    UsedIsBefore(front, i, x, c);
    UsedIsBefore(front, i, c, h);
  }

  lemma ConvertibleMatches(front: seq<Instr>, i: Instr, x: Instr)
    requires SingleAssignment(front) && x in front && i.kind == IntToPtr(Var(x.name))
    requires x.kind.PtrToInt? || PointerSum(front, x)
    ensures Match(front, i) != NoMatch
  {
    hide SingleAssignment;
    DefIsOriginal(front, x);
    if x.kind.Bin? {
      var c: Instr, h: Instr :| c in front && h in front && x.kind.a == Var(c.name) && c.kind.PtrToInt?
                                && c.kind.src == Var(h.name) && h.kind.IntToPtr?;
      DefIsOriginal(front, c);
      DefIsOriginal(front, h);
    }
  }

  lemma NoMatchLeavesNone(front: seq<Instr>, i: Instr)
    requires SingleAssignment(front + [i]) && NoneConvertible(front) && Match(front, i) == NoMatch
    ensures NoneConvertible(front + [i])
  {
    AssignedInParts(front, [i]);
    hide SingleAssignment, PointerSum, Match;
    forall y: Instr, x: Instr
      ensures !Convertible(front + [i], y, x)
    {
      if Convertible(front + [i], y, x) {
        assert Uses(y, x.name);
        UsedIsBefore(front, i, y, x);
        if !x.kind.PtrToInt? {
          SumIsBefore(front, i, x);
        }
        assert y in front ==> !Convertible(front, y, x);
        if y !in front {
          ConvertibleMatches(front, i, x);
        }
      }
    }
  }

  /** Integers and conversions among some instructions are convertible among more. */
  lemma ConvertibleStays(fewer: seq<Instr>, code: seq<Instr>, y: Instr, x: Instr)
    requires forall z: Instr :: z in fewer && (z.kind.Bin? || z.kind.PtrToInt? || z.kind.IntToPtr?) ==> z in code
    requires Convertible(fewer, y, x)
    ensures Convertible(code, y, x)
  {
  }

  lemma FewerLeaveNone(code: seq<Instr>, fewer: seq<Instr>)
    requires forall z: Instr :: z in fewer && (z.kind.Bin? || z.kind.PtrToInt? || z.kind.IntToPtr?) ==> z in code
    requires NoneConvertible(code)
    ensures NoneConvertible(fewer)
  {
    hide Convertible;
    forall y: Instr, x: Instr
      ensures !Convertible(fewer, y, x)
    {
      if Convertible(fewer, y, x) {
        ConvertibleStays(fewer, code, y, x);
      }
    }
  }

  lemma NewsLeaveNone(front: seq<Instr>, i: Instr, next: Name)
    requires NoneConvertible(front) && Match(front, i) != NoMatch
    ensures NoneConvertible(front + NewInstrs(front, i, next))
  {
    hide Match, NewInstrs;
    NewsNames(front, i, next);
    FewerLeaveNone(front, front + NewInstrs(front, i, next));
  }

  lemma UsedByMember(code: seq<Instr>, y: Instr, n: Name)
    requires y in code && Uses(y, n)
    ensures UsedIn(code, n)
  {
  }

  /** A replaced instruction takes away the use of the integer that it converted, and no other. */
  lemma ReplaceClears(code0: seq<Instr>, code: seq<Instr>, k: nat, outer: set<Name>, erased: set<Name>, next0: Name,
                      next: Name)
    requires Rewriting(code0, code, outer, erased, next0, next) && k < |code| && Match(code[..k], code[k]) != NoMatch
    requires Clearing(code0, code, outer, erased, {})
    ensures Clearing(code0, code[..k] + NewInstrs(code[..k], code[k], next) + code[k + 1..], outer, erased,
                     {code[k].kind.src.n})
  {
    hide Match, NewInstrs, Clearing, Keeps, SingleAssignment, NamesBelow, UsedIn;
    PartsOf(code, k);
    NewsNames(code[..k], code[k], next);
    NewsClear(code0, code[..k], code[k], code[k + 1..], NewInstrs(code[..k], code[k], next), outer, erased, next);
  }

  lemma NewsClear(code0: seq<Instr>, front: seq<Instr>, i: Instr, rest: seq<Instr>, news: seq<Instr>,
                  outer: set<Name>, erased: set<Name>, next: Name)
    requires i.kind.IntToPtr? && i.kind.src.Var? && forall n: Name :: n in erased ==> n < next
    requires forall y: Instr :: y in news ==> y.name == i.name || y.name >= next
    requires Clearing(code0, front + [i] + rest, outer, erased, {})
    ensures Clearing(code0, front + news + rest, outer, erased, {i.kind.src.n})
  {
    hide UsedIn, UsedInteger;
    OtherUsesStay(front, i, rest, news);
    assert i in front + [i] + rest;
    forall n: Name | n in erased ensures !Defines(front + news + rest, n) {
      assert !Defines(front + [i] + rest, n) && n != i.name;
      NotDefined(front, i, rest, news, n);
    }
    hide Defines;
  }

  lemma OtherUsesStay(front: seq<Instr>, i: Instr, rest: seq<Instr>, news: seq<Instr>)
    requires i.kind.IntToPtr? && i.kind.src.Var?
    ensures forall n: Name :: UsedIn(front + [i] + rest, n) && n != i.kind.src.n ==> UsedIn(front + news + rest, n)
  {
    hide UsedIn;
    forall n: Name | UsedIn(front + [i] + rest, n) && n != i.kind.src.n ensures UsedIn(front + news + rest, n) {
      OtherUseStays(front, i, rest, news, n);
    }
  }

  lemma NewsNames(front: seq<Instr>, i: Instr, next: Name)
    requires Match(front, i) != NoMatch
    ensures i.kind.IntToPtr? && i.kind.src.Var?
    ensures forall y: Instr :: y in NewInstrs(front, i, next) ==> y.name == i.name || y.name >= next
    ensures forall y: Instr :: y in NewInstrs(front, i, next) ==> y.kind.Cast? || y.kind.Gep?
  {
  }

  lemma NotDefined(front: seq<Instr>, i: Instr, rest: seq<Instr>, news: seq<Instr>, n: Name)
    requires !Defines(front + [i] + rest, n) && forall y: Instr :: y in news ==> y.name != n
    ensures !Defines(front + news + rest, n)
  {
    assert forall y: Instr :: y in front + news + rest ==> y in front + [i] + rest || y in news;
  }

  lemma OtherUseStays(front: seq<Instr>, i: Instr, rest: seq<Instr>, news: seq<Instr>, n: Name)
    requires UsedIn(front + [i] + rest, n) && !Uses(i, n)
    ensures UsedIn(front + news + rest, n)
  {
    UsedInParts(front + [i], rest, n);
    UsedInParts(front, [i], n);
    UsedInParts(front + news, rest, n);
    UsedInParts(front, news, n);
  }

  /** Where an unused instruction is erased, what it used is pending or still used. */
  lemma EraseClears(code0: seq<Instr>, code: seq<Instr>, p: nat, outer: set<Name>, erased: set<Name>,
                    pending: set<Name>)
    requires p < |code| && SingleAssignment(code) && UsedInteger(code0, code[p])
    requires Clearing(code0, code, outer, erased, {code[p].name})
    requires LeftUsed(code, code[p], pending)
    ensures Clearing(code0, code[..p] + code[p + 1..], outer, erased + {code[p].name}, pending)
  {
    UsesSurvive(code, p, pending);
    NotDefinedAgain(code, p);
    hide UsedIn, UsedInteger, LeftUsed, SingleAssignment;
    assert forall y: Instr :: y in code[..p] + code[p + 1..] ==> y in code;
  }

  lemma UsesSurvive(code: seq<Instr>, p: nat, pending: set<Name>)
    requires p < |code| && LeftUsed(code, code[p], pending)
    ensures forall n: Name :: UsedIn(code, n) && n !in pending ==> UsedIn(code[..p] + code[p + 1..], n)
  {
    var x, code' := code[p], code[..p] + code[p + 1..];
    PartsOf(code, p);
    hide UsedIn, Uses;
    forall n: Name | UsedIn(code, n) && n !in pending ensures UsedIn(code', n) {
      if Uses(x, n) {
        var z: Instr :| z in code && z != x && Uses(z, n);
        assert z in code';
        UsedByMember(code', z, n);
      } else {
        OtherUseStays(code[..p], x, code[p + 1..], [], n);
        assert code[..p] + [] + code[p + 1..] == code';
      }
    }
  }

  lemma NotDefinedAgain(code: seq<Instr>, p: nat)
    requires p < |code| && SingleAssignment(code)
    ensures !Defines(code[..p] + code[p + 1..], code[p].name)
  {
    var code' := code[..p] + code[p + 1..];
    hide Uses;
    forall j | 0 <= j < |code'| ensures code'[j].name != code[p].name {
      assert code'[j] == code[if j < p then j else j + 1];
    }
  }

  /** With nothing pending, exactly the used sums and conversions that are used no more are gone. */
  lemma ClearedIsExact(code0: seq<Instr>, code: seq<Instr>, outer: set<Name>, erased: set<Name>, next0: Name,
                       next: Name)
    requires SingleAssignment(code0) && Rewriting(code0, code, outer, erased, next0, next)
    requires Clearing(code0, code, outer, erased, {})
    ensures ErasedExact(code0, code, outer)
    ensures forall n: Name :: n in erased <==> Defines(code0, n) && !Defines(code, n)
  {
    hide Keeps, NamesBelow, UsedIn;
    forall x: Instr | x in code0
      ensures !Defines(code, x.name) <==> UsedInteger(code0, x) && x.name !in outer && !UsedIn(code, x.name)
      ensures x.name in erased <==> !Defines(code, x.name)
    {
      if x.name in erased {
        var y: Instr :| UsedInteger(code0, y) && y.name == x.name;
        DefIsOriginal(code0, x);
        DefIsOriginal(code0, y);
      }
    }
  }

  /** The invariant of the walk, before it looks at instruction `it`. */
  ghost predicate Between(code0: seq<Instr>, code: seq<Instr>, outer: set<Name>, erased: set<Name>, next0: Name,
                          next: Name, it: nat) {
    && it <= |code| && Rewriting(code0, code, outer, erased, next0, next)
    && NoneConvertible(code[..it]) && Clearing(code0, code, outer, erased, {})
  }

  class PeepholeOptimizationPass {
    var code: seq<Instr>
    var next: Name

    constructor (code: seq<Instr>, next: Name)
      ensures this.code == code && this.next == next
    {
      this.code, this.next := code, next;
    }

    /** Puts the new instructions in the place of the one at `it` and moves on behind them. */
    method Replace(it: nat, outer: set<Name>, ghost code0: seq<Instr>, ghost erased: set<Name>,
                   ghost next0: Name) returns (behind: nat)
      requires Rewriting(code0, code, outer, erased, next0, next) && it < |code|
               && Match(code[..it], code[it]) != NoMatch
      modifies this
      ensures Rewriting(code0, code, outer, erased, next0, next)
      ensures it < behind <= |code| && |code| - behind == |old(code)| - it - 1
      ensures code[..behind] == old(code)[..it] + NewInstrs(old(code)[..it], old(code)[it], old(next))
      ensures old(Clearing(code0, code, outer, erased, {})) ==>
                Clearing(code0, code, outer, erased, {old(code)[it].kind.src.n})
    {
      hide Rewriting, Match, Clearing;
      ReplaceRewriting(code0, code, it, outer, erased, next0, next);
      if Clearing(code0, code, outer, erased, {}) {
        ReplaceClears(code0, code, it, outer, erased, next0, next);
      }
      var front := code[..it];
      var news := NewInstrs(front, code[it], next);
      code := front + news + code[it + 1..];
      next := next + 2;
      behind := it + |news|;
    }

    /** Erases instruction `x` if nothing uses it any more. */
    method Erase(x: Instr, it: nat, outer: set<Name>, ghost code0: seq<Instr>, ghost erased: set<Name>,
                 ghost next0: Name, ghost pending: set<Name>)
      returns (behind: nat, ghost erased': set<Name>)
      requires it <= |code| && Rewriting(code0, code, outer, erased, next0, next)
      requires x in code[..it] && UsedInteger(code0, x) && Clearing(code0, code, outer, erased, {x.name})
      requires LeftUsed(code, x, pending)
      modifies this`code
      ensures Rewriting(code0, code, outer, erased', next0, next) && Clearing(code0, code, outer, erased', pending)
      ensures behind <= |code| && |code| - behind == |old(code)| - it
      ensures forall y: Instr :: y in code[..behind] ==> y in old(code)[..it]
      ensures forall y: Instr :: y in old(code)[..it] && y != x ==> y in code[..behind]
    {
      hide Rewriting, UsedIn, Uses, Clearing, SingleAssignment, UsedInteger, LeftUsed;
      var gone;
      ghost var p := IsDefined(code0, code, outer, erased, next0, next, x, it);
      StillUsed(code0, code, outer, erased, x, pending);
      ghost var before := code;
      code, gone := EraseIfUnused(code, x.name, outer);
      behind, erased' := it, erased;
      if gone {
        EraseRewriting(code0, before, p, outer, erased, next0, next);
        EraseClears(code0, before, p, outer, erased, pending);
        behind, erased' := it - 1, erased + {x.name};
        assert code[..behind] == before[..p] + before[p + 1..it];
        assert before[..it] == before[..p] + [x] + before[p + 1..it];
      }
    }

    /** Rewrites the matched instruction at `it`, and erases the sum and the conversion if they are used no more. */
    method Rewrite(it: nat, outer: set<Name>, ghost code0: seq<Instr>, ghost erased: set<Name>, ghost next0: Name)
      returns (behind: nat, ghost erased': set<Name>)
      requires it < |code| && Match(code[..it], code[it]) != NoMatch
      requires Between(code0, code, outer, erased, next0, next, it)
      modifies this
      ensures Between(code0, code, outer, erased', next0, next, behind)
      ensures behind <= |code| && |code| - behind == |old(code)| - it - 1
    {
      hide Rewriting, Match, NewInstrs, Clearing, NoneConvertible, UsedIn, UsedInteger, LeftUsed;
      var front := code[..it];
      var r := Match(front, code[it]);
      ghost var news := NewInstrs(front, code[it], next);
      NewsLeaveNone(front, code[it], next);
      MatchedUses(code0, code, outer, erased, next0, next, it);
      behind := Replace(it, outer, code0, erased, next0);
      erased' := erased;
      assert forall z: Instr :: z in news ==> z in code[..behind];
      if r.Arithmetic? {
        LeftUsedStays(news, code, front[r.sum], {front[r.conv].name});
        ghost var before := code[..behind];
        behind, erased' := Erase(front[r.sum], behind, outer, code0, erased', next0, {front[r.conv].name});
        FewerLeaveNone(before, code[..behind]);
        assert forall z: Instr :: z in news ==> z in code[..behind];
      }
      LeftUsedStays(news, code, front[r.conv], {});
      ghost var before := code[..behind];
      behind, erased' := Erase(front[r.conv], behind, outer, code0, erased', next0, {});
      FewerLeaveNone(before, code[..behind]);
    }

    /** The walk over the code. Names used elsewhere are in `outer`. */
    method Run(outer: set<Name>) returns (ghost erased: set<Name>)
      requires SingleAssignment(code) && NamesBelow(code, next)
      modifies this
      ensures Rewriting(old(code), code, outer, erased, old(next), next)
      ensures NoneConvertible(code) && ErasedExact(old(code), code, outer)
      ensures forall n: Name :: n in erased <==> Defines(old(code), n) && !Defines(code, n)
    {
      hide Rewriting, Match, Clearing, NoneConvertible;
      ghost var code0, next0 := code, next;
      erased := {};
      Begins(code, outer, next);
      var it: nat := 0;
      while it < |code|
        invariant it <= |code| && Between(code0, code, outer, erased, next0, next, it)
        decreases |code| - it
      {
        if Match(code[..it], code[it]).NoMatch? {
          NoMatchContinues(code0, code, outer, erased, next0, next, it);
          it := it + 1;
        } else {
          it, erased := Rewrite(it, outer, code0, erased, next0);
        }
      }
      assert code[..|code|] == code;
      ClearedIsExact(code0, code, outer, erased, next0, next);
    }
  }

  lemma IsDefined(code0: seq<Instr>, code: seq<Instr>, outer: set<Name>, erased: set<Name>, next0: Name, next: Name,
                  x: Instr, it: nat)
    returns (p: nat)
    requires Rewriting(code0, code, outer, erased, next0, next) && it <= |code| && x in code[..it]
    ensures p == FindDef(code, x.name) && p < it && code[p] == x && SingleAssignment(code)
  {
    p := FindDef(code, x.name);
    DefIsOriginal(code, x);
    var j: nat :| j < it && code[j] == x;
    OneDefinition(code, p, j);
  }

  lemma StillUsed(code0: seq<Instr>, code: seq<Instr>, outer: set<Name>, erased: set<Name>, x: Instr,
                  pending: set<Name>)
    requires Clearing(code0, code, outer, erased, {x.name}) && UsedInteger(code0, x)
    ensures x.kind.Bin? || x.kind.PtrToInt?
    ensures UsedIn(code, x.name) || x.name in outer ==> Clearing(code0, code, outer, erased, pending)
  {
    hide UsedIn, Defines;
  }

  lemma Begins(code: seq<Instr>, outer: set<Name>, next: Name)
    requires SingleAssignment(code) && NamesBelow(code, next)
    ensures Rewriting(code, code, outer, {}, next, next) && NoneConvertible([]) && Clearing(code, code, outer, {}, {})
  {
  }

  lemma NoMatchContinues(code0: seq<Instr>, code: seq<Instr>, outer: set<Name>, erased: set<Name>, next0: Name,
                         next: Name, it: nat)
    requires Rewriting(code0, code, outer, erased, next0, next) && it < |code|
    requires NoneConvertible(code[..it]) && Match(code[..it], code[it]) == NoMatch
    ensures NoneConvertible(code[..it + 1])
  {
    assert code[..it + 1] == code[..it] + [code[it]];
    assert code == code[..it + 1] + code[it + 1..];
    AssignedInParts(code[..it + 1], code[it + 1..]);
    NoMatchLeavesNone(code[..it], code[it]);
  }

  /** What the sum and the conversion use is used by the new instructions, but that the sum uses the conversion. */
  lemma MatchedUses(code0: seq<Instr>, code: seq<Instr>, outer: set<Name>, erased: set<Name>, next0: Name,
                    next: Name, it: nat)
    requires Rewriting(code0, code, outer, erased, next0, next) && it < |code|
    ensures var front, i := code[..it], code[it];
            var r, news := Match(front, i), NewInstrs(front, i, next);
            && (!r.NoMatch? ==> UsedInteger(code0, front[r.conv]) && LeftUsed(news, front[r.conv], {}))
            && (r.Conversion? ==> i.kind.src.n == front[r.conv].name)
            && (r.Arithmetic? ==>
                  && UsedInteger(code0, front[r.sum]) && LeftUsed(news, front[r.sum], {front[r.conv].name})
                  && front[r.sum] != front[r.conv] && front[r.sum] !in news && i.kind.src.n == front[r.sum].name)
  {
    var front, i := code[..it], code[it];
    var r, news := Match(front, i), NewInstrs(front, i, next);
    assert forall x: Instr :: x in front ==> x in code;
    assert i in code;
    hide SingleAssignment, Keeps, NamesBelow, NewInstrs, UsedIn;
    if r != NoMatch {
      NewsNames(front, i, next);
      NewsUseAll(front, i, next);
      hide LeftUsed;
      assert front[r.conv] in code;
      if r.Conversion? {
        UsedByMember(code0, i, front[r.conv].name);
      } else {
        var sum := front[r.sum];
        assert sum in code;
        UsedByMember(code0, i, sum.name);
        UsedByMember(code0, sum, front[r.conv].name);
      }
    }
  }

  lemma LeftUsedStays(news: seq<Instr>, code: seq<Instr>, x: Instr, pending: set<Name>)
    requires LeftUsed(news, x, pending) && forall z: Instr :: z in news ==> z in code
    ensures LeftUsed(code, x, pending)
  {
    forall n: Name | Uses(x, n) && n !in pending ensures UsedBesides(code, x, n) {
      assert UsedBesides(news, x, n);
    }
  }

  lemma NewsUseAll(front: seq<Instr>, i: Instr, next: Name)
    requires Match(front, i) != NoMatch
    ensures var r, news := Match(front, i), NewInstrs(front, i, next);
            && LeftUsed(news, front[r.conv], {})
            && (r.Arithmetic? ==> LeftUsed(news, front[r.sum], {front[r.conv].name}))
  {
    var r, news := Match(front, i), NewInstrs(front, i, next);
    var conv, x := front[r.conv], news[0];
    assert Operands(x.kind) == Operands(conv.kind) && x in news;
    assert x != conv;
    assert forall n: Name :: Uses(conv, n) ==> Uses(x, n);
    if r.Arithmetic? {
      var sum, y := front[r.sum], news[1];
      assert sum.kind.b in Operands(y.kind) && y in news;
      hide Match, NewInstrs;
      assert forall n: Name :: Uses(sum, n) && n != conv.name ==> Uses(y, n);
    }
  }

  /** What the pass guarantees: every instruction that is left from the original has the value it had, memory is the
      same, and what was erased is used nowhere, provided that every bitwise or of a converted pointer has operands
      without a common bit. */
  lemma SurvivorsKeepValues(m: Meaning, code0: seq<Instr>, code: seq<Instr>, outer: set<Name>, erased: set<Name>,
                            next0: Name,
                            next: Name, s: State, x: Instr)
    requires Rewriting(code0, code, outer, erased, next0, next) && OrsDisjoint(code0, Run(m, code0, s).env)
    requires x in code0
    ensures var t, u := Run(m, code0, s), Run(m, code, s);
            && t.mem == u.mem
            && if x.name in erased then x.name !in outer && !UsedIn(code, x.name)
               else Read(t.env, Var(x.name)) == Read(u.env, Var(x.name))
  {
    assert x.name < next0;
  }
}
