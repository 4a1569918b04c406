/** Tracking of values by sets of strided intervals. The sets live on the heap and are shared between locations that
    hold the same value. */
module ValueSetAnalysis {
  import opened Wrappers
  import opened ReducedIntervalCongruence

  datatype Aloc = Register(n: nat) | LocalMem(address: int) | GlobalMem(address: int)

  /** An interval in a memory region; region 0 stands for plain numbers. */
  datatype RgnRIC = RgnRIC(region: nat, ric: RIC)

  /** What the analysis knows: for some locations, a set of intervals. */
  type Contents = map<Aloc, set<RgnRIC>>

  function Only(v: int): set<RgnRIC> {
    {RgnRIC(0, Constant(v))}
  }

  // ----- the operations, on what is known

  function OrZero(c: Contents, dest: Aloc): Contents {
    if dest in c then c else c[dest := Only(0)]
  }

  function AssignSrc(c: Contents, dest: Aloc, src: Aloc): Contents {
    if src in c then c[dest := c[src]] else c[src := Only(0)][dest := Only(0)]
  }

  function Sum(p: RgnRIC, q: RgnRIC): RgnRIC {
    RgnRIC(p.region, p.ric.(offset := p.ric.offset + q.ric.offset))
  }

  /** Every interval of the one set, moved by the offset of every interval of the other. */
  function Cross(dest: set<RgnRIC>, src: set<RgnRIC>): set<RgnRIC> {
    set p, q | p in dest && q in src :: Sum(p, q)
  }

  function Scaled(p: RgnRIC, times: int): RgnRIC {
    RgnRIC(p.region, MultiplyRIC(p.ric, times))
  }

  function Multiplied(s: set<RgnRIC>, times: int): set<RgnRIC> {
    set p | p in s :: Scaled(p, times)
  }

  function Moved(p: RgnRIC, value: int): RgnRIC {
    RgnRIC(p.region, AdjustRIC(p.ric, value))
  }

  function Adjusted(s: set<RgnRIC>, value: int): set<RgnRIC> {
    set p | p in s :: Moved(p, value)
  }

  function AddSrcTimes(c: Contents, dest: Aloc, src: Aloc, times: int): Contents {
    var c0 := OrZero(c, dest);
    if times == 0 || src !in c0 then c0
    else c0[dest := Cross(c0[dest], if times == 1 then c0[src] else Multiplied(c0[src], times))]
  }

  function AddImmTimes(c: Contents, dest: Aloc, imm: int, times: int): Contents {
    var c0 := OrZero(c, dest);
    if times == 0 then c0 else c0[dest := Adjusted(c0[dest], imm * times)]
  }

  // ----- values of a set

  ghost predicate Holds(s: set<RgnRIC>, v: int) {
    exists p: RgnRIC :: p in s && Member(p.ric, v)
  }

  ghost predicate AllConstant(s: set<RgnRIC>) {
    forall p: RgnRIC :: p in s ==> exists v: int :: p.ric == Constant(v)
  }

  /** Adding a set of constants gives exactly the sums of pairs of values. */
  lemma CrossExact(dest: set<RgnRIC>, src: set<RgnRIC>, v: int)
    requires AllConstant(src)
    ensures Holds(Cross(dest, src), v) <==> exists x: int, y: int :: Holds(dest, x) && Holds(src, y) && v == x + y
  {
    hide Member;
    if Holds(Cross(dest, src), v) {
      var r: RgnRIC :| r in Cross(dest, src) && Member(r.ric, v);
      var p: RgnRIC, q: RgnRIC :| p in dest && q in src && r == Sum(p, q);
      var y := q.ric.offset;
      AdjustExact(p.ric, y, v);
      ConstantMembers(y, y);
      assert Holds(dest, v - y) && Holds(src, y);
    }
    if exists x: int, y: int :: Holds(dest, x) && Holds(src, y) && v == x + y {
      var x: int, y: int :| Holds(dest, x) && Holds(src, y) && v == x + y;
      var p: RgnRIC :| p in dest && Member(p.ric, x);
      var q: RgnRIC :| q in src && Member(q.ric, y);
      ConstantMembers(q.ric.offset, y);
      AdjustExact(p.ric, y, v);
      assert Sum(p, q) in Cross(dest, src);
    }
  }

  /** The one value of a set, as far as the analysis recognises it. */
  function ConstantOf(s: set<RgnRIC>): Option<int> {
    if exists p :: p in s && s == {p} then
      var p :| p in s && s == {p};
      if p.ric.loState.SET? && p.ric.hiState.SET? && p.ric.lo == p.ric.hi then Some(ValueAt(p.ric, p.ric.lo)) else None
    else None
  }

  /** A recognised value is the only value of the set. */
  lemma ConstantOnly(s: set<RgnRIC>)
    requires ConstantOf(s).Some?
    ensures forall v: int :: Holds(s, v) <==> v == ConstantOf(s).value
  {
    var p :| p in s && s == {p};
    assert InRange(p.ric, p.ric.lo);
    assert forall i: int :: InRange(p.ric, i) ==> i == p.ric.lo;
    assert Member(p.ric, ConstantOf(s).value);
  }

  // ----- the machine it follows

  /** The values of the machine's locations; what was never written reads as 0. */
  type Env = map<Aloc, int>

  function Value(env: Env, a: Aloc): int {
    if a in env then env[a] else 0
  }

  /** What the operations do on the machine. For an assignment of something that is no constant, and for the exclusive
      or of different locations, the resulting value is given. */
  datatype Op =
    | AssignSrcOp(dest: Aloc, src: Aloc)
    | AssignConstOp(dest: Aloc, value: int, isConstant: bool)
    | AddSrcOp(dest: Aloc, src: Aloc, times: int)
    | AddImmOp(dest: Aloc, imm: int, times: int)
    | XorOp(dest: Aloc, src: Aloc, result: int)

  function Step(env: Env, op: Op): Env {
    match op
    case AssignSrcOp(dest, src) => env[dest := Value(env, src)]
    case AssignConstOp(dest, value, _) => env[dest := value]
    case AddSrcOp(dest, src, times) => env[dest := Value(env, dest) + Value(env, src) * times]
    case AddImmOp(dest, imm, times) => env[dest := Value(env, dest) + imm * times]
    case XorOp(dest, src, result) => env[dest := if dest == src then 0 else result]
  }

  function After(c: Contents, op: Op): Contents {
    match op
    case AssignSrcOp(dest, src) => AssignSrc(c, dest, src)
    case AssignConstOp(dest, value, isConstant) => c[dest := Only(if isConstant then value else 0)]
    case AddSrcOp(dest, src, times) => AddSrcTimes(c, dest, src, times)
    case AddImmOp(dest, imm, times) => AddImmTimes(c, dest, imm, times)
    case XorOp(dest, src, _) => if dest == src then c[dest := Only(0)] else c
  }

  /** Every tracked location holds one constant, the machine's value, and every other location has not been written. */
  ghost predicate Tracks(c: Contents, env: Env) {
    forall a: Aloc :: if a in c then c[a] == Only(Value(env, a)) else Value(env, a) == 0
  }

  /** The operations that the analysis follows: an unknown value must be 0, and an exclusive or of different locations
      must leave the value as it was. */
  predicate Followed(env: Env, op: Op) {
    match op
    case AssignConstOp(_, value, isConstant) => isConstant || value == 0
    case XorOp(dest, src, result) => dest == src || result == Value(env, dest)
    case _ => true
  }

  lemma OnlyIs(v: int, w: int)
    ensures Only(v) == Only(w) <==> v == w
  {
    if Only(v) == Only(w) {
      assert RgnRIC(0, Constant(v)) in Only(w);
    }
  }

  lemma CrossOnly(x: int, y: int)
    ensures Cross(Only(x), Only(y)) == Only(x + y)
  {
    var p, q := RgnRIC(0, Constant(x)), RgnRIC(0, Constant(y));
    assert Sum(p, q) == RgnRIC(0, Constant(x + y));
    assert Sum(p, q) in Cross(Only(x), Only(y));
  }

  lemma MultipliedOnly(x: int, times: int)
    ensures Multiplied(Only(x), times) == Only(x * times)
  {
    var p := RgnRIC(0, Constant(x));
    assert Scaled(p, times) == RgnRIC(0, Constant(x * times));
    assert Scaled(p, times) in Multiplied(Only(x), times);
  }

  lemma AdjustedOnly(x: int, value: int)
    ensures Adjusted(Only(x), value) == Only(x + value)
  {
    var p := RgnRIC(0, Constant(x));
    assert Moved(p, value) == RgnRIC(0, Constant(x + value));
    assert Moved(p, value) in Adjusted(Only(x), value);
  }

  /** An operation keeps the analysis in step with the machine exactly if it is one that the analysis follows. */
  lemma StepTracksIff(c: Contents, env: Env, op: Op)
    requires Tracks(c, env)
    ensures Tracks(After(c, op), Step(env, op)) <==> Followed(env, op)
  {
    hide Only, Cross, Multiplied, Adjusted;
    var c', env' := After(c, op), Step(env, op);
    match op
    case AssignSrcOp(dest, src) =>
    case AssignConstOp(dest, value, isConstant) =>
      OnlyIs(if isConstant then value else 0, value);
      assert dest in c';
    case AddSrcOp(dest, src, times) =>
      var x, y := Value(env, dest), Value(env, src);
      CrossOnly(x, y);
      CrossOnly(x, y * times);
      MultipliedOnly(y, times);
    case AddImmOp(dest, imm, times) =>
      AdjustedOnly(Value(env, dest), imm * times);
    case XorOp(dest, src, result) =>
      OnlyIs(Value(env, dest), result);
      assert dest in c' || dest !in c';
  }

  /** An exclusive or is tracked whatever its result exactly if it is of a location with itself. */
  lemma XorTracksIff(c: Contents, env: Env, dest: Aloc, src: Aloc)
    requires Tracks(c, env)
    ensures (forall result: int :: Tracks(After(c, XorOp(dest, src, result)),
                                          Step(env, XorOp(dest, src, result)))) <==> dest == src
  {
    hide Tracks, After, Step;
    forall result: int
      ensures Tracks(After(c, XorOp(dest, src, result)), Step(env, XorOp(dest, src, result))) <==>
                dest == src || result == Value(env, dest)
    {
      StepTracksIff(c, env, XorOp(dest, src, result));
    }
    var other := Value(env, dest) + 1;
    assert Tracks(After(c, XorOp(dest, src, other)), Step(env, XorOp(dest, src, other))) <==> dest == src;
  }

  /** An assigned value is tracked whatever it is exactly if it is a constant. */
  lemma AssignTracksIff(c: Contents, env: Env, dest: Aloc, isConstant: bool)
    requires Tracks(c, env)
    ensures (forall v: int :: Tracks(After(c, AssignConstOp(dest, v, isConstant)),
                                     Step(env, AssignConstOp(dest, v, isConstant)))) <==> isConstant
  {
    hide Tracks, After, Step;
    forall v: int
      ensures Tracks(After(c, AssignConstOp(dest, v, isConstant)), Step(env, AssignConstOp(dest, v, isConstant))) <==>
              isConstant || v == 0
    {
      StepTracksIff(c, env, AssignConstOp(dest, v, isConstant));
    }
    assert Tracks(After(c, AssignConstOp(dest, 1, isConstant)), Step(env, AssignConstOp(dest, 1, isConstant))) <==>
           isConstant;
  }

  function RunMachine(env: Env, ops: seq<Op>): Env {
    if ops == [] then env else Step(RunMachine(env, ops[..|ops| - 1]), ops[|ops| - 1])
  }

  function RunAnalysis(c: Contents, ops: seq<Op>): Contents {
    if ops == [] then c else After(RunAnalysis(c, ops[..|ops| - 1]), ops[|ops| - 1])
  }

  ghost predicate AllFollowed(env: Env, ops: seq<Op>) {
    forall k :: 0 <= k < |ops| ==> Followed(RunMachine(env, ops[..k]), ops[k])
  }

  /** Over any sequence of followed operations from the empty state, the analysis refines the machine. */
  lemma {:induction false} RunTracks(ops: seq<Op>)
    requires AllFollowed(map[], ops)
    ensures Tracks(RunAnalysis(map[], ops), RunMachine(map[], ops))
  {
    if ops != [] {
      var k := |ops| - 1;
      assert forall i :: 0 <= i < k ==> ops[..k][..i] == ops[..i];
      RunTracks(ops[..k]);
      StepTracksIff(RunAnalysis(map[], ops[..k]), RunMachine(map[], ops[..k]), ops[k]);
    }
  }

  /** The operation makes something known of the location: it writes it, but for the exclusive or of different
      locations, or assigns it to another. */
  predicate MakesKnown(op: Op, a: Aloc) {
    match op
    case AssignSrcOp(dest, src) => a == dest || a == src
    case AssignConstOp(dest, _, _) => a == dest
    case AddSrcOp(dest, _, _) => a == dest
    case AddImmOp(dest, _, _) => a == dest
    case XorOp(dest, src, _) => a == dest && dest == src
  }

  predicate MadeKnown(ops: seq<Op>, a: Aloc) {
    exists k :: 0 <= k < |ops| && MakesKnown(ops[k], a)
  }

  /** Over any sequence of operations, something is known of exactly the locations of which an operation made something
      known: nothing is forgotten. */
  lemma {:induction false} KnownIff(ops: seq<Op>, a: Aloc)
    ensures a in RunAnalysis(map[], ops) <==> MadeKnown(ops, a)
  {
    if ops != [] {
      var k := |ops| - 1;
      KnownIff(ops[..k], a);
      assert MadeKnown(ops, a) <==> MadeKnown(ops[..k], a) || MakesKnown(ops[k], a) by {
        assert forall i :: 0 <= i < k ==> ops[..k][i] == ops[i];
      }
    }
  }

  /** Over any sequence of followed operations, the machine's value is reported of every location of which an operation
      made something known, and no value of any other. */
  lemma RunReports(ops: seq<Op>, a: Aloc)
    requires AllFollowed(map[], ops)
    ensures Reported(RunAnalysis(map[], ops), a) ==
            if MadeKnown(ops, a) then Some(Value(RunMachine(map[], ops), a)) else None
  {
    RunTracks(ops);
    KnownIff(ops, a);
    if MadeKnown(ops, a) {
      ReportExact(RunAnalysis(map[], ops), RunMachine(map[], ops), a);
    }
  }

  function Reported(c: Contents, a: Aloc): Option<int> {
    if a in c then ConstantOf(c[a]) else None
  }

  /** What the analysis then reports for a location is the machine's value, and nothing where nothing is tracked. */
  lemma ReportExact(c: Contents, env: Env, a: Aloc)
    requires Tracks(c, env) && a in c
    ensures ConstantOf(c[a]) == Some(Value(env, a))
  {
    var p := RgnRIC(0, Constant(Value(env, a)));
    assert p in c[a] && c[a] == {p};
    forall q | q in c[a] && c[a] == {q} ensures q == p {
    }
  }

  // ----- the analysis itself

  class ValueSet {
    var pairs: set<RgnRIC>

    constructor ()
      ensures pairs == {}
    {
      pairs := {};
    }

    method Insert(p: RgnRIC)
      modifies this
      ensures pairs == old(pairs) + {p}
    {
      pairs := pairs + {p};
    }
  }

  method NewSet(ric: RIC) returns (s: ValueSet)
    ensures fresh(s) && s.pairs == {RgnRIC(0, ric)}
  {
    s := new ValueSet();
    s.Insert(RgnRIC(0, ric));
  }

  method CrossValueSets(dest: ValueSet, src: ValueSet) returns (newSet: ValueSet)
    ensures fresh(newSet) && newSet.pairs == Cross(dest.pairs, src.pairs)
  {
    newSet := new ValueSet();
    var ps := dest.pairs;
    while ps != {}
      invariant fresh(newSet) && ps <= dest.pairs && newSet.pairs == Cross(dest.pairs - ps, src.pairs)
      decreases ps
    {
      var p :| p in ps;
      var qs := src.pairs;
      while qs != {}
        invariant fresh(newSet) && qs <= src.pairs
        invariant newSet.pairs == Cross(dest.pairs - ps, src.pairs) + Cross({p}, src.pairs - qs)
        decreases qs
      {
        var q :| q in qs;
        assert Cross({p}, src.pairs - (qs - {q})) == Cross({p}, src.pairs - qs) + {Sum(p, q)};
        newSet.Insert(Sum(p, q));
        qs := qs - {q};
      }
      assert src.pairs - qs == src.pairs;
      assert Cross(dest.pairs - (ps - {p}), src.pairs) == Cross(dest.pairs - ps, src.pairs) + Cross({p}, src.pairs);
      ps := ps - {p};
    }
    assert dest.pairs - ps == dest.pairs;
  }

  method MultipliedSet(src: ValueSet, times: int) returns (mult: ValueSet)
    ensures fresh(mult) && mult.pairs == Multiplied(src.pairs, times)
  {
    mult := new ValueSet();
    var ps := src.pairs;
    while ps != {}
      invariant fresh(mult) && ps <= src.pairs && mult.pairs == Multiplied(src.pairs - ps, times)
      decreases ps
    {
      var p :| p in ps;
      assert Multiplied(src.pairs - (ps - {p}), times) == Multiplied(src.pairs - ps, times) + {Scaled(p, times)};
      mult.Insert(Scaled(p, times));
      ps := ps - {p};
    }
    assert src.pairs - ps == src.pairs;
  }

  method AdjustedSet(src: ValueSet, value: int) returns (updated: ValueSet)
    ensures fresh(updated) && updated.pairs == Adjusted(src.pairs, value)
  {
    updated := new ValueSet();
    var ps := src.pairs;
    while ps != {}
      invariant fresh(updated) && ps <= src.pairs && updated.pairs == Adjusted(src.pairs - ps, value)
      decreases ps
    {
      var p :| p in ps;
      assert Adjusted(src.pairs - (ps - {p}), value) == Adjusted(src.pairs - ps, value) + {Moved(p, value)};
      updated.Insert(Moved(p, value));
      ps := ps - {p};
    }
    assert src.pairs - ps == src.pairs;
  }

  /** No method changes a set that a location holds: every change goes into a new set. So a location that shares its set
      with another never sees what is done to the other. */
  class X86ValueSetAnalysis {
    var alocToVSMap: map<Aloc, ValueSet>

    ghost function Known(): Contents
      reads this, alocToVSMap.Values
    {
      map a | a in alocToVSMap :: alocToVSMap[a].pairs
    }

    constructor ()
      ensures Known() == map[]
    {
      alocToVSMap := map[];
    }

    method AssignZeroRic(dest: Aloc)
      modifies this
      ensures Known() == old(Known())[dest := Only(0)]
    {
      var s := NewSet(Constant(0));
      alocToVSMap := alocToVSMap[dest := s];
    }

    /** Gives a location a value, if it has none. */
    method TryInsertValue(dest: Aloc, value: int) returns (inserted: bool)
      modifies this
      ensures inserted == (dest !in old(Known()))
      ensures Known() == if inserted then old(Known())[dest := Only(value)] else old(Known())
    {
      if dest in alocToVSMap {
        return false;
      }
      var s := NewSet(Constant(value));
      alocToVSMap := alocToVSMap[dest := s];
      return true;
    }

    /** Shares the set of `src` with `dest`. */
    method AssignValueToSrc(dest: Aloc, src: Aloc)
      modifies this
      ensures Known() == AssignSrc(old(Known()), dest, src)
      ensures Known().Keys == old(Known()).Keys + {dest, src} && Known()[dest] == Known()[src]
      ensures Known()[src] == if src in old(Known()) then old(Known())[src] else Only(0)
    {
      if src !in alocToVSMap {
        AssignZeroRic(src);
        AssignZeroRic(dest);
        return;
      }
      alocToVSMap := alocToVSMap[dest := alocToVSMap[src]];
    }

    /** A value that is no constant counts as 0. */
    method AssignValueConst(dest: Aloc, value: int, isConstant: bool)
      modifies this
      ensures Known() == old(Known())[dest := Only(if isConstant then value else 0)]
    {
      var s := NewSet(Constant(if isConstant then value else 0));
      alocToVSMap := alocToVSMap[dest := s];
    }

    /** Lets a location start from 0 if nothing is known of it. */
    method StartFromZero(dest: Aloc)
      modifies this
      ensures Known() == OrZero(old(Known()), dest) && dest in alocToVSMap
    {
      if dest !in alocToVSMap {
        AssignZeroRic(dest);
      }
      assert dest in Known();
    }

    method Replace(dest: Aloc, s: ValueSet)
      modifies this
      ensures Known() == old(Known())[dest := s.pairs]
    {
      alocToVSMap := alocToVSMap[dest := s];
    }

    method AddValueWithSrcTimes(dest: Aloc, src: Aloc, times: int) returns (done: bool)
      modifies this
      ensures Known() == AddSrcTimes(old(Known()), dest, src, times)
      ensures Known().Keys == old(Known()).Keys + {dest}
      ensures done <==> times == 0 || src == dest || src in old(Known())
    {
      hide Cross, Multiplied;
      StartFromZero(dest);
      if times == 0 {
        return true;
      }
      if src !in alocToVSMap {
        assert src !in Known();
        return false;
      }
      assert src in Known();
      var sum;
      if times == 1 {
        sum := CrossValueSets(alocToVSMap[dest], alocToVSMap[src]);
      } else {
        var mult := MultipliedSet(alocToVSMap[src], times);
        sum := CrossValueSets(alocToVSMap[dest], mult);
      }
      Replace(dest, sum);
      return true;
    }

    method AddValueWithImmTimes(dest: Aloc, imm: int, times: int)
      modifies this
      ensures Known() == AddImmTimes(old(Known()), dest, imm, times)
      ensures Known().Keys == old(Known()).Keys + {dest}
    {
      StartFromZero(dest);
      if times == 0 {
        return;
      }
      var updated := AdjustedSet(alocToVSMap[dest], imm * times);
      Replace(dest, updated);
    }

    /** Only the exclusive or of a location with itself is done. */
    method XorValueWithSrc(dest: Aloc, src: Aloc) returns (done: bool)
      modifies this
      ensures done == (dest == src)
      ensures Known() == if done then old(Known())[dest := Only(0)] else old(Known())
    {
      if dest == src {
        AssignZeroRic(dest);
        return true;
      }
      return false;
    }

    /** Reports the one value of a location, if it is recognised: then its set has no other. */
    method GetConstantValue(aloc: Aloc) returns (value: Option<int>)
      ensures value == Reported(Known(), aloc)
      ensures value.Some? ==> aloc in Known() && forall v: int :: Holds(Known()[aloc], v) <==> v == value.value
    {
      if aloc !in alocToVSMap {
        return None;
      }
      var pairs := alocToVSMap[aloc].pairs;
      if |pairs| != 1 {
        NotSingle(pairs);
        return None;
      }
      var p :| p in pairs;
      SingleIs(pairs, p);
      if !p.ric.loState.SET? || !p.ric.hiState.SET? || p.ric.lo != p.ric.hi {
        return None;
      }
      ConstantOnly(pairs);
      return Some(p.ric.offset + p.ric.alignment * p.ric.lo);
    }

    /** Does one operation. */
    method Do(op: Op)
      modifies this
      ensures Known() == After(old(Known()), op)
    {
      match op
      case AssignSrcOp(dest, src) => AssignValueToSrc(dest, src);
      case AssignConstOp(dest, value, isConstant) => AssignValueConst(dest, value, isConstant);
      case AddSrcOp(dest, src, times) => var _ := AddValueWithSrcTimes(dest, src, times);
      case AddImmOp(dest, imm, times) => AddValueWithImmTimes(dest, imm, times);
      case XorOp(dest, src, _) => var _ := XorValueWithSrc(dest, src);
    }
  }

  lemma NotSingle(s: set<RgnRIC>)
    requires |s| != 1
    ensures !exists p :: p in s && s == {p}
  {
  }

  lemma SingleIs(s: set<RgnRIC>, p: RgnRIC)
    requires |s| == 1 && p in s
    ensures s == {p}
  {
    assert |s - {p}| == 0;
  }

  /** Follows a sequence of operations from the empty state, so that any location can be reported. */
  method Analyse(ops: seq<Op>) returns (analysis: X86ValueSetAnalysis)
    ensures fresh(analysis) && analysis.Known() == RunAnalysis(map[], ops)
    ensures AllFollowed(map[], ops) ==> Tracks(analysis.Known(), RunMachine(map[], ops))
    ensures forall a: Aloc :: a in analysis.Known() <==> MadeKnown(ops, a)
    ensures AllFollowed(map[], ops) ==>
              forall a: Aloc :: MadeKnown(ops, a) ==>
                                Reported(analysis.Known(), a) == Some(Value(RunMachine(map[], ops), a))
  {
    analysis := new X86ValueSetAnalysis();
    for k := 0 to |ops|
      invariant fresh(analysis) && analysis.Known() == RunAnalysis(map[], ops[..k])
    {
      assert ops[..k + 1][..k] == ops[..k];
      analysis.Do(ops[k]);
    }
    assert ops[..|ops|] == ops;
    forall a: Aloc ensures a in analysis.Known() <==> MadeKnown(ops, a) {
      KnownIff(ops, a);
    }
    if AllFollowed(map[], ops) {
      RunTracks(ops);
      forall a: Aloc | MadeKnown(ops, a)
        ensures Reported(analysis.Known(), a) == Some(Value(RunMachine(map[], ops), a))
      {
        RunReports(ops, a);
      }
    }
  }
}
