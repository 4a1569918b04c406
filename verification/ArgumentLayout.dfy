/** The argument list made of the live-in registers, and how registers are looked up in it. */
module ArgumentLayout {
  import opened Wrappers
  import opened LiveInRegisters

  datatype ArgType = IntArg(bits: nat) | DoubleArg

  // The argument registers of section 3.2.3 of the System V AMD64 psABI, by the numbers of their encodings:
  // RDI, RSI, RDX, RCX, R8, R9 and XMM0 to XMM7.
  const GP_ARG_REGS: seq<nat> := [7, 6, 2, 1, 8, 9]
  const SSE_ARG_REGS: seq<nat> := [0, 1, 2, 3, 4, 5, 6, 7]

  function IndexOf(s: seq<nat>, x: nat): (i: nat)
    ensures i <= |s| && (i < |s| ==> s[i] == x) && (i == |s| ==> x !in s)
  {
    if s == [] then 0 else if s[0] == x then 0 else 1 + IndexOf(s[1..], x)
  }

  /** The position of an argument register among those of its kind, from 1 on, or -1. */
  function GetArgumentNumber(r: Reg): (n: int)
    ensures n == -1 || 1 <= n <= if r.Gp? then |GP_ARG_REGS| else |SSE_ARG_REGS|
  {
    match r
    case Gp(f, _) => if IndexOf(GP_ARG_REGS, f) < |GP_ARG_REGS| then IndexOf(GP_ARG_REGS, f) + 1 else -1
    case Sse(n) => if IndexOf(SSE_ARG_REGS, n) < |SSE_ARG_REGS| then IndexOf(SSE_ARG_REGS, n) + 1 else -1
  }

  function TypeOf(r: Reg): ArgType {
    match r
    case Gp(_, bytes) => IntArg(8 * bytes)
    case Sse(_) => DoubleArg
  }

  /** The registers that pass arguments, by the numbers of their encodings, and no others: RDI, RSI, RDX, RCX, R8, R9 in
      this order, and XMM0 to XMM7. */
  lemma ArgumentRegisters(f: nat, bytes: nat)
    ensures GetArgumentNumber(Gp(f, bytes)) ==
            (match f case 7 => 1 case 6 => 2 case 2 => 3 case 1 => 4 case 8 => 5 case 9 => 6 case _ => -1)
    ensures GetArgumentNumber(Sse(f)) == if f < 8 then f + 1 else -1
    ensures TypeOf(Gp(f, bytes)).IntArg? && TypeOf(Gp(f, bytes)).bits == 8 * bytes && TypeOf(Sse(f)) == DoubleArg
  {
    assert GP_ARG_REGS[0] == 7 && GP_ARG_REGS[1] == 6 && GP_ARG_REGS[2] == 2 && GP_ARG_REGS[3] == 1
           && GP_ARG_REGS[4] == 8 && GP_ARG_REGS[5] == 9;
    forall i: nat | i < 8 ensures SSE_ARG_REGS[i] == i {
    }
    ArgRegsAre();
  }

  lemma ArgRegsAre()
    ensures forall i: nat :: i < 6 ==> IndexOf(GP_ARG_REGS, GP_ARG_REGS[i]) == i
    ensures forall i: nat :: i < 8 ==> IndexOf(SSE_ARG_REGS, SSE_ARG_REGS[i]) == i
  {
    forall i: nat | i < 8
      ensures i < 6 ==> IndexOf(GP_ARG_REGS, GP_ARG_REGS[i]) == i
      ensures IndexOf(SSE_ARG_REGS, SSE_ARG_REGS[i]) == i
    {
      ArgRegsDiffer(i);
    }
  }

  /** One register of every family. */
  ghost predicate OnePerFamily(regs: set<Reg>) {
    forall q: Reg, r: Reg :: q in regs && r in regs && FamilyOf(q) == FamilyOf(r) ==> q == r
  }

  /** `n` is the highest argument number among the registers of one kind. */
  ghost predicate IsMax(regs: set<Reg>, gp: bool, n: nat) {
    && (forall r: Reg :: r in regs && r.Gp? == gp ==> GetArgumentNumber(r) <= n)
    && (n > 0 ==> exists r: Reg :: r in regs && r.Gp? == gp && GetArgumentNumber(r) == n)
  }

  /** The type at position `n`: that of the register with this number, and otherwise the widest. */
  ghost predicate IsTypeAt(regs: set<Reg>, n: nat, ty: ArgType) {
    && (forall r: Reg :: r in regs && r.Gp? && GetArgumentNumber(r) == n ==> ty == TypeOf(r))
    && ((forall r: Reg :: r in regs && r.Gp? ==> GetArgumentNumber(r) != n) ==> ty == IntArg(64))
  }

  /** General-purpose arguments up to the highest position in use, then SSE arguments. */
  ghost predicate IsLayout(regs: set<Reg>, types: seq<ArgType>, gps: nat, sses: nat) {
    && IsMax(regs, true, gps) && IsMax(regs, false, sses) && |types| == gps + sses
    && (forall i: nat :: i < gps ==> types[i].IntArg? && IsTypeAt(regs, i + 1, types[i]))
    && (forall i: nat :: gps <= i < |types| ==> types[i] == DoubleArg)
  }

  lemma SameNumber(q: Reg, r: Reg)
    requires GetArgumentNumber(q) == GetArgumentNumber(r) > 0 && q.Gp? == r.Gp?
    ensures FamilyOf(q) == FamilyOf(r)
  {
  }

  /** What the map holds once the registers in `seen` have been entered. */
  ghost predicate Entered(seen: set<Reg>, gpTypes: map<nat, ArgType>) {
    && (forall n: nat :: n in gpTypes ==>
                         exists r: Reg :: r in seen && r.Gp? && GetArgumentNumber(r) == n && gpTypes[n] == TypeOf(r))
    && (forall r: Reg :: r in seen && r.Gp? && GetArgumentNumber(r) > 0 ==>
          GetArgumentNumber(r) as nat in gpTypes && gpTypes[GetArgumentNumber(r) as nat] == TypeOf(r))
  }

  ghost predicate SseEntered(seen: set<Reg>, sseNums: set<nat>) {
    forall n: nat :: n in sseNums ==> exists r: Reg :: r in seen && r.Sse? && GetArgumentNumber(r) == n
  }

  function Higher(n: int, max: nat): nat {
    if n > max then n else max
  }

  lemma MaxEnters(seen: set<Reg>, r: Reg, gp: bool, max: nat)
    requires IsMax(seen, gp, max)
    ensures IsMax(seen + {r}, gp, if r.Gp? == gp then Higher(GetArgumentNumber(r), max) else max)
  {
  }

  /** The number of a new register is free, since no other register of its family was there. */
  lemma NumberFree(regs: set<Reg>, seen: set<Reg>, r: Reg, gpTypes: map<nat, ArgType>, sseNums: set<nat>)
    requires OnePerFamily(regs) && seen <= regs && r in regs && r !in seen && GetArgumentNumber(r) > 0
    requires Entered(seen, gpTypes) && SseEntered(seen, sseNums)
    ensures r.Gp? ==> GetArgumentNumber(r) as nat !in gpTypes
    ensures r.Sse? ==> GetArgumentNumber(r) as nat !in sseNums
  {
    hide GetArgumentNumber;
    forall q: Reg | q in seen && q.Gp? == r.Gp? ensures GetArgumentNumber(q) != GetArgumentNumber(r) {
      if GetArgumentNumber(q) == GetArgumentNumber(r) {
        SameNumber(q, r);
      }
    }
  }

  lemma GpEnters(seen: set<Reg>, r: Reg, gpTypes: map<nat, ArgType>)
    requires Entered(seen, gpTypes) && r.Gp? && GetArgumentNumber(r) > 0 && GetArgumentNumber(r) as nat !in gpTypes
    ensures Entered(seen + {r}, gpTypes[GetArgumentNumber(r) as nat := TypeOf(r)])
  {
    hide GetArgumentNumber, TypeOf;
    var n: nat := GetArgumentNumber(r);
    var types := gpTypes[n := TypeOf(r)];
    forall m: nat | m in types
      ensures exists q: Reg :: q in seen + {r} && q.Gp? && GetArgumentNumber(q) == m && types[m] == TypeOf(q)
    {
      if m == n {
        assert r in seen + {r};
      } else {
        var q: Reg :| q in seen && q.Gp? && GetArgumentNumber(q) == m && gpTypes[m] == TypeOf(q);
        assert q in seen + {r};
      }
    }
  }

  lemma OtherEnters(seen: set<Reg>, r: Reg, gpTypes: map<nat, ArgType>)
    requires Entered(seen, gpTypes) && (r.Sse? || GetArgumentNumber(r) <= 0)
    ensures Entered(seen + {r}, gpTypes)
  {
    hide GetArgumentNumber, TypeOf;
    forall m: nat | m in gpTypes
      ensures exists q: Reg :: q in seen + {r} && q.Gp? && GetArgumentNumber(q) == m && gpTypes[m] == TypeOf(q)
    {
      var q: Reg :| q in seen && q.Gp? && GetArgumentNumber(q) == m && gpTypes[m] == TypeOf(q);
      assert q in seen + {r};
    }
  }

  lemma SseEnters(seen: set<Reg>, r: Reg, sseNums: set<nat>, more: set<nat>)
    requires SseEntered(seen, sseNums)
    requires more == sseNums || (r.Sse? && GetArgumentNumber(r) > 0 && more == sseNums + {GetArgumentNumber(r) as nat})
    ensures SseEntered(seen + {r}, more)
  {
    hide GetArgumentNumber;
    forall m: nat | m in more ensures exists q: Reg :: q in seen + {r} && q.Sse? && GetArgumentNumber(q) == m {
      if m in sseNums {
        var q: Reg :| q in seen && q.Sse? && GetArgumentNumber(q) == m;
        assert q in seen + {r};
      } else {
        assert r in seen + {r};
      }
    }
  }

  /** Enters every register under its argument number. That no number is taken is what the original asserts. */
  method EnterRegisters(regs: set<Reg>) returns (gpTypes: map<nat, ArgType>, maxGp: nat, maxSse: nat)
    requires OnePerFamily(regs)
    ensures Entered(regs, gpTypes) && IsMax(regs, true, maxGp) && IsMax(regs, false, maxSse)
  {
    hide Entered, SseEntered, IsMax, GetArgumentNumber, TypeOf;
    gpTypes, maxGp, maxSse := map[], 0, 0;
    var sseNums: set<nat> := {};
    NothingEntered();
    var rest := regs;
    assert regs - rest == {};
    while rest != {}
      invariant rest <= regs && Entered(regs - rest, gpTypes) && SseEntered(regs - rest, sseNums)
      invariant IsMax(regs - rest, true, maxGp) && IsMax(regs - rest, false, maxSse)
    {
      var r :| r in rest;
      ghost var seen := regs - rest;
      rest := rest - {r};
      assert regs - rest == seen + {r};
      var n := GetArgumentNumber(r);
      MaxEnters(seen, r, true, maxGp);
      MaxEnters(seen, r, false, maxSse);
      ghost var before := sseNums;
      if n > 0 {
        NumberFree(regs, seen, r, gpTypes, sseNums);
        if r.Gp? {
          maxGp := Higher(n, maxGp);
          assert n !in gpTypes;
          GpEnters(seen, r, gpTypes);
          gpTypes := gpTypes[n := TypeOf(r)];
        } else {
          maxSse := Higher(n, maxSse);
          assert n !in sseNums;
          OtherEnters(seen, r, gpTypes);
          sseNums := sseNums + {n};
        }
      } else {
        OtherEnters(seen, r, gpTypes);
      }
      SseEnters(seen, r, before, sseNums);
    }
    assert regs - rest == regs;
  }

  lemma NothingEntered()
    ensures Entered({}, map[]) && SseEntered({}, {}) && IsMax({}, true, 0) && IsMax({}, false, 0)
  {
  }

  /** Builds the argument list. */
  method BuildFuncArgTypeVector(physRegs: set<Reg>) returns (argTyVec: seq<ArgType>)
    requires OnePerFamily(physRegs)
    ensures exists gps: nat, sses: nat :: IsLayout(physRegs, argTyVec, gps, sses)
  {
    hide GetArgumentNumber, IsMax;
    var gpTypes, maxGp, maxSse := EnterRegisters(physRegs);
    argTyVec := [];
    for idx := 0 to maxGp
      invariant |argTyVec| == idx
      invariant forall i: nat :: i < idx ==> argTyVec[i].IntArg? && IsTypeAt(physRegs, i + 1, argTyVec[i])
    {
      var n: nat := idx + 1;
      argTyVec := argTyVec + [if n !in gpTypes then IntArg(64) else gpTypes[n]];
    }
    for idx := 0 to maxSse
      invariant |argTyVec| == maxGp + idx
      invariant forall i: nat :: i < maxGp ==> argTyVec[i].IntArg? && IsTypeAt(physRegs, i + 1, argTyVec[i])
      invariant forall i: nat :: maxGp <= i < |argTyVec| ==> argTyVec[i] == DoubleArg
    {
      argTyVec := argTyVec + [DoubleArg];
    }
    assert IsLayout(physRegs, argTyVec, maxGp, maxSse);
  }

  // ----- looking up

  /** How many arguments are not floating point. */
  method CountOthers(types: seq<ArgType>) returns (n: nat)
    ensures n == Others(types)
  {
    n := 0;
    for k := 0 to |types|
      invariant n == Others(types[..k])
    {
      assert types[..k + 1][..k] == types[..k];
      if types[k] != DoubleArg {
        n := n + 1;
      }
    }
    assert types[..|types|] == types;
  }

  function Others(types: seq<ArgType>): nat {
    if types == [] then 0 else Others(types[..|types| - 1]) + if types[|types| - 1] == DoubleArg then 0 else 1
  }

  /** The index of the argument that a register holds on entry. */
  function ArgumentIndex(types: seq<ArgType>, r: Reg): Option<nat> {
    var n := GetArgumentNumber(r);
    if n <= 0 then None else
      var actual := if r.Sse? then n + Others(types) else n;
      if actual <= |types| then Some(actual - 1) else None
  }

  /** Looks up the argument value of a register in the entry block. */
  method FindArgument(types: seq<ArgType>, r: Reg) returns (index: Option<nat>)
    ensures index == ArgumentIndex(types, r)
  {
    hide IndexOf, Others;
    var n := GetArgumentNumber(r);
    if n > 0 {
      var actual := n;
      if r.Sse? {
        var others := CountOthers(types);
        actual := actual + others;
      }
      if actual <= |types| {
        return Some(actual - 1);
      }
    }
    return None;
  }

  lemma {:induction false} OthersOf(types: seq<ArgType>, gps: nat)
    requires GpsThenSses(types, gps)
    ensures Others(types) == gps
  {
    if types != [] {
      OthersOf(types[..|types| - 1], if gps == |types| then gps - 1 else gps);
    }
  }

  /** The live-in set can be laid out: it has one register of every family. */
  lemma LiveInsOnePerFamily(liveIns: set<Reg>, added: set<Reg>)
    requires IsWidest(liveIns, added)
    ensures OnePerFamily(liveIns)
  {
    forall q: Reg, r: Reg | q in liveIns && r in liveIns && FamilyOf(q) == FamilyOf(r) ensures q == r {
      WidestUnique(liveIns, added, q, r);
    }
  }

  /** Looking up a live-in argument register gives the argument that was built for it. */
  lemma LookupRoundTrip(regs: set<Reg>, types: seq<ArgType>, gps: nat, sses: nat, r: Reg)
    requires IsLayout(regs, types, gps, sses) && r in regs && GetArgumentNumber(r) > 0
    ensures var i := ArgumentIndex(types, r); i.Some? && i.value < |types| && types[i.value] == TypeOf(r)
  {
    hide GetArgumentNumber;
    OthersOf(types, gps);
  }

  /** The shape of every list that is built. */
  ghost predicate GpsThenSses(types: seq<ArgType>, gps: nat) {
    && gps <= |types|
    && (forall i: nat :: i < gps ==> types[i].IntArg?)
    && (forall i: nat :: gps <= i < |types| ==> types[i] == DoubleArg)
  }

  /** The lookup gives a general-purpose register an argument of the wrong kind exactly if the register comes after
      all general-purpose arguments, which no live-in register does. */
  lemma LookupKindIff(types: seq<ArgType>, gps: nat, r: Reg)
    requires GpsThenSses(types, gps) && ArgumentIndex(types, r).Some?
    ensures var i := ArgumentIndex(types, r).value;
            && i < |types|
            && ((types[i].IntArg? <==> r.Gp?) <==> !(r.Gp? && GetArgumentNumber(r) > gps))
  {
    hide GetArgumentNumber;
    OthersOf(types, gps);
  }

  /** Registers of different families that get arguments of their kinds get different arguments. */
  lemma LookupInjective(types: seq<ArgType>, gps: nat, q: Reg, r: Reg)
    requires GpsThenSses(types, gps)
    requires ArgumentIndex(types, q).Some? && ArgumentIndex(types, q) == ArgumentIndex(types, r)
    requires q.Gp? ==> GetArgumentNumber(q) <= gps
    requires r.Gp? ==> GetArgumentNumber(r) <= gps
    ensures FamilyOf(q) == FamilyOf(r)
  {
    OthersOf(types, gps);
    SameNumber(q, r);
  }

  function IntCount(types: seq<ArgType>): (n: nat)
    ensures n <= |types|
  {
    if types == [] then 0 else IntCount(types[..|types| - 1]) + if types[|types| - 1].IntArg? then 1 else 0
  }

  lemma {:induction false} IntCountGrows(types: seq<ArgType>, i: nat)
    requires i <= |types|
    ensures IntCount(types[..i]) <= IntCount(types) && i - IntCount(types[..i]) <= |types| - IntCount(types)
  {
    if i == |types| {
      assert types[..i] == types;
    } else {
      assert types[..|types| - 1][..i] == types[..i];
      IntCountGrows(types[..|types| - 1], i);
    }
  }

  lemma NoArgs(types: seq<ArgType>)
    ensures IntCount(types[..0]) == 0
  {
  }

  lemma IntCountStep(types: seq<ArgType>, i: nat)
    requires i < |types|
    ensures IntCount(types[..i + 1]) == IntCount(types[..i]) + if types[i].IntArg? then 1 else 0
    ensures IntCount(types[..i + 1]) <= IntCount(types) && i + 1 - IntCount(types[..i + 1]) <= |types| - IntCount(types)
  {
    assert types[..i + 1][..i] == types[..i];
    IntCountGrows(types, i + 1);
  }

  lemma {:induction false} IntCountIs(types: seq<ArgType>, gps: nat, i: nat)
    requires GpsThenSses(types, gps) && i <= |types|
    ensures IntCount(types[..i]) == if i <= gps then i else gps
  {
    if i > 0 {
      assert types[..i][..i - 1] == types[..i - 1];
      IntCountIs(types, gps, i - 1);
    }
  }

  /** The registers that the value tracker gives to the arguments of a function, in order. The test of the bound lets an
      index pass that is one too large, so the tables are left with a seventh integer or a ninth floating-point
      argument. Otherwise looking up a register gives its argument back. */
  method AssignArgumentRegisters(types: seq<ArgType>) returns (inTable: bool, regs: seq<Reg>)
    ensures inTable <==> IntCount(types) <= |GP_ARG_REGS| && |types| - IntCount(types) <= |SSE_ARG_REGS|
    ensures inTable ==>
            |regs| == |types| && forall i: nat :: i < |types| ==> IsNextOfKind(types, i, regs[i])
    ensures inTable && (exists gps :: GpsThenSses(types, gps)) ==>
            forall i: nat :: i < |types| ==> ArgumentIndex(types, regs[i]) == Some(i)
  {
    hide ArgumentIndex, GpsThenSses, IndexOf, IntCount, TypeOf, IsNextOfKind;
    regs := [];
    var gpArgNum, sseArgNum: nat := 0, 0;
    assert IntCount(types[..0]) == 0 by { NoArgs(types); }
    for i := 0 to |types|
      invariant |regs| == i && gpArgNum == IntCount(types[..i]) <= |GP_ARG_REGS|
                && sseArgNum == i - gpArgNum <= |SSE_ARG_REGS|
      invariant forall k: nat :: k < i ==> regs[k] == NthRegister(types, k)
    {
      IntCountStep(types, i);
      if types[i].IntArg? {
        if gpArgNum > |GP_ARG_REGS| {
          continue;
        }
        if gpArgNum == |GP_ARG_REGS| {
          return false, [];
        }
        regs := regs + [Gp(GP_ARG_REGS[gpArgNum], 8)];
        gpArgNum := gpArgNum + 1;
      } else {
        if sseArgNum > |SSE_ARG_REGS| {
          continue;
        }
        if sseArgNum == |SSE_ARG_REGS| {
          return false, [];
        }
        regs := regs + [Sse(SSE_ARG_REGS[sseArgNum])];
        sseArgNum := sseArgNum + 1;
      }
    }
    assert types[..|types|] == types;
    inTable := true;
    RegisterKinds(types, regs);
    if gps :| GpsThenSses(types, gps) {
      RegistersLookUp(types, regs, gps);
    }
  }

  lemma RegistersLookUp(types: seq<ArgType>, regs: seq<Reg>, gps: nat)
    requires GpsThenSses(types, gps) && |regs| == |types|
             && forall k: nat :: k < |types| ==> regs[k] == NthRegister(types, k)
    requires IntCount(types) <= |GP_ARG_REGS| && |types| - IntCount(types) <= |SSE_ARG_REGS|
    ensures forall i: nat :: i < |types| ==> ArgumentIndex(types, regs[i]) == Some(i)
  {
    hide ArgumentIndex, NthRegister, IntCount, GpsThenSses;
    forall i: nat | i < |types|
      ensures ArgumentIndex(types, regs[i]) == Some(i)
    {
      NthIs(types, gps, i);
      AssignedBack(types, gps, i);
    }
  }

  /** The register of argument `k`, where the tables have one. */
  ghost function NthRegister(types: seq<ArgType>, k: nat): Reg
    requires k < |types|
  {
    var n := IntCount(types[..k]);
    if types[k].IntArg? then if n < |GP_ARG_REGS| then Gp(GP_ARG_REGS[n], 8) else Sse(0)
    else if k - n < |SSE_ARG_REGS| then Sse(SSE_ARG_REGS[k - n]) else Sse(0)
  }

  lemma RegisterKinds(types: seq<ArgType>, regs: seq<Reg>)
    requires |regs| == |types| && forall k: nat :: k < |types| ==> regs[k] == NthRegister(types, k)
    requires IntCount(types) <= |GP_ARG_REGS| && |types| - IntCount(types) <= |SSE_ARG_REGS|
    ensures forall i: nat :: i < |types| ==> IsNextOfKind(types, i, regs[i])
  {
    hide IntCount, IndexOf;
    forall i: nat | i < |types|
      ensures IsNextOfKind(types, i, regs[i])
    {
      IntCountStep(types, i);
      ArgRegsDiffer(IntCount(types[..i]));
      ArgRegsDiffer(i - IntCount(types[..i]));
    }
  }

  /** A whole register for argument `k`: the next argument register of its kind. */
  ghost predicate IsNextOfKind(types: seq<ArgType>, k: nat, r: Reg)
    requires k < |types|
  {
    var n := IntCount(types[..k]);
    if types[k].IntArg? then r.Gp? && r.bytes == 8 && GetArgumentNumber(r) == n + 1
    else r.Sse? && n <= k && GetArgumentNumber(r) == k - n + 1
  }

  lemma NthIs(types: seq<ArgType>, gps: nat, k: nat)
    requires GpsThenSses(types, gps) && k < |types|
    requires IntCount(types) <= |GP_ARG_REGS| && |types| - IntCount(types) <= |SSE_ARG_REGS|
    ensures gps <= |GP_ARG_REGS| && |types| - gps <= |SSE_ARG_REGS|
    ensures NthRegister(types, k) == if k < gps then Gp(GP_ARG_REGS[k], 8) else Sse(SSE_ARG_REGS[k - gps])
  {
    hide IntCount;
    IntCountIs(types, gps, |types|);
    assert types[..|types|] == types;
    IntCountIs(types, gps, k);
  }

  lemma AssignedBack(types: seq<ArgType>, gps: nat, i: nat)
    requires GpsThenSses(types, gps) && gps <= |GP_ARG_REGS| && |types| - gps <= |SSE_ARG_REGS| && i < |types|
    ensures i < gps ==> ArgumentIndex(types, Gp(GP_ARG_REGS[i], 8)) == Some(i)
    ensures i >= gps ==> ArgumentIndex(types, Sse(SSE_ARG_REGS[i - gps])) == Some(i)
  {
    hide IndexOf, Others;
    OthersOf(types, gps);
    if i < gps {
      ArgRegsDiffer(i);
    } else {
      ArgRegsDiffer(i - gps);
    }
  }

  lemma IndexOfNth(s: seq<nat>, i: nat)
    requires i < |s| && forall j, k :: 0 <= j < k < |s| ==> s[j] != s[k]
    ensures IndexOf(s, s[i]) == i
  {
    hide IndexOf;
    assert s[i] in s;
    forall j | 0 <= j < |s| && j != i ensures s[j] != s[i] {
      if j < i {
        assert s[j] != s[i];
      } else {
        assert s[i] != s[j];
      }
    }
  }

  lemma ArgRegsDiffer(i: nat)
    ensures i < |GP_ARG_REGS| ==> IndexOf(GP_ARG_REGS, GP_ARG_REGS[i]) == i
    ensures i < |SSE_ARG_REGS| ==> IndexOf(SSE_ARG_REGS, SSE_ARG_REGS[i]) == i
  {
    hide IndexOf;
    if i < |GP_ARG_REGS| {
      IndexOfNth(GP_ARG_REGS, i);
    }
    if i < |SSE_ARG_REGS| {
      IndexOfNth(SSE_ARG_REGS, i);
    }
  }
}
