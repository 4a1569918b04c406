/** The set of registers that are live on entry to a function, and the argument list made of it. */
module LiveInRegisters {
  import opened Wrappers

  /** A general-purpose register by family and width in bytes, or an SSE register. The high-byte registers are not
      modelled. */
  datatype Reg = Gp(family: nat, bytes: nat) | Sse(n: nat)

  /** What `find64BitSuperReg` gives: one value for all registers that share bits. */
  datatype Family = GpFamily(n: nat) | SseFamily(n: nat)

  predicate IsReg(r: Reg) {
    r.Gp? ==> r.bytes in {1, 2, 4, 8}
  }

  function FamilyOf(r: Reg): Family {
    match r
    case Gp(f, _) => GpFamily(f)
    case Sse(n) => SseFamily(n)
  }

  function BytesOf(r: Reg): nat {
    match r
    case Gp(_, bytes) => bytes
    case Sse(_) => 8
  }

  /** `q` is a sub-register of `r`, other than `r`. */
  predicate IsSub(q: Reg, r: Reg) {
    FamilyOf(q) == FamilyOf(r) && BytesOf(q) < BytesOf(r)
  }

  function SubRegs(r: Reg): (subs: seq<Reg>)
    requires IsReg(r)
    ensures forall q :: q in subs <==> IsReg(q) && IsSub(q, r)
  {
    match r
    case Sse(_) => []
    case Gp(f, bytes) =>
      if bytes == 8 then [Gp(f, 4), Gp(f, 2), Gp(f, 1)]
      else if bytes == 4 then [Gp(f, 2), Gp(f, 1)]
      else if bytes == 2 then [Gp(f, 1)] else []
  }

  function SuperRegs(r: Reg): (supers: seq<Reg>)
    requires IsReg(r)
    ensures forall q :: q in supers <==> IsReg(q) && IsSub(r, q)
  {
    match r
    case Sse(_) => []
    case Gp(f, bytes) =>
      if bytes == 1 then [Gp(f, 2), Gp(f, 4), Gp(f, 8)]
      else if bytes == 2 then [Gp(f, 4), Gp(f, 8)]
      else if bytes == 4 then [Gp(f, 8)] else []
  }

  // ----- the set

  /** Of every family that was added, the set holds the widest register and no other. */
  ghost predicate IsWidest(s: set<Reg>, added: set<Reg>) {
    forall r: Reg :: r in s <==> r in added && forall q: Reg :: q in added ==> !IsSub(r, q)
  }

  /** Some register of a family is widest. */
  lemma {:induction false} SomeWidest(added: set<Reg>, r: Reg) returns (w: Reg)
    requires r in added
    ensures w in added && FamilyOf(w) == FamilyOf(r) && BytesOf(w) >= BytesOf(r)
            && forall q: Reg :: q in added ==> !IsSub(w, q)
    decreases |added|, added
  {
    if q: Reg :| q in added && IsSub(r, q) {
      w := SomeWidest(added - {r}, q);
    } else {
      w := r;
    }
  }

  /** The set holds one register of every family that was added, and it is as wide as any that was. */
  lemma WidestCovers(s: set<Reg>, added: set<Reg>, r: Reg)
    requires IsWidest(s, added) && r in added
    ensures exists w: Reg :: w in s && FamilyOf(w) == FamilyOf(r) && BytesOf(w) >= BytesOf(r)
  {
    var w := SomeWidest(added, r);
  }

  lemma WidestUnique(s: set<Reg>, added: set<Reg>, r: Reg, q: Reg)
    requires IsWidest(s, added) && r in s && q in s && FamilyOf(r) == FamilyOf(q)
    ensures BytesOf(r) == BytesOf(q) && r == q
  {
  }

  method FirstIn(regs: seq<Reg>, s: set<Reg>) returns (found: Option<Reg>)
    ensures found.Some? ==> found.value in regs && found.value in s
    ensures found.None? ==> forall q :: q in regs ==> q !in s
  {
    for k := 0 to |regs|
      invariant forall i :: 0 <= i < k ==> regs[i] !in s
    {
      if regs[k] in s {
        return Some(regs[k]);
      }
    }
    return None;
  }

  /** Adds a register: it replaces a sub-register, and is dropped if a super-register is there. */
  method AddRegisterToFunctionLiveInSet(liveInSet: set<Reg>, r: Reg, ghost added: set<Reg>) returns (s: set<Reg>)
    requires IsReg(r) && (forall q :: q in added ==> IsReg(q)) && IsWidest(liveInSet, added)
    ensures IsWidest(s, added + {r})
  {
    if r in liveInSet {
      assert added + {r} == added;
      return liveInSet;
    }
    var prev := FirstIn(SubRegs(r), liveInSet);
    if prev.Some? {
      s := liveInSet - {prev.value} + {r};
      Replaces(liveInSet, added, prev.value, r);
      return;
    }
    prev := FirstIn(SuperRegs(r), liveInSet);
    if prev.None? {
      s := liveInSet + {r};
      Adds(liveInSet, added, r);
    } else {
      s := liveInSet;
      Drops(liveInSet, added, prev.value, r);
    }
  }

  lemma Replaces(s: set<Reg>, added: set<Reg>, q: Reg, r: Reg)
    requires IsWidest(s, added) && q in s && IsSub(q, r)
    ensures IsWidest(s - {q} + {r}, added + {r})
  {
  }

  lemma Adds(s: set<Reg>, added: set<Reg>, r: Reg)
    requires IsWidest(s, added) && IsReg(r) && (forall q :: q in added ==> IsReg(q))
    requires r !in s && (forall q :: q in SubRegs(r) ==> q !in s) && (forall q :: q in SuperRegs(r) ==> q !in s)
    ensures IsWidest(s + {r}, added + {r})
  {
    forall q: Reg | q in added ensures FamilyOf(q) != FamilyOf(r) {
      var w := SomeWidest(added, q);
      assert w in s;
      if FamilyOf(w) == FamilyOf(r) {
        SameRegister(w, r);
      }
    }
  }

  lemma SameRegister(w: Reg, r: Reg)
    requires IsReg(w) && IsReg(r) && FamilyOf(w) == FamilyOf(r) && !IsSub(w, r) && !IsSub(r, w)
    ensures w == r
  {
  }

  lemma Drops(s: set<Reg>, added: set<Reg>, q: Reg, r: Reg)
    requires IsWidest(s, added) && q in s && IsSub(r, q)
    ensures IsWidest(s, added + {r})
  {
  }
}
