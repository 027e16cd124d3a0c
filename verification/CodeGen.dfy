// The expression code generator: a one-pass compiler that updates the code in place.

module CodeGen {
  import opened Bytecode
  import opened Denotation
  import opened Rules
  import opened Combine
  import opened Operators
  import opened Comparisons
  import opened JumpLists
  import opened Sequences

  // A syntax error ends the compilation; nothing is promised about the code after it.
  datatype Status = Pass | Fail(msg: string) {
    predicate IsFailure() { Fail? }
    function PropagateFailure(): Status requires Fail? { this }
  }

  datatype BinOpr = OprAnd | OprOr | OprCmp(op: CmpOp)

  predicate HasJumps(e: ExpDesc) {
    e.t != e.f
  }

  // `fitsC`, with its unsigned 64-bit addition.
  predicate FitsC(i: Int64) {
    (i + 127) % 0x1_0000_0000_0000_0000 <= 255
  }

  lemma FitsCRange(i: Int64)
    ensures FitsC(i) <==> -127 <= i <= 128
  {
  }

  predicate IsSCNumber(e: ExpDesc) {
    e.k.VKInt? && !HasJumps(e) && FitsC(e.k.ival)
  }

  predicate IsNumeral(e: ExpDesc) {
    !HasJumps(e) && e.k.VKInt?
  }

  /** `n` instructions and as many constants at most were added; if there was room for them, and for `d` registers more,
      nothing failed. The numbers of instructions, constants and registers were `c0`, `k0` and `r0`. */
  predicate Spends(n: nat, d: nat, c0: nat, k0: nat, r0: nat, c1: nat, k1: nat, pass: bool) {
    && c1 <= c0 + n && k1 <= k0 + n
    && (c0 + n <= OFFSET_sJ && k0 + n <= MAXARG_Ax && r0 + d < MAXREGS ==> pass)
  }

  function Size(a: Expr): nat {
    match a
    case ENot(x) => Size(x) + 1
    case EAnd(x, y) => Size(x) + Size(y) + 1
    case EOr(x, y) => Size(x) + Size(y) + 1
    case ECmp(_, x, y) => Size(x) + Size(y) + 1
    case _ => 1
  }

  // Registers enough for an expression: second operands need one more.
  function Depth(a: Expr): (d: nat)
    ensures d >= 3
  {
    match a
    case ENot(x) => Depth(x)
    case EAnd(x, y) => Deeper(Depth(x), Depth(y))
    case EOr(x, y) => Deeper(Depth(x), Depth(y))
    case ECmp(_, x, y) => Deeper(Depth(x), Depth(y))
    case _ => 3
  }

  function Deeper(m: nat, n: nat): nat {
    if m > n then m else n + 1
  }

  // An expression needs no more registers than it has parts, and two.
  lemma {:induction false} DepthSize(a: Expr)
    ensures Depth(a) <= Size(a) + 2
  {
    match a
    case ENot(x) => DepthSize(x);
    case EAnd(x, y) => DepthSize(x); DepthSize(y);
    case EOr(x, y) => DepthSize(x); DepthSize(y);
    case ECmp(_, x, y) => DepthSize(x); DepthSize(y);
    case _ =>
  }

  lemma DepthBinary(op: BinOpr, x: Expr, y: Expr)
    ensures Depth(x) <= Depth(BinExpr(op, x, y)) && Depth(y) + 1 <= Depth(BinExpr(op, x, y))
  {
  }

  // The test of a register that a NOT in the code reads fits.
  lemma FitsTests(c: seq<Instr>, p: nat, cond: bool)
    requires p < |c| && Fits(c[p])
    ensures c[p].Not? ==> Fits(Test(c[p].b, !cond))
  {
  }

  lemma FitsTestSet(reg: nat, cond: bool)
    ensures reg < MAXREGS ==> Fits(TestSet(NO_REG, reg, cond))
  {
  }

  lemma FitsLoads(reg: nat)
    ensures reg < MAXREGS ==> Fits(LoadFalse(reg)) && Fits(LoadTrue(reg))
  {
  }

  lemma FitsMove(reg: nat, r: nat)
    ensures reg < MAXREGS && r < MAXREGS ==> Fits(Move(reg, r))
  {
  }

  lemma FitsWithA(c: seq<Instr>, p: nat, reg: nat)
    requires p < |c| && (c[p].Not? || c[p].GetUpval?)
    ensures reg < MAXREGS && Fits(c[p]) ==> Fits(WithA(c[p], reg))
  {
  }

  lemma FitsImmediate(op: TestOp, reg: nat, i: Int64)
    ensures reg < MAXREGS && FitsC(i) && !op.OpEq? && !op.OpLt? && !op.OpLe? && !op.OpEqK? ==>
              Fits(Cmp(op, reg, i, true))
  {
  }

  lemma FitsRegisters(op: TestOp, r1: nat, r2: nat)
    ensures r1 < MAXREGS && r2 < MAXREGS && (op.OpLt? || op.OpLe?) ==> Fits(Cmp(op, r1, r2, true))
  {
  }

  class FuncState {
    var code: seq<Instr>
    var k: seq<Value>
    var kcache: map<Value, nat>   // where a constant was put; entries of other functions may be wrong
    var freereg: nat
    var lasttarget: nat
    var maxstack: nat
    const nvar: nat               // registers of the active local variables
    ghost var pending: set<nat>   // jumps whose destination is still unknown

    ghost predicate Valid()
      reads this
    {
      && lasttarget <= |code|
      && nvar <= freereg <= maxstack < MAXREGS
      && Primitives(k) && |k| <= MAXARG_Ax
      && forall p :: 0 <= p < |code| ==> Fits(code[p])
    }

    constructor (nvar: nat)
      requires nvar < MAXREGS - 2
      ensures Valid() && code == [] && k == [] && freereg == nvar && lasttarget == 0 && pending == {}
      ensures this.nvar == nvar
    {
      this.nvar := nvar;
      code, k, kcache, lasttarget := [], [], map[], 0;
      freereg := nvar;
      maxstack := nvar + 2;
      pending := {};
    }

    // ----- emitting -----

    method Code(i: Instr) returns (pc: nat)
      requires Valid() && Fits(i)
      modifies `code
      ensures Valid() && code == old(code) + [i] && pc == |old(code)|
    {
      code := code + [i];
      pc := |code| - 1;
    }

    method Jump() returns (pc: nat)
      requires Valid()
      modifies `code, `pending
      ensures Valid() && code == old(code) + [Jmp(NO_JUMP)] && pc == |old(code)|
      ensures pending == old(pending) + {pc}
    {
      pc := Code(Jmp(NO_JUMP));
      pending := pending + {pc};
    }

    method CondJump(i: Instr) returns (pc: nat)
      requires Valid() && Fits(i) && IsTest(i)
      modifies `code, `pending
      ensures Valid() && code == old(code) + [i, Jmp(NO_JUMP)] && pc == |old(code)| + 1
      ensures pending == old(pending) + {pc}
    {
      var _ := Code(i);
      pc := Jump();
      assert old(code) + [i] + [Jmp(NO_JUMP)] == old(code) + [i, Jmp(NO_JUMP)];
    }

    method GetLabel() returns (pc: nat)
      requires Valid()
      modifies `lasttarget
      ensures Valid() && lasttarget == pc == |code|
    {
      lasttarget := |code|;
      return |code|;
    }

    method RemoveLastInstruction()
      requires Valid() && lasttarget < |code|
      modifies `code
      ensures Valid() && code == old(code)[..|old(code)| - 1]
    {
      code := code[..|code| - 1];
    }

    // ----- jump lists -----

    method FixJump(pc: nat, dest: int) returns (st: Status)
      requires Valid() && pc < |code| && code[pc].Jmp? && dest != NO_JUMP
      modifies `code
      ensures Valid()
      ensures st.Pass? <==> -OFFSET_sJ <= dest - (pc + 1) <= MAXARG_sJ - OFFSET_sJ
      ensures st.Pass? ==> code == old(code)[pc := Jmp(dest - (pc + 1))]
      ensures st.Fail? ==> code == old(code)
      ensures |code| == |old(code)|
    {
      var offset := dest - (pc + 1);
      if !(-OFFSET_sJ <= offset <= MAXARG_sJ - OFFSET_sJ) {
        return Fail("control structure too long");
      }
      code := code[pc := Jmp(offset)];
      return Pass;
    }

    // `luaK_concat`: appends the list `l2` (the jumps `m`) to the list `l1` (the jumps `l`).
    method Concat(l1: int, l2: int, ghost l: seq<nat>, ghost m: seq<nat>) returns (st: Status, r: int)
      requires Valid() && ListOf(code, l1, l) && ListOf(code, l2, m)
      requires forall p :: p in l ==> p !in m
      modifies `code
      ensures Valid()
      ensures st.Pass? ==> |code| == |old(code)| && ListOf(code, r, l + m)
      ensures st.Pass? ==> forall p :: 0 <= p < |code| ==>
                         code[p] == old(code)[p] || (p in l && old(code)[p].Jmp? && code[p].Jmp?)
      ensures |code| == |old(code)| && (|code| <= OFFSET_sJ ==> st.Pass?)
    {
      st, r := Pass, l1;
      if l2 == NO_JUMP {
        assert l + m == l;
      } else if l1 == NO_JUMP {
        r := l2;
        assert l + m == m;
      } else {
        var list := l1;
        ghost var i := 0;
        var next := GetJump(code, list);
        while next != NO_JUMP
          invariant 0 <= i < |l| && list == l[i] && code == old(code)
          invariant list < |code| && code[list].Jmp? && next == GetJump(code, list)
          invariant ListOf(code, next, l[i + 1..])
          decreases |l| - i
        {
          ListTail(code, l1, l, i + 1);
          list := next;
          i := i + 1;
          next := GetJump(code, list);
        }
        assert l[i + 1..] == [];
        ListAppend(code, l1, l, m);
        st := FixJump(list, l2);
      }
    }

    // The test that decides a jump, or the jump itself.
    function JumpControl(pc: nat): nat
      requires pc < |code|
      reads this
    {
      if pc >= 1 && IsTest(code[pc - 1]) then pc - 1 else pc
    }

    method PatchTestReg(node: nat, reg: nat) returns (had: bool)
      requires Valid() && node < |code| && code[node].Jmp? && (reg == NO_REG || IsReg(reg))
      modifies `code
      ensures Valid() && had == HasValue(old(code), node)
      ensures code == if had then old(code)[node - 1 := Retarget(old(code)[node - 1], reg)] else old(code)
    {
      var i := JumpControl(node);
      if !code[i].TestSet? { return false; }
      if reg != NO_REG && reg != code[i].b {
        code := code[i := TestSet(reg, code[i].b, code[i].k)];
      } else {
        code := code[i := Test(code[i].b, code[i].k)];
      }
      return true;
    }

    // `removevalues`: no test of the list stores a value any more.
    method RemoveValues(head: int, ghost l: seq<nat>)
      requires Valid() && ListOf(code, head, l)
      modifies `code
      ensures Valid() && ListOf(code, head, l) && Unvalues(old(code), code, l)
    {
      var list := head;
      ghost var i := 0;
      while list != NO_JUMP
        invariant 0 <= i <= |l| && Valid()
        invariant Unvalues(old(code), code, l[..i])
        invariant ListOf(code, head, l) && ListOf(code, list, l[i..])
        decreases |l| - i
      {
        ListTail(code, head, l, i);
        ghost var before := code;
        var _ := PatchTestReg(list, NO_REG);
        UnvalueStep(old(code), before, code, head, l, i);
        ListTail(code, head, l, i);
        list := GetJump(code, list);
        i := i + 1;
      }
      assert l[..i] == l;
    }

    /** `patchlistaux`: every jump of the list goes to its target, `vtarget` if its test produces a value and
        `dtarget` otherwise, every such test gets its register, and nothing else changes. */
    method PatchListAux(head: int, vtarget: nat, reg: nat, dtarget: int, ghost l: seq<nat>) returns (st: Status)
      requires Valid() && ListOf(code, head, l) && (reg == NO_REG || IsReg(reg))
      requires (forall p :: p in l ==> HasValue(code, p)) || dtarget >= 0
      modifies `code, `pending
      ensures Valid()
      ensures st.Pass? ==> PatchedTo(old(code), code, l, vtarget, reg, dtarget) && pending == old(pending) - Members(l)
      ensures |code| == |old(code)|
      ensures vtarget <= |code| <= OFFSET_sJ && dtarget <= |code| ==> st.Pass?
    {
      hide PatchedTo, Fits, Retarget;
      var list := head;
      ghost var i := 0;
      ListNoDup(code, head, l);
      ListJumps(code, head, l);
      PatchNone(code, vtarget, reg, dtarget);
      while list != NO_JUMP
        invariant 0 <= i <= |l| && Valid()
        invariant ListOf(code, list, l[i..])
        invariant |code| == |old(code)| && forall p :: p in l ==> p < |code|
        invariant PatchedTo(old(code), code, l[..i], vtarget, reg, dtarget)
        invariant pending == old(pending)
        decreases |l| - i
      {
        var next := GetJump(code, list);
        ghost var before := code;
        PatchKeeps(old(code), code, l, i, vtarget, reg, dtarget);
        var had := PatchTestReg(list, reg);
        assert code[list] == before[list];
        st := FixJump(list, if had then vtarget else dtarget);
        if st.Fail? { return; }
        PatchRound(old(code), before, code, l, i, vtarget, reg, dtarget);
        list := next;
        i := i + 1;
      }
      assert l[..i] == l;
      pending := pending - Members(l);
      st := Pass;
    }

    // `need_value`: some jump of the list does not produce a value.
    method NeedValue(head: int, ghost l: seq<nat>) returns (b: bool)
      requires Valid() && ListOf(code, head, l)
      ensures b <==> exists p :: p in l && !HasValue(code, p)
    {
      var list := head;
      ghost var i := 0;
      while list != NO_JUMP
        invariant 0 <= i <= |l|
        invariant ListOf(code, list, l[i..])
        invariant forall p :: p in l[..i] ==> HasValue(code, p)
        decreases |l| - i
      {
        ListTail(code, head, l, i);
        assert l[i] in l && l[..i + 1] == l[..i] + [l[i]];
        if !code[JumpControl(list)].TestSet? { return true; }
        list := GetJump(code, list);
        i := i + 1;
      }
      assert l[..i] == l;
      return false;
    }

    // ----- constants -----

    // `addk`: the index of a constant, an old one when the cache names one that is really equal.
    method AddK(v: Value) returns (st: Status, idx: nat)
      requires Valid() && !v.Obj?
      modifies `k, `kcache
      ensures Valid() && (st.Fail? ==> |old(k)| == MAXARG_Ax)
      ensures st.Pass? ==> idx < |k| && k[idx] == v && (k == old(k) || k == old(k) + [v])
      ensures old(k) <= k
      ensures Spends(1, 0, |code|, |old(k)|, freereg, |code|, |k|, st.Pass?)
    {
      idx := 0;
      if v in kcache && kcache[v] < |k| && k[kcache[v]] == v {
        return Pass, kcache[v];
      }
      idx := |k|;
      kcache := kcache[v := idx];
      if |k| >= MAXARG_Ax { return Fail("too many constants"), idx; }
      k := k + [v];
      st := Pass;
    }

    // `luaK_codek`
    method CodeK(reg: nat, idx: nat, ghost v: Value) returns (ghost d: seq<Instr>)
      requires Valid() && IsReg(reg) && idx < |k| && k[idx] == v
      modifies `code
      ensures Valid() && code == old(code) + d && ConstLoad(k, d, reg, v)
    {
      if idx <= MAXARG_Bx {
        d := [LoadK(reg, idx)];
        var _ := Code(LoadK(reg, idx));
      } else {
        d := [LoadKX(reg), ExtraArg(idx)];
        var _ := Code(LoadKX(reg));
        var _ := Code(ExtraArg(idx));
        assert old(code) + [LoadKX(reg)] + [ExtraArg(idx)] == old(code) + d;
      }
    }

    // ----- registers -----

    method CheckStack(n: nat) returns (st: Status)
      requires Valid()
      modifies `maxstack
      ensures Valid() && (st.Fail? <==> freereg + n > old(maxstack) && freereg + n >= MAXREGS)
      ensures st.Pass? ==> freereg + n <= maxstack
    {
      var newstack := freereg + n;
      if newstack > maxstack {
        if newstack >= MAXREGS { return Fail("function or expression needs too many registers"); }
        maxstack := newstack;
      }
      return Pass;
    }

    method ReserveRegs(n: nat) returns (st: Status)
      requires Valid()
      modifies `maxstack, `freereg
      ensures Valid() && (st.Pass? ==> freereg == old(freereg) + n) && (old(freereg) + n < MAXREGS ==> st.Pass?)
    {
      st := Pass;
      :- CheckStack(n);
      freereg := freereg + n;
    }

    // `freereg`: registers of local variables stay; the others are freed in stack order.
    method FreeReg(reg: int)
      requires Valid() && (reg >= nvar ==> reg == freereg - 1)
      modifies `freereg
      ensures Valid() && freereg == if reg >= nvar then reg else old(freereg)
    {
      if reg >= nvar {
        freereg := freereg - 1;
        assert reg == freereg;
      }
    }

    method FreeRegs(r1: int, r2: int)
      requires Valid()
      requires var hi, lo := (if r1 > r2 then r1 else r2), (if r1 > r2 then r2 else r1);
        && (hi >= nvar ==> hi == freereg - 1)
        && (lo >= nvar ==> lo == hi - 1)
      modifies `freereg
      ensures Valid()
      ensures freereg == if r1 >= nvar && r2 >= nvar then old(freereg) - 2
                         else if r1 >= nvar || r2 >= nvar then old(freereg) - 1 else old(freereg)
    {
      if r1 > r2 {
        FreeReg(r1);
        FreeReg(r2);
      } else {
        FreeReg(r2);
        FreeReg(r1);
      }
    }

    method FreeExp(e: ExpDesc)
      requires Valid() && (e.k.VNonReloc? && e.k.reg >= nvar ==> e.k.reg == freereg - 1)
      modifies `freereg
      ensures Valid() && freereg == if e.k.VNonReloc? && e.k.reg >= nvar then e.k.reg else old(freereg)
    {
      if e.k.VNonReloc? { FreeReg(e.k.reg); }
    }

    // ----- what is known while an expression is being compiled -----

    /** The code means `g.expr`, with its value where `pt` says or carried by the jumps of `t` and `f`. */
    ghost predicate Hold(g: Goal, pt: Point, t: seq<nat>, f: seq<nat>, spare: int)
      reads this
    {
      && Valid() && nvar <= g.base
      && Shape(g, code, pending, lasttarget, pt, t, f)
      && Sem(g, k, code, pending, pt, t, f, spare)
    }

    // The registers and constants a main value uses.
    ghost predicate KindOk(kd: Kind)
      reads this
    {
      match kd
      case VK(i) => i < |k|
      case VUpval(u) => u <= MAXARG_B
      case VLocal(r) => r < nvar
      case VNonReloc(r) => r < maxstack
      case VJmp(p) => p < |code| && code[p] == Jmp(NO_JUMP)
      case _ => true
    }

    ghost predicate RegOk(g: Goal, kd: Kind)
      reads this
    {
      match kd
      case VNonReloc(r) => (r < nvar && freereg == g.base) || (r == g.base && freereg == g.base + 1)
      case _ => freereg == g.base
    }

    // The descriptor `e` stands for `g.expr`, its lists being `t` and `f`.
    ghost predicate Exp(g: Goal, e: ExpDesc, t: seq<nat>, f: seq<nat>)
      reads this
    {
      && Hold(g, Main(e.k), t, f, -1)
      && ListOf(code, e.t, t) && ListOf(code, e.f, f)
      && KindOk(e.k) && RegOk(g, e.k)
    }

    // ----- putting values in registers -----

    /** `luaK_nil`: registers `from` to `from + n - 1`; a LOADNIL just before, with no label between, is
        widened when the ranges touch. */
    method LoadNils(from: nat, n: nat)
      requires Valid() && n > 0 && IsReg(from + n - 1)
      modifies `code
      ensures Valid()
      ensures var c := old(code); var l := from + n - 1;
        if lasttarget < |c| && c[|c| - 1].LoadNil? && Connects(c[|c| - 1], from, l)
        then code == c[|c| - 1 := Union(c[|c| - 1], from, l)]
        else code == c + [LoadNil(from, n - 1)]
    {
      var l := from + n - 1;
      if |code| > lasttarget && code[|code| - 1].LoadNil? {
        var pfrom := code[|code| - 1].a;
        var pl := pfrom + code[|code| - 1].n;
        if (pfrom <= from <= pl + 1) || (from <= pfrom <= l + 1) {
          var first := if pfrom < from then pfrom else from;
          var last := if pl > l then pl else l;
          code := code[|code| - 1 := LoadNil(first, last - first)];
          return;
        }
      }
      var _ := Code(LoadNil(from, n - 1));
    }

    method LoadInt(reg: nat, i: Int64) returns (st: Status, ghost d: seq<Instr>)
      requires Valid() && IsReg(reg)
      modifies `code, `k, `kcache
      ensures Valid() && old(k) <= k
      ensures st.Pass? ==> code == old(code) + d && LoadOf(k, code, VKInt(i), reg, d)
      ensures Spends(2, 0, |old(code)|, |old(k)|, freereg, |code|, |k|, st.Pass?)
    {
      if -OFFSET_sBx <= i <= MAXARG_Bx - OFFSET_sBx {
        d := [LoadI(reg, i)];
        var _ := Code(LoadI(reg, i));
      } else {
        d := [];
        var idx :- AddK(Int(i));
        d := CodeK(reg, idx, Int(i));
      }
      st := Pass;
    }

    method DischargeVars(e: ExpDesc, ghost g: Goal, ghost t: seq<nat>, ghost f: seq<nat>) returns (e': ExpDesc)
      requires Valid()
      requires e.k.VLocal? || e.k.VUpval? ==> Exp(g, e, t, f)
      modifies `code
      ensures Valid() && !e'.k.VLocal? && !e'.k.VUpval? && e'.t == e.t && e'.f == e.f
      ensures e'.k.VK? ==> e.k.VK?
      ensures !e.k.VLocal? && !e.k.VUpval? ==> e' == e && code == old(code)
      ensures old(Exp(g, e, t, f)) ==> Exp(g, e', t, f)
      ensures |code| <= |old(code)| + 1
    {
      hide Shape, Sem;
      match e.k
      case VLocal(r) =>
        LocalRule(g, k, code, pending, r, t, f, -1);
        LocalShape(g, code, pending, lasttarget, r, t, f);
        e' := e.(k := VNonReloc(r));
      case VUpval(u) =>
        UpvalRule(g, k, code, pending, lasttarget, u, t, f);
        ghost var before := code;
        var pc := Code(GetUpval(0, u));
        KeepLists(g, before, code, pending, lasttarget, Main(e.k), t, f, e.t, e.f);
        e' := e.(k := VReloc(pc));
      case _ =>
        e' := e;
    }

    /** `discharge2reg`: the main value goes to `reg`; a comparison is left as it is. */
    method Discharge2Reg(e: ExpDesc, reg: nat, ghost g: Goal, ghost t: seq<nat>, ghost f: seq<nat>)
      returns (st: Status, e': ExpDesc)
      requires Hold(g, Main(e.k), t, f, -1) && KindOk(e.k) && reg < maxstack
      requires !e.k.VLocal? && !e.k.VUpval?
      requires ListOf(code, e.t, t) && ListOf(code, e.f, f)
      modifies `code, `k, `kcache
      ensures Valid() && old(k) <= k
      ensures st.Pass? && e.k.VJmp? ==> e' == e && code == old(code) && k == old(k)
      ensures st.Pass? && !e.k.VJmp? ==> e' == e.(k := VNonReloc(reg)) && Hold(g, Main(VNonReloc(reg)), t, f, reg)
      ensures st.Pass? && !e.k.VJmp? ==> ListOf(code, e'.t, t) && ListOf(code, e'.f, f)
      ensures Spends(2, 0, |old(code)|, |old(k)|, freereg, |code|, |k|, st.Pass?)
    {
      hide Shape, Sem, ListOf, ConstLoad, Fits;
      st, e' := Pass, e;
      if e.k.VJmp? { return; }
      e' := e.(k := VNonReloc(reg));
      ghost var before := code;
      ghost var d: seq<Instr>;
      FitsLoads(reg);
      match e.k {
      case VNil =>
        LoadNils(reg, 1);
        NilRule(g, k, before, code, pending, lasttarget, t, f, reg, e.t, e.f);
        return;
      case VNonReloc(r) =>
        if reg == r {
          SemLoosen(g, k, code, pending, Main(e.k), t, f, reg);
          return;
        }
        d := [Move(reg, r)];
        FitsMove(reg, r);
        var _ := Code(Move(reg, r));
      case VReloc(p) =>
        RelocLast(g, code, pending, lasttarget, p, t, f);
        d := [WithA(code[p], reg)];
        FitsWithA(code, p, reg);
        code := code[p := WithA(code[p], reg)];
        assert code == before[..p] + d;
      case VFalse =>
        d := [LoadFalse(reg)];
        var _ := Code(LoadFalse(reg));
      case VTrue =>
        d := [LoadTrue(reg)];
        var _ := Code(LoadTrue(reg));
      case VKStr(s) =>
        var idx :- AddK(Str(s));
        d := CodeK(reg, idx, Str(s));
      case VK(idx) =>
        d := CodeK(reg, idx, k[idx]);
      case VKInt(i) =>
        d :- LoadInt(reg, i);
      }
      DischargeRule(g, old(k), k, before, code, pending, lasttarget, e.k, t, f, reg, d, e.t, e.f);
    }

    method Discharge2AnyReg(e: ExpDesc, ghost g: Goal, ghost t: seq<nat>, ghost f: seq<nat>)
      returns (st: Status, e': ExpDesc)
      requires Exp(g, e, t, f) && !e.k.VLocal? && !e.k.VUpval? && !e.k.VJmp?
      modifies `code, `k, `kcache, `maxstack, `freereg
      ensures Valid() && old(k) <= k
      ensures st.Pass? ==> Exp(g, e', t, f) && e'.k.VNonReloc? && e'.t == e.t && e'.f == e.f
      ensures Spends(2, 1, |old(code)|, |old(k)|, old(freereg), |code|, |k|, st.Pass?)
    {
      hide Shape, Sem;
      if !e.k.VNonReloc? {
        e' := e;
        :- ReserveRegs(1);
        e' :- Discharge2Reg(e, freereg - 1, g, t, f);
        SemSpare(g, k, code, pending, Main(e'.k), t, f, freereg - 1);
        return Pass, e';
      }
      return Pass, e;
    }

    method CodeLoadBool(i: Instr) returns (pc: nat)
      requires Valid() && Fits(i)
      modifies `code, `lasttarget
      ensures Valid() && code == old(code) + [i] && pc == lasttarget == |old(code)|
    {
      var _ := GetLabel();
      pc := Code(i);
    }

    method PatchList(list: int, target: nat, ghost l: seq<nat>) returns (st: Status)
      requires Valid() && ListOf(code, list, l) && target <= |code|
      modifies `code, `pending
      ensures Valid()
      ensures st.Pass? ==> PatchedTo(old(code), code, l, target, NO_REG, target) && pending == old(pending) - Members(l)
      ensures |code| == |old(code)| && (|code| <= OFFSET_sJ ==> st.Pass?)
    {
      st := PatchListAux(list, target, NO_REG, target, l);
    }

    method PatchToHere(list: int, ghost l: seq<nat>) returns (st: Status)
      requires Valid() && ListOf(code, list, l)
      modifies `code, `pending, `lasttarget
      ensures Valid()
      ensures st.Pass? ==> PatchedTo(old(code), code, l, |code|, NO_REG, |code|) && pending == old(pending) - Members(l)
      ensures st.Pass? ==> lasttarget == |code| == |old(code)|
      ensures |code| == |old(code)| && (|code| <= OFFSET_sJ ==> st.Pass?)
    {
      var hr := GetLabel();
      st := PatchList(list, hr, l);
    }

    // The code that loads a boolean for the jumps without a value; `isTest` when the expression is a test.
    method LoadBools(reg: nat, isTest: bool) returns (st: Status, pf: int, pt: int)
      requires Valid() && IsReg(reg) && forall p :: p in pending ==> p < |code|
      requires !isTest ==> |code| > 0 && !IsTest(code[|code| - 1])
      modifies `code, `pending, `lasttarget
      ensures Valid()
      ensures st.Pass? ==> code == old(code) + (if isTest then BoolCode(reg) else SkipCode(reg))
      ensures st.Pass? ==> pf == |code| - 2 && pt == |code| - 1 && lasttarget == |code| && pending == old(pending)
      ensures |code| <= |old(code)| + 3 && (|old(code)| + 3 <= OFFSET_sJ ==> st.Pass?)
    {
      pf, pt := NO_JUMP, NO_JUMP;
      var fj := NO_JUMP;
      if !isTest { fj := Jump(); }
      ghost var l := if isTest then [] else [fj];
      pf := CodeLoadBool(LFalseSkip(reg));
      pt := CodeLoadBool(LoadTrue(reg));
      ghost var c := code;
      assert c == old(code) + (if isTest then BoolCode(reg) else [Jmp(NO_JUMP)] + BoolCode(reg));
      assert ListOf(code, fj, l);
      :- PatchToHere(fj, l);
      BoolsPatched(old(code), c, code, reg, isTest);
      assert pending == old(pending);
      st := Pass;
    }

    // The start of `exp2reg` for a comparison: its own jump exits when true.
    method JumpToTrue(e: ExpDesc, ghost g: Goal, ghost t: seq<nat>, ghost f: seq<nat>) returns (st: Status, e': ExpDesc)
      requires Hold(g, Main(e.k), t, f, -1) && KindOk(e.k) && e.k.VJmp?
      requires ListOf(code, e.t, t) && ListOf(code, e.f, f)
      modifies `code
      ensures Valid()
      ensures st.Pass? ==> Hold(g, Main(VFalse), t + [e.k.jpc], f, -1) && e'.k == e.k
      ensures st.Pass? ==> ListOf(code, e'.t, t + [e.k.jpc]) && ListOf(code, e'.f, f) && !HasValue(code, e.k.jpc)
      ensures |code| == |old(code)| && (|code| <= OFFSET_sJ ==> st.Pass?)
    {
      hide Shape, Sem, ListOf;
      e' := e;
      JumpRule(g, k, code, pending, lasttarget, e.k, t, f, true);
      ghost var before := code;
      JumpFresh(g, code, pending, lasttarget, e.k, t, f);
      var nt :- Concat(e.t, e.k.jpc, t, [e.k.jpc]);
      ConcatKeeps(g, k, before, code, pending, lasttarget, Main(VFalse), t + [e.k.jpc], f, t, -1);
      ListFrame(before, code, e.f, f);
      return Pass, e.(t := nt);
    }

    /** `exp2reg`: the final value of the expression, whichever way it is produced, ends up in `reg`, and no
        jump of the expression is left pending. */
    method Exp2Reg(e: ExpDesc, reg: nat, ghost g: Goal, ghost t: seq<nat>, ghost f: seq<nat>)
      returns (st: Status, e': ExpDesc)
      requires Hold(g, Main(e.k), t, f, -1) && KindOk(e.k) && reg < maxstack
      requires !e.k.VLocal? && !e.k.VUpval?
      requires ListOf(code, e.t, t) && ListOf(code, e.f, f)
      modifies `code, `k, `kcache, `pending, `lasttarget
      ensures Valid() && old(k) <= k
      ensures st.Pass? ==> e' == ExpDesc(VNonReloc(reg), NO_JUMP, NO_JUMP)
      ensures st.Pass? ==> Hold(g, Main(VNonReloc(reg)), [], [], reg) && pending == g.pending
      ensures Spends(5, 0, |old(code)|, |old(k)|, freereg, |code|, |k|, st.Pass?)
    {
      hide Shape, Sem;
      e' := e;
      e' :- Discharge2Reg(e, reg, g, t, f);
      var isTest := e'.k.VJmp?;
      ghost var ts := t;
      if isTest {
        ts := t + [e'.k.jpc];
        e' :- JumpToTrue(e', g, t, f);
      }
      ListsFacts(g, code, pending, lasttarget, Main(if isTest then VFalse else VNonReloc(reg)), ts, f, e'.t, e'.f);
      if HasJumps(e') {
        assert isTest ==> e'.k.jpc in ts;
        :- FinishLists(e', reg, isTest, g, ts, f);
      } else {
        assert ts == [] && f == [];
      }
      e' := ExpDesc(VNonReloc(reg), NO_JUMP, NO_JUMP);
      NothingPending(g, code, pending, lasttarget, Main(VNonReloc(reg)));
      st := Pass;
    }

    // The part of `exp2reg` for expressions with jumps.
    method FinishLists(e: ExpDesc, reg: nat, isTest: bool, ghost g: Goal, ghost t: seq<nat>, ghost f: seq<nat>)
      returns (st: Status)
      requires Hold(g, Main(if isTest then VFalse else VNonReloc(reg)), t, f, if isTest then -1 else reg)
        && reg < maxstack
      requires ListOf(code, e.t, t) && ListOf(code, e.f, f) && (t != [] || f != [])
      requires isTest ==> exists p :: p in t && !HasValue(code, p)
      requires forall p :: p in pending ==> p < |code|
      modifies `code, `pending, `lasttarget
      ensures Valid()
      ensures st.Pass? ==> Hold(g, Main(VNonReloc(reg)), [], [], reg)
      ensures |code| <= |old(code)| + 3 && (|old(code)| + 3 <= OFFSET_sJ ==> st.Pass?)
    {
      hide Shape, Sem;
      var pf, pt := NO_JUMP, NO_JUMP;
      var needT := NeedValue(e.t, t);
      var needF := NeedValue(e.f, f);
      if needT || needF {
        ghost var before := code;
        EndOfCode(g, code, pending, lasttarget, Main(if isTest then VFalse else VNonReloc(reg)), t, f);
        pf, pt :- LoadBools(reg, isTest);
        BoolsRule(g, k, before, code, pending, old(lasttarget), t, f, reg, isTest, e.t, e.f);
      }
      :- PatchBoth(e, reg, pf, pt, needT || needF, g, t, f);
      st := Pass;
    }

    // The end of `exp2reg`: both lists patched.
    method PatchBoth(e: ExpDesc, reg: nat, pf: int, pt: int, need: bool, ghost g: Goal, ghost t: seq<nat>,
                     ghost f: seq<nat>)
      returns (st: Status)
      requires Hold(g, Main(VNonReloc(reg)), t, f, reg) && IsReg(reg)
      requires ListOf(code, e.t, t) && ListOf(code, e.f, f)
      requires pf <= |code| && pt <= |code|
      requires if need then BoolAt(code, pf, reg, false) && BoolAt(code, pt, reg, true)
               else (forall p :: p in t || p in f ==> HasValue(code, p))
      modifies `code, `pending, `lasttarget
      ensures Valid()
      ensures st.Pass? ==> Hold(g, Main(VNonReloc(reg)), [], [], reg)
      ensures |code| == |old(code)| && (|code| <= OFFSET_sJ ==> st.Pass?)
    {
      hide Shape, Sem, PatchedTo;
      var final := GetLabel();
      LabelRule(g, code, pending, old(lasttarget), final, Main(VNonReloc(reg)), t, f);
      ghost var c1 := code;
      ghost var x1 := pending;
      :- PatchListAux(e.f, final, reg, pf, f);
      PatchFalse(g, k, c1, code, x1, lasttarget, t, f, reg, pf, pt, need, e.t);
      ghost var c2 := code;
      ghost var x2 := pending;
      :- PatchListAux(e.t, final, reg, pt, t);
      PatchTrue(g, k, c2, code, x2, lasttarget, t, reg, pt, need);
      st := Pass;
    }

    method Exp2NextReg(e: ExpDesc, ghost g: Goal, ghost t: seq<nat>, ghost f: seq<nat>)
      returns (st: Status, e': ExpDesc)
      requires Exp(g, e, t, f)
      modifies this
      ensures Valid() && old(k) <= k
      ensures st.Pass? ==> e' == ExpDesc(VNonReloc(g.base), NO_JUMP, NO_JUMP)
      ensures st.Pass? ==> Exp(g, e', [], []) && pending == g.pending
      ensures Spends(6, 1, |old(code)|, |old(k)|, old(freereg), |code|, |k|, st.Pass?)
    {
      hide Shape, Sem;
      e' := DischargeVars(e, g, t, f);
      FreeExp(e');
      :- ReserveRegs(1);
      e' :- Exp2Reg(e', freereg - 1, g, t, f);
      SemSpare(g, k, code, pending, Main(e'.k), [], [], g.base);
      st := Pass;
    }

    /** `luaK_exp2anyreg`: a value already in a register and without jumps stays there; so does one whose
        jumps can be resolved into its own register, when that is not a local variable. */
    method Exp2AnyReg(e: ExpDesc, ghost g: Goal, ghost t: seq<nat>, ghost f: seq<nat>) returns (st: Status, e': ExpDesc)
      requires Valid()
      requires (e.k.VNonReloc? && !HasJumps(e)) || Exp(g, e, t, f)
      modifies this
      ensures Valid() && old(k) <= k
      ensures e.k.VNonReloc? && !HasJumps(e) ==> st.Pass? && e' == e && code == old(code) && k == old(k)
      ensures e.k.VNonReloc? && !HasJumps(e) ==> pending == old(pending) && lasttarget == old(lasttarget)
      ensures e.k.VNonReloc? && !HasJumps(e) ==> freereg == old(freereg) && maxstack == old(maxstack)
      ensures st.Pass? ==> e'.k.VNonReloc? && !HasJumps(e')
      ensures st.Pass? && !(e.k.VNonReloc? && !HasJumps(e)) ==>
                Exp(g, e', [], []) && pending == g.pending && e'.t == e'.f == NO_JUMP
      ensures Spends(7, 1, |old(code)|, |old(k)|, old(freereg), |code|, |k|, st.Pass?)
    {
      hide Shape, Sem;
      e' := DischargeVars(e, g, t, f);
      if e'.k.VNonReloc? {
        if !HasJumps(e') {
          if !e.k.VNonReloc? {
            NoJumps(g, code, pending, lasttarget, Main(e'.k), t, f, e'.t, e'.f);
            NothingPending(g, code, pending, lasttarget, Main(e'.k));
          }
          return Pass, e';
        }
        if e'.k.reg >= nvar {
          e' :- Exp2Reg(e', e'.k.reg, g, t, f);
          SemSpare(g, k, code, pending, Main(e'.k), [], [], g.base);
          return Pass, e';
        }
      }
      st, e' := Exp2NextReg(e', g, t, f);
    }

    // `luaK_exp2K`: a constant without jumps, if its index fits an operand.
    method Exp2K(e: ExpDesc) returns (st: Status, isK: bool, e': ExpDesc)
      requires Valid() && KindOk(e.k)
      modifies `k, `kcache
      ensures Valid() && old(k) <= k
      ensures e.k.VK? ==> st.Pass? && k == old(k)
      ensures e.k.VK? && !HasJumps(e) && e.k.info <= MAXARG_B ==> isK
      ensures st.Pass? ==> (if isK then !HasJumps(e) && e'.k.VK? && e'.k.info <= MAXARG_B && e'.k.info < |k| &&
                                    e' == e.(k := e'.k) && ConstantAt(k, e.k, e'.k.info)
                            else e' == e)
      ensures Spends(1, 0, |code|, |old(k)|, freereg, |code|, |k|, st.Pass?)
    {
      st, isK, e' := Pass, false, e;
      if HasJumps(e) { return; }
      var info: nat;
      match e.k {
        case VTrue => info :- AddK(Bool(true));
        case VFalse => info :- AddK(Bool(false));
        case VNil => info :- AddK(Nil);
        case VKInt(i) => info :- AddK(Int(i));
        case VKStr(s) => info :- AddK(Str(s));
        case VK(idx) => info := idx;
        case _ => return;
      }
      if info <= MAXARG_B {
        isK, e' := true, e.(k := VK(info));
      }
      st := Pass;
    }

    // `exp2RK`: a constant with a small index, or a register.
    method Exp2RK(e: ExpDesc, ghost g: Goal, ghost t: seq<nat>, ghost f: seq<nat>)
      returns (st: Status, isK: bool, e': ExpDesc)
      requires Valid()
      requires (e.k.VK? && !HasJumps(e) && e.k.info < |k| && e.k.info <= MAXARG_B) || Exp(g, e, t, f)
      modifies this
      ensures Valid() && old(k) <= k
      ensures e.k.VK? && !HasJumps(e) && e.k.info <= MAXARG_B ==>
                st.Pass? && isK && e' == e && code == old(code) && k == old(k)
      ensures e.k.VK? && !HasJumps(e) && e.k.info <= MAXARG_B ==>
                pending == old(pending) && lasttarget == old(lasttarget)
      ensures e.k.VK? && !HasJumps(e) && e.k.info <= MAXARG_B ==> freereg == old(freereg) && maxstack == old(maxstack)
      ensures st.Pass? && old(Exp(g, e, t, f)) ==> Exp(g, e', [], []) && pending == g.pending
      ensures st.Pass? ==> !HasJumps(e') && if isK then e'.k.VK? && e'.k.info <= MAXARG_B else e'.k.VNonReloc?
      ensures st.Pass? && isK ==> e'.k.info < |k| && !HasJumps(e) && ConstantAt(k, e.k, e'.k.info) && code == old(code)
      ensures Spends(8, 1, |old(code)|, |old(k)|, old(freereg), |code|, |k|, st.Pass?)
    {
      hide Shape, Sem;
      ghost var k0 := k;
      isK, e' :- Exp2K(e);
      if e.k.VK? && !HasJumps(e) && e.k.info <= MAXARG_B {
        if old(Exp(g, e, t, f)) {
          NoJumps(g, code, pending, lasttarget, Main(e.k), t, f, e.t, e.f);
          NothingPending(g, code, pending, lasttarget, Main(e'.k));
        }
        return Pass, true, e';
      }
      SemWeaken(g, k0, k, code, pending, Main(e.k), t, f, -1);
      if isK {
        NoJumps(g, code, pending, lasttarget, Main(e.k), t, f, e.t, e.f);
        ConstantRule(g, k, code, pending, lasttarget, e.k, e'.k.info);
        NothingPending(g, code, pending, lasttarget, Main(e'.k));
        return Pass, true, e';
      }
      e' :- Exp2AnyReg(e', g, t, f);
      if e.k.VNonReloc? && !HasJumps(e) {
        NoJumps(g, code, pending, lasttarget, Main(e.k), t, f, e.t, e.f);
        NothingPending(g, code, pending, lasttarget, Main(e'.k));
      }
      st := Pass;
    }

    // ----- conditions -----

    method NegateCondition(pc: nat)
      requires Valid() && 0 < pc < |code| && code[pc - 1].Cmp?
      modifies `code
      ensures Valid() && code == old(code)[pc - 1 := Flip(old(code)[pc - 1])]
    {
      var i := JumpControl(pc);
      code := code[i := Flip(code[i])];
    }

    // A pending conditional jump in place of the tail of the code.
    method EmitTest(i: Instr, kd: Kind, cond: bool, ghost c: seq<Instr>, ghost g: Goal, ghost t: seq<nat>,
                    ghost f: seq<nat>,
                    ht: int, hf: int) returns (pc: nat)
      requires Valid() && nvar <= g.base && Fits(i) && IsTest(i)
      requires Shape(g, c, pending, lasttarget, Main(kd), t, f) && Sem(g, k, c, pending, Main(kd), t, f, -1)
      requires TestOf(c, kd, i, cond) && Tail(Main(kd)) <= |c| && code == c[..|c| - Tail(Main(kd))]
      requires ListOf(c, ht, t) && ListOf(c, hf, f)
      modifies `code, `pending
      ensures Hold(g, Falls(!cond), TList(t, pc, cond), FList(f, pc, cond), -1)
      ensures ListOf(code, ht, t) && ListOf(code, hf, f)
      ensures pc < |code| && code[pc] == Jmp(NO_JUMP) && pc !in t && pc !in f
      ensures |code| == |old(code)| + 2
    {
      hide Shape, Sem;
      TestRuleLists(g, k, c, pending, lasttarget, kd, t, f, i, cond, ht, hf);
      pc := CondJump(i);
    }

    /** `jumponcond`: a jump taken when the value has truth `cond`, carrying the value, or the negation of a
        register tested in place of its NOT. */
    method JumpOnCond(e: ExpDesc, cond: bool, ghost g: Goal, ghost t: seq<nat>, ghost f: seq<nat>)
      returns (st: Status, pc: nat)
      requires Exp(g, e, t, f) && !e.k.VLocal? && !e.k.VUpval? && !e.k.VJmp?
      modifies this
      ensures Valid() && old(k) <= k
      ensures st.Pass? ==> Hold(g, Falls(!cond), TList(t, pc, cond), FList(f, pc, cond), -1) && freereg == g.base
      ensures st.Pass? ==> ListOf(code, e.t, t) && ListOf(code, e.f, f)
      ensures st.Pass? ==> pc < |code| && code[pc] == Jmp(NO_JUMP) && pc !in t && pc !in f
      ensures Spends(4, 1, |old(code)|, |old(k)|, old(freereg), |code|, |k|, st.Pass?)
    {
      hide Shape, Sem, ListOf, TList, FList, Fits;
      pc := 0;
      if e.k.VReloc? {
        RelocLast(g, code, pending, lasttarget, e.k.rpc, t, f);
        var ie := code[e.k.rpc];
        if ie.Not? {
          ghost var c := code;
          FitsTests(code, e.k.rpc, cond);
          RemoveLastInstruction();
          pc := EmitTest(Test(ie.b, !cond), e.k, cond, c, g, t, f, e.t, e.f);
          return Pass, pc;
        }
      }
      var e' :- Discharge2AnyReg(e, g, t, f);
      FreeExp(e');
      FitsTestSet(e'.k.reg, cond);
      assert code[..|code|] == code;
      pc := EmitTest(TestSet(NO_REG, e'.k.reg, cond), e'.k, cond, code, g, t, f, e.t, e.f);
      st := Pass;
    }

    /** The end of `luaK_goiftrue` (sense true) and `luaK_goiffalse`: the new jump joins the list that exits,
        the other list goes through to here. */
    method Through(e: ExpDesc, pc: int, sense: bool, ghost g: Goal, ghost t: seq<nat>, ghost f: seq<nat>,
                   ghost m: seq<nat>)
      returns (st: Status, e': ExpDesc)
      requires Hold(g, Falls(sense), if sense then t else t + m, if sense then f + m else f, -1)
      requires ListOf(code, e.t, t) && ListOf(code, e.f, f) && ListOf(code, pc, m)
      requires forall p :: p in m ==> p !in t && p !in f
      modifies `code, `pending, `lasttarget
      ensures Valid()
      ensures st.Pass? ==> Hold(g, Falls(sense), if sense then [] else t + m, if sense then f + m else [], -1)
      ensures st.Pass? ==> e'.k == e.k
      ensures st.Pass? ==> if sense then e'.t == NO_JUMP && ListOf(code, e'.f, f + m)
                           else e'.f == NO_JUMP && ListOf(code, e'.t, t + m)
      ensures |code| == |old(code)| && (|code| <= OFFSET_sJ ==> st.Pass?)
    {
      hide Shape, Sem;
      e' := e;
      ghost var l, here := (if sense then f else t), if sense then t else f;
      ghost var t', f' := if sense then t else t + m, if sense then f + m else f;
      ghost var c := code;
      var head :- Concat(if sense then e.f else e.t, pc, l, m);
      assert forall p :: p in l ==> p in l + m;
      ConcatKeeps(g, k, c, code, pending, lasttarget, Falls(sense), t', f', l, -1);
      ListFrame(c, code, if sense then e.t else e.f, here);
      ghost var c1, x1, lab1 := code, pending, lasttarget;
      :- PatchToHere(if sense then e.t else e.f, here);
      HereRule(g, k, c1, code, x1, lab1, t', f', sense);
      HereLists(g, c1, code, x1, lab1, t', f', sense, head);
      e' := if sense then e.(t := NO_JUMP, f := head) else e.(t := head, f := NO_JUMP);
      st := Pass;
    }

    method GoIfTrue(e: ExpDesc, ghost g: Goal, ghost t: seq<nat>, ghost f: seq<nat>)
      returns (st: Status, e': ExpDesc, ghost l: seq<nat>)
      requires Exp(g, e, t, f) && !e.k.VK?
      modifies this
      ensures Valid() && old(k) <= k
      ensures st.Pass? ==> Hold(g, Falls(true), [], l, -1) && e'.t == NO_JUMP && ListOf(code, e'.f, l)
                           && freereg == g.base
      ensures Spends(5, 1, |old(code)|, |old(k)|, old(freereg), |code|, |k|, st.Pass?)
    {
      hide Shape, Sem;
      l := [];
      e' := DischargeVars(e, g, t, f);
      var pc: int;
      ghost var m: seq<nat>;
      if e'.k.VJmp? {
        JumpFresh(g, code, pending, lasttarget, e'.k, t, f);
        JumpBranch(g, k, code, pending, lasttarget, e'.k, t, f, false, e'.t, e'.f);
        NegateCondition(e'.k.jpc);
        pc, m := e'.k.jpc, [e'.k.jpc];
      } else if e'.k.VKInt? || e'.k.VKStr? || e'.k.VTrue? {
        ConstRule(g, k, code, pending, lasttarget, e'.k, t, f);
        pc, m := NO_JUMP, [];
        assert f + m == f;
      } else {
        pc :- JumpOnCond(e', false, g, t, f);
        m := [pc];
      }
      e' :- Through(e', pc, true, g, t, f, m);
      l := f + m;
      st := Pass;
    }

    method GoIfFalse(e: ExpDesc, ghost g: Goal, ghost t: seq<nat>, ghost f: seq<nat>)
      returns (st: Status, e': ExpDesc, ghost l: seq<nat>)
      requires Exp(g, e, t, f) && !e.k.VK?
      modifies this
      ensures Valid() && old(k) <= k
      ensures st.Pass? ==> Hold(g, Falls(false), l, [], -1) && e'.f == NO_JUMP && ListOf(code, e'.t, l)
                           && freereg == g.base
      ensures Spends(5, 1, |old(code)|, |old(k)|, old(freereg), |code|, |k|, st.Pass?)
    {
      hide Shape, Sem;
      l := [];
      e' := DischargeVars(e, g, t, f);
      var pc: int;
      ghost var m: seq<nat>;
      if e'.k.VJmp? {
        JumpFresh(g, code, pending, lasttarget, e'.k, t, f);
        JumpBranch(g, k, code, pending, lasttarget, e'.k, t, f, true, e'.t, e'.f);
        pc, m := e'.k.jpc, [e'.k.jpc];
      } else if e'.k.VNil? || e'.k.VFalse? {
        ConstRule(g, k, code, pending, lasttarget, e'.k, t, f);
        pc, m := NO_JUMP, [];
        assert t + m == t;
      } else {
        pc :- JumpOnCond(e', true, g, t, f);
        m := [pc];
      }
      e' :- Through(e', pc, false, g, t, f, m);
      l := t + m;
      st := Pass;
    }

    // The switch of `codenot`, for a main value that is not waiting for a register.
    method NegateMain(kd: Kind) returns (kd': Kind)
      requires Valid() && KindOk(kd) && !kd.VLocal? && !kd.VUpval? && !kd.VK? && !kd.VReloc?
      requires kd.VJmp? ==> 0 < kd.jpc && code[kd.jpc - 1].Cmp?
      modifies `code
      ensures Valid() && NotStep(old(code), code, kd, kd')
      ensures |code| <= |old(code)| + 1
    {
      match kd {
        case VNil => kd' := VTrue;
        case VFalse => kd' := VTrue;
        case VKInt(_) => kd' := VFalse;
        case VKStr(_) => kd' := VFalse;
        case VTrue => kd' := VFalse;
        case VJmp(pc) =>
          NegateCondition(pc);
          kd' := kd;
        case VNonReloc(r) =>
          var pc := Code(Not(0, r));
          kd' := VReloc(pc);
      }
    }

    // `codenot`
    method CodeNot(e: ExpDesc, ghost g: Goal, ghost t: seq<nat>, ghost f: seq<nat>) returns (st: Status, e': ExpDesc)
      requires Exp(g, e, t, f) && !e.k.VLocal? && !e.k.VUpval? && !e.k.VK?
      modifies this
      ensures Valid() && old(k) <= k
      ensures st.Pass? ==> Exp(g.(expr := ENot(g.expr)), e', f, t) && !e'.k.VK?
      ensures Spends(3, 1, |old(code)|, |old(k)|, old(freereg), |code|, |k|, st.Pass?)
    {
      hide Shape, Sem, NotOf, ListOf, Unvalued, MainNegated, NotStep, Unvalues;
      e' := e;
      if e'.k.VReloc? || e'.k.VNonReloc? {
        e' :- Discharge2AnyReg(e', g, t, f);
        FreeExp(e');
      }
      if e'.k.VJmp? { JumpFresh(g, code, pending, lasttarget, e'.k, t, f); }
      ghost var c0, kd := code, e'.k;
      var kd' := NegateMain(e'.k);
      ghost var c1 := code;
      NotEmitted(g, c0, c1, pending, lasttarget, kd, kd', t, f, e'.t, e'.f);
      e' := ExpDesc(kd', e'.f, e'.t);
      SwapLists(e'.t, e'.f, t, f);
      NotAll(g, k, c0, c1, code, pending, lasttarget, kd, kd', t, f);
      st := Pass;
    }

    // After the exchange of the two lists, neither produces values.
    method SwapLists(ht: int, hf: int, ghost t: seq<nat>, ghost f: seq<nat>)
      requires Valid() && ListOf(code, ht, f) && ListOf(code, hf, t)
      modifies `code
      ensures Valid() && Unvalued(old(code), code, |code|, t, f) && |code| == |old(code)|
      ensures ListOf(code, ht, f) && ListOf(code, hf, t)
    {
      ghost var c1 := code;
      RemoveValues(hf, t);
      ghost var c2 := code;
      UnvaluesList(c1, c2, t, ht, f);
      RemoveValues(ht, f);
      UnvaluesList(c2, code, f, hf, t);
      UnvalueTwice(c1, c2, code, t, f);
    }

    // ----- comparisons -----

    // The first operand `z.ea` was in place when the second, `e`, was compiled.
    ghost predicate SecondPending(z: First, e: ExpDesc, t: seq<nat>, f: seq<nat>)
      reads this
    {
      && FirstOk(z, k, nvar) && Scoped(z.eb, nvar) && Exp(SecondGoal(z), e, t, f)
    }

    // Both operands are in place.
    ghost predicate Both(z: First, ka: Kind, kb: Kind)
      reads this
    {
      && Valid() && nvar <= z.g.base && pending == z.g.pending
      && Pair(z.g, k, code, pending, z.eb, ka, kb, !z.ea.k.VNonReloc?)
      && Shape(z.g, code, pending, lasttarget, Falls(true), [], [])
      && Placed(ka, k) && Placed(kb, k) && KindOk(ka) && KindOk(kb)
      && Temporaries(ka, kb, nvar, z.g.base, freereg)
    }

    // A second operand without jumps completes the pair.
    lemma Complete(z: First, e: ExpDesc)
      requires SecondPending(z, e, [], []) && Placed(e.k, k)
      ensures Both(z, z.ea.k, e.k)
    {
      hide Shape, Sem, Pair, Stable;
      SemWeaken(z.g, z.kk, k, z.c, z.x, Main(z.ea.k), [], [], -1);
      PairRule(z.g, k, z.c, z.x, z.lab, z.ea.k, z.bn, z.eb, code, pending, e.k, nvar);
      SecondShape(z, code, pending, lasttarget, e.k);
    }

    /** `luaK_exp2anyreg` on an operand: the first one, already in a register, is left alone; a constant first
        operand is loaded after the second; the second is loaded after the first. */
    method OperandToReg(e: ExpDesc, ghost second: bool, ghost z: First, ghost eb: ExpDesc, ghost t: seq<nat>,
                        ghost f: seq<nat>)
      returns (st: Status, e': ExpDesc)
      requires Valid()
      requires (!second && e.k.VNonReloc? && !HasJumps(e)) || (second && e == eb && SecondPending(z, eb, t, f))
            || (!second && e.k.VKInt? && e == z.ea && e.t == e.f == NO_JUMP && Both(z, e.k, eb.k)
                && Stable(eb.k, freereg))
      modifies this
      ensures Valid() && old(k) <= k
      ensures !second && e.k.VNonReloc? ==> st.Pass? && e' == e && code == old(code) && k == old(k)
      ensures !second && e.k.VNonReloc? ==> pending == old(pending) && lasttarget == old(lasttarget)
      ensures !second && e.k.VNonReloc? ==> freereg == old(freereg) && maxstack == old(maxstack)
      ensures st.Pass? ==> e'.k.VNonReloc? && !HasJumps(e')
      ensures st.Pass? && second ==> Both(z, z.ea.k, e'.k)
      ensures st.Pass? && !second && e.k.VKInt? ==> Both(z, e'.k, eb.k)
      ensures Spends(7, 1, |old(code)|, |old(k)|, old(freereg), |code|, |k|, st.Pass?)
    {
      hide Shape, Sem, Pair, Stable;
      ghost var k0, c0, lab0, bn := k, code, lasttarget, freereg;
      ghost var gg := if second then SecondGoal(z)
                      else if e.k.VKInt? then Next(z.g, code, pending, lasttarget, freereg, EInt(e.k.ival)) else z.g;
      ghost var tt, ff := if second then t else [], if second then f else [];
      if !second && e.k.VKInt? { ConstGoal(z, code, pending, lasttarget, freereg, e, k); }
      e' :- Exp2AnyReg(e, gg, tt, ff);
      if second {
        if e.k.VNonReloc? && !HasJumps(e) { NoJumps(gg, code, pending, lasttarget, Main(e.k), t, f, e.t, e.f); }
        FirstWeaken(z, k0, k, nvar);
        Complete(z, e');
      } else if e.k.VKInt? {
        ConstLoaded(z, k0, k, c0, code, pending, lab0, lasttarget, bn, eb.k, e.k.ival, e'.k.reg);
      }
      st := Pass;
    }

    // The end of `codeorder` and `codeeq`: the operands' registers are freed and the test emitted.
    method EmitCompare(i: Instr, k1: Kind, k2: Kind, ghost op: CmpOp, ghost z: First, ghost ka: Kind, ghost kb: Kind)
      returns (e': ExpDesc)
      requires Both(z, ka, kb) && ((k1 == ka && k2 == kb) || (k1 == kb && k2 == ka))
      requires TestFor(op, ka, kb, !z.ea.k.VNonReloc?, i) && Fits(i)
      modifies `code, `pending, `freereg
      ensures Exp(z.g.(expr := ECmp(op, z.g.expr, z.eb)), e', [], []) && e'.k.VJmp?
      ensures |code| == |old(code)| + 2
    {
      hide Shape, Sem, Pair, TestFor;
      ghost var c := code;
      assert i.Cmp? by { TestForCmp(op, ka, kb, !z.ea.k.VNonReloc?, i); }
      FreeRegs(if k1.VNonReloc? then k1.reg else -1, if k2.VNonReloc? then k2.reg else -1);
      CompareRule(z.g, k, code, pending, lasttarget, op, z.eb, ka, kb, !z.ea.k.VNonReloc?, i, NO_JUMP);
      var pc := CondJump(i);
      e' := ExpDesc(VJmp(pc), NO_JUMP, NO_JUMP);
    }

    /** `codeorder`: with a small integer on one side the comparison is with an immediate, turned around when
        the integer comes first. `swapped` says that `luaK_posfix` exchanged the operands. */
    method CodeOrder(o: OrderOp, e1: ExpDesc, e2: ExpDesc, ghost swapped: bool, ghost z: First,
                     ghost t: seq<nat>, ghost f: seq<nat>) returns (st: Status, e': ExpDesc)
      requires SecondPending(z, if swapped then e1 else e2, t, f) && (if swapped then e2 else e1) == z.ea
      requires z.ea.k.VNonReloc? || IsSCNumber(z.ea)
      modifies this
      ensures Valid() && old(k) <= k
      ensures st.Pass? ==> Exp(z.g.(expr := ECmp(OrderOf(o, swapped), z.g.expr, z.eb)), e', [], []) && e'.k.VJmp?
      ensures Spends(9, 1, |old(code)|, |old(k)|, old(freereg), |code|, |k|, st.Pass?)
    {
      hide Shape, Sem, Pair, Stable, Temporaries, Scoped, Fits;
      e' := e1;
      ghost var eb := if swapped then e1 else e2;
      if IsSCNumber(e2) {
        if !swapped { CloseSecond(z, eb, t, f); }
        var r1 :- OperandToReg(e1, swapped, z, eb, t, f);
        FitsImmediate(if o.Lt? then OpLtI else OpLeI, r1.k.reg, e2.k.ival);
        e' := EmitCompare(Cmp(if o.Lt? then OpLtI else OpLeI, r1.k.reg, e2.k.ival, true), r1.k, e2.k,
                          OrderOf(o, swapped), z, if swapped then z.ea.k else r1.k, if swapped then r1.k else eb.k);
      } else if IsSCNumber(e1) {
        if swapped { CloseSecond(z, eb, t, f); }
        var r2 :- OperandToReg(e2, !swapped, z, eb, t, f);
        FitsImmediate(if o.Lt? then OpGtI else OpGeI, r2.k.reg, e1.k.ival);
        e' := EmitCompare(Cmp(if o.Lt? then OpGtI else OpGeI, r2.k.reg, e1.k.ival, true), e1.k, r2.k,
                          OrderOf(o, swapped), z, z.ea.k, if swapped then eb.k else r2.k);
      } else {
        var r1 :- OperandToReg(e1, swapped, z, eb, t, f);
        var r2 :- OperandToReg(e2, !swapped, z, eb, t, f);
        FitsRegisters(if o.Lt? then OpLt else OpLe, r1.k.reg, r2.k.reg);
        e' := EmitCompare(Cmp(if o.Lt? then OpLt else OpLe, r1.k.reg, r2.k.reg, true), r1.k, r2.k,
                          OrderOf(o, swapped), z, z.ea.k, if swapped then r1.k else r2.k);
      }
      st := Pass;
    }

    // A constant second operand needs no code.
    lemma CloseSecond(z: First, e: ExpDesc, t: seq<nat>, f: seq<nat>)
      requires SecondPending(z, e, t, f) && e.k.VKInt? && !HasJumps(e)
      ensures Both(z, z.ea.k, e.k) && SecondPending(z, e, [], []) && Stable(e.k, freereg)
    {
      hide Shape, Sem, Pair;
      NoJumps(SecondGoal(z), code, pending, lasttarget, Main(e.k), t, f, e.t, e.f);
      Complete(z, e);
    }

    /** `exp2RK` on the second operand of an equality: the second expression, or the constant first one when
        they have been exchanged. */
    method OperandToRK(e: ExpDesc, ghost second: bool, ghost z: First, ghost kb: Kind, ghost t: seq<nat>,
                       ghost f: seq<nat>)
      returns (st: Status, isK: bool, e': ExpDesc)
      requires if second then SecondPending(z, e, t, f)
               else e == z.ea && e.t == e.f == NO_JUMP && Both(z, e.k, kb) && Stable(kb, freereg) &&
                    (e.k.VKInt? || (e.k.VK? && e.k.info <= MAXARG_B))
      modifies this
      ensures Valid() && old(k) <= k
      ensures st.Pass? ==> if isK then e'.k.VK? && e'.k.info <= MAXARG_B else e'.k.VNonReloc?
      ensures st.Pass? ==> if second then Both(z, z.ea.k, e'.k) else Both(z, e'.k, kb)
      ensures Spends(8, 1, |old(code)|, |old(k)|, old(freereg), |code|, |k|, st.Pass?)
    {
      hide Shape, Sem, Pair, Stable;
      ghost var k0, c0, lab0, bn := k, code, lasttarget, freereg;
      ghost var gg := if second then SecondGoal(z)
                      else if e.k.VKInt? then Next(z.g, code, pending, lasttarget, freereg, EInt(e.k.ival)) else z.g;
      ghost var tt, ff := if second then t else [], if second then f else [];
      if !second && e.k.VKInt? { ConstGoal(z, code, pending, lasttarget, freereg, e, k); }
      isK, e' :- Exp2RK(e, gg, tt, ff);
      if second {
        FirstWeaken(z, k0, k, nvar);
        Complete(z, e');
      } else if e.k.VKInt? {
        if isK {
          ConstPooled(z, k0, k, code, pending, lab0, lasttarget, bn, kb, e.k.ival, e'.k.info);
        } else {
          ConstLoaded(z, k0, k, c0, code, pending, lab0, lasttarget, bn, kb, e.k.ival, e'.k.reg);
        }
      }
      st := Pass;
    }

    // `codeeq`: a constant first operand changes place with the second.
    method CodeEq(sense: bool, e1: ExpDesc, e2: ExpDesc, ghost z: First, ghost t: seq<nat>, ghost f: seq<nat>)
      returns (st: Status, e': ExpDesc)
      requires SecondPending(z, e2, t, f) && e1 == z.ea && (e1.k.VK? ==> e1.k.info <= MAXARG_B)
      modifies this
      ensures Valid() && old(k) <= k
      ensures st.Pass? ==> Exp(z.g.(expr := ECmp(if sense then EQ else NE, z.g.expr, z.eb)), e', [], []) && e'.k.VJmp?
      ensures Spends(17, 2, |old(code)|, |old(k)|, old(freereg), |code|, |k|, st.Pass?)
    {
      hide Shape, Sem, Pair, Scoped;
      e' := e1;
      var a, b := e1, e2;
      var swapped := !e1.k.VNonReloc?;
      if swapped { a, b := e2, e1; }
      ghost var op := if sense then EQ else NE;
      var r1 :- OperandToReg(a, swapped, z, e2, t, f);
      if IsSCNumber(b) {
        if !swapped { CloseSecond(z, e2, t, f); }
        FitsCRange(b.k.ival);
        e' := EmitCompare(Cmp(OpEqI, r1.k.reg, b.k.ival, sense), r1.k, b.k, op, z, e1.k,
                          if swapped then r1.k else e2.k);
      } else {
        assert swapped ==> Stable(r1.k, freereg);
        var isK, r2 :- OperandToRK(b, !swapped, z, r1.k, t, f);
        var i := if isK then Cmp(OpEqK, r1.k.reg, r2.k.info, sense) else Cmp(OpEq, r1.k.reg, r2.k.reg, sense);
        e' := EmitCompare(i, r1.k, r2.k, op, z, if swapped then r2.k else e1.k, if swapped then r1.k else r2.k);
      }
      st := Pass;
    }

    // ----- operators -----

    // `luaK_prefix` for `not`
    method Prefix(e: ExpDesc, ghost g: Goal, ghost t: seq<nat>, ghost f: seq<nat>) returns (st: Status, e': ExpDesc)
      requires Exp(g, e, t, f) && !e.k.VK?
      modifies this
      ensures Valid() && old(k) <= k
      ensures st.Pass? ==> Exp(g.(expr := ENot(g.expr)), e', f, t) && !e'.k.VK?
      ensures Spends(4, 1, |old(code)|, |old(k)|, old(freereg), |code|, |k|, st.Pass?)
    {
      hide Shape, Sem;
      e' := DischargeVars(e, g, t, f);
      st, e' := CodeNot(e', g, t, f);
    }

    // The first operand as `luaK_infix` leaves it.
    ghost predicate FirstNow(op: BinOpr, g: Goal, v: ExpDesc, l: seq<nat>)
      reads this
    {
      match op
      case OprAnd => Hold(g, Falls(true), [], l, -1) && v.t == NO_JUMP && ListOf(code, v.f, l) && freereg == g.base
      case OprOr => Hold(g, Falls(false), l, [], -1) && v.f == NO_JUMP && ListOf(code, v.t, l) && freereg == g.base
      case OprCmp(op) =>
        && Exp(g, v, [], []) && pending == g.pending && v.t == v.f == NO_JUMP
        && (v.k.VNonReloc? || (if op.EQ? || op.NE? then v.k.VKInt? || (v.k.VK? && v.k.info <= MAXARG_B)
           else IsSCNumber(v)))
    }

    method Infix(op: BinOpr, v: ExpDesc, ghost g: Goal, ghost t: seq<nat>, ghost f: seq<nat>)
      returns (st: Status, v': ExpDesc, ghost l: seq<nat>)
      requires Exp(g, v, t, f) && !v.k.VK?
      modifies this
      ensures Valid() && old(k) <= k
      ensures st.Pass? ==> FirstNow(op, g, v', l)
      ensures Spends(9, 1, |old(code)|, |old(k)|, old(freereg), |code|, |k|, st.Pass?)
    {
      hide Shape, Sem;
      l := [];
      v' := DischargeVars(v, g, t, f);
      match op {
        case OprAnd =>
          v', l :- GoIfTrue(v', g, t, f);
        case OprOr =>
          v', l :- GoIfFalse(v', g, t, f);
        case OprCmp(cmp) =>
          if (cmp.EQ? || cmp.NE?) && !IsNumeral(v') {
            var _, w :- Exp2RK(v', g, t, f);
            v' := w;
          } else if !(cmp.EQ? || cmp.NE?) && !IsSCNumber(v') {
            if v'.k.VNonReloc? && !HasJumps(v') { NoJumps(g, code, pending, lasttarget, Main(v'.k), t, f, v'.t, v'.f); }
            v' :- Exp2AnyReg(v', g, t, f);
          } else {
            NoJumps(g, code, pending, lasttarget, Main(v'.k), t, f, v'.t, v'.f);
          }
          NothingPending(g, code, pending, lasttarget, Main(v'.k));
      }
      st := Pass;
    }

    method Posfix(op: BinOpr, e1: ExpDesc, e2: ExpDesc, ghost z: First, ghost l: seq<nat>, ghost t: seq<nat>,
                  ghost f: seq<nat>)
      returns (st: Status, e': ExpDesc, ghost t': seq<nat>, ghost f': seq<nat>)
      requires FirstHeld(op, z, l, k, nvar) && e1 == z.ea && Scoped(z.eb, nvar)
      requires Exp(SecondGoal(z), e2, t, f) && !e2.k.VK?
      modifies this
      ensures Valid() && old(k) <= k
      ensures st.Pass? ==> Exp(z.g.(expr := BinExpr(op, z.g.expr, z.eb)), e', t', f') && !e'.k.VK?
      ensures Spends(18, 2, |old(code)|, |old(k)|, old(freereg), |code|, |k|, st.Pass?)
    {
      hide Shape, Sem;
      t', f' := [], [];
      e' := DischargeVars(e2, SecondGoal(z), t, f);
      match op {
        case OprAnd =>
          var head :- JoinLists(e'.f, e1.f, e', z, true, l, t, f);
          e', t', f' := e'.(f := head), t, f + l;
        case OprOr =>
          var head :- JoinLists(e'.t, e1.t, e', z, false, l, t, f);
          e', t', f' := e'.(t := head), t + l, f;
        case OprCmp(cmp) =>
          match cmp {
            case EQ => e' :- CodeEq(true, e1, e', z, t, f);
            case NE => e' :- CodeEq(false, e1, e', z, t, f);
            case LT => e' :- CodeOrder(Lt, e1, e', false, z, t, f);
            case LE => e' :- CodeOrder(Le, e1, e', false, z, t, f);
            case GT => e' :- CodeOrder(Lt, e', e1, true, z, t, f);
            case GE => e' :- CodeOrder(Le, e', e1, true, z, t, f);
          }
      }
      st := Pass;
    }

    // `luaK_posfix` for `and` and `or`: the first operand's jumps are appended to the second's.
    method JoinLists(h2: int, h1: int, e: ExpDesc, ghost z: First, sense: bool, ghost l: seq<nat>, ghost t: seq<nat>,
                     ghost f: seq<nat>)
      returns (st: Status, head: int)
      requires FirstHeld(if sense then OprAnd else OprOr, z, l, k, nvar) && Scoped(z.eb, nvar)
      requires Exp(SecondGoal(z), e, t, f) && !e.k.VK?
      requires if sense then h2 == e.f && h1 == z.ea.f else h2 == e.t && h1 == z.ea.t
      modifies `code
      ensures Valid()
      ensures st.Pass? ==>
        var g' := z.g.(expr := Junction(sense, z.g.expr, z.eb));
        if sense then Exp(g', e.(f := head), t, f + l) else Exp(g', e.(t := head), t + l, f)
      ensures |code| == |old(code)| && (|code| <= OFFSET_sJ ==> st.Pass?)
    {
      hide Shape, Sem, ListOf, CodeOk, Framed;
      ghost var c := code;
      ghost var t', f' := if sense then t else t + l, if sense then f + l else f;
      JoinRule(z, k, nvar, sense, l, c, pending, lasttarget, e.k, t, f);
      ghost var m := if sense then f else t;
      if e.k.VJmp? { JumpFresh(SecondGoal(z), code, pending, lasttarget, e.k, t, f); }
      head :- Concat(h2, h1, m, l);
      ghost var g' := z.g.(expr := Junction(sense, z.g.expr, z.eb));
      ConcatKeeps(g', k, c, code, pending, lasttarget, Main(e.k), t', f', m, -1);
      ListFrame(c, code, if sense then e.t else e.f, if sense then t else f);
      st := Pass;
    }

    // ----- expressions -----

    lemma LeafExp(a: Expr, g: Goal)
      requires Valid() && Scoped(a, nvar) && InRange(a) && !a.ENot? && !a.EAnd? && !a.EOr? && !a.ECmp?
      requires g == Goal(code, pending, lasttarget, g.origin, freereg, a) && GoalOk(g)
      ensures Exp(g, ExpDesc(LeafKind(a), NO_JUMP, NO_JUMP), [], []) && !LeafKind(a).VK?
    {
      hide Shape, Sem, GoalOk;
      StartRule(g, LeafKind(a));
      SemWeaken(g, [], k, code, pending, Main(LeafKind(a)), [], [], -1);
    }

    /** `subexpr`, driven by an expression instead of tokens: the operand, `luaK_prefix` or `luaK_infix`, the
        second operand, `luaK_posfix`. */
    method SubExpr(a: Expr, ghost g: Goal) returns (st: Status, e: ExpDesc, ghost t: seq<nat>, ghost f: seq<nat>)
      requires Valid() && Scoped(a, nvar) && InRange(a)
      requires g == Goal(code, pending, lasttarget, g.origin, freereg, a) && GoalOk(g)
      modifies this
      ensures Valid() && old(k) <= k
      ensures st.Pass? ==> Exp(g, e, t, f) && !e.k.VK?
      ensures Spends(27 * Size(a), Depth(a), |old(code)|, |old(k)|, old(freereg), |code|, |k|, st.Pass?)
      decreases a
    {
      hide Shape, Sem, GoalOk, Exp;
      t, f := [], [];
      match a {
        case ENot(x) =>
          ghost var g1 := g.(expr := x);
          GoalExpr(g, x);
          e, t, f :- SubExpr(x, g1);
          ExpFree(g1, e, t, f);
          e :- Prefix(e, g1, t, f);
          t, f := f, t;
        case EAnd(x, y) =>
          st, e, t, f := Binary(OprAnd, x, y, g);
          return;
        case EOr(x, y) =>
          st, e, t, f := Binary(OprOr, x, y, g);
          return;
        case ECmp(op, x, y) =>
          st, e, t, f := Binary(OprCmp(op), x, y, g);
          return;
        case _ =>
          e := ExpDesc(LeafKind(a), NO_JUMP, NO_JUMP);
          LeafExp(a, g);
      }
      st := Pass;
    }

    // One round of the loop of `subexpr`.
    method Binary(op: BinOpr, x: Expr, y: Expr, ghost g: Goal)
      returns (st: Status, e: ExpDesc, ghost t: seq<nat>, ghost f: seq<nat>)
      requires Valid() && Scoped(x, nvar) && Scoped(y, nvar) && InRange(x) && InRange(y)
      requires g == Goal(code, pending, lasttarget, g.origin, freereg, BinExpr(op, x, y)) && GoalOk(g)
      modifies this
      ensures Valid() && old(k) <= k
      ensures st.Pass? ==> Exp(g, e, t, f) && !e.k.VK?
      ensures Spends(27 * (Size(x) + Size(y) + 1), Depth(BinExpr(op, x, y)), |old(code)|, |old(k)|, old(freereg),
                     |code|, |k|, st.Pass?)
      decreases BinExpr(op, x, y), 0
    {
      hide Shape, Sem, GoalOk, Exp, FirstNow, FirstHeld, Scoped, InRange, Depth;
      ghost var g1 := g.(expr := x);
      GoalExpr(g, x);
      t, f := [], [];
      e := ExpDesc(VNil, NO_JUMP, NO_JUMP);
      var v;
      DepthBinary(op, x, y);
      v, t, f :- SubExpr(x, g1);
      ExpFree(g1, v, t, f);
      ghost var l;
      v, l :- Infix(op, v, g1, t, f);
      FirstFree(op, g1, v, l);
      ghost var z := First(g1, code, pending, lasttarget, k, v, freereg, y);
      HoldFirst(op, g1, v, l, y);
      var v2;
      v2, t, f :- SubExpr(y, SecondGoal(z));
      ExpFree(SecondGoal(z), v2, t, f);
      HeldWeaken(op, z, l, z.kk, k, nvar);
      e, t, f :- Posfix(op, v, v2, z, l, t, f);
      st := Pass;
    }

    lemma ExpFree(g: Goal, e: ExpDesc, t: seq<nat>, f: seq<nat>)
      requires Exp(g, e, t, f)
      ensures freereg <= g.base + 1
    {
    }

    lemma FirstFree(op: BinOpr, g: Goal, v: ExpDesc, l: seq<nat>)
      requires FirstNow(op, g, v, l)
      ensures freereg <= g.base + 1
    {
    }

    // What holds now of the first operand, kept as a fact about values.
    lemma HoldFirst(op: BinOpr, g: Goal, v: ExpDesc, l: seq<nat>, y: Expr)
      requires FirstNow(op, g, v, l)
      ensures var z := First(g, code, pending, lasttarget, k, v, freereg, y);
        FirstHeld(op, z, l, k, nvar) && GoalOk(SecondGoal(z))
    {
      hide Sem;
      assert GoalOk(SecondGoal(First(g, code, pending, lasttarget, k, v, freereg, y))) by {
        match op
        case OprAnd => GoalAfter(g, code, pending, lasttarget, Falls(true), [], l, freereg, y);
        case OprOr => GoalAfter(g, code, pending, lasttarget, Falls(false), l, [], freereg, y);
        case OprCmp(_) => GoalAfter(g, code, pending, lasttarget, Main(v.k), [], [], freereg, y);
      }
      hide Shape;
    }

    // ----- whole expressions -----

    /** An expression put in the next free register, as for the arguments of a call or the initial values of
        local variables. `o` is any point from which the code so far can be run. */
    method ExprToNextReg(a: Expr, ghost o: nat) returns (st: Status, e: ExpDesc)
      requires Valid() && Scoped(a, nvar) && InRange(a)
      requires GoalOk(Goal(code, pending, lasttarget, o, freereg, a))
      modifies this
      ensures Valid() && old(k) <= k
      ensures st.Pass? ==> e == ExpDesc(VNonReloc(old(freereg)), NO_JUMP, NO_JUMP) && freereg == old(freereg) + 1
      ensures st.Pass? ==> pending == old(pending) && Framed(old(code), code)
      ensures st.Pass? ==> Computes(a, o, old(code), pending, code, k, old(freereg), old(freereg))
      ensures st.Pass? ==> CodeOk(code, pending, lasttarget, o)
      ensures Spends(27 * Size(a) + 6, Depth(a), |old(code)|, |old(k)|, old(freereg), |code|, |k|, st.Pass?)
    {
      hide Shape, Sem, GoalOk, CodeOk;
      ghost var g := Goal(code, pending, lasttarget, o, freereg, a);
      ghost var t, f;
      e, t, f :- SubExpr(a, g);
      e :- Exp2NextReg(e, g, t, f);
      SemComputes(g, k, code, pending, lasttarget, g.base, -1);
      st := Pass;
    }

    /** An assignment to a local variable (`luaK_storevar` on a VLOCAL): only that register changes, though the
        expression may read it. */
    method AssignLocal(a: Expr, r: nat, ghost o: nat) returns (st: Status)
      requires Valid() && Scoped(a, nvar) && InRange(a) && r < nvar
      requires GoalOk(Goal(code, pending, lasttarget, o, freereg, a))
      modifies this
      ensures Valid() && old(k) <= k
      ensures st.Pass? ==> freereg == old(freereg) && pending == old(pending) && Framed(old(code), code)
      ensures st.Pass? ==> Computes(a, o, old(code), pending, code, k, old(freereg), r)
    {
      hide Shape, Sem, GoalOk;
      ghost var g := Goal(code, pending, lasttarget, o, freereg, a);
      var e;
      ghost var t, f;
      e, t, f :- SubExpr(a, g);
      e := DischargeVars(e, g, t, f);
      FreeExp(e);
      var _ :- Exp2Reg(e, r, g, t, f);
      SemComputes(g, k, code, pending, lasttarget, r, r);
      st := Pass;
    }
  }

  /** The code for `a`, run from `o`: wherever the code before it fell through, the value of `a` is now in
      `reg` and every other register below `base` is as it was, or the error of `a` has been raised. */
  ghost predicate Computes(a: Expr, o: nat, c0: seq<Instr>, x: set<nat>, c: seq<Instr>, k: seq<Value>, base: nat,
                           reg: nat) {
    forall env: Env, r0: Regs :: k <= env.k ==> ComputesAt(env, r0, a, o, c0, x, c, base, reg)
  }

  ghost predicate ComputesAt(env: Env, r0: Regs, a: Expr, o: nat, c0: seq<Instr>, x: set<nat>, c: seq<Instr>,
                             base: nat, reg: nat)
  {
    var before := Run(env, c0, x, o, r0);
    var after := Run(env, c, x, o, r0);
    if before.At? && before.pc == |c0| then Leaves(env, a, before.r, after, |c|, base, reg) else after == before
  }

  ghost predicate Leaves(env: Env, a: Expr, r: Regs, s: State, end: nat, base: nat, reg: nat) {
    match Eval(env, a, r)
    case Err(e) => s == Raised(e)
    case Val(v) =>
      s.At? && s.pc == end && Get(s.r, reg) == v && forall i: nat :: i < base && i != reg ==> Get(s.r, i) == Get(r, i)
  }

  lemma SemComputes(g: Goal, k: seq<Value>, c: seq<Instr>, x: set<nat>, lab: nat, reg: nat, spare: int)
    requires Sem(g, k, c, x, Main(VNonReloc(reg)), [], [], spare) && Shape(g, c, x, lab, Main(VNonReloc(reg)), [], [])
    requires spare == reg || spare == -1
    ensures Computes(g.expr, g.origin, g.code, g.pending, c, k, g.base, reg) && Framed(g.code, c)
    ensures CodeOk(c, g.pending, lab, g.origin)
  {
    NothingPending(g, c, x, lab, Main(VNonReloc(reg)));
    hide CodeOk, ListOk;
    assert c[..|c|] == c;
    hide Run, Eval, Framed;
    var a, o, c0, base := g.expr, g.origin, g.code, g.base;
    forall env: Env, r0: Regs | k <= env.k ensures ComputesAt(env, r0, a, o, c0, x, c, base, reg) {
      assert SemAt(env, r0, g, c, x, Main(VNonReloc(reg)), [], [], spare);
    }
  }

  // ----- a program that is one expression -----

  /** `n` steps of the machine, from the start of the code in registers `r`, end with the value of `a` in `reg`
      and the registers below it unchanged, or in the error of `a`. */
  ghost predicate RunsTo(env: Env, a: Expr, c: seq<Instr>, r: Regs, reg: nat, n: nat) {
    Leaves(env, a, r, Steps(env, c, n, At(0, r)), |c|, reg, reg)
  }

  ghost predicate Runs(env: Env, a: Expr, c: seq<Instr>, r: Regs, reg: nat) {
    exists n: nat :: RunsTo(env, a, c, r, reg, n)
  }

  lemma ComputesRuns(env: Env, a: Expr, c: seq<Instr>, k: seq<Value>, r: Regs, reg: nat) returns (n: nat)
    requires Computes(a, 0, [], {}, c, k, reg, reg) && k <= env.k
    ensures RunsTo(env, a, c, r, reg, n)
  {
    assert ComputesAt(env, r, a, 0, [], {}, c, reg, reg);
    n := RunIsSteps(env, c, 0, r);
  }

  // Jumps go forward, to the end of the code at most.
  predicate JumpsInside(c: seq<Instr>) {
    forall p :: 0 <= p < |c| && c[p].Jmp? ==> c[p].sj >= 0 && p + 1 + c[p].sj <= |c|
  }

  lemma CodeJumps(c: seq<Instr>, lab: nat)
    requires CodeOk(c, {}, lab, 0)
    ensures JumpsInside(c)
  {
    forall p | 0 <= p < |c| && c[p].Jmp? ensures c[p].sj >= 0 && p + 1 + c[p].sj <= |c| {
      assert InstrOk(c, {}, lab, p);
    }
  }

  lemma NoCode(base: nat, a: Expr)
    ensures GoalOk(Goal([], {}, 0, 0, base, a))
  {
  }

  /** The code generator is correct: for every expression, the finished code, run by the machine from any
      registers, leaves exactly the expression's value in the first register after the locals, or raises exactly
      its error; every operand fits its instruction. It fails for big or deep expressions only. */
  method Compile(a: Expr, nvar: nat) returns (st: Status, code: seq<Instr>, k: seq<Value>)
    requires Scoped(a, nvar) && InRange(a) && nvar < MAXREGS - 2
    ensures st.Pass? ==> forall env: Env, r: Regs :: k <= env.k ==> Runs(env, a, code, r, nvar)
    ensures st.Pass? ==> JumpsInside(code) && forall p :: 0 <= p < |code| ==> Fits(code[p])
    ensures 27 * Size(a) + 6 <= OFFSET_sJ && nvar + Depth(a) < MAXREGS ==> st.Pass? && |code| <= 27 * Size(a) + 6
  {
    hide CodeOk, JumpsInside;
    code, k := [], [];
    var fs := new FuncState(nvar);
    NoCode(nvar, a);
    var _ :- fs.ExprToNextReg(a, 0);
    code, k := fs.code, fs.k;
    CodeJumps(code, fs.lasttarget);
    forall env: Env, r: Regs | k <= env.k ensures Runs(env, a, code, r, nvar) {
      var n := ComputesRuns(env, a, code, k, r, nvar);
    }
    st := Pass;
  }

  // ----- two operands, on values -----

  /** The first operand of a comparison, once in place: the code, pending jumps, label and constants then, its
      descriptor, the first free register after it, and the second operand's expression. */
  datatype First = First(g: Goal, c: seq<Instr>, x: set<nat>, lab: nat, kk: seq<Value>, ea: ExpDesc, bn: nat, eb: Expr)

  function SecondGoal(z: First): Goal {
    Next(z.g, z.c, z.x, z.lab, z.bn, z.eb)
  }

  ghost predicate FirstOk(z: First, k: seq<Value>, nvar: nat) {
    && Sem(z.g, z.kk, z.c, z.x, Main(z.ea.k), [], [], -1)
    && Shape(z.g, z.c, z.x, z.lab, Main(z.ea.k), [], [])
    && z.kk <= k && Stable(z.ea.k, z.bn) && Placed(z.ea.k, z.kk) && z.ea.t == NO_JUMP && z.ea.f == NO_JUMP
    && nvar <= z.g.base
    && (z.ea.k.VNonReloc? ==> (z.ea.k.reg < nvar && z.bn == z.g.base)
                              || (z.ea.k.reg == z.g.base && z.bn == z.g.base + 1))
    && (!z.ea.k.VNonReloc? ==> z.bn == z.g.base)
  }

  // The temporaries of two operands are the registers from `base` on, in either order.
  predicate Temporaries(ka: Kind, kb: Kind, nvar: nat, base: nat, freereg: nat) {
    var ta, tb := ka.VNonReloc? && ka.reg >= nvar, kb.VNonReloc? && kb.reg >= nvar;
    if ta && tb then freereg == base + 2 && ((ka.reg == base && kb.reg == base + 1)
                                             || (kb.reg == base && ka.reg == base + 1))
    else if ta then freereg == base + 1 && ka.reg == base
    else if tb then freereg == base + 1 && kb.reg == base
    else freereg == base
  }

  lemma FirstWeaken(z: First, k0: seq<Value>, k: seq<Value>, nvar: nat)
    requires FirstOk(z, k0, nvar) && k0 <= k
    ensures FirstOk(z, k, nvar)
  {
    hide Shape, Sem;
  }

  lemma SecondShape(z: First, c: seq<Instr>, x: set<nat>, lab: nat, kb: Kind)
    requires Shape(z.g, z.c, z.x, z.lab, Main(z.ea.k), [], []) && Tail(Main(z.ea.k)) == 0 && !z.ea.k.VJmp?
    requires Shape(SecondGoal(z), c, x, lab, Main(kb), [], []) && Tail(Main(kb)) == 0 && !kb.VJmp?
    ensures Shape(z.g, c, x, lab, Falls(true), [], []) && x == z.g.pending
  {
    hide CodeOk, ListOk;
    FramedTrans(z.g.code, z.c, c);
    EmptyList(z.g, c, x, |c|);
  }

  // The goal under which a constant first operand is loaded after the second.
  lemma ConstGoal(z: First, c: seq<Instr>, x: set<nat>, lab: nat, free: nat, e: ExpDesc, k: seq<Value>)
    requires Shape(z.g, c, x, lab, Falls(true), [], []) && e.k.VKInt?
    ensures var gg := Next(z.g, c, x, lab, free, EInt(e.k.ival));
      Sem(gg, k, c, x, Main(e.k), [], [], -1) && Shape(gg, c, x, lab, Main(e.k), [], [])
  {
    var gg := Next(z.g, c, x, lab, free, EInt(e.k.ival));
    GoalNow(z.g, c, x, lab, free, EInt(e.k.ival));
    hide Shape, Sem;
    StartRule(gg, e.k);
    SemWeaken(gg, [], k, c, x, Main(e.k), [], [], -1);
  }

  // Code that falls through with nothing of its own pending is a fit start for the next expression.
  lemma GoalNow(g: Goal, c: seq<Instr>, x: set<nat>, lab: nat, free: nat, e: Expr)
    requires Shape(g, c, x, lab, Falls(true), [], [])
    ensures GoalOk(Next(g, c, x, lab, free, e))
  {
    PendingJumps(g, c, x, lab, Falls(true), [], []);
    hide CodeOk, Framed, ListOk;
  }

  lemma ConstLoaded(z: First, k0: seq<Value>, k: seq<Value>, c: seq<Instr>, c': seq<Instr>, x: set<nat>, lab: nat,
                    lab': nat,
                    bn: nat, kb: Kind, i: Int64, reg: nat)
    requires Pair(z.g, k0, c, x, z.eb, VKInt(i), kb, !z.ea.k.VNonReloc?) && k0 <= k
    requires Shape(z.g, c, x, lab, Falls(true), [], []) && Stable(kb, bn) && z.g.base <= bn
    requires var gg := Next(z.g, c, x, lab, bn, EInt(i));
      Sem(gg, k, c', x, Main(VNonReloc(reg)), [], [], -1) && Shape(gg, c', x, lab', Main(VNonReloc(reg)), [], [])
    ensures Pair(z.g, k, c', x, z.eb, VNonReloc(reg), kb, !z.ea.k.VNonReloc?)
    ensures Shape(z.g, c', x, lab', Falls(true), [], [])
  {
    PairWeaken(z.g, k0, k, c, x, z.eb, VKInt(i), kb, !z.ea.k.VNonReloc?);
    assert CodeOk(c, x, lab, z.g.origin) && |z.g.code| <= |c| && GoalOk(z.g)
      && x == z.g.pending by { hide CodeOk, Framed, ListOk; }
    assert Shape(z.g, c', x, lab', Falls(true), [], []) by {
      hide CodeOk, ListOk;
      FramedTrans(z.g.code, c, c');
      EmptyList(z.g, c', x, |c'|);
    }
    hide Shape, Sem;
    PairLoad(z.g, k, c, x, lab, z.eb, VKInt(i), kb, !z.ea.k.VNonReloc?, bn, i, c', reg, true);
  }

  lemma PairWeaken(g: Goal, kk: seq<Value>, kk': seq<Value>, c: seq<Instr>, x: set<nat>, eb: Expr,
                   ka: Kind, kb: Kind, prim: bool)
    requires Pair(g, kk, c, x, eb, ka, kb, prim) && kk <= kk'
    ensures Pair(g, kk', c, x, eb, ka, kb, prim)
  {
    forall env: Env, r0: Regs | kk' <= env.k ensures PairAt(env, r0, g, c, x, eb, ka, kb, prim) {
      assert kk <= env.k;
    }
  }

  function BoolCode(reg: nat): seq<Instr> {
    [LFalseSkip(reg), LoadTrue(reg)]
  }

  // ----- value lemmas behind the methods -----

  predicate Connects(i: Instr, from: nat, l: nat)
    requires i.LoadNil?
  {
    i.a <= from <= i.a + i.n + 1 || from <= i.a <= l + 1
  }

  function Union(i: Instr, from: nat, l: nat): Instr
    requires i.LoadNil? && from <= l
  {
    var lo := if i.a < from then i.a else from;
    var hi := if i.a + i.n > l then i.a + i.n else l;
    LoadNil(lo, hi - lo)
  }

  // SETARG_A on a relocatable instruction.
  function WithA(i: Instr, reg: nat): Instr
    requires i.Not? || i.GetUpval?
  {
    if i.Not? then Not(reg, i.b) else GetUpval(reg, i.b)
  }

  lemma LocalShape(g: Goal, c: seq<Instr>, x: set<nat>, lab: nat, r: nat, t: seq<nat>, f: seq<nat>)
    requires Shape(g, c, x, lab, Main(VLocal(r)), t, f)
    ensures Shape(g, c, x, lab, Main(VNonReloc(r)), t, f)
  {
  }

  lemma RelocLast(g: Goal, c: seq<Instr>, x: set<nat>, lab: nat, p: nat, t: seq<nat>, f: seq<nat>)
    requires Shape(g, c, x, lab, Main(VReloc(p)), t, f)
    ensures p + 1 == |c| && (c[p].Not? || c[p].GetUpval?) && lab <= p && |g.code| <= p
  {
  }

  // Jumps of the lists stay where they are when the code below the tail keeps its jumps.
  lemma KeepLists(g: Goal, c: seq<Instr>, c': seq<Instr>, x: set<nat>, lab: nat, pt: Point,
                  t: seq<nat>, f: seq<nat>, ht: int, hf: int)
    requires Shape(g, c, x, lab, pt, t, f) && ListOf(c, ht, t) && ListOf(c, hf, f)
    requires forall p :: 0 <= p < |c| - Tail(pt) && c[p].Jmp? ==> p < |c'| && c'[p] == c[p]
    ensures ListOf(c', ht, t) && ListOf(c', hf, f)
  {
    PendingBelow(g, c, x, lab, pt, t, f);
    ListJumps(c, ht, t);
    ListJumps(c, hf, f);
    ListFrame(c, c', ht, t);
    ListFrame(c, c', hf, f);
  }

  lemma SemLoosen(g: Goal, kk: seq<Value>, c: seq<Instr>, x: set<nat>, pt: Point,
                  t: seq<nat>, f: seq<nat>, spare: int)
    requires Sem(g, kk, c, x, pt, t, f, -1)
    ensures Sem(g, kk, c, x, pt, t, f, spare)
  {
    forall env: Env, r0: Regs | kk <= env.k ensures SemAt(env, r0, g, c, x, pt, t, f, spare) {
      assert SemAt(env, r0, g, c, x, pt, t, f, -1);
    }
  }

  lemma NilRule(g: Goal, kk: seq<Value>, c: seq<Instr>, c': seq<Instr>, x: set<nat>, lab: nat,
                t: seq<nat>, f: seq<nat>, reg: nat, ht: int, hf: int)
    requires Sem(g, kk, c, x, Main(VNil), t, f, -1) && Shape(g, c, x, lab, Main(VNil), t, f)
    requires ListOf(c, ht, t) && ListOf(c, hf, f)
    requires if lab < |c| && c[|c| - 1].LoadNil? && Connects(c[|c| - 1], reg, reg)
             then c' == c[|c| - 1 := Union(c[|c| - 1], reg, reg)] else c' == c + [LoadNil(reg, 0)]
    ensures Sem(g, kk, c', x, Main(VNonReloc(reg)), t, f, reg) && Shape(g, c', x, lab, Main(VNonReloc(reg)), t, f)
    ensures ListOf(c', ht, t) && ListOf(c', hf, f)
  {
    hide Shape, Sem;
    KeepLists(g, c, c', x, lab, Main(VNil), t, f, ht, hf);
    if lab < |c| && c[|c| - 1].LoadNil? && Connects(c[|c| - 1], reg, reg) {
      var u := Union(c[|c| - 1], reg, reg);
      WidenRule(g, kk, c, x, lab, t, f, reg, u.a, u.a + u.n);
    } else {
      assert c[..|c|] == c;
      LoadRule(g, kk, c, x, lab, VNil, t, f, reg, [LoadNil(reg, 0)]);
    }
  }

  lemma DischargeRule(g: Goal, kk0: seq<Value>, kk: seq<Value>, c: seq<Instr>, c': seq<Instr>, x: set<nat>, lab: nat,
                      kd: Kind, t: seq<nat>, f: seq<nat>, reg: nat, d: seq<Instr>, ht: int, hf: int)
    requires Sem(g, kk0, c, x, Main(kd), t, f, -1) && Shape(g, c, x, lab, Main(kd), t, f) && kk0 <= kk
    requires ListOf(c, ht, t) && ListOf(c, hf, f) && !kd.VJmp?
    requires LoadOf(kk, c, kd, reg, d) && Tail(Main(kd)) <= |c| && c' == c[..|c| - Tail(Main(kd))] + d
    ensures Sem(g, kk, c', x, Main(VNonReloc(reg)), t, f, reg) && Shape(g, c', x, lab, Main(VNonReloc(reg)), t, f)
    ensures ListOf(c', ht, t) && ListOf(c', hf, f)
  {
    hide Shape, Sem, LoadOf;
    SemWeaken(g, kk0, kk, c, x, Main(kd), t, f, -1);
    LoadRule(g, kk, c, x, lab, kd, t, f, reg, d);
    KeepLists(g, c, c', x, lab, Main(kd), t, f, ht, hf);
  }

  // ----- one round of patchlistaux and removevalues, on values -----

  lemma PatchNone(c: seq<Instr>, vtarget: int, reg: nat, dtarget: int)
    ensures PatchedTo(c, c, [], vtarget, reg, dtarget)
  {
  }

  // The jumps already patched are not those of the rest of the list.
  lemma PatchKeeps(c0: seq<Instr>, c1: seq<Instr>, l: seq<nat>, i: nat, vtarget: int, reg: nat, dtarget: int)
    requires i < |l| && (forall a, b :: 0 <= a < b < |l| ==> l[a] != l[b])
    requires forall p :: p in l ==> p < |c0| && c0[p].Jmp?
    requires PatchedTo(c0, c1, l[..i], vtarget, reg, dtarget)
    ensures |c1| == |c0| && HasValue(c1, l[i]) == HasValue(c0, l[i])
  {
    var p := l[i];
    assert p in l && p !in l[..i];
    if p > 0 { assert c1[p - 1] == PatchedAt(c0, l[..i], vtarget, reg, dtarget, p - 1); }
  }

  lemma PatchRound(c0: seq<Instr>, c1: seq<Instr>, c2: seq<Instr>, l: seq<nat>, i: nat,
                   vtarget: int, reg: nat, dtarget: int)
    requires i < |l| && (forall a, b :: 0 <= a < b < |l| ==> l[a] != l[b])
    requires forall p :: p in l ==> p < |c0| && c0[p].Jmp?
    requires PatchedTo(c0, c1, l[..i], vtarget, reg, dtarget) && ListOf(c1, l[i], l[i..])
    requires var p := l[i];
      p < |c1| && c1[p].Jmp? &&
      var had := HasValue(c1, p);
      var c := if had then c1[p - 1 := Retarget(c1[p - 1], reg)] else c1;
      c2 == c[p := Jmp((if had then vtarget else dtarget) - (p + 1))]
    ensures |c2| == |c1|
    ensures PatchedTo(c0, c2, l[..i + 1], vtarget, reg, dtarget)
    ensures ListOf(c2, GetJump(c1, l[i]), l[i + 1..])
  {
    var p := l[i];
    assert l[i..][1..] == l[i + 1..] && l[i..][0] == p;
    ListJumps(c1, l[i], l[i..]);
    RoundKeeps(c1, c2, l, i, vtarget, reg, dtarget);
    ListFrame(c1, c2, GetJump(c1, p), l[i + 1..]);
    hide ListOf, GetJump, Retarget, HasValue;
    assert l[..i + 1] == l[..i] + [p];
    forall q | 0 <= q < |c0| ensures c2[q] == PatchedAt(c0, l[..i + 1], vtarget, reg, dtarget, q) {
      RoundAt(c0, c1, c2, l, i, vtarget, reg, dtarget, q);
    }
  }

  // The instructions of the rest of the list stay.
  lemma RoundKeeps(c1: seq<Instr>, c2: seq<Instr>, l: seq<nat>, i: nat, vtarget: int, reg: nat, dtarget: int)
    requires i < |l| && (forall a, b :: 0 <= a < b < |l| ==> l[a] != l[b])
    requires forall p :: p in l[i..] ==> p < |c1| && c1[p].Jmp?
    requires var p := l[i];
      p < |c1| && c1[p].Jmp? &&
      var had := HasValue(c1, p);
      var c := if had then c1[p - 1 := Retarget(c1[p - 1], reg)] else c1;
      c2 == c[p := Jmp((if had then vtarget else dtarget) - (p + 1))]
    ensures |c2| == |c1|
    ensures forall q :: q in l[i + 1..] ==> q < |c1| && c2[q] == c1[q]
  {
    var p, rest := l[i], l[i + 1..];
    var had := HasValue(c1, p);
    forall q | q in rest ensures q < |c1| && c2[q] == c1[q] {
      var k :| 0 <= k < |rest| && rest[k] == q;
      assert p != l[i + 1 + k] && l[i..][k + 1] == q;
      assert q in l[i..] && q < |c1| && c1[q].Jmp?;
      if had { assert c1[p - 1].TestSet? && q != p - 1; }
    }
  }

  // One instruction after a round.
  lemma RoundAt(c0: seq<Instr>, c1: seq<Instr>, c2: seq<Instr>, l: seq<nat>, i: nat, vtarget: int, reg: nat,
                dtarget: int, q: nat)
    requires i < |l| && (forall a, b :: 0 <= a < b < |l| ==> l[a] != l[b]) && q < |c0|
    requires forall p :: p in l ==> p < |c0| && c0[p].Jmp?
    requires PatchedTo(c0, c1, l[..i], vtarget, reg, dtarget)
    requires var p := l[i];
      p < |c1| && c1[p].Jmp? &&
      var had := HasValue(c1, p);
      var c := if had then c1[p - 1 := Retarget(c1[p - 1], reg)] else c1;
      c2 == c[p := Jmp((if had then vtarget else dtarget) - (p + 1))]
    ensures |c2| == |c0| && c2[q] == PatchedAt(c0, l[..i + 1], vtarget, reg, dtarget, q)
  {
    var p := l[i];
    assert l[..i + 1] == l[..i] + [p];
    assert p !in l[..i];
    assert c1[p] == PatchedAt(c0, l[..i], vtarget, reg, dtarget, p);
    if p > 0 { assert c1[p - 1] == PatchedAt(c0, l[..i], vtarget, reg, dtarget, p - 1); }
    assert c1[q] == PatchedAt(c0, l[..i], vtarget, reg, dtarget, q);
  }

  ghost predicate Unvalues(c: seq<Instr>, c': seq<Instr>, l: seq<nat>) {
    && |c'| == |c|
    && forall p :: 0 <= p < |c| ==> c'[p] == if p + 1 in l then Retarget(c[p], NO_REG) else c[p]
  }

  lemma UnvalueStep(c0: seq<Instr>, c1: seq<Instr>, c2: seq<Instr>, head: int, l: seq<nat>, i: nat)
    requires ListOf(c1, head, l) && i < |l| && Unvalues(c0, c1, l[..i])
    requires l[i] < |c1|
    requires c2 == if HasValue(c1, l[i]) then c1[l[i] - 1 := Retarget(c1[l[i] - 1], NO_REG)] else c1
    ensures Unvalues(c0, c2, l[..i + 1]) && ListOf(c2, head, l)
  {
    ListJumps(c1, head, l);
    UnvalueFrame(c1, c2, l, l[i]);
    ListFrame(c1, c2, head, l);
    hide ListOf, HasValue;
    assert forall p :: p in l[..i + 1] <==> p in l[..i] || p == l[i] by { assert l[..i + 1] == l[..i] + [l[i]]; }
    forall p | 0 <= p < |c0| ensures c2[p] == if p + 1 in l[..i + 1] then Retarget(c0[p], NO_REG) else c0[p] {
      UnvalueAt(c0, c1, c2, l[..i], l[i], p);
    }
  }

  lemma UnvalueFrame(c1: seq<Instr>, c2: seq<Instr>, l: seq<nat>, q: nat)
    requires q < |c1| && forall p :: p in l ==> p < |c1| && c1[p].Jmp?
    requires c2 == if HasValue(c1, q) then c1[q - 1 := Retarget(c1[q - 1], NO_REG)] else c1
    ensures |c2| == |c1| && forall p :: p in l ==> c2[p] == c1[p]
  {
  }

  lemma UnvalueAt(c0: seq<Instr>, c1: seq<Instr>, c2: seq<Instr>, l: seq<nat>, q: nat, p: nat)
    requires Unvalues(c0, c1, l) && q < |c1| && p < |c0|
    requires c2 == if HasValue(c1, q) then c1[q - 1 := Retarget(c1[q - 1], NO_REG)] else c1
    ensures |c2| == |c1| && c2[p] == if p + 1 in l || p + 1 == q then Retarget(c0[p], NO_REG) else c0[p]
  {
  }

  lemma ListJumps(c: seq<Instr>, head: int, l: seq<nat>)
    requires ListOf(c, head, l)
    ensures forall p :: p in l ==> p < |c| && c[p].Jmp?
  {
    forall p | p in l ensures p < |c| && c[p].Jmp? {
      var i :| 0 <= i < |l| && l[i] == p;
      ListTail(c, head, l, i);
    }
  }

  lemma BoolsPatched(c0: seq<Instr>, c: seq<Instr>, c': seq<Instr>, reg: nat, isTest: bool)
    requires c == c0 + (if isTest then BoolCode(reg) else [Jmp(NO_JUMP)] + BoolCode(reg))
    requires !isTest ==> |c0| > 0 && !IsTest(c0[|c0| - 1])
    requires PatchedTo(c, c', if isTest then [] else [|c0|], |c|, NO_REG, |c|)
    ensures c' == c0 + (if isTest then BoolCode(reg) else SkipCode(reg))
  {
    var l: seq<nat> := if isTest then [] else [|c0|];
    forall p | 0 <= p < |c| ensures c'[p] == (c0 + (if isTest then BoolCode(reg) else SkipCode(reg)))[p] {
      assert c'[p] == PatchedAt(c, l, |c|, NO_REG, |c|, p);
    }
  }

  // The jump of a comparison is in no list yet.
  lemma JumpFresh(g: Goal, c: seq<Instr>, x: set<nat>, lab: nat, kd: Kind, t: seq<nat>, f: seq<nat>)
    requires Shape(g, c, x, lab, Main(kd), t, f) && kd.VJmp? && c[kd.jpc] == Jmp(NO_JUMP)
    ensures kd.jpc !in t && kd.jpc !in f && ListOf(c, kd.jpc, [kd.jpc])
    ensures 0 < kd.jpc < |c| && c[kd.jpc - 1].Cmp?
  {
    hide CodeOk, Framed;
  }

  // Concatenating lists changes only links.
  lemma ConcatKeeps(g: Goal, kk: seq<Value>, c: seq<Instr>, c': seq<Instr>, x: set<nat>, lab: nat, pt: Point,
                    t: seq<nat>, f: seq<nat>, l: seq<nat>, spare: int)
    requires Sem(g, kk, c, x, pt, t, f, spare) && Shape(g, c, x, lab, pt, t, f)
    requires |c'| == |c|
    requires forall p :: 0 <= p < |c| ==> c'[p] == c[p] || (p in l && c[p].Jmp? && c'[p].Jmp?)
    requires (forall p :: p in l ==> p in t) || (forall p :: p in l ==> p in f)
    ensures Sem(g, kk, c', x, pt, t, f, spare) && Shape(g, c', x, lab, pt, t, f)
    ensures (forall p :: p in l ==> p in t) ==> forall p :: p in f && p < |c| ==> c'[p] == c[p]
    ensures (forall p :: p in l ==> p in f) ==> forall p :: p in t && p < |c| ==> c'[p] == c[p]
  {
    hide Sem;
    assert Relinked(c, c', x - g.pending) by {
      hide CodeOk, Framed;
      forall p | p in l ensures p in x - g.pending { }
    }
    assert Disjoint(t, f) by { hide CodeOk, Framed, ListOk; }
    hide Shape;
    RelinkRule(g, kk, c, c', x, lab, pt, t, f, spare);
  }

  lemma ListsFacts(g: Goal, c: seq<Instr>, x: set<nat>, lab: nat, pt: Point, t: seq<nat>, f: seq<nat>, ht: int, hf: int)
    requires Shape(g, c, x, lab, pt, t, f) && ListOf(c, ht, t) && ListOf(c, hf, f)
    ensures ht != hf <==> t != [] || f != []
    ensures forall p :: p in x ==> p < |c|
  {
    hide CodeOk, Framed;
    if t != [] && f != [] { assert t[0] in t && f[0] in f; }
    if pt.Main? && pt.k.VJmp? { assert pt.k.jpc < |c|; }
  }

  // With a jump in a list, the code is not empty and does not end in an open group.
  lemma EndOfCode(g: Goal, c: seq<Instr>, x: set<nat>, lab: nat, pt: Point, t: seq<nat>, f: seq<nat>)
    requires Shape(g, c, x, lab, pt, t, f) && (t != [] || f != [])
    ensures |c| > 0 && !IsTest(c[|c| - 1])
  {
    hide Framed;
    if t != [] { assert t[0] in t; } else { assert f[0] in f; }
    assert InstrOk(c, x, lab, |c| - 1);
  }

  // Both boolean loads are at the end, and the main value is in the register when the end is reached.
  lemma BoolsRule(g: Goal, kk: seq<Value>, c: seq<Instr>, c': seq<Instr>, x: set<nat>, lab: nat,
                  t: seq<nat>, f: seq<nat>, reg: nat, isTest: bool, ht: int, hf: int)
    requires Sem(g, kk, c, x, Main(if isTest then VFalse else VNonReloc(reg)), t, f, if isTest then -1 else reg)
    requires Shape(g, c, x, lab, Main(if isTest then VFalse else VNonReloc(reg)), t, f)
    requires c' == c + (if isTest then BoolCode(reg) else SkipCode(reg))
    requires ListOf(c, ht, t) && ListOf(c, hf, f)
    ensures Sem(g, kk, c', x, Main(VNonReloc(reg)), t, f, reg) && Shape(g, c', x, |c'|, Main(VNonReloc(reg)), t, f)
    ensures BoolAt(c', |c'| - 2, reg, false) && BoolAt(c', |c'| - 1, reg, true)
    ensures ListOf(c', ht, t) && ListOf(c', hf, f)
  {
    hide Sem;
    assert c[..|c|] == c;
    if isTest {
      LoadRule(g, kk, c, x, lab, VFalse, t, f, reg, BoolCode(reg));
      assert lab <= |c'| by { hide CodeOk, Framed, ListOk; }
      LabelRule(g, c', x, lab, |c'|, Main(VNonReloc(reg)), t, f);
    } else {
      SkipRule(g, kk, c, x, lab, t, f, reg);
    }
    hide Shape;
    KeepLists(g, c, c', x, lab, Main(if isTest then VFalse else VNonReloc(reg)), t, f, ht, hf);
  }

  lemma NothingPending(g: Goal, c: seq<Instr>, x: set<nat>, lab: nat, pt: Point)
    requires Shape(g, c, x, lab, pt, [], []) && Tail(pt) == 0
    ensures x == g.pending
  {
    hide CodeOk, Framed, ListOk;
  }

  // Pending positions hold jumps.
  lemma PendingJumps(g: Goal, c: seq<Instr>, x: set<nat>, lab: nat, pt: Point, t: seq<nat>, f: seq<nat>)
    requires Shape(g, c, x, lab, pt, t, f) && Tail(pt) == 0
    ensures forall p :: p in x ==> p < |c| && c[p].Jmp?
  {
    hide CodeOk;
    forall p | p in x ensures p < |c| && c[p].Jmp? {
      if p in g.pending { assert g.code[p].Jmp?; }
    }
  }

  lemma PatchFalse(g: Goal, kk: seq<Value>, c: seq<Instr>, c': seq<Instr>, x: set<nat>, lab: nat, t: seq<nat>,
                   f: seq<nat>,
                   reg: nat, pf: int, pt: int, need: bool, ht: int)
    requires Sem(g, kk, c, x, Main(VNonReloc(reg)), t, f, reg) && Shape(g, c, x, lab, Main(VNonReloc(reg)), t, f)
    requires PatchedTo(c, c', f, |c|, reg, pf) && ListOf(c, ht, t) && reg != NO_REG
    requires if need then BoolAt(c, pf, reg, false) && BoolAt(c, pt, reg, true)
             else (forall p :: p in t || p in f ==> HasValue(c, p))
    ensures Sem(g, kk, c', x - Members(f), Main(VNonReloc(reg)), t, [], reg)
    ensures Shape(g, c', x - Members(f), |c|, Main(VNonReloc(reg)), t, [])
    ensures ListOf(c', ht, t) && |c'| == |c|
    ensures if need then BoolAt(c', pt, reg, true) else (forall p :: p in t ==> HasValue(c', p))
  {
    PendingJumps(g, c, x, lab, Main(VNonReloc(reg)), t, f);
    ValueRule(g, kk, c, c', x, lab, t, f, reg, false, pf);
    hide CodeOk, Framed, Sem;
    PatchedRest(g, c, c', x, f, t, reg, pf);
    ListFrame(c, c', ht, t);
    if need {
      assert c'[pt] == PatchedAt(c, f, |c|, reg, pf, pt);
      assert pt !in f && pt + 1 !in f;
    }
  }

  lemma PatchTrue(g: Goal, kk: seq<Value>, c: seq<Instr>, c': seq<Instr>, x: set<nat>, lab: nat, t: seq<nat>,
                  reg: nat, pt: int, need: bool)
    requires Sem(g, kk, c, x, Main(VNonReloc(reg)), t, [], reg) && Shape(g, c, x, lab, Main(VNonReloc(reg)), t, [])
    requires PatchedTo(c, c', t, |c|, reg, pt) && reg != NO_REG
    requires if need then BoolAt(c, pt, reg, true) else (forall p :: p in t ==> HasValue(c, p))
    ensures Sem(g, kk, c', x - Members(t), Main(VNonReloc(reg)), [], [], reg)
    ensures Shape(g, c', x - Members(t), |c|, Main(VNonReloc(reg)), [], []) && |c'| == |c|
  {
    PendingJumps(g, c, x, lab, Main(VNonReloc(reg)), t, []);
    ValueRule(g, kk, c, c', x, lab, t, [], reg, true, pt);
  }

  lemma NoJumps(g: Goal, c: seq<Instr>, x: set<nat>, lab: nat, pt: Point, t: seq<nat>, f: seq<nat>, ht: int, hf: int)
    requires Shape(g, c, x, lab, pt, t, f) && ListOf(c, ht, t) && ListOf(c, hf, f) && ht == hf
    ensures t == [] && f == [] && ht == NO_JUMP
  {
    ListsFacts(g, c, x, lab, pt, t, f, ht, hf);
  }

  predicate ConstantAt(kk: seq<Value>, kd: Kind, i: nat)
    requires i < |kk|
  {
    match kd
    case VTrue => kk[i] == Bool(true)
    case VFalse => kk[i] == Bool(false)
    case VNil => kk[i] == Nil
    case VKInt(n) => kk[i] == Int(n)
    case VKStr(s) => kk[i] == Str(s)
    case VK(j) => i == j
    case _ => false
  }

  lemma ConstantRule(g: Goal, kk: seq<Value>, c: seq<Instr>, x: set<nat>, lab: nat, kd: Kind, i: nat)
    requires Sem(g, kk, c, x, Main(kd), [], [], -1) && Shape(g, c, x, lab, Main(kd), [], [])
    requires i < |kk| && ConstantAt(kk, kd, i)
    ensures Sem(g, kk, c, x, Main(VK(i)), [], [], -1) && Shape(g, c, x, lab, Main(VK(i)), [], [])
  {
    assert Shape(g, c, x, lab, Main(VK(i)), [], []) by { hide CodeOk, Framed, ListOk; }
    hide Shape, Run, Eval;
    var pt := Main(VK(i));
    forall env: Env, r0: Regs | kk <= env.k ensures SemAt(env, r0, g, c, x, pt, [], [], -1) {
      assert SemAt(env, r0, g, c, x, Main(kd), [], [], -1);
      assert env.k[i] == kk[i];
      assert forall r :: MainValue(env, c, VK(i), r) == MainValue(env, c, kd, r);
    }
  }

  lemma TestRuleLists(g: Goal, kk: seq<Value>, c: seq<Instr>, x: set<nat>, lab: nat, kd: Kind, t: seq<nat>, f: seq<nat>,
                      i: Instr, cond: bool, ht: int, hf: int)
    requires Sem(g, kk, c, x, Main(kd), t, f, -1) && Shape(g, c, x, lab, Main(kd), t, f)
    requires TestOf(c, kd, i, cond) && ListOf(c, ht, t) && ListOf(c, hf, f) && Tail(Main(kd)) <= |c|
    ensures var end := |c| - Tail(Main(kd));
      var c' := c[..end] + [i, Jmp(NO_JUMP)];
      && Sem(g, kk, c', x + {end + 1}, Falls(!cond), TList(t, end + 1, cond), FList(f, end + 1, cond), -1)
      && Shape(g, c', x + {end + 1}, lab, Falls(!cond), TList(t, end + 1, cond), FList(f, end + 1, cond))
      && ListOf(c', ht, t) && ListOf(c', hf, f) && end + 1 !in t && end + 1 !in f
  {
    TestRule(g, kk, c, x, lab, kd, t, f, i, NO_JUMP, cond);
    PendingBelow(g, c, x, lab, Main(kd), t, f);
    hide Shape, Sem;
    var end := |c| - Tail(Main(kd));
    KeepLists(g, c, c[..end] + [i, Jmp(NO_JUMP)], x, lab, Main(kd), t, f, ht, hf);
  }

  // A comparison as the condition of `and` (after negation) or `or`.
  lemma JumpBranch(g: Goal, kk: seq<Value>, c: seq<Instr>, x: set<nat>, lab: nat, kd: Kind, t: seq<nat>, f: seq<nat>,
                   cond: bool, ht: int, hf: int)
    requires Sem(g, kk, c, x, Main(kd), t, f, -1) && Shape(g, c, x, lab, Main(kd), t, f) && kd.VJmp?
    requires 0 < kd.jpc < |c| && c[kd.jpc - 1].Cmp? && c[kd.jpc] == Jmp(NO_JUMP)
    requires ListOf(c, ht, t) && ListOf(c, hf, f)
    ensures var c' := if cond then c else c[kd.jpc - 1 := Flip(c[kd.jpc - 1])];
      && Sem(g, kk, c', x, Falls(!cond), TList(t, kd.jpc, cond), FList(f, kd.jpc, cond), -1)
      && Shape(g, c', x, lab, Falls(!cond), TList(t, kd.jpc, cond), FList(f, kd.jpc, cond))
      && ListOf(c', ht, t) && ListOf(c', hf, f) && ListOf(c', kd.jpc, [kd.jpc])
  {
    JumpRule(g, kk, c, x, lab, kd, t, f, cond);
    hide Shape, Sem;
    var c' := if cond then c else c[kd.jpc - 1 := Flip(c[kd.jpc - 1])];
    ConstRule(g, kk, c', x, lab, if cond then VFalse else VTrue, TList(t, kd.jpc, cond), FList(f, kd.jpc, cond));
    KeepLists(g, c, c', x, lab, Main(kd), t, f, ht, hf);
    assert c'[kd.jpc] == c[kd.jpc];
  }

  // The exit list survives the patching of the other one.
  lemma HereLists(g: Goal, c: seq<Instr>, c': seq<Instr>, x: set<nat>, lab: nat, t: seq<nat>, f: seq<nat>,
                  sense: bool, head: int)
    requires Shape(g, c, x, lab, Falls(sense), t, f)
    requires PatchedTo(c, c', if sense then t else f, |c|, NO_REG, |c|)
    requires ListOf(c, head, if sense then f else t)
    ensures ListOf(c', head, if sense then f else t)
  {
    hide CodeOk, Framed;
    PatchedRest(g, c, c', x, if sense then t else f, if sense then f else t, NO_REG, |c|);
    ListFrame(c, c', head, if sense then f else t);
  }

  lemma UnvaluesList(c: seq<Instr>, c': seq<Instr>, l: seq<nat>, head: int, m: seq<nat>)
    requires Unvalues(c, c', l) && ListOf(c, head, m)
    ensures ListOf(c', head, m)
  {
    ListJumps(c, head, m);
    ListFrame(c, c', head, m);
  }

  // The first half of `codenot`: the main value negated, the lists still in place.
  ghost predicate MainNegated(c0: seq<Instr>, c1: seq<Instr>, kd: Kind, kd': Kind) {
    && NotOf(c0, kd, c1, kd')
    && Tail(Main(kd)) <= |c0| && Tail(Main(kd')) <= |c1|
    && |c1| - Tail(Main(kd')) == |c0| - Tail(Main(kd))
    && forall p :: 0 <= p < |c0| - Tail(Main(kd)) ==> c1[p] == c0[p]
  }

  // What `codenot` does to the main value.
  predicate NotStep(c0: seq<Instr>, c1: seq<Instr>, kd: Kind, kd': Kind) {
    match kd
    case VNil => kd' == VTrue && c1 == c0
    case VFalse => kd' == VTrue && c1 == c0
    case VTrue => kd' == VFalse && c1 == c0
    case VKInt(_) => kd' == VFalse && c1 == c0
    case VKStr(_) => kd' == VFalse && c1 == c0
    case VJmp(p) => kd' == kd && 0 < p < |c0| && c0[p - 1].Cmp? && c1 == c0[p - 1 := Flip(c0[p - 1])]
    case VNonReloc(b) => kd' == VReloc(|c0|) && c1 == c0 + [Not(0, b)]
    case _ => false
  }

  lemma NotEmitted(g: Goal, c0: seq<Instr>, c1: seq<Instr>, x: set<nat>, lab: nat, kd: Kind, kd': Kind,
                   t: seq<nat>, f: seq<nat>, ht: int, hf: int)
    requires Shape(g, c0, x, lab, Main(kd), t, f) && ListOf(c0, ht, t) && ListOf(c0, hf, f)
    requires NotStep(c0, c1, kd, kd')
    ensures MainNegated(c0, c1, kd, kd') && ListOf(c1, ht, t) && ListOf(c1, hf, f)
  {
    hide Shape, ListOf;
    NotTail(g, c0, x, lab, kd, t, f);
    KeepLists(g, c0, c1, x, lab, Main(kd), t, f, ht, hf);
  }

  lemma NotTail(g: Goal, c: seq<Instr>, x: set<nat>, lab: nat, kd: Kind, t: seq<nat>, f: seq<nat>)
    requires Shape(g, c, x, lab, Main(kd), t, f)
    ensures Tail(Main(kd)) <= |c| && (kd.VJmp? ==> kd.jpc + 1 == |c|)
  {
    hide CodeOk, Framed, ListOk;
  }

  lemma UnvalueTwice(c1: seq<Instr>, c2: seq<Instr>, c3: seq<Instr>, t: seq<nat>, f: seq<nat>)
    requires Unvalues(c1, c2, t) && Unvalues(c2, c3, f)
    ensures Unvalued(c1, c3, |c1|, t, f)
  {
    forall p | 0 <= p < |c1| ensures c3[p] == if p + 1 in t + f then Retarget(c1[p], NO_REG) else c1[p] {
      assert c2[p] == if p + 1 in t then Retarget(c1[p], NO_REG) else c1[p];
    }
  }

  lemma NotAll(g: Goal, kk: seq<Value>, c0: seq<Instr>, c1: seq<Instr>, c3: seq<Instr>, x: set<nat>,
               lab: nat, kd: Kind, kd': Kind, t: seq<nat>, f: seq<nat>)
    requires Sem(g, kk, c0, x, Main(kd), t, f, -1) && Shape(g, c0, x, lab, Main(kd), t, f)
    requires MainNegated(c0, c1, kd, kd') && Unvalued(c1, c3, |c1|, t, f) && |c3| == |c1|
    ensures var g' := g.(expr := ENot(g.expr));
      Sem(g', kk, c3, x, Main(kd'), f, t, -1) && Shape(g', c3, x, lab, Main(kd'), f, t)
    ensures kd'.VJmp? ==> kd'.jpc < |c1| && c3[kd'.jpc] == c1[kd'.jpc]
  {
    var end := |c0| - Tail(Main(kd));
    PendingBelow(g, c0, x, lab, Main(kd), t, f);
    assert kd.VJmp? ==> kd.jpc == end + 1 by { hide CodeOk, Framed, ListOk; }
    hide Shape, Sem;
    forall p | end <= p < |c1| ensures c3[p] == c1[p] { assert p + 1 !in t + f; }
    assert Unvalued(c0, c3, end, t, f);
    NotRule(g, kk, c0, c3, x, lab, kd, kd', t, f);
  }

  function OrderOf(o: OrderOp, swapped: bool): CmpOp {
    if o.Lt? then (if swapped then GT else LT) else (if swapped then GE else LE)
  }

  lemma TestForCmp(op: CmpOp, ka: Kind, kb: Kind, prim: bool, i: Instr)
    requires TestFor(op, ka, kb, prim, i)
    ensures i.Cmp?
  {
    hide OrderTest, EqualTest;
    if op.EQ? || op.NE? {
      EqualTestCmp(ka, kb, i);
      EqualTestCmp(kb, ka, i);
    } else {
      OrderTestCmp(ka, kb, i);
      OrderTestCmp(kb, ka, i);
    }
  }

  lemma EqualTestCmp(ka: Kind, kb: Kind, i: Instr)
    ensures EqualTest(ka, kb, i, true) || EqualTest(ka, kb, i, false) ==> i.Cmp?
  {
  }

  lemma OrderTestCmp(ka: Kind, kb: Kind, i: Instr)
    ensures OrderTest(Lt, ka, kb, i) || OrderTest(Le, ka, kb, i) ==> i.Cmp?
  {
  }

  // A constant first operand given an index in the constant table.
  lemma ConstPooled(z: First, k0: seq<Value>, k: seq<Value>, c: seq<Instr>, x: set<nat>, lab: nat, lab': nat,
                    bn: nat, kb: Kind, i: Int64, j: nat)
    requires Pair(z.g, k0, c, x, z.eb, VKInt(i), kb, !z.ea.k.VNonReloc?) && k0 <= k && j < |k| && k[j] == Int(i)
    requires Shape(z.g, c, x, lab, Falls(true), [], [])
    requires Shape(Next(z.g, c, x, lab, bn, EInt(i)), c, x, lab', Main(VK(j)), [], [])
    ensures Pair(z.g, k, c, x, z.eb, VK(j), kb, !z.ea.k.VNonReloc?)
    ensures Shape(z.g, c, x, lab', Falls(true), [], [])
  {
    assert Shape(z.g, c, x, lab', Falls(true), [], []) by { hide CodeOk, Framed, ListOk; }
    hide Shape, Run, Eval;
    var prim := !z.ea.k.VNonReloc?;
    forall env: Env, r0: Regs | k <= env.k ensures PairAt(env, r0, z.g, c, x, z.eb, VK(j), kb, prim) {
      assert k0 <= env.k && env.k[j] == k[j];
      assert PairAt(env, r0, z.g, c, x, z.eb, VKInt(i), kb, prim);
      assert forall r :: MainValue(env, c, VK(j), r) == MainValue(env, c, VKInt(i), r);
    }
  }

  predicate InRange(a: Expr) {
    match a
    case EUpval(u) => u <= MAXARG_B
    case ENot(x) => InRange(x)
    case EAnd(x, y) => InRange(x) && InRange(y)
    case EOr(x, y) => InRange(x) && InRange(y)
    case ECmp(_, x, y) => InRange(x) && InRange(y)
    case _ => true
  }

  function LeafKind(a: Expr): Kind {
    match a
    case ETrue => VTrue
    case EFalse => VFalse
    case EInt(i) => VKInt(i)
    case EStr(s) => VKStr(s)
    case ELocal(r) => VLocal(r)
    case EUpval(u) => VUpval(u)
    case _ => VNil
  }

  function BinExpr(op: BinOpr, a: Expr, b: Expr): Expr {
    match op
    case OprAnd => EAnd(a, b)
    case OprOr => EOr(a, b)
    case OprCmp(cmp) => ECmp(cmp, a, b)
  }

  lemma GoalExpr(g: Goal, e: Expr)
    requires GoalOk(g)
    ensures GoalOk(g.(expr := e))
  {
  }

  // The first operand of an operator, as `luaK_infix` left it.
  ghost predicate FirstHeld(op: BinOpr, z: First, l: seq<nat>, k: seq<Value>, nvar: nat) {
    match op
    case OprAnd => Sem(z.g, z.kk, z.c, z.x, Falls(true), [], l, -1)
      && Shape(z.g, z.c, z.x, z.lab, Falls(true), [], l) &&
                   ListOf(z.c, z.ea.f, l) && z.bn == z.g.base && z.kk <= k && nvar <= z.g.base
    case OprOr => Sem(z.g, z.kk, z.c, z.x, Falls(false), l, [], -1)
      && Shape(z.g, z.c, z.x, z.lab, Falls(false), l, []) &&
                  ListOf(z.c, z.ea.t, l) && z.bn == z.g.base && z.kk <= k && nvar <= z.g.base
    case OprCmp(op) => FirstOk(z, k, nvar) && (z.ea.k.VK? ==> z.ea.k.info <= MAXARG_B) &&
                       (!(op.EQ? || op.NE?) ==> z.ea.k.VNonReloc? || IsSCNumber(z.ea))
  }

  lemma HeldWeaken(op: BinOpr, z: First, l: seq<nat>, k0: seq<Value>, k: seq<Value>, nvar: nat)
    requires FirstHeld(op, z, l, k0, nvar) && k0 <= k
    ensures FirstHeld(op, z, l, k, nvar)
  {
    hide Shape, Sem;
  }

  lemma GoalAfter(g: Goal, c: seq<Instr>, x: set<nat>, lab: nat, pt: Point, t: seq<nat>, f: seq<nat>, free: nat,
                  e: Expr)
    requires Shape(g, c, x, lab, pt, t, f) && Tail(pt) == 0
    ensures GoalOk(Next(g, c, x, lab, free, e))
  {
    PendingJumps(g, c, x, lab, pt, t, f);
    hide CodeOk, Framed, ListOk;
  }

  lemma JoinRule(z: First, k: seq<Value>, nvar: nat, sense: bool, l: seq<nat>, c: seq<Instr>, x: set<nat>, lab: nat,
                 kd: Kind, t: seq<nat>, f: seq<nat>)
    requires FirstHeld(if sense then OprAnd else OprOr, z, l, k, nvar) && Scoped(z.eb, nvar)
    requires Sem(SecondGoal(z), k, c, x, Main(kd), t, f, -1) && Shape(SecondGoal(z), c, x, lab, Main(kd), t, f)
    ensures var g' := z.g.(expr := Junction(sense, z.g.expr, z.eb));
      var t', f' := if sense then t else t + l, if sense then f + l else f;
      Sem(g', k, c, x, Main(kd), t', f', -1) && Shape(g', c, x, lab, Main(kd), t', f')
    ensures ListOf(c, if sense then z.ea.f else z.ea.t, l)
    ensures forall p :: p in (if sense then f else t) ==> p !in l
  {
    var t1, f1 := if sense then [] else l, if sense then l else [];
    JoinFacts(z, sense, l, c, x, lab, kd, t, f);
    hide Shape, Sem;
    SemWeaken(z.g, z.kk, k, z.c, z.x, Falls(sense), t1, f1, -1);
    JunctionRule(z.g, k, z.eb, nvar, sense, z.c, z.x, z.lab, l, c, x, lab, Main(kd), t, f);
    ListFrame(z.c, c, if sense then z.ea.f else z.ea.t, l);
  }

  lemma JoinFacts(z: First, sense: bool, l: seq<nat>, c: seq<Instr>, x: set<nat>, lab: nat,
                  kd: Kind, t: seq<nat>, f: seq<nat>)
    requires Shape(z.g, z.c, z.x, z.lab, Falls(sense), if sense then [] else l, if sense then l else [])
    requires Shape(SecondGoal(z), c, x, lab, Main(kd), t, f)
    ensures forall p :: p in l ==> p < |c| && p < |z.c| && c[p] == z.c[p]
    ensures forall p :: p in t || p in f ==> p !in l
  {
    hide CodeOk;
    JunctionFrame(z.g, z.c, c, z.x, l);
    hide Framed;
  }
}
