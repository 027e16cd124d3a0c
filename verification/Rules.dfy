// How each thing the code generator does to the code preserves what its descriptor means.

module Rules {
  import opened Bytecode
  import opened Denotation
  import opened Sequences

  lemma SemWeaken(g: Goal, kk: seq<Value>, kk': seq<Value>, c: seq<Instr>, x: set<nat>, pt: Point,
                  t: seq<nat>, f: seq<nat>, spare: int)
    requires Sem(g, kk, c, x, pt, t, f, spare) && kk <= kk'
    ensures Sem(g, kk', c, x, pt, t, f, spare)
  {
    forall env: Env, r0: Regs | kk' <= env.k ensures SemAt(env, r0, g, c, x, pt, t, f, spare) {
      assert kk <= env.k;
    }
  }

  // A register above the base is free anyway.
  lemma SemSpare(g: Goal, kk: seq<Value>, c: seq<Instr>, x: set<nat>, pt: Point,
                 t: seq<nat>, f: seq<nat>, spare: int)
    requires Sem(g, kk, c, x, pt, t, f, spare) && spare >= g.base
    ensures Sem(g, kk, c, x, pt, t, f, -1)
  {
    forall env: Env, r0: Regs | kk <= env.k ensures SemAt(env, r0, g, c, x, pt, t, f, -1) {
      assert SemAt(env, r0, g, c, x, pt, t, f, spare);
    }
  }

  // What runs do when the tail of the code is replaced by `d`.
  lemma BodyExtend(env: Env, r0: Regs, g: Goal, c: seq<Instr>, x: set<nat>, lab: nat, pt: Point,
                   t: seq<nat>, f: seq<nat>, d: seq<Instr>, x': set<nat>)
    requires Shape(g, c, x, lab, pt, t, f)
    requires var end := |c| - Tail(pt); forall p :: p in x' <==> p in x - JumpOf(pt) || (p in x' && p >= end)
    ensures var b := c[..|c| - Tail(pt)];
      var s := Run(env, b, x, g.origin, r0);
      && Run(env, b + d, x', g.origin, r0) == (if s.At? && s.pc == |b| then Run(env, b + d, x', |b|, s.r) else s)
      && (s.At? ==> s.pc <= |b| && (s.pc == |b| || s.pc in x - JumpOf(pt)))
  {
    var b := c[..|c| - Tail(pt)];
    BodyOk(g, c, x, lab, pt, t, f);
    var y := x - JumpOf(pt);
    RunExtend(env, b, b + d, y, x', lab, g.origin, r0);
    RunExtend(env, b, b, y, x, lab, g.origin, r0);
    RunStops(env, b, y, lab, g.origin, r0);
  }

  lemma PendingBelow(g: Goal, c: seq<Instr>, x: set<nat>, lab: nat, pt: Point, t: seq<nat>, f: seq<nat>)
    requires Shape(g, c, x, lab, pt, t, f)
    ensures forall p :: p in x - JumpOf(pt) ==> p < |c| - Tail(pt)
    ensures forall p :: p in t || p in f ==> p < |c| - Tail(pt)
  {
  }

  // What runs of the goal's own code do: they stop before its end only at jumps that were pending then.
  lemma BeforeStops(env: Env, r0: Regs, g: Goal)
    requires GoalOk(g)
    ensures var s := Run(env, g.code, g.pending, g.origin, r0); s.At? ==> s.pc == |g.code| || s.pc in g.pending
  {
    RunStops(env, g.code, g.pending, g.lab, g.origin, r0);
  }

  // ----- nothing emitted yet -----

  predicate Literal(e: Expr, k: Kind) {
    match e
    case ENil => k == VNil
    case ETrue => k == VTrue
    case EFalse => k == VFalse
    case EInt(i) => k == VKInt(i)
    case EStr(s) => k == VKStr(s)
    case ELocal(r) => k == VLocal(r) || k == VNonReloc(r)
    case EUpval(u) => k == VUpval(u)
    case _ => false
  }

  lemma StartRule(g: Goal, k: Kind)
    requires GoalOk(g) && Literal(g.expr, k)
    ensures Shape(g, g.code, g.pending, g.lab, Main(k), [], [])
    ensures Sem(g, [], g.code, g.pending, Main(k), [], [], -1)
  {
    assert g.code[..|g.code|] == g.code;
    forall env: Env, r0: Regs | [] <= env.k ensures SemAt(env, r0, g, g.code, g.pending, Main(k), [], [], -1) {
    }
  }

  // A local variable is already in its register; an upvalue is fetched into a register still to be chosen.
  lemma LocalRule(g: Goal, kk: seq<Value>, c: seq<Instr>, x: set<nat>, r: nat, t: seq<nat>, f: seq<nat>, spare: int)
    requires Sem(g, kk, c, x, Main(VLocal(r)), t, f, spare)
    ensures Sem(g, kk, c, x, Main(VNonReloc(r)), t, f, spare)
  {
    forall env: Env, r0: Regs | kk <= env.k ensures SemAt(env, r0, g, c, x, Main(VNonReloc(r)), t, f, spare) {
      assert SemAt(env, r0, g, c, x, Main(VLocal(r)), t, f, spare);
    }
  }

  lemma UpvalRuleAt(env: Env, r0: Regs, g: Goal, c: seq<Instr>, x: set<nat>, lab: nat, u: nat,
                    t: seq<nat>, f: seq<nat>)
    requires SemAt(env, r0, g, c, x, Main(VUpval(u)), t, f, -1) && Shape(g, c, x, lab, Main(VUpval(u)), t, f)
    ensures SemAt(env, r0, g, c + [GetUpval(0, u)], x, Main(VReloc(|c|)), t, f, -1)
  {
    hide Run, Eval, CodeOk, Framed, Denotes;
    var c' := c + [GetUpval(0, u)];
    assert c'[..|c|] == c[..|c|] == c;
    PendingBelow(g, c, x, lab, Main(VUpval(u)), t, f);
    var before := Run(env, g.code, g.pending, g.origin, r0);
    if before.At? && before.pc == |g.code| {
      UpvalDenotes(env, c, u, t, f, g.base, before.r, Eval(env, g.expr, before.r), Run(env, c, x, g.origin, r0));
    }
  }

  lemma UpvalDenotes(env: Env, c: seq<Instr>, u: nat, t: seq<nat>, f: seq<nat>, base: nat, r: Regs, v: Outcome,
                     s: State)
    requires Denotes(env, c, |c|, Main(VUpval(u)), t, f, base, -1, r, v, s)
    requires forall p :: p in t || p in f ==> p < |c|
    ensures Denotes(env, c + [GetUpval(0, u)], |c|, Main(VReloc(|c|)), t, f, base, -1, r, v, s)
  {
    CarriedFrame(c, c + [GetUpval(0, u)], t, f, |c|);
  }

  lemma UpvalRule(g: Goal, kk: seq<Value>, c: seq<Instr>, x: set<nat>, lab: nat, u: nat, t: seq<nat>, f: seq<nat>)
    requires Sem(g, kk, c, x, Main(VUpval(u)), t, f, -1) && Shape(g, c, x, lab, Main(VUpval(u)), t, f)
    ensures var c' := c + [GetUpval(0, u)];
      && Sem(g, kk, c', x, Main(VReloc(|c|)), t, f, -1)
      && Shape(g, c', x, lab, Main(VReloc(|c|)), t, f)
  {
    var c' := c + [GetUpval(0, u)];
    assert c[..|c|] == c;
    ExtendShape(g, c, x, lab, Main(VUpval(u)), t, f, [GetUpval(0, u)], Main(VReloc(|c|)));
    forall env: Env, r0: Regs | kk <= env.k ensures SemAt(env, r0, g, c', x, Main(VReloc(|c|)), t, f, -1) {
      UpvalRuleAt(env, r0, g, c, x, lab, u, t, f);
    }
  }

  // Two codes that agree below `end` carry the same values.
  lemma CarriedFrame(c: seq<Instr>, c': seq<Instr>, t: seq<nat>, f: seq<nat>, end: nat)
    requires end <= |c| && end <= |c'|
    requires forall p :: 0 <= p < end ==> c'[p] == c[p]
    requires forall p :: p in t || p in f ==> p < end
    ensures forall p, r, v, b :: (p in t || p in f) ==> Carried(c', p, r, v, b) == Carried(c, p, r, v, b)
  {
  }

  predicate Plain(i: Instr) {
    !IsTest(i) && !i.Jmp? && !i.LoadKX? && !i.ExtraArg? && !i.LFalseSkip?
  }

  // The body followed by simple instructions is still well shaped.
  lemma ExtendShape(g: Goal, c: seq<Instr>, x: set<nat>, lab: nat, pt: Point, t: seq<nat>, f: seq<nat>,
                    d: seq<Instr>, pt': Point)
    requires Shape(g, c, x, lab, pt, t, f)
    requires (|d| == 1 && Plain(d[0])) || (|d| == 2
                                           && ((d[0].LoadKX? && d[1].ExtraArg?) || (d[0].LFalseSkip?
                                              && d[1].LoadTrue?)))
    requires var b := c[..|c| - Tail(pt)]; Tail(pt') <= |d| && TailOk(b + d, x, |b + d| - Tail(pt'), pt')
                                           && JumpOf(pt') == {}
    ensures var b := c[..|c| - Tail(pt)]; Shape(g, b + d, x - JumpOf(pt), lab, pt', t, f)
  {
    var b := c[..|c| - Tail(pt)];
    var c' := b + d;
    var x' := x - JumpOf(pt);
    BodyOk(g, c, x, lab, pt, t, f);
    forall p | g.origin <= p < |c'| ensures InstrOk(c', x', lab, p) {
      if p < |b| { assert InstrOk(b, x', lab, p); }
    }
    forall p | p in t || p in f ensures c'[p - 1] == b[p - 1] && c'[p] == b[p] { }
  }

  // ----- loading the main value into a register -----

  predicate ConstLoad(kk: seq<Value>, d: seq<Instr>, reg: nat, v: Value) {
    || (|d| == 1 && d[0].LoadK? && d[0].a == reg && d[0].bx < |kk| && kk[d[0].bx] == v)
    || (|d| == 2 && d[0] == LoadKX(reg) && d[1].ExtraArg? && d[1].ax < |kk| && kk[d[1].ax] == v)
  }

  // `d` is code that puts a main value of kind `k` into `reg`.
  predicate LoadOf(kk: seq<Value>, c: seq<Instr>, k: Kind, reg: nat, d: seq<Instr>) {
    match k
    case VNil => d == [LoadNil(reg, 0)]
    case VTrue => d == [LoadTrue(reg)]
    case VFalse => d == [LoadFalse(reg)] || d == [LFalseSkip(reg), LoadTrue(reg)]
    case VK(i) => i < |kk| && ConstLoad(kk, d, reg, kk[i])
    case VKInt(i) => d == [LoadI(reg, i)] || ConstLoad(kk, d, reg, Int(i))
    case VKStr(s) => ConstLoad(kk, d, reg, Str(s))
    case VNonReloc(r) => d == [Move(reg, r)]
    case VReloc(p) => p < |c| && ((c[p].Not? && d == [Not(reg, c[p].b)])
                                  || (c[p].GetUpval? && d == [GetUpval(reg, c[p].b)]))
    case _ => false
  }

  lemma LoadRuns(env: Env, kk: seq<Value>, b: seq<Instr>, c: seq<Instr>, k: Kind, reg: nat, d: seq<Instr>,
                 x: set<nat>, r: Regs)
    requires LoadOf(kk, c, k, reg, d) && kk <= env.k
    requires forall p :: p in x ==> p < |b|
    ensures MainValue(env, c, k, r).Val?
    ensures Run(env, b + d, x, |b|, r) == At(|b + d|, r[reg := MainValue(env, c, k, r).v])
  {
    var c' := b + d;
    assert c'[|b|] == d[0];
    if |d| == 2 { assert c'[|b| + 1] == d[1]; }
    var s := Step(env, c', |b|, r);
    assert s == At(|b + d|, r[reg := MainValue(env, c, k, r).v]) by {
      if k.VNil? { assert SetNil(r, reg, 0) == r[reg := Nil]; }
    }
    assert Run(env, c', x, |c'|, s.r) == At(|c'|, s.r);
  }

  // Storing the main value at the end of the code.
  lemma DenotesStored(env: Env, c: seq<Instr>, c': seq<Instr>, end: nat, k: Kind, t: seq<nat>, f: seq<nat>,
                      base: nat, reg: nat, r: Regs, v: Outcome, s: State, s': State)
    requires Denotes(env, c, end, Main(k), t, f, base, -1, r, v, s)
    requires end <= |c| && end <= |c'|
    requires forall p :: 0 <= p < end ==> c'[p] == c[p]
    requires forall p :: p in t || p in f ==> p < end
    requires s.At? ==> s.pc <= end
    requires s.At? && s.pc == end && MainValue(env, c, k, s.r).Val?
             ==> s' == At(|c'|, s.r[reg := MainValue(env, c, k, s.r).v])
    requires !(s.At? && s.pc == end) ==> s' == s
    requires s.At? && s.pc == end ==> MainValue(env, c, k, s.r).Val?
    ensures Denotes(env, c', |c'|, Main(VNonReloc(reg)), t, f, base, reg, r, v, s')
  {
    CarriedFrame(c, c', t, f, end);
  }

  lemma LoadRuleAt(env: Env, r0: Regs, g: Goal, kk: seq<Value>, c: seq<Instr>, x: set<nat>, lab: nat, k: Kind,
                   t: seq<nat>, f: seq<nat>, reg: nat, d: seq<Instr>, c': seq<Instr>)
    requires SemAt(env, r0, g, c, x, Main(k), t, f, -1) && Shape(g, c, x, lab, Main(k), t, f) && kk <= env.k
    requires LoadOf(kk, c, k, reg, d) && !k.VJmp? && c' == c[..|c| - Tail(Main(k))] + d
    ensures SemAt(env, r0, g, c', x, Main(VNonReloc(reg)), t, f, reg)
  {
    hide LoadOf, Run, Eval, MainValue;
    var b := c[..|c| - Tail(Main(k))];
    assert c'[..|c'|] == c';
    BodyExtend(env, r0, g, c, x, lab, Main(k), t, f, d, x);
    BeforeStops(env, r0, g);
    PendingBelow(g, c, x, lab, Main(k), t, f);
    var before := Run(env, g.code, g.pending, g.origin, r0);
    var s := Run(env, b, x, g.origin, r0);
    var s' := Run(env, c', x, g.origin, r0);
    if s.At? && s.pc == |b| {
      LoadRuns(env, kk, b, c, k, reg, d, x, s.r);
    }
    if before.At? && before.pc == |g.code| {
      DenotesStored(env, c, c', |b|, k, t, f, g.base, reg, before.r, Eval(env, g.expr, before.r), s, s');
    }
  }

  lemma LoadRule(g: Goal, kk: seq<Value>, c: seq<Instr>, x: set<nat>, lab: nat, k: Kind,
                 t: seq<nat>, f: seq<nat>, reg: nat, d: seq<Instr>)
    requires Sem(g, kk, c, x, Main(k), t, f, -1) && Shape(g, c, x, lab, Main(k), t, f)
    requires LoadOf(kk, c, k, reg, d) && !k.VJmp?
    ensures var c' := c[..|c| - Tail(Main(k))] + d;
      && Sem(g, kk, c', x, Main(VNonReloc(reg)), t, f, reg)
      && Shape(g, c', x, lab, Main(VNonReloc(reg)), t, f)
  {
    var c' := c[..|c| - Tail(Main(k))] + d;
    ExtendShape(g, c, x, lab, Main(k), t, f, d, Main(VNonReloc(reg)));
    forall env: Env, r0: Regs | kk <= env.k ensures SemAt(env, r0, g, c', x, Main(VNonReloc(reg)), t, f, reg) {
      LoadRuleAt(env, r0, g, kk, c, x, lab, k, t, f, reg, d, c');
    }
  }

  // What `luaK_nil` does when the LOADNIL `i` ends the code: its range becomes `lo` to `hi`.
  predicate Widens(i: Instr, reg: nat, lo: nat, hi: nat) {
    && i.LoadNil?
    && (i.a <= reg <= i.a + i.n + 1 || reg <= i.a <= reg + 1)
    && lo == (if i.a < reg then i.a else reg)
    && hi == (if i.a + i.n > reg then i.a + i.n else reg)
  }

  lemma WidenShape(g: Goal, c: seq<Instr>, x: set<nat>, lab: nat, t: seq<nat>, f: seq<nat>,
                   reg: nat, lo: nat, hi: nat)
    requires Shape(g, c, x, lab, Main(VNil), t, f)
    requires lab < |c| && Widens(c[|c| - 1], reg, lo, hi)
    ensures |c| - 1 !in x && g.origin < |c|
    ensures forall p :: p in t || p in f ==> 0 < p < |c| - 1
    ensures Shape(g, c[|c| - 1 := LoadNil(lo, hi - lo)], x, lab, Main(VNonReloc(reg)), t, f)
  {
    var n := |c|;
    var c' := c[n - 1 := LoadNil(lo, hi - lo)];
    assert n - 1 !in x;
    forall p | p in t || p in f ensures 0 < p < n - 1 && c'[p - 1] == c[p - 1] && c'[p] == c[p] {
      assert c[p].Jmp? && IsTest(c[p - 1]);
    }
    forall p | g.origin <= p < n ensures InstrOk(c', x, lab, p) { assert InstrOk(c, x, lab, p); }
  }

  lemma WidenRuleAt(env: Env, r0: Regs, g: Goal, c: seq<Instr>, x: set<nat>, lab: nat, t: seq<nat>, f: seq<nat>,
                    reg: nat, lo: nat, hi: nat)
    requires SemAt(env, r0, g, c, x, Main(VNil), t, f, -1) && Shape(g, c, x, lab, Main(VNil), t, f)
    requires lab < |c| && Widens(c[|c| - 1], reg, lo, hi)
    ensures SemAt(env, r0, g, c[|c| - 1 := LoadNil(lo, hi - lo)], x, Main(VNonReloc(reg)), t, f, reg)
  {
    hide Eval, InstrOk, Step, Run;
    var n := |c|;
    var c' := c[n - 1 := LoadNil(lo, hi - lo)];
    WidenShape(g, c, x, lab, t, f, reg, lo, hi);
    assert c[..n] == c && c'[..n] == c';
    RunWiden(env, c, x, lab, g.origin, r0, reg, reg, lo, hi);
    RunStops(env, c, x, lab, g.origin, r0);
    BeforeStops(env, r0, g);
    var before := Run(env, g.code, g.pending, g.origin, r0);
    var s := Run(env, c, x, g.origin, r0);
    var s' := Run(env, c', x, g.origin, r0);
    if s.At? { assert SetNil(s.r, reg, 0) == s.r[reg := Nil]; }
    if before.At? && before.pc == |g.code| {
      WidenDenotes(env, c, c', t, f, g.base, reg, before.r, Eval(env, g.expr, before.r), s, s');
    }
  }

  // Widening the LOADNIL that ends the code instead of emitting another one.
  lemma WidenRule(g: Goal, kk: seq<Value>, c: seq<Instr>, x: set<nat>, lab: nat, t: seq<nat>, f: seq<nat>,
                  reg: nat, lo: nat, hi: nat)
    requires Sem(g, kk, c, x, Main(VNil), t, f, -1) && Shape(g, c, x, lab, Main(VNil), t, f)
    requires lab < |c| && Widens(c[|c| - 1], reg, lo, hi)
    ensures var c' := c[|c| - 1 := LoadNil(lo, hi - lo)];
      && Sem(g, kk, c', x, Main(VNonReloc(reg)), t, f, reg)
      && Shape(g, c', x, lab, Main(VNonReloc(reg)), t, f)
  {
    hide SemAt, Shape;
    var c' := c[|c| - 1 := LoadNil(lo, hi - lo)];
    WidenShape(g, c, x, lab, t, f, reg, lo, hi);
    forall env: Env, r0: Regs | kk <= env.k ensures SemAt(env, r0, g, c', x, Main(VNonReloc(reg)), t, f, reg) {
      assert SemAt(env, r0, g, c, x, Main(VNil), t, f, -1);
      WidenRuleAt(env, r0, g, c, x, lab, t, f, reg, lo, hi);
    }
  }

  lemma WidenDenotes(env: Env, c: seq<Instr>, c': seq<Instr>, t: seq<nat>, f: seq<nat>,
                     base: nat, reg: nat, r: Regs, v: Outcome, s: State, s': State)
    requires Denotes(env, c, |c|, Main(VNil), t, f, base, -1, r, v, s)
    requires |c'| == |c|
    requires forall p :: p in t || p in f ==> 0 < p < |c| && c'[p - 1] == c[p - 1]
    requires s' == if s.At? && s.pc == |c| then At(|c|, s.r[reg := Nil]) else s
    ensures Denotes(env, c', |c'|, Main(VNonReloc(reg)), t, f, base, reg, r, v, s')
  {
  }

  // ----- constants decide tests -----

  predicate IsConst(k: Kind) {
    k.VNil? || k.VTrue? || k.VFalse? || k.VKInt? || k.VKStr?
  }

  function ConstOf(k: Kind): Value
    requires IsConst(k)
  {
    match k
    case VTrue => Bool(true)
    case VFalse => Bool(false)
    case VKInt(i) => Int(i)
    case VKStr(s) => Str(s)
    case _ => Nil
  }

  lemma ConstRule(g: Goal, kk: seq<Value>, c: seq<Instr>, x: set<nat>, lab: nat, k: Kind, t: seq<nat>, f: seq<nat>)
    requires Sem(g, kk, c, x, Main(k), t, f, -1) && Shape(g, c, x, lab, Main(k), t, f)
    requires IsConst(k)
    ensures Sem(g, kk, c, x, Falls(Truthy(ConstOf(k))), t, f, -1)
    ensures Shape(g, c, x, lab, Falls(Truthy(ConstOf(k))), t, f)
  {
    forall env: Env, r0: Regs | kk <= env.k ensures SemAt(env, r0, g, c, x, Falls(Truthy(ConstOf(k))), t, f, -1) {
      assert SemAt(env, r0, g, c, x, Main(k), t, f, -1);
    }
  }

  // ----- emitting a test and a pending jump -----

  // The lists once the pending jump `p` joins the one of truth `cond`.
  function TList(t: seq<nat>, p: nat, cond: bool): seq<nat> {
    if cond then t + [p] else t
  }

  function FList(f: seq<nat>, p: nat, cond: bool): seq<nat> {
    if cond then f else f + [p]
  }

  // The body of `pt` followed by a test and its pending jump.
  lemma TestShape(g: Goal, c: seq<Instr>, x: set<nat>, lab: nat, pt: Point, t: seq<nat>, f: seq<nat>,
                  i: Instr, sj: int, cond: bool)
    requires Shape(g, c, x, lab, pt, t, f) && IsTest(i) && (i.TestSet? ==> i.a == NO_REG)
    ensures var end := |c| - Tail(pt);
      Shape(g, c[..end] + [i, Jmp(sj)], x - JumpOf(pt) + {end + 1}, lab, Falls(!cond),
            TList(t, end + 1, cond), FList(f, end + 1, cond))
  {
    var end := |c| - Tail(pt);
    var b := c[..end];
    BodyOk(g, c, x, lab, pt, t, f);
    TestShapeBody(g, b, x - JumpOf(pt), lab, t, f, i, sj, cond);
  }

  lemma FramedExtend(c0: seq<Instr>, c: seq<Instr>, d: seq<Instr>)
    requires Framed(c0, c)
    ensures Framed(c0, c + d)
  {
  }

  lemma TestCode(b: seq<Instr>, x: set<nat>, lab: nat, o: nat, i: Instr, sj: int)
    requires CodeOk(b, x, lab, o) && IsTest(i)
    ensures CodeOk(b + [i, Jmp(sj)], x + {|b| + 1}, lab, o)
  {
    var c', x' := b + [i, Jmp(sj)], x + {|b| + 1};
    forall p | o <= p < |c'| ensures InstrOk(c', x', lab, p) {
      if p < |b| { assert InstrOk(b, x, lab, p); }
    }
  }

  lemma TestList(g: Goal, b: seq<Instr>, x: set<nat>, l: seq<nat>, i: Instr, sj: int, grows: bool)
    requires ListOk(g, b, x, |b|, l) && IsTest(i) && (i.TestSet? ==> i.a == NO_REG) && |g.code| <= |b|
    ensures ListOk(g, b + [i, Jmp(sj)], x + {|b| + 1}, |b| + 2, if grows then l + [|b| + 1] else l)
    ensures |b| + 1 !in l
  {
    var c' := b + [i, Jmp(sj)];
    forall p | p in l ensures c'[p - 1] == b[p - 1] && c'[p] == b[p] && p < |b| { }
  }

  lemma TestShapeBody(g: Goal, b: seq<Instr>, x: set<nat>, lab: nat, t: seq<nat>, f: seq<nat>,
                      i: Instr, sj: int, cond: bool)
    requires Shape(g, b, x, lab, Falls(true), t, f) && IsTest(i) && (i.TestSet? ==> i.a == NO_REG)
    ensures Shape(g, b + [i, Jmp(sj)], x + {|b| + 1}, lab, Falls(!cond), TList(t, |b| + 1, cond),
                  FList(f, |b| + 1, cond))
  {
    hide CodeOk, Framed, ListOk;
    var end := |b|;
    var c' := b + [i, Jmp(sj)];
    var x' := x + {end + 1};
    TestCode(b, x, lab, g.origin, i, sj);
    FramedExtend(g.code, b, [i, Jmp(sj)]);
    TestList(g, b, x, t, i, sj, cond);
    TestList(g, b, x, f, i, sj, !cond);
    var t' := TList(t, end + 1, cond);
    var f' := FList(f, end + 1, cond);
    assert Members(t') + Members(f') == Members(t) + Members(f) + {end + 1};
  }

  // A condition at the end of the body: the jump of `i` is taken exactly when the value has truth `cond`.
  lemma TestDenotes(env: Env, c: seq<Instr>, c': seq<Instr>, end: nat, k: Kind, t: seq<nat>, f: seq<nat>,
                    base: nat, r: Regs, v: Outcome, s: State, s': State, cond: bool)
    requires Denotes(env, c, end, Main(k), t, f, base, -1, r, v, s)
    requires end <= |c| && |c'| == end + 2
    requires forall p :: 0 <= p < end ==> c'[p] == c[p]
    requires forall p :: p in t || p in f ==> p < end
    requires s.At? ==> s.pc <= end
    requires !(s.At? && s.pc == end) ==> s' == s
    requires s.At? && s.pc == end ==>
      match MainValue(env, c, k, s.r)
      case Err(e) => s' == Raised(e)
      case Val(w) =>
        && s' == At(if Truthy(w) == cond then end + 1 else end + 2, s.r)
        && (Truthy(w) == cond ==> Carried(c', end + 1, s.r, w, cond))
    ensures Denotes(env, c', end + 2, Falls(!cond), TList(t, end + 1, cond), FList(f, end + 1, cond), base, -1, r,
                    v, s')
  {
    CarriedFrame(c, c', t, f, end);
  }

  // The test that `jumponcond` emits on a main value of kind `k`.
  predicate TestOf(c: seq<Instr>, k: Kind, i: Instr, cond: bool) {
    || (k.VNonReloc? && i == TestSet(NO_REG, k.reg, cond))
    || (k.VReloc? && k.rpc < |c| && c[k.rpc].Not? && i == Test(c[k.rpc].b, !cond))
  }

  lemma TestRuleAt(env: Env, r0: Regs, g: Goal, c: seq<Instr>, x: set<nat>, lab: nat, k: Kind,
                   t: seq<nat>, f: seq<nat>, i: Instr, sj: int, cond: bool, c': seq<Instr>, end: nat)
    requires SemAt(env, r0, g, c, x, Main(k), t, f, -1) && Shape(g, c, x, lab, Main(k), t, f)
    requires TestOf(c, k, i, cond) && JumpOf(Main(k)) == {} && end == |c| - Tail(Main(k))
      && c' == c[..end] + [i, Jmp(sj)]
    ensures SemAt(env, r0, g, c', x + {end + 1}, Falls(!cond), TList(t, end + 1, cond), FList(f, end + 1, cond), -1)
  {
    hide Eval, Run, MainValue, TestOf, CodeOk, Framed;
    var b := c[..end];
    var x' := x + {end + 1};
    assert c'[..|c'|] == c';
    PendingBelow(g, c, x, lab, Main(k), t, f);
        BodyExtend(env, r0, g, c, x, lab, Main(k), t, f, [i, Jmp(sj)], x');
    BeforeStops(env, r0, g);
    var before := Run(env, g.code, g.pending, g.origin, r0);
    var s := Run(env, b, x, g.origin, r0);
    var s' := Run(env, c', x', g.origin, r0);
    if s.At? && s.pc == end {
      TestEnd(env, c, c', x', k, i, sj, cond, end, s.r);
    }
    if before.At? && before.pc == |g.code| {
      TestDenotes(env, c, c', end, k, t, f, g.base, before.r, Eval(env, g.expr, before.r), s, s', cond);
    }
  }

  /** `jumponcond`: a value in a register is tested and carried by a TESTSET; the negation of a value in a
      register is tested directly, its NOT dropped. */
  lemma TestRule(g: Goal, kk: seq<Value>, c: seq<Instr>, x: set<nat>, lab: nat, k: Kind, t: seq<nat>, f: seq<nat>,
                 i: Instr, sj: int, cond: bool)
    requires Sem(g, kk, c, x, Main(k), t, f, -1) && Shape(g, c, x, lab, Main(k), t, f)
    requires TestOf(c, k, i, cond)
    ensures var end := |c| - Tail(Main(k));
      var c' := c[..end] + [i, Jmp(sj)];
      && Sem(g, kk, c', x + {end + 1}, Falls(!cond), TList(t, end + 1, cond), FList(f, end + 1, cond), -1)
      && Shape(g, c', x + {end + 1}, lab, Falls(!cond), TList(t, end + 1, cond), FList(f, end + 1, cond))
  {
    var end := |c| - Tail(Main(k));
    var c' := c[..end] + [i, Jmp(sj)];
    var x' := x + {end + 1};
    hide SemAt, Shape;
    TestShape(g, c, x, lab, Main(k), t, f, i, sj, cond);
    assert JumpOf(Main(k)) == {} && x - {} == x;
    hide TestOf;
    var pt := Falls(!cond);
    var t', f' := TList(t, end + 1, cond), FList(f, end + 1, cond);
    forall env: Env, r0: Regs | kk <= env.k ensures SemAt(env, r0, g, c', x', pt, t', f', -1)
    {
      assert SemAt(env, r0, g, c, x, Main(k), t, f, -1);
      TestRuleAt(env, r0, g, c, x, lab, k, t, f, i, sj, cond, c', end);
    }
  }

  lemma TestEnd(env: Env, c: seq<Instr>, c': seq<Instr>, x': set<nat>, k: Kind, i: Instr, sj: int, cond: bool,
                end: nat, r: Regs)
    requires |c'| == end + 2 && c'[end] == i && c'[end + 1] == Jmp(sj) && end + 1 in x' && end !in x'
    requires TestOf(c, k, i, cond)
    ensures MainValue(env, c, k, r).Val?
    ensures var w := MainValue(env, c, k, r).v;
      && Run(env, c', x', end, r) == At(if Truthy(w) == cond then end + 1 else end + 2, r)
      && (Truthy(w) == cond ==> Carried(c', end + 1, r, w, cond))
  {
    var s := Step(env, c', end, r);
    assert Run(env, c', x', s.pc, s.r) == s;
  }

  // ----- comparisons -----

  function Flip(i: Instr): Instr
    requires i.Cmp?
  {
    Cmp(i.op, i.a, i.bi, !i.k)
  }

  lemma JumpRuleAt(env: Env, r0: Regs, g: Goal, c: seq<Instr>, x: set<nat>, lab: nat, k: Kind,
                   t: seq<nat>, f: seq<nat>, cond: bool, c': seq<Instr>, k': Kind)
    requires SemAt(env, r0, g, c, x, Main(k), t, f, -1) && Shape(g, c, x, lab, Main(k), t, f) && k.VJmp?
    requires c' == (if cond then c else c[k.jpc - 1 := Flip(c[k.jpc - 1])]) && k' == (if cond then VFalse else VTrue)
    ensures SemAt(env, r0, g, c', x, Main(k'), TList(t, k.jpc, cond), FList(f, k.jpc, cond), -1)
  {
    hide Eval, Run, MainValue, Shape, Denotes;
    JumpStops(env, r0, g, c, x, lab, k, t, f, cond, c');
    var end := |c| - 2;
    var before := Run(env, g.code, g.pending, g.origin, r0);
    var s := Run(env, c[..end], x, g.origin, r0);
    var s' := Run(env, c', x, g.origin, r0);
    if before.At? && before.pc == |g.code| {
      JumpDenotes(env, c, c', end, k, t, f, g.base, before.r, Eval(env, g.expr, before.r), s, s', cond);
    }
  }

  // Where the runs before the comparison stop, and what the comparison does to those that reach it.
  lemma JumpStops(env: Env, r0: Regs, g: Goal, c: seq<Instr>, x: set<nat>, lab: nat, k: Kind,
                  t: seq<nat>, f: seq<nat>, cond: bool, c': seq<Instr>)
    requires Shape(g, c, x, lab, Main(k), t, f) && k.VJmp?
    requires c' == (if cond then c else c[k.jpc - 1 := Flip(c[k.jpc - 1])])
    ensures |c'| == |c| && c'[..|c'|] == c' && k == VJmp(|c| - 1) && |g.code| <= |c| - 2 && c'[|c| - 2].Cmp?
    ensures forall p :: 0 <= p < |c| - 2 ==> c'[p] == c[p]
    ensures forall p :: p in t || p in f ==> p < |c| - 2
    ensures var before := Run(env, g.code, g.pending, g.origin, r0);
      before.At? && before.pc != |g.code| ==> before.pc < |c| - 2
    ensures var end := |c| - 2;
      var s := Run(env, c[..end], x, g.origin, r0);
      var s' := Run(env, c', x, g.origin, r0);
      && (s.At? ==> s.pc <= end)
      && (!(s.At? && s.pc == end) ==> s' == s)
      && (s.At? && s.pc == end ==>
          match MainValue(env, c, k, s.r)
          case Err(e) => s' == Raised(e)
          case Val(w) => w.Bool? && s' == At(if w.b == cond then end + 1 else end + 2, s.r))
  {
    hide Run, MainValue, CodeOk, Framed, ListOk;
    var end := |c| - 2;
    assert c' == c[..end] + c'[end..];
    PendingBelow(g, c, x, lab, Main(k), t, f);
    BodyExtend(env, r0, g, c, x, lab, Main(k), t, f, c'[end..], x);
    BeforeStops(env, r0, g);
    var s := Run(env, c[..end], x, g.origin, r0);
    if s.At? && s.pc == end { JumpEnd(env, c, c', x, k, end, s.r, cond); }
  }

  lemma JumpShape(g: Goal, c: seq<Instr>, x: set<nat>, lab: nat, k: Kind, t: seq<nat>, f: seq<nat>, cond: bool)
    requires Shape(g, c, x, lab, Main(k), t, f) && k.VJmp?
    ensures var c' := if cond then c else c[k.jpc - 1 := Flip(c[k.jpc - 1])];
      Shape(g, c', x, lab, Main(if cond then VFalse else VTrue), TList(t, k.jpc, cond), FList(f, k.jpc, cond))
  {
    hide CodeOk, Framed, ListOk;
    var end := |c| - 2;
    var i := if cond then c[end] else Flip(c[end]);
    var c' := if cond then c else c[end := i];
    assert c' == c[..end] + [i, c[end + 1]];
    TestShape(g, c, x, lab, Main(k), t, f, i, c[end + 1].sj, cond);
    assert x - JumpOf(Main(k)) + {end + 1} == x;
  }

  lemma JumpPlace(g: Goal, c: seq<Instr>, x: set<nat>, lab: nat, k: Kind, t: seq<nat>, f: seq<nat>)
    requires Shape(g, c, x, lab, Main(k), t, f) && k.VJmp?
    ensures 0 < k.jpc < |c| && c[k.jpc - 1].Cmp?
  {
  }

  /** A comparison used as a condition: its jump joins the list of truth `cond` (after the condition is
      negated when `cond` is false), and the end of the code is reached with the other boolean. */
  lemma JumpRule(g: Goal, kk: seq<Value>, c: seq<Instr>, x: set<nat>, lab: nat, k: Kind, t: seq<nat>, f: seq<nat>,
                 cond: bool)
    requires Sem(g, kk, c, x, Main(k), t, f, -1) && Shape(g, c, x, lab, Main(k), t, f) && k.VJmp?
    ensures var c' := if cond then c else c[k.jpc - 1 := Flip(c[k.jpc - 1])];
      var k' := if cond then VFalse else VTrue;
      && Sem(g, kk, c', x, Main(k'), TList(t, k.jpc, cond), FList(f, k.jpc, cond), -1)
      && Shape(g, c', x, lab, Main(k'), TList(t, k.jpc, cond), FList(f, k.jpc, cond))
  {
    JumpShape(g, c, x, lab, k, t, f, cond);
    JumpPlace(g, c, x, lab, k, t, f);
    var c' := if cond then c else c[k.jpc - 1 := Flip(c[k.jpc - 1])];
    var k' := if cond then VFalse else VTrue;
    hide SemAt, Shape;
    forall env: Env, r0: Regs | kk <= env.k
      ensures SemAt(env, r0, g, c', x, Main(k'), TList(t, k.jpc, cond), FList(f, k.jpc, cond), -1)
    {
      assert SemAt(env, r0, g, c, x, Main(k), t, f, -1);
      JumpRuleAt(env, r0, g, c, x, lab, k, t, f, cond, c', k');
    }
  }

  lemma JumpEnd(env: Env, c: seq<Instr>, c': seq<Instr>, x: set<nat>, k: Kind, end: nat, r: Regs, cond: bool)
    requires |c| == |c'| == end + 2 && k == VJmp(end + 1) && c[end].Cmp? && end + 1 in x && end !in x
    requires c'[end] == if cond then c[end] else Flip(c[end])
    ensures match MainValue(env, c, k, r)
      case Err(e) => Run(env, c', x, end, r) == Raised(e)
      case Val(w) => w.Bool? && Run(env, c', x, end, r) == At(if w.b == cond then end + 1 else end + 2, r)
  {
    var s := Step(env, c', end, r);
    assert s.At? ==> Run(env, c', x, s.pc, s.r) == s;
  }

  lemma JumpDenotes(env: Env, c: seq<Instr>, c': seq<Instr>, end: nat, k: Kind, t: seq<nat>, f: seq<nat>,
                    base: nat, r: Regs, v: Outcome, s: State, s': State, cond: bool)
    requires Denotes(env, c, end, Main(k), t, f, base, -1, r, v, s)
    requires end + 2 == |c| == |c'| && c'[end].Cmp?
    requires forall p :: 0 <= p < end ==> c'[p] == c[p]
    requires forall p :: p in t || p in f ==> p < end
    requires s.At? ==> s.pc <= end
    requires !(s.At? && s.pc == end) ==> s' == s
    requires s.At? && s.pc == end ==>
      match MainValue(env, c, k, s.r)
      case Err(e) => s' == Raised(e)
      case Val(w) => w.Bool? && s' == At(if w.b == cond then end + 1 else end + 2, s.r)
    ensures Denotes(env, c', end + 2, Main(if cond then VFalse else VTrue), TList(t, end + 1, cond),
                    FList(f, end + 1, cond), base, -1, r, v, s')
  {
    CarriedFrame(c, c', t, f, end);
  }
}
