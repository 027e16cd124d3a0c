// Negation, `and`, `or` and comparisons: the meaning of an operator from the meanings of its operands.

module Operators {
  import opened Bytecode
  import opened Denotation
  import opened Rules
  import opened Sequences

  // ----- negation -----

  // Below `end`, the tests of a list no longer store a value.
  ghost predicate Unvalued(c: seq<Instr>, c': seq<Instr>, end: nat, t: seq<nat>, f: seq<nat>) {
    && end <= |c| && end <= |c'|
    && forall p :: 0 <= p < end ==> c'[p] == if p + 1 in t + f then Retarget(c[p], NO_REG) else c[p]
  }

  lemma {:induction false} RunUnvalued(env: Env, b: seq<Instr>, b': seq<Instr>, x: set<nat>, lab: nat, o: nat,
                                       r: Regs, l: seq<nat>)
    requires CodeOk(b, x, lab, o) && |b'| == |b|
    requires forall p :: 0 <= p < |b| ==> b'[p] == if p + 1 in l then Retarget(b[p], NO_REG) else b[p]
    requires forall p :: p in l ==> HasValue(b, p) ==> b[p - 1].a == NO_REG
    ensures Run(env, b', x, o, r) == Run(env, b, x, o, r)
    decreases |b| - o
  {
    if o < |b| && o !in x {
      StepForward(env, b, x, lab, o, r);
      assert InstrOk(b, x, lab, o);
      assert o + 1 in l ==> (HasValue(b, o + 1) ==> b[o + 1 - 1].a == NO_REG);
      var s := Step(env, b, o, r);
      assert Step(env, b', o, r) == s;
      if s.At? { RunUnvalued(env, b, b', x, lab, s.pc, s.r, l); }
    }
  }

  function Negated(v: Outcome): Outcome {
    if v.Err? then v else Val(Bool(!Truthy(v.v)))
  }

  // The main values before and after `not`.
  predicate NotOf(c: seq<Instr>, k: Kind, c': seq<Instr>, k': Kind) {
    match k
    case VNil => k' == VTrue
    case VFalse => k' == VTrue
    case VTrue => k' == VFalse
    case VKInt(_) => k' == VFalse
    case VKStr(_) => k' == VFalse
    case VJmp(p) => k' == k && 0 < p < |c| == |c'| && c[p - 1].Cmp? && c'[p - 1] == Flip(c[p - 1]) && c'[p] == c[p]
    case VNonReloc(b) => k' == VReloc(|c|) && |c'| == |c| + 1 && c'[|c|] == Not(0, b)
    case _ => false
  }

  lemma NotValue(env: Env, c: seq<Instr>, k: Kind, c': seq<Instr>, k': Kind, r: Regs)
    requires NotOf(c, k, c', k')
    ensures MainValue(env, c', k', r) == Negated(MainValue(env, c, k, r))
  {
  }

  lemma NotDenotes(env: Env, c: seq<Instr>, c': seq<Instr>, end: nat, k: Kind, k': Kind, t: seq<nat>, f: seq<nat>,
                   base: nat, r: Regs, v: Outcome, s: State)
    requires Denotes(env, c, end, Main(k), t, f, base, -1, r, v, s)
    requires NotOf(c, k, c', k') && Unvalued(c, c', end, t, f)
    requires forall p :: p in t || p in f ==> 0 < p < end
    ensures Denotes(env, c', end, Main(k'), f, t, base, -1, r, Negated(v), s)
  {
    if s.At? {
      if s.pc == end { NotValue(env, c, k, c', k', s.r); }
      else { assert s.pc - 1 + 1 in t + f; assert !HasValue(c', s.pc); }
    }
  }

  // Without values in the tests of the lists, the code before the main value runs as before.
  lemma NotRuns(env: Env, r0: Regs, g: Goal, c: seq<Instr>, c': seq<Instr>, x: set<nat>, lab: nat, k: Kind,
                t: seq<nat>, f: seq<nat>)
    requires Shape(g, c, x, lab, Main(k), t, f) && |c| - Tail(Main(k)) <= |c'|
    requires Unvalued(c, c', |c| - Tail(Main(k)), t, f)
    ensures var end := |c| - Tail(Main(k));
      0 <= end && Run(env, c'[..end], x, g.origin, r0) == Run(env, c[..end], x, g.origin, r0)
    ensures forall p :: p in t || p in f ==> 0 < p < |c| - Tail(Main(k))
  {
    hide Run, CodeOk, Framed;
    var end := |c| - Tail(Main(k));
    var b, b' := c[..end], c'[..end];
    BodyOk(g, c, x, lab, Main(k), t, f);
    PendingBelow(g, c, x, lab, Main(k), t, f);
    RunUnvalued(env, b, b', x - JumpOf(Main(k)), lab, g.origin, r0, t + f);
    RunExtend2(env, b, x - JumpOf(Main(k)), x, g.origin, r0);
    RunExtend2(env, b', x - JumpOf(Main(k)), x, g.origin, r0);
  }

  lemma NotRuleAt(env: Env, r0: Regs, g: Goal, c: seq<Instr>, c': seq<Instr>, x: set<nat>, lab: nat,
                  k: Kind, k': Kind, t: seq<nat>, f: seq<nat>)
    requires SemAt(env, r0, g, c, x, Main(k), t, f, -1) && Shape(g, c, x, lab, Main(k), t, f)
    requires NotOf(c, k, c', k') && Tail(Main(k')) <= |c'| && |c'| - Tail(Main(k')) == |c| - Tail(Main(k))
    requires Unvalued(c, c', |c| - Tail(Main(k)), t, f)
    ensures SemAt(env, r0, g.(expr := ENot(g.expr)), c', x, Main(k'), f, t, -1)
  {
    hide Run, Shape, NotOf, Denotes, Unvalued;
    NotRuns(env, r0, g, c, c', x, lab, k, t, f);
    var end := |c| - Tail(Main(k));
    var before := Run(env, g.code, g.pending, g.origin, r0);
    if before.At? && before.pc == |g.code| {
      var s := Run(env, c[..end], x, g.origin, r0);
      NotDenotes(env, c, c', end, k, k', t, f, g.base, before.r, Eval(env, g.expr, before.r), s);
    }
  }

  // Pending positions past the end do not matter.
  lemma {:induction false} RunExtend2(env: Env, b: seq<Instr>, x: set<nat>, x': set<nat>, o: nat, r: Regs)
    requires forall p :: 0 <= p < |b| ==> (p in x <==> p in x')
    ensures Run(env, b, x, o, r) == Run(env, b, x', o, r)
    decreases |b| - o
  {
    if o < |b| && o !in x {
      var s := Step(env, b, o, r);
      if s.At? && s.pc > o { RunExtend2(env, b, x, x', s.pc, s.r); }
    }
  }

  lemma NotCode(b: seq<Instr>, b': seq<Instr>, x: set<nat>, lab: nat, o: nat, l: seq<nat>)
    requires CodeOk(b, x, lab, o) && |b'| == |b|
    requires forall p :: 0 <= p < |b| ==> b'[p] == if p + 1 in l then Retarget(b[p], NO_REG) else b[p]
    ensures CodeOk(b', x, lab, o)
  {
    forall p | o <= p < |b| ensures InstrOk(b', x, lab, p) {
      assert InstrOk(b, x, lab, p);
      if b[p].Jmp? && p !in x { assert Entry(b, p + 1 + b[p].sj); }
    }
  }

  lemma NotLists(g: Goal, b: seq<Instr>, b': seq<Instr>, x: set<nat>, l: seq<nat>, all: seq<nat>)
    requires ListOk(g, b, x, |b|, l) && |b'| == |b|
    requires forall p :: 0 <= p < |b| ==> b'[p] == if p + 1 in all then Retarget(b[p], NO_REG) else b[p]
    requires forall p :: p in l ==> p in all
    ensures ListOk(g, b', x, |b'|, l)
  {
    forall p | p in l ensures b'[p] == b[p] && !HasValue(b', p) && IsTest(b'[p - 1]) && |g.code| < p < |b'| {
      assert b'[p - 1] == Retarget(b[p - 1], NO_REG) by { assert p - 1 + 1 in all; }
    }
  }

  lemma NotBody(g: Goal, c: seq<Instr>, c': seq<Instr>, x: set<nat>, lab: nat, k: Kind, t: seq<nat>, f: seq<nat>)
    requires Shape(g, c, x, lab, Main(k), t, f)
    requires Unvalued(c, c', |c| - Tail(Main(k)), t, f)
    ensures Shape(g, c'[..|c| - Tail(Main(k))], x - JumpOf(Main(k)), lab, Falls(true), f, t)
  {
    var end := |c| - Tail(Main(k));
    var b, b' := c[..end], c'[..end];
    BodyOk(g, c, x, lab, Main(k), t, f);
    hide CodeOk, Framed, ListOk;
    var y := x - JumpOf(Main(k));
    NotCode(b, b', y, lab, g.origin, t + f);
    NotLists(g, b, b', y, t, t + f);
    NotLists(g, b, b', y, f, t + f);
    NotFrame(g, b, b', y, t, f);
    assert Disjoint(f, t);
  }

  lemma NotFrame(g: Goal, b: seq<Instr>, b': seq<Instr>, x: set<nat>, t: seq<nat>, f: seq<nat>)
    requires Framed(g.code, b) && ListOk(g, b, x, |b|, t) && ListOk(g, b, x, |b|, f) && |b'| == |b|
    requires forall p :: 0 <= p < |b| ==> b'[p] == if p + 1 in t + f then Retarget(b[p], NO_REG) else b[p]
    ensures Framed(g.code, b')
  {
    forall p | 0 <= p < |g.code| ensures b'[p] == b[p] { }
  }

  lemma NotShape(g: Goal, c: seq<Instr>, c': seq<Instr>, x: set<nat>, lab: nat, k: Kind, k': Kind,
                 t: seq<nat>, f: seq<nat>)
    requires Shape(g, c, x, lab, Main(k), t, f)
    requires NotOf(c, k, c', k') && Tail(Main(k')) <= |c'| && |c'| - Tail(Main(k')) == |c| - Tail(Main(k))
    requires Unvalued(c, c', |c| - Tail(Main(k)), t, f)
    ensures Shape(g, c', x, lab, Main(k'), f, t)
  {
    var end := |c| - Tail(Main(k));
    var b' := c'[..end];
    NotBody(g, c, c', x, lab, k, t, f);
    hide Framed, ListOk, CodeOk;
    if k.VJmp? {
      NotShapeJmp(g, b', c', x, lab, f, t);
    } else if k.VNonReloc? {
      assert c' == b'[..|b'|] + [c'[end]];
      ExtendShape(g, b', x, lab, Falls(true), f, t, [c'[end]], Main(k'));
    } else {
      assert c' == b';
    }
  }

  lemma NotShapeJmp(g: Goal, b: seq<Instr>, c: seq<Instr>, x: set<nat>, lab: nat, t: seq<nat>, f: seq<nat>)
    requires |c| == |b| + 2 && c[..|b|] == b && c[|b|].Cmp? && c[|b| + 1].Jmp? && |b| + 1 in x
    requires Shape(g, b, x - {|b| + 1}, lab, Falls(true), t, f)
    ensures Shape(g, c, x, lab, Main(VJmp(|b| + 1)), t, f)
  {
    var i, sj := c[|b|], c[|b| + 1].sj;
    assert b[..|b|] == b;
    assert c == b + [i, Jmp(sj)];
    var x' := x - {|b| + 1};
    assert x' - JumpOf(Falls(true)) + {|b| + 1} == x;
    TestShape(g, b, x', lab, Falls(true), t, f, i, sj, true);
    PendingBelow(g, b, x', lab, Falls(true), t, f);
    assert lab <= |b| && |g.code| <= |b| by { hide CodeOk, Framed, ListOk; }
    hide Shape;
    JumpBack(g, c, x, lab, t, f);
  }

  // A comparison whose jump is the last of the true list may be seen as a comparison still to be used.
  lemma JumpBack(g: Goal, c: seq<Instr>, x: set<nat>, lab: nat, t: seq<nat>, f: seq<nat>)
    requires |c| >= 2 && c[|c| - 2].Cmp? && c[|c| - 1].Jmp?
    requires Shape(g, c, x, lab, Falls(false), t + [|c| - 1], f) && lab <= |c| - 2 && |g.code| <= |c| - 2
    requires forall p :: p in t || p in f ==> p < |c| - 2
    ensures Shape(g, c, x, lab, Main(VJmp(|c| - 1)), t, f)
  {
    hide CodeOk, Framed;
    forall p | p in t ensures p in t + [|c| - 1] { }
    assert Members(t + [|c| - 1]) == Members(t) + {|c| - 1};
    assert |c| - 1 in t + [|c| - 1];
  }

  /** `codenot`: the main value is negated where it is, the two lists change places, and the tests in them
      stop carrying values. */
  lemma NotRule(g: Goal, kk: seq<Value>, c: seq<Instr>, c': seq<Instr>, x: set<nat>, lab: nat, k: Kind, k': Kind,
                t: seq<nat>, f: seq<nat>)
    requires Sem(g, kk, c, x, Main(k), t, f, -1) && Shape(g, c, x, lab, Main(k), t, f)
    requires NotOf(c, k, c', k') && Tail(Main(k')) <= |c'| && |c'| - Tail(Main(k')) == |c| - Tail(Main(k))
    requires Unvalued(c, c', |c| - Tail(Main(k)), t, f)
    ensures var g' := g.(expr := ENot(g.expr));
      && Sem(g', kk, c', x, Main(k'), f, t, -1)
      && Shape(g', c', x, lab, Main(k'), f, t)
  {
    NotShape(g, c, c', x, lab, k, k', t, f);
    var g' := g.(expr := ENot(g.expr));
    assert Shape(g', c', x, lab, Main(k'), f, t) by { hide CodeOk, Framed, TailOk; }
    hide SemAt, Shape, NotOf, Unvalued;
    forall env: Env, r0: Regs | kk <= env.k ensures SemAt(env, r0, g', c', x, Main(k'), f, t, -1) {
      assert SemAt(env, r0, g, c, x, Main(k), t, f, -1);
      NotRuleAt(env, r0, g, c, c', x, lab, k, k', t, f);
    }
  }

  // ----- links -----

  /** Codes that differ only in where pending jumps point: the links of a jump list are not part of the
      meaning of the code. */
  ghost predicate Relinked(c: seq<Instr>, c': seq<Instr>, x: set<nat>) {
    && |c'| == |c|
    && forall p :: 0 <= p < |c| ==> c'[p] == c[p] || (p in x && c[p].Jmp? && c'[p].Jmp?)
  }

  lemma {:induction false} RunRelinked(env: Env, b: seq<Instr>, b': seq<Instr>, x: set<nat>, o: nat, r: Regs)
    requires Relinked(b, b', x)
    ensures Run(env, b', x, o, r) == Run(env, b, x, o, r)
    decreases |b| - o
  {
    if o < |b| && o !in x {
      var s := Step(env, b, o, r);
      assert b'[o] == b[o];
      if b[o].LoadKX? && o + 1 < |b| { assert b'[o + 1] == b[o + 1] || b[o + 1].Jmp?; }
      assert Step(env, b', o, r) == s;
      if s.At? && s.pc > o { RunRelinked(env, b, b', x, s.pc, s.r); }
    }
  }

  lemma RelinkedOk(g: Goal, c: seq<Instr>, c': seq<Instr>, x: set<nat>, lab: nat, pt: Point,
                   t: seq<nat>, f: seq<nat>)
    requires Shape(g, c, x, lab, pt, t, f) && Relinked(c, c', x - g.pending)
    ensures Shape(g, c', x, lab, pt, t, f)
  {
    assert CodeOk(c', x, lab, g.origin) by {
      hide Framed, ListOk;
      forall p | g.origin <= p < |c'| ensures InstrOk(c', x, lab, p) { assert InstrOk(c, x, lab, p); }
    }
    assert Framed(g.code, c') by {
      hide CodeOk;
      forall p | 0 <= p < |g.code| ensures c'[p] == c[p] { }
    }
    hide CodeOk, Framed;
    forall p | p in t || p in f ensures c'[p].Jmp? && c'[p - 1] == c[p - 1] { assert c'[p] == c[p] || c'[p].Jmp?; }
  }

  lemma RelinkRuleAt(env: Env, r0: Regs, g: Goal, c: seq<Instr>, c': seq<Instr>, x: set<nat>, lab: nat, pt: Point,
                     t: seq<nat>, f: seq<nat>, spare: int)
    requires SemAt(env, r0, g, c, x, pt, t, f, spare) && Shape(g, c, x, lab, pt, t, f)
    requires Relinked(c, c', x - g.pending)
    ensures SemAt(env, r0, g, c', x, pt, t, f, spare)
  {
    hide Run, Eval, CodeOk, Framed;
    var end := |c| - Tail(pt);
    RunRelinked(env, c[..end], c'[..end], x, g.origin, r0);
    forall p | p in t || p in f ensures c'[p - 1] == c[p - 1] && HasValue(c', p) == HasValue(c, p) { }
    assert forall r :: pt.Main? ==> MainValue(env, c', pt.k, r) == MainValue(env, c, pt.k, r) by {
      if pt.Main? && pt.k.VJmp? { assert c'[end] == c[end]; }
      if pt.Main? && pt.k.VReloc? { assert c'[end] == c[end]; }
    }
  }

  lemma RelinkRule(g: Goal, kk: seq<Value>, c: seq<Instr>, c': seq<Instr>, x: set<nat>, lab: nat, pt: Point,
                   t: seq<nat>, f: seq<nat>, spare: int)
    requires Sem(g, kk, c, x, pt, t, f, spare) && Shape(g, c, x, lab, pt, t, f)
    requires Relinked(c, c', x - g.pending)
    ensures Sem(g, kk, c', x, pt, t, f, spare)
    ensures Shape(g, c', x, lab, pt, t, f)
  {
    RelinkedOk(g, c, c', x, lab, pt, t, f);
    hide SemAt, Shape, Relinked;
    forall env: Env, r0: Regs | kk <= env.k ensures SemAt(env, r0, g, c', x, pt, t, f, spare) {
      assert SemAt(env, r0, g, c, x, pt, t, f, spare);
      RelinkRuleAt(env, r0, g, c, c', x, lab, pt, t, f, spare);
    }
  }

  // ----- and, or -----

  // Local variables live in the registers below `n`.
  predicate Scoped(e: Expr, n: nat) {
    match e
    case ELocal(r) => r < n
    case ENot(a) => Scoped(a, n)
    case EAnd(a, b) => Scoped(a, n) && Scoped(b, n)
    case EOr(a, b) => Scoped(a, n) && Scoped(b, n)
    case ECmp(_, a, b) => Scoped(a, n) && Scoped(b, n)
    case _ => true
  }

  lemma {:induction false} EvalKeep(env: Env, e: Expr, r: Regs, r': Regs, n: nat, base: nat)
    requires Scoped(e, n) && n <= base && Keep(r, r', base, -1)
    ensures Eval(env, e, r') == Eval(env, e, r)
  {
    match e
    case ENot(a) => EvalKeep(env, a, r, r', n, base);
    case EAnd(a, b) => EvalKeep(env, a, r, r', n, base); EvalKeep(env, b, r, r', n, base);
    case EOr(a, b) => EvalKeep(env, a, r, r', n, base); EvalKeep(env, b, r, r', n, base);
    case ECmp(_, a, b) => EvalKeep(env, a, r, r', n, base); EvalKeep(env, b, r, r', n, base);
    case _ =>
  }

  // The goal of the second operand: what the code is once the first has been compiled.
  function Next(g: Goal, c: seq<Instr>, x: set<nat>, lab: nat, base: nat, e: Expr): Goal {
    Goal(c, x, lab, g.origin, base, e)
  }

  function Junction(sense: bool, a: Expr, b: Expr): Expr {
    if sense then EAnd(a, b) else EOr(a, b)
  }

  lemma JunctionDenotes(env: Env, sense: bool, a: Expr, b: Expr, c1: seq<Instr>, c2: seq<Instr>, end: nat, pt: Point,
                        l: seq<nat>, t: seq<nat>, f: seq<nat>, base: nat, n: nat, r: Regs, s1: State, s2: State)
    requires Denotes(env, c1, |c1|, Falls(sense), if sense then [] else l, if sense then l else [], base, -1, r,
                     Eval(env, a, r), s1)
    requires Scoped(b, n) && n <= base && |c1| <= end <= |c2|
    requires s1.At? ==> s1.pc <= |c1|
    requires if s1.At? && s1.pc == |c1|
             then Denotes(env, c2, end, pt, t, f, base, -1, s1.r, Eval(env, b, s1.r), s2)
             else s2 == s1
    requires forall p :: p in l ==> 0 < p < |c1| && c2[p - 1] == c1[p - 1]
    ensures Denotes(env, c2, end, pt, if sense then t else t + l, if sense then f + l else f, base, -1, r,
                    Eval(env, Junction(sense, a, b), r), s2)
  {
    if s1.At? && s1.pc == |c1| {
      EvalKeep(env, b, r, s1.r, n, base);
    }
  }

  // The second operand's code leaves the jumps of the first alone.
  lemma JunctionFrame(g: Goal, c1: seq<Instr>, c2: seq<Instr>, x1: set<nat>, l: seq<nat>)
    requires Framed(c1, c2) && ListOk(g, c1, x1, |c1|, l)
    ensures forall p :: p in l ==> 0 < p < |c1| && c2[p - 1] == c1[p - 1] && c2[p] == c1[p]
  {
    forall p | p in l ensures 0 < p < |c1| && c2[p - 1] == c1[p - 1] && c2[p] == c1[p] {
      assert IsTest(c1[p - 1]) && c1[p].Jmp?;
    }
  }

  lemma FramedTrans(c0: seq<Instr>, c1: seq<Instr>, c2: seq<Instr>)
    requires Framed(c0, c1) && Framed(c1, c2)
    ensures Framed(c0, c2)
  {
    forall p | 0 <= p < |c0| ensures c2[p] == c0[p] || (p == |c0| - 1 && c2[p].LoadNil? && c0[p].LoadNil?) {
      assert c1[p] == c0[p] || (p == |c0| - 1 && c1[p].LoadNil? && c0[p].LoadNil?);
      assert c2[p] == c1[p] || (p == |c1| - 1 && c2[p].LoadNil? && c1[p].LoadNil?);
    }
  }

  lemma JunctionShape(g: Goal, b: Expr, base: nat, sense: bool, c1: seq<Instr>, x1: set<nat>, lab1: nat, l: seq<nat>,
                      c2: seq<Instr>, x2: set<nat>, lab2: nat, pt: Point, t: seq<nat>, f: seq<nat>)
    requires Shape(g, c1, x1, lab1, Falls(sense), if sense then [] else l, if sense then l else [])
    requires Shape(Next(g, c1, x1, lab1, base, b), c2, x2, lab2, pt, t, f)
    ensures Shape(g, c2, x2, lab2, pt, if sense then t else t + l, if sense then f + l else f)
  {
    var g2 := Next(g, c1, x1, lab1, base, b);
    var t', f' := if sense then t else t + l, if sense then f + l else f;
    var end := |c2| - Tail(pt);
    hide CodeOk, Framed, ListOk, TailOk;
    JunctionFrame(g, c1, c2, x1, l);
    FramedTrans(g.code, c1, c2);
    assert Members(t') + Members(f') == Members(t) + Members(f) + Members(l);
    JunctionList(g, g2, c1, c2, x1, x2, end, l, t, !sense);
    JunctionList(g, g2, c1, c2, x1, x2, end, l, f, sense);
  }

  lemma JunctionList(g: Goal, g2: Goal, c1: seq<Instr>, c2: seq<Instr>, x1: set<nat>, x2: set<nat>, end: nat,
                     l: seq<nat>, t: seq<nat>, grows: bool)
    requires ListOk(g, c1, x1, |c1|, l) && ListOk(g2, c2, x2, end, t) && |g.code| <= |g2.code| == |c1| <= end <= |c2|
    requires forall p :: p in l ==> 0 < p < |c1| && c2[p - 1] == c1[p - 1] && c2[p] == c1[p]
    requires x1 <= x2
    ensures ListOk(g, c2, x2, end, if grows then t + l else t)
    ensures forall p :: p in l ==> p !in t
  {
  }

  /** `and` (sense true) and `or` (sense false): the first operand goes through when it does not decide, its
      jumps join the list of the second operand that has their truth. */
  lemma JunctionRule(g: Goal, kk: seq<Value>, b: Expr, n: nat, sense: bool, c1: seq<Instr>, x1: set<nat>, lab1: nat,
                     l: seq<nat>, c2: seq<Instr>, x2: set<nat>, lab2: nat, pt: Point, t: seq<nat>, f: seq<nat>)
    requires Scoped(b, n) && n <= g.base
    requires Sem(g, kk, c1, x1, Falls(sense), if sense then [] else l, if sense then l else [], -1)
    requires Shape(g, c1, x1, lab1, Falls(sense), if sense then [] else l, if sense then l else [])
    requires var g2 := Next(g, c1, x1, lab1, g.base, b);
      Sem(g2, kk, c2, x2, pt, t, f, -1) && Shape(g2, c2, x2, lab2, pt, t, f)
    ensures var g' := g.(expr := Junction(sense, g.expr, b));
      && Sem(g', kk, c2, x2, pt, if sense then t else t + l, if sense then f + l else f, -1)
      && Shape(g', c2, x2, lab2, pt, if sense then t else t + l, if sense then f + l else f)
  {
    var g' := g.(expr := Junction(sense, g.expr, b));
    var t', f' := if sense then t else t + l, if sense then f + l else f;
    var t1, f1 := if sense then [] else l, if sense then l else [];
    JunctionShape(g, b, g.base, sense, c1, x1, lab1, l, c2, x2, lab2, pt, t, f);
    assert Shape(g', c2, x2, lab2, pt, t', f') by { hide CodeOk, Framed, TailOk; }
    var g2 := Next(g, c1, x1, lab1, g.base, b);
    var pt1 := Falls(sense);
    hide SemAt, Shape;
    forall env: Env, r0: Regs | kk <= env.k ensures SemAt(env, r0, g', c2, x2, pt, t', f', -1) {
      assert SemAt(env, r0, g, c1, x1, pt1, t1, f1, -1);
      assert SemAt(env, r0, g2, c2, x2, pt, t, f, -1);
      JunctionRuleAt(env, r0, g, b, n, sense, c1, x1, lab1, l, c2, x2, lab2, pt, t, f);
    }
  }

  // Where the runs of the two operands stop.
  lemma JunctionStops(env: Env, r0: Regs, g: Goal, b: Expr, sense: bool, c1: seq<Instr>, x1: set<nat>, lab1: nat,
                      l: seq<nat>, c2: seq<Instr>, x2: set<nat>, lab2: nat, pt: Point, t: seq<nat>, f: seq<nat>)
    requires Shape(g, c1, x1, lab1, Falls(sense), if sense then [] else l, if sense then l else [])
    requires Shape(Next(g, c1, x1, lab1, g.base, b), c2, x2, lab2, pt, t, f)
    ensures c1[..|c1|] == c1 && |c1| <= |c2| - Tail(pt)
    ensures forall p :: p in l ==> 0 < p < |c1| && c2[p - 1] == c1[p - 1]
    ensures var s1 := Run(env, c1, x1, g.origin, r0); s1.At? ==> s1.pc <= |c1|
    ensures var before := Run(env, g.code, g.pending, g.origin, r0);
      before.At? && before.pc != |g.code| ==> before.pc != |c1|
  {
    hide Run, CodeOk;
    RunStops(env, c1, x1, lab1, g.origin, r0);
    BeforeStops(env, r0, g);
    JunctionFrame(g, c1, c2, x1, l);
  }

  lemma JunctionRuleAt(env: Env, r0: Regs, g: Goal, b: Expr, n: nat, sense: bool, c1: seq<Instr>, x1: set<nat>,
                       lab1: nat, l: seq<nat>, c2: seq<Instr>, x2: set<nat>, lab2: nat, pt: Point,
                       t: seq<nat>, f: seq<nat>)
    requires Scoped(b, n) && n <= g.base
    requires SemAt(env, r0, g, c1, x1, Falls(sense), if sense then [] else l, if sense then l else [], -1)
    requires Shape(g, c1, x1, lab1, Falls(sense), if sense then [] else l, if sense then l else [])
    requires var g2 := Next(g, c1, x1, lab1, g.base, b);
      SemAt(env, r0, g2, c2, x2, pt, t, f, -1) && Shape(g2, c2, x2, lab2, pt, t, f)
    ensures SemAt(env, r0, g.(expr := Junction(sense, g.expr, b)), c2, x2, pt, if sense then t else t + l,
                  if sense then f + l else f, -1)
  {
    hide Run, Eval, Shape, Denotes, Scoped, Junction;
    JunctionStops(env, r0, g, b, sense, c1, x1, lab1, l, c2, x2, lab2, pt, t, f);
    var before := Run(env, g.code, g.pending, g.origin, r0);
    var s1 := Run(env, c1, x1, g.origin, r0);
    var end := |c2| - Tail(pt);
    var s2 := Run(env, c2[..end], x2, g.origin, r0);
    if before.At? && before.pc == |g.code| {
      JunctionDenotes(env, sense, g.expr, b, c1, c2, end, pt, l, t, f, g.base, n, before.r, s1, s2);
    }
  }
}
