// What an expression descriptor of the code generator means while its code is still incomplete.

module Denotation {
  import opened Bytecode
  import opened Sequences

  // Where the main value of an expression is (the kinds of `expdesc` that this language uses).
  datatype Kind =
    | VNil | VTrue | VFalse
    | VK(info: nat)
    | VKInt(ival: Int64)
    | VKStr(s: string)
    | VNonReloc(reg: nat)
    | VLocal(ridx: nat)
    | VUpval(u: nat)
    | VJmp(jpc: nat)
    | VReloc(rpc: nat)

  // A descriptor: the main value, and the heads of the lists of jumps that exit when true and when false.
  datatype ExpDesc = ExpDesc(k: Kind, t: int, f: int)

  /** The code when the compilation of `expr` began: everything below describes code as what it adds to
      a run that starts at `origin` and reaches the end of `code`. `base` is the first free register. */
  datatype Goal = Goal(code: seq<Instr>, pending: set<nat>, lab: nat, origin: nat, base: nat, expr: Expr)

  // The end of the code holds the main value, or is reached only when the value has this truth.
  datatype Point = Main(k: Kind) | Falls(truth: bool)

  // Instructions at the end of the code that wait for a register or for a use of their condition.
  function Tail(pt: Point): nat {
    match pt
    case Main(VReloc(_)) => 1
    case Main(VJmp(_)) => 2
    case _ => 0
  }

  function MainValue(env: Env, c: seq<Instr>, k: Kind, r: Regs): Outcome {
    match k
    case VNil => Val(Nil)
    case VTrue => Val(Bool(true))
    case VFalse => Val(Bool(false))
    case VK(i) => if i < |env.k| then Val(env.k[i]) else Val(Nil)
    case VKInt(i) => Val(Int(i))
    case VKStr(s) => Val(Str(s))
    case VNonReloc(i) => Val(Get(r, i))
    case VLocal(i) => Val(Get(r, i))
    case VUpval(u) => Val(env.up(u))
    case VJmp(p) => if 0 < p <= |c| && c[p - 1].Cmp? then FromVerdict(CmpVerdict(env, c[p - 1], r), c[p - 1].k)
      else Val(Nil)
    case VReloc(p) =>
      if p < |c| && c[p].Not? then Val(Bool(!Truthy(Get(r, c[p].b))))
      else if p < |c| && c[p].GetUpval? then Val(env.up(c[p].b))
      else Val(Nil)
  }

  predicate MainOk(env: Env, c: seq<Instr>, pt: Point, r: Regs, v: Outcome) {
    match pt
    case Main(k) => MainValue(env, c, k, r) == v
    case Falls(truth) => v.Val? && Truthy(v.v) == truth
  }

  /** A run that takes the pending jump `p` of a list for truth `b`: the test before it carries the value
      in a register, or the value is exactly that boolean. */
  predicate Carried(c: seq<Instr>, p: nat, r: Regs, v: Value, b: bool) {
    if HasValue(c, p) then Get(r, c[p - 1].b) == v && Truthy(v) == b else v == Bool(b)
  }

  ghost predicate Keep(r: Regs, r': Regs, base: nat, spare: int) {
    forall i: nat :: i < base && i != spare ==> Get(r', i) == Get(r, i)
  }

  ghost predicate Denotes(env: Env, c: seq<Instr>, end: int, pt: Point, t: seq<nat>, f: seq<nat>,
                          base: nat, spare: int, r: Regs, v: Outcome, s: State)
  {
    match s
    case Raised(e) => v == Err(e)
    case Stuck => false
    case At(p, r') =>
      && Keep(r, r', base, spare)
      && if p == end then MainOk(env, c, pt, r', v)
         else v.Val? && ((p in t && Carried(c, p, r', v.v, true)) || (p in f && Carried(c, p, r', v.v, false)))
  }

  ghost predicate SemAt(env: Env, r0: Regs, g: Goal, c: seq<Instr>, x: set<nat>, pt: Point,
                        t: seq<nat>, f: seq<nat>, spare: int)
  {
    Tail(pt) <= |c| &&
    var end := |c| - Tail(pt);
    var before := Run(env, g.code, g.pending, g.origin, r0);
    var after := Run(env, c[..end], x, g.origin, r0);
    if before.At? && before.pc == |g.code|
    then Denotes(env, c, end, pt, t, f, g.base, spare, before.r, Eval(env, g.expr, before.r), after)
    else after == before
  }

  /** The code compiled so far for `g.expr`: every run from the origin that used to reach the end of
      `g.code` now evaluates the expression, keeping the registers below `g.base` (but `spare`), and
      ends with its value at the end of the code, with its value carried by a jump of `t` or `f`, or in
      the error it raises. Every other run is unchanged. */
  ghost predicate Sem(g: Goal, kk: seq<Value>, c: seq<Instr>, x: set<nat>, pt: Point,
                      t: seq<nat>, f: seq<nat>, spare: int)
  {
    forall env: Env, r0: Regs :: kk <= env.k ==> SemAt(env, r0, g, c, x, pt, t, f, spare)
  }

  // The code before the goal is untouched but for the range of a LOADNIL at its end.
  ghost predicate Framed(c0: seq<Instr>, c: seq<Instr>) {
    && |c0| <= |c|
    && forall p :: 0 <= p < |c0| ==> c[p] == c0[p] || (p == |c0| - 1 && c[p].LoadNil? && c0[p].LoadNil?)
  }

  predicate Disjoint(t: seq<nat>, f: seq<nat>) {
    forall p :: p in t ==> p !in f
  }

  ghost predicate GoalOk(g: Goal) {
    && CodeOk(g.code, g.pending, g.lab, g.origin)
    && g.lab <= |g.code|
    && (g.origin <= g.lab || g.origin < |g.code|)
    && (forall p :: p in g.pending ==> p < |g.code| && g.code[p].Jmp?)
  }

  // The jumps of a list: pending, inside the new code, controlled by tests.
  ghost predicate ListOk(g: Goal, c: seq<Instr>, x: set<nat>, end: int, l: seq<nat>) {
    && Waiting(c, x, l)
    && forall p :: p in l ==> |g.code| < p < end && IsTest(c[p - 1])
  }

  predicate TailOk(c: seq<Instr>, x: set<nat>, end: nat, pt: Point) {
    match pt
    case Main(VReloc(p)) => p == end && p + 1 == |c| && (c[p].Not? || c[p].GetUpval?)
    case Main(VJmp(p)) => p == end + 1 && p + 1 == |c| && c[p - 1].Cmp? && c[p].Jmp? && p in x
    case _ => true
  }

  function JumpOf(pt: Point): set<nat> {
    match pt
    case Main(VJmp(p)) => {p}
    case _ => {}
  }

  ghost predicate Shape(g: Goal, c: seq<Instr>, x: set<nat>, lab: nat, pt: Point, t: seq<nat>, f: seq<nat>) {
    && GoalOk(g)
    && |g.code| + Tail(pt) <= |c|
    && Framed(g.code, c)
    && var end := |c| - Tail(pt);
    && CodeOk(c, x, lab, g.origin)
    && g.lab <= lab <= end
    && ListOk(g, c, x, end, t)
    && ListOk(g, c, x, end, f)
    && Disjoint(t, f)
    && x == g.pending + Members(t) + Members(f) + JumpOf(pt)
    && TailOk(c, x, end, pt)
  }

  // ----- the body: the code without its tail -----

  lemma BodyOk(g: Goal, c: seq<Instr>, x: set<nat>, lab: nat, pt: Point, t: seq<nat>, f: seq<nat>)
    requires Shape(g, c, x, lab, pt, t, f)
    ensures var b := c[..|c| - Tail(pt)];
      && CodeOk(b, x - JumpOf(pt), lab, g.origin)
      && Shape(g, b, x - JumpOf(pt), lab, Falls(true), t, f)
  {
    var b := c[..|c| - Tail(pt)];
    var x' := x - JumpOf(pt);
    forall p | g.origin <= p < |b| ensures InstrOk(b, x', lab, p) {
      assert InstrOk(c, x, lab, p);
    }
    forall p | p in t || p in f ensures p in x' && b[p - 1] == c[p - 1] { }
    assert x' == g.pending + Members(t) + Members(f) by {
      if pt.Main? && pt.k.VJmp? {
        assert pt.k.jpc !in g.pending && pt.k.jpc !in t && pt.k.jpc !in f;
      }
    }
  }
}
