// Comparisons: two operands in place, then a test and a pending jump.

module Comparisons {
  import opened Bytecode
  import opened Denotation
  import opened Rules
  import opened Operators

  // A main value that later code cannot disturb, for registers below `n`.
  predicate Stable(k: Kind, n: nat) {
    (k.VNonReloc? && k.reg < n) || k.VKInt? || k.VK?
  }

  // Both operands have been evaluated and are where `ka` and `kb` say.
  ghost predicate PairDenotes(env: Env, c: seq<Instr>, ea: Expr, eb: Expr, ka: Kind, kb: Kind, prim: bool,
                              base: nat, r: Regs, s: State)
  {
    match Eval(env, ea, r)
    case Err(e) => s == Raised(e)
    case Val(va) =>
      match Eval(env, eb, r)
      case Err(e) => s == Raised(e)
      case Val(vb) =>
        && s.At? && s.pc == |c| && Keep(r, s.r, base, -1)
        && MainValue(env, c, ka, s.r) == Val(va)
        && MainValue(env, c, kb, s.r) == Val(vb)
        && (prim ==> !va.Obj?)
  }

  ghost predicate PairAt(env: Env, r0: Regs, g: Goal, c: seq<Instr>, x: set<nat>, eb: Expr, ka: Kind, kb: Kind,
                         prim: bool) {
    var before := Run(env, g.code, g.pending, g.origin, r0);
    var after := Run(env, c, x, g.origin, r0);
    if before.At? && before.pc == |g.code| then PairDenotes(env, c, g.expr, eb, ka, kb, prim, g.base, before.r, after)
    else after == before
  }

  // The code compiled so far evaluates `g.expr`, then `eb`; `prim` says that the first is no object.
  ghost predicate Pair(g: Goal, kk: seq<Value>, c: seq<Instr>, x: set<nat>, eb: Expr, ka: Kind, kb: Kind, prim: bool) {
    forall env: Env, r0: Regs :: kk <= env.k ==> PairAt(env, r0, g, c, x, eb, ka, kb, prim)
  }

  ghost predicate Primitives(kk: seq<Value>) {
    forall i :: 0 <= i < |kk| ==> !kk[i].Obj?
  }

  predicate Placed(k: Kind, kk: seq<Value>) {
    k.VNonReloc? || k.VKInt? || (k.VK? && k.info < |kk|)
  }

  lemma StableValue(env: Env, c: seq<Instr>, c': seq<Instr>, k: Kind, n: nat, r: Regs, r': Regs)
    requires Stable(k, n) && Keep(r, r', n, -1)
    ensures MainValue(env, c', k, r') == MainValue(env, c, k, r)
  {
  }

  lemma PrimValue(env: Env, kk: seq<Value>, c: seq<Instr>, k: Kind, r: Regs)
    requires kk <= env.k && Primitives(kk) && Placed(k, kk) && !k.VNonReloc?
    ensures MainValue(env, c, k, r).Val? && !MainValue(env, c, k, r).v.Obj?
  {
    if k.VK? { assert env.k[k.info] == kk[k.info]; }
  }

  // What a run to the end of a closed expression says.
  lemma ClosedDenotes(env: Env, c: seq<Instr>, k: Kind, base: nat, r: Regs, v: Outcome, s: State)
    requires Denotes(env, c, |c|, Main(k), [], [], base, -1, r, v, s)
    requires Placed(k, env.k)
    ensures match v
      case Err(e) => s == Raised(e)
      case Val(w) => s.At? && s.pc == |c| && Keep(r, s.r, base, -1) && MainValue(env, c, k, s.r) == Val(w)
  {
  }

  lemma PairRuleAt(env: Env, r0: Regs, g: Goal, kk: seq<Value>, c1: seq<Instr>, x1: set<nat>, lab1: nat, ka: Kind,
                   bn: nat, eb: Expr, c2: seq<Instr>, x2: set<nat>, kb: Kind, n: nat)
    requires SemAt(env, r0, g, c1, x1, Main(ka), [], [], -1)
    requires SemAt(env, r0, Next(g, c1, x1, lab1, bn, eb), c2, x2, Main(kb), [], [], -1)
    requires kk <= env.k && Primitives(kk)
    requires Stable(ka, bn) && Placed(ka, kk) && Placed(kb, kk) && Scoped(eb, n) && n <= g.base <= bn
    requires CodeOk(c1, x1, lab1, g.origin) && |g.code| <= |c1| && GoalOk(g) && x1 == g.pending
    ensures PairAt(env, r0, g, c2, x2, eb, ka, kb, !ka.VNonReloc?)
  {
    hide Run, Eval, CodeOk, MainValue;
    assert c1[..|c1|] == c1 && c2[..|c2|] == c2;
    RunStops(env, c1, x1, lab1, g.origin, r0);
    BeforeStops(env, r0, g);
    var before := Run(env, g.code, g.pending, g.origin, r0);
    var s1 := Run(env, c1, x1, g.origin, r0);
    var s2 := Run(env, c2, x2, g.origin, r0);
    if before.At? && before.pc == |g.code| {
      var r := before.r;
      ClosedDenotes(env, c1, ka, g.base, r, Eval(env, g.expr, r), s1);
      if s1.At? {
        EvalKeep(env, eb, r, s1.r, n, g.base);
        ClosedDenotes(env, c2, kb, bn, s1.r, Eval(env, eb, s1.r), s2);
        if s2.At? {
          StableValue(env, c1, c2, ka, bn, s1.r, s2.r);
          if !ka.VNonReloc? { PrimValue(env, kk, c1, ka, s1.r); }
        }
      }
    }
  }

  /** The second operand, once placed, completes the pair. */
  lemma PairRule(g: Goal, kk: seq<Value>, c1: seq<Instr>, x1: set<nat>, lab1: nat, ka: Kind,
                 bn: nat, eb: Expr, c2: seq<Instr>, x2: set<nat>, kb: Kind, n: nat)
    requires Sem(g, kk, c1, x1, Main(ka), [], [], -1) && Shape(g, c1, x1, lab1, Main(ka), [], [])
    requires Sem(Next(g, c1, x1, lab1, bn, eb), kk, c2, x2, Main(kb), [], [], -1)
    requires Primitives(kk)
    requires Stable(ka, bn) && Placed(ka, kk) && Placed(kb, kk) && Scoped(eb, n) && n <= g.base <= bn
    ensures Pair(g, kk, c2, x2, eb, ka, kb, !ka.VNonReloc?)
  {
    assert x1 == g.pending;
    var prim := !ka.VNonReloc?;
    var g2 := Next(g, c1, x1, lab1, bn, eb);
    hide SemAt, PairAt, CodeOk, Framed;
    forall env: Env, r0: Regs | kk <= env.k ensures PairAt(env, r0, g, c2, x2, eb, ka, kb, prim) {
      assert SemAt(env, r0, g, c1, x1, Main(ka), [], [], -1);
      assert SemAt(env, r0, g2, c2, x2, Main(kb), [], [], -1);
      PairRuleAt(env, r0, g, kk, c1, x1, lab1, ka, bn, eb, c2, x2, kb, n);
    }
  }

  // One of two constant operands moved to a register, the other stable.
  lemma PairLoadAt(env: Env, r0: Regs, g: Goal, kk: seq<Value>, c2: seq<Instr>, x2: set<nat>, lab2: nat, eb: Expr,
                   ka: Kind, kb: Kind, prim: bool, bn: nat, i: Int64, c3: seq<Instr>, reg: nat, first: bool)
    requires PairAt(env, r0, g, c2, x2, eb, ka, kb, prim) && kk <= env.k
    requires SemAt(env, r0, Next(g, c2, x2, lab2, bn, EInt(i)), c3, x2, Main(VNonReloc(reg)), [], [], -1)
    requires (if first then ka else kb) == VKInt(i) && Stable(if first then kb else ka, bn) && g.base <= bn
    requires CodeOk(c2, x2, lab2, g.origin) && |g.code| <= |c2| && GoalOk(g) && x2 == g.pending
    ensures PairAt(env, r0, g, c3, x2, eb, if first then VNonReloc(reg) else ka,
                   if first then kb else VNonReloc(reg), prim)
  {
    hide Run, CodeOk, Framed;
    assert c3[..|c3|] == c3;
    RunStops(env, c2, x2, lab2, g.origin, r0);
    BeforeStops(env, r0, g);
    var before := Run(env, g.code, g.pending, g.origin, r0);
    var s2 := Run(env, c2, x2, g.origin, r0);
    var s3 := Run(env, c3, x2, g.origin, r0);
    if before.At? && before.pc == |g.code| && s2.At? {
      ClosedDenotes(env, c3, VNonReloc(reg), bn, s2.r, Eval(env, EInt(i), s2.r), s3);
      StableValue(env, c2, c3, if first then kb else ka, bn, s2.r, s3.r);
    }
  }

  lemma PairLoad(g: Goal, kk: seq<Value>, c2: seq<Instr>, x2: set<nat>, lab2: nat, eb: Expr,
                 ka: Kind, kb: Kind, prim: bool, bn: nat, i: Int64, c3: seq<Instr>, reg: nat, first: bool)
    requires Pair(g, kk, c2, x2, eb, ka, kb, prim)
    requires Sem(Next(g, c2, x2, lab2, bn, EInt(i)), kk, c3, x2, Main(VNonReloc(reg)), [], [], -1)
    requires (if first then ka else kb) == VKInt(i) && Stable(if first then kb else ka, bn) && g.base <= bn
    requires CodeOk(c2, x2, lab2, g.origin) && |g.code| <= |c2| && GoalOk(g) && x2 == g.pending
    ensures Pair(g, kk, c3, x2, eb, if first then VNonReloc(reg) else ka, if first then kb else VNonReloc(reg), prim)
  {
    hide SemAt, PairAt, CodeOk, GoalOk;
    var ka', kb' := if first then VNonReloc(reg) else ka, if first then kb else VNonReloc(reg);
    var g3 := Next(g, c2, x2, lab2, bn, EInt(i));
    forall env: Env, r0: Regs | kk <= env.k ensures PairAt(env, r0, g, c3, x2, eb, ka', kb', prim) {
      assert PairAt(env, r0, g, c2, x2, eb, ka, kb, prim);
      assert SemAt(env, r0, g3, c3, x2, Main(VNonReloc(reg)), [], [], -1);
      PairLoadAt(env, r0, g, kk, c2, x2, lab2, eb, ka, kb, prim, bn, i, c3, reg, first);
    }
  }

  // ----- the test -----

  // `i` tests, for `k1` and `k2`, the order `o` of their values.
  predicate OrderTest(o: OrderOp, k1: Kind, k2: Kind, i: Instr) {
    && i.Cmp? && i.k
    && ((k1.VNonReloc? && k2.VNonReloc? && i == Cmp(if o.Lt? then OpLt else OpLe, k1.reg, k2.reg, true))
     || (k1.VNonReloc? && k2.VKInt? && i == Cmp(if o.Lt? then OpLtI else OpLeI, k1.reg, k2.ival, true))
     || (k1.VKInt? && k2.VNonReloc? && i == Cmp(if o.Lt? then OpGtI else OpGeI, k2.reg, k1.ival, true)))
  }

  // `i` tests the equality of a register with another register, a constant or an immediate integer.
  predicate EqualTest(k1: Kind, k2: Kind, i: Instr, sense: bool) {
    && k1.VNonReloc? && i.Cmp? && i.k == sense && i.a == k1.reg
    && ((k2.VNonReloc? && i.op.OpEq? && i.bi == k2.reg)
     || (k2.VKInt? && i.op.OpEqI? && i.bi == k2.ival)
     || (k2.VK? && i.op.OpEqK? && i.bi == k2.info))
  }

  /** The instruction for `a op b`: the order tests with the operands exchanged for `>` and `>=`, the
      equality tests in either order, but only in the given one when both operands may be objects. */
  predicate TestFor(op: CmpOp, ka: Kind, kb: Kind, prim: bool, i: Instr) {
    match op
    case LT => OrderTest(Lt, ka, kb, i)
    case LE => OrderTest(Le, ka, kb, i)
    case GT => OrderTest(Lt, kb, ka, i)
    case GE => OrderTest(Le, kb, ka, i)
    case EQ => EqualTest(ka, kb, i, true) || (prim && EqualTest(kb, ka, i, true))
    case NE => EqualTest(ka, kb, i, false) || (prim && EqualTest(kb, ka, i, false))
  }

  lemma TestForValue(env: Env, kk: seq<Value>, c: seq<Instr>, op: CmpOp, ka: Kind, kb: Kind, prim: bool, i: Instr,
                     r: Regs, va: Value, vb: Value)
    requires TestFor(op, ka, kb, prim, i) && kk <= env.k && Primitives(kk) && Placed(ka, kk) && Placed(kb, kk)
    requires MainValue(env, c, ka, r) == Val(va) && MainValue(env, c, kb, r) == Val(vb)
    requires prim ==> !va.Obj?
    ensures i.Cmp? && FromVerdict(CmpVerdict(env, i, r), i.k) == Compare(env, op, va, vb)
  {
    if ka.VK? { PrimValue(env, kk, c, ka, r); }
    if kb.VK? { PrimValue(env, kk, c, kb, r); }
  }

  lemma CompareDenotes(env: Env, kk: seq<Value>, c: seq<Instr>, c': seq<Instr>, op: CmpOp, ea: Expr, eb: Expr,
                       ka: Kind, kb: Kind, prim: bool, i: Instr, base: nat, r: Regs, s: State)
    requires PairDenotes(env, c, ea, eb, ka, kb, prim, base, r, s)
    requires TestFor(op, ka, kb, prim, i) && kk <= env.k && Primitives(kk) && Placed(ka, kk) && Placed(kb, kk)
    requires |c'| == |c| + 2 && c'[|c|] == i
    ensures Denotes(env, c', |c|, Main(VJmp(|c| + 1)), [], [], base, -1, r, Eval(env, ECmp(op, ea, eb), r), s)
  {
    hide TestFor, MainValue;
    var v := Eval(env, ea, r);
    var w := Eval(env, eb, r);
    if v.Val? && w.Val? {
      TestForValue(env, kk, c, op, ka, kb, prim, i, s.r, v.v, w.v);
      JmpValue(env, c', |c| + 1, s.r);
    }
  }

  lemma JmpValue(env: Env, c: seq<Instr>, p: nat, r: Regs)
    requires 0 < p < |c| && c[p - 1].Cmp?
    ensures MainValue(env, c, VJmp(p), r) == FromVerdict(CmpVerdict(env, c[p - 1], r), c[p - 1].k)
  {
  }

  lemma CompareRuleAt(env: Env, r0: Regs, g: Goal, kk: seq<Value>, c: seq<Instr>, x: set<nat>, lab: nat, op: CmpOp,
                      eb: Expr, ka: Kind, kb: Kind, prim: bool, i: Instr, sj: int)
    requires PairAt(env, r0, g, c, x, eb, ka, kb, prim) && kk <= env.k && Primitives(kk)
    requires TestFor(op, ka, kb, prim, i) && Placed(ka, kk) && Placed(kb, kk)
    requires CodeOk(c, x, lab, g.origin)
    ensures SemAt(env, r0, g.(expr := ECmp(op, g.expr, eb)), c + [i, Jmp(sj)], x + {|c| + 1},
                  Main(VJmp(|c| + 1)), [], [], -1)
  {
    hide Run, Eval, CodeOk, TestFor, MainValue;
    var c' := c + [i, Jmp(sj)];
    assert c'[..|c|] == c;
    RunExtend2(env, c, x, x + {|c| + 1}, g.origin, r0);
    var before := Run(env, g.code, g.pending, g.origin, r0);
    if before.At? && before.pc == |g.code| {
      CompareDenotes(env, kk, c, c', op, g.expr, eb, ka, kb, prim, i, g.base, before.r, Run(env, c, x, g.origin, r0));
    }
  }

  /** `condjump` on two placed operands is the comparison of their expressions, its jump still to be used. */
  lemma CompareRule(g: Goal, kk: seq<Value>, c: seq<Instr>, x: set<nat>, lab: nat, op: CmpOp, eb: Expr,
                    ka: Kind, kb: Kind, prim: bool, i: Instr, sj: int)
    requires Pair(g, kk, c, x, eb, ka, kb, prim) && Primitives(kk)
    requires TestFor(op, ka, kb, prim, i) && Placed(ka, kk) && Placed(kb, kk)
    requires Shape(g, c, x, lab, Falls(true), [], [])
    ensures var g' := g.(expr := ECmp(op, g.expr, eb));
      var c' := c + [i, Jmp(sj)];
      && Sem(g', kk, c', x + {|c| + 1}, Main(VJmp(|c| + 1)), [], [], -1)
      && Shape(g', c', x + {|c| + 1}, lab, Main(VJmp(|c| + 1)), [], [])
  {
    var g' := g.(expr := ECmp(op, g.expr, eb));
    var c' := c + [i, Jmp(sj)];
    var x' := x + {|c| + 1};
    var k := VJmp(|c| + 1);
    assert i.Cmp?;
    CompareShape(g, c, x, lab, i, sj);
    assert Shape(g', c', x', lab, Main(k), [], []) by { hide CodeOk, Framed, TailOk; }
    hide SemAt, PairAt, TestFor, Framed, ListOk;
    var pt := Main(k);
    forall env: Env, r0: Regs | kk <= env.k ensures SemAt(env, r0, g', c', x', pt, [], [], -1) {
      assert PairAt(env, r0, g, c, x, eb, ka, kb, prim);
      CompareRuleAt(env, r0, g, kk, c, x, lab, op, eb, ka, kb, prim, i, sj);
    }
  }

  lemma CompareShape(g: Goal, c: seq<Instr>, x: set<nat>, lab: nat, i: Instr, sj: int)
    requires Shape(g, c, x, lab, Falls(true), [], []) && i.Cmp?
    ensures Shape(g, c + [i, Jmp(sj)], x + {|c| + 1}, lab, Main(VJmp(|c| + 1)), [], [])
  {
    var c' := c + [i, Jmp(sj)];
    assert c[..|c|] == c && c'[..|c|] == c;
    PendingBelow(g, c, x, lab, Falls(true), [], []);
    assert x + {|c| + 1} - {|c| + 1} == x;
    NotShapeJmp(g, c, c', x + {|c| + 1}, lab, [], []);
  }
}
