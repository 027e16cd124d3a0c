// What expressions and tests mean, by the values there are, and what that says of compiled code.

module Meaning {
  import opened Bytecode
  import opened CodeGen

  // ----- expressions -----

  // Raw equality, and `__eq` on two distinct objects.
  function Alike(env: Env, x: Value, y: Value): Verdict {
    match (x, y)
    case (Nil, Nil) => Says(true)
    case (Bool(a), Bool(b)) => Says(a <==> b)
    case (Int(i), Int(j)) => Says(i == j)
    case (Str(s), Str(t)) => Says(s == t)
    case (Obj(o), Obj(p)) => if o == p then Says(true) else env.eqMeta(x, y)
    case (_, _) => Says(false)
  }

  function Below(env: Env, x: Value, y: Value): Verdict {
    match (x, y)
    case (Int(i), Int(j)) => Says(i < j)
    case (_, _) => env.order(Lt, x, y)
  }

  function NotAbove(env: Env, x: Value, y: Value): Verdict {
    match (x, y)
    case (Int(i), Int(j)) => Says(i <= j)
    case (_, _) => env.order(Le, x, y)
  }

  function Answer(v: Verdict): Outcome {
    match v
    case Says(b) => Val(Bool(b))
    case Raises(e) => Err(e)
  }

  function Denied(v: Verdict): Outcome {
    match v
    case Says(true) => Val(Bool(false))
    case Says(false) => Val(Bool(true))
    case Raises(e) => Err(e)
  }

  function Compared(env: Env, op: CmpOp, x: Value, y: Value): Outcome {
    match op
    case EQ => Answer(Alike(env, x, y))
    case NE => Denied(Alike(env, x, y))
    case LT => Answer(Below(env, x, y))
    case LE => Answer(NotAbove(env, x, y))
    case GT => Answer(Below(env, y, x))
    case GE => Answer(NotAbove(env, y, x))
  }

  /** Sections 3.4.4 and 3.4.5 of the Lua 5.4 Reference Manual, value by value: only nil and false are false; `not`
      gives a boolean, `and` and `or` one of their operands. */
  function Means(env: Env, e: Expr, r: Regs): Outcome {
    match e
    case ENil => Val(Nil)
    case ETrue => Val(Bool(true))
    case EFalse => Val(Bool(false))
    case EInt(i) => Val(Int(i))
    case EStr(s) => Val(Str(s))
    case ELocal(i) => Val(if i in r then r[i] else Nil)
    case EUpval(u) => Val(env.up(u))
    case ENot(a) =>
      (match Means(env, a, r)
       case Err(x) => Err(x)
       case Val(Nil) => Val(Bool(true))
       case Val(Bool(b)) => Val(Bool(!b))
       case Val(_) => Val(Bool(false)))
    case EAnd(a, b) =>
      (match Means(env, a, r)
       case Err(x) => Err(x)
       case Val(Nil) => Val(Nil)
       case Val(Bool(false)) => Val(Bool(false))
       case Val(_) => Means(env, b, r))
    case EOr(a, b) =>
      (match Means(env, a, r)
       case Err(x) => Err(x)
       case Val(Nil) => Means(env, b, r)
       case Val(Bool(false)) => Means(env, b, r)
       case Val(v) => Val(v))
    case ECmp(op, a, b) =>
      (match Means(env, a, r)
       case Err(x) => Err(x)
       case Val(v) =>
         (match Means(env, b, r)
          case Err(x) => Err(x)
          case Val(w) => Compared(env, op, v, w)))
  }

  lemma ComparesAs(env: Env, op: CmpOp, x: Value, y: Value)
    ensures Compare(env, op, x, y) == Compared(env, op, x, y)
  {
  }

  // The evaluation that the code generator is proved against is the one of the manual.
  lemma {:induction false} EvalMeans(env: Env, e: Expr, r: Regs)
    ensures Eval(env, e, r) == Means(env, e, r)
  {
    hide Compare, Compared;
    match e
    case ENot(a) => EvalMeans(env, a, r);
    case EAnd(a, b) => EvalMeans(env, a, r); EvalMeans(env, b, r);
    case EOr(a, b) => EvalMeans(env, a, r); EvalMeans(env, b, r);
    case ECmp(op, a, b) =>
      EvalMeans(env, a, r);
      EvalMeans(env, b, r);
      forall x, y ensures Compare(env, op, x, y) == Compared(env, op, x, y) { ComparesAs(env, op, x, y); }
    case _ =>
  }

  // ----- the tests of the machine -----

  // What register `i` holds.
  function Held(r: Regs, i: nat): Value {
    if i in r then r[i] else Nil
  }

  // `docondjump`: the condition met, the jump after the test is next; otherwise it is skipped.
  function Branch(met: bool, pc: nat, r: Regs): State {
    if met then At(pc + 1, r) else At(pc + 2, r)
  }

  // `OP_TEST`, `OP_TESTSET` with a register for the value, `OP_NOT` and the jumps
  lemma TestsMean(env: Env, c: seq<Instr>, pc: nat, r: Regs)
    requires pc < |c|
    ensures c[pc].Test? ==>
      Step(env, c, pc, r) == match Held(r, c[pc].a)
                             case Nil => Branch(!c[pc].k, pc, r)
                             case Bool(b) => Branch(b <==> c[pc].k, pc, r)
                             case _ => Branch(c[pc].k, pc, r)
    ensures c[pc].TestSet? && c[pc].a != 255 ==>
      Step(env, c, pc, r) == match Held(r, c[pc].b)
                             case Nil => if c[pc].k then At(pc + 2, r) else At(pc + 1, r[c[pc].a := Nil])
                             case Bool(b) => if b == c[pc].k then At(pc + 1, r[c[pc].a := Bool(b)]) else At(pc + 2, r)
                             case v => if c[pc].k then At(pc + 1, r[c[pc].a := v]) else At(pc + 2, r)
    ensures c[pc].Not? ==>
      Step(env, c, pc, r) == At(pc + 1, r[c[pc].a := match Held(r, c[pc].b)
                                                      case Nil => Bool(true)
                                                      case Bool(b) => Bool(!b)
                                                      case _ => Bool(false)])
    ensures c[pc].Jmp? && pc + 1 + c[pc].sj >= 0 ==> Step(env, c, pc, r) == At(pc + 1 + c[pc].sj, r)
    ensures c[pc].LFalseSkip? ==> Step(env, c, pc, r) == At(pc + 2, r[c[pc].a := Bool(false)])
  {
  }

  // What a comparison instruction decides.
  function Decides(env: Env, op: TestOp, x: Value, bi: int, r: Regs): Verdict
    requires op.OpEq? || op.OpLt? || op.OpLe? || op.OpEqK? ==> bi >= 0
    requires op.OpEqK? ==> bi < |env.k|
  {
    match op
    case OpEq => Alike(env, x, Held(r, bi))
    case OpLt => Below(env, x, Held(r, bi))
    case OpLe => NotAbove(env, x, Held(r, bi))
    case OpEqK => Says(x == env.k[bi])
    case OpEqI => Says(x == Int(bi))
    case OpLtI => Below(env, x, Int(bi))
    case OpLeI => NotAbove(env, x, Int(bi))
    case OpGtI => Below(env, Int(bi), x)
    case OpGeI => NotAbove(env, Int(bi), x)
  }

  // `OP_EQ` to `OP_GEI`
  lemma ComparisonsMean(env: Env, c: seq<Instr>, pc: nat, r: Regs)
    requires pc < |c| && c[pc].Cmp? && (c[pc].op.OpEq? || c[pc].op.OpLt? || c[pc].op.OpLe? ==> c[pc].bi >= 0)
    requires c[pc].op.OpEqK? ==> 0 <= c[pc].bi < |env.k|
    ensures Step(env, c, pc, r) == match Decides(env, c[pc].op, Held(r, c[pc].a), c[pc].bi, r)
                                   case Raises(e) => Raised(e)
                                   case Says(b) => Branch(b <==> c[pc].k, pc, r)
  {
  }

  // ----- compiled code -----

  // After `n` steps from the start the machine has left the code, or raised an error.
  ghost predicate EndsIn(env: Env, c: seq<Instr>, r: Regs, reg: nat, o: Outcome, n: nat) {
    var s := Steps(env, c, n, At(0, r));
    match o
    case Err(e) => s == Raised(e)
    case Val(v) =>
      && s.At? && s.pc == |c| && Held(s.r, reg) == v
      && forall i: nat :: i < reg ==> Held(s.r, i) == Held(r, i)
  }

  // The code leaves `o` in register `reg`, and the registers below as they were; or `o` is an error, and it is raised.
  ghost predicate Delivers(env: Env, c: seq<Instr>, r: Regs, reg: nat, o: Outcome) {
    exists n: nat :: EndsIn(env, c, r, reg, o, n)
  }

  lemma RunsDelivers(env: Env, a: Expr, c: seq<Instr>, r: Regs, reg: nat)
    requires Runs(env, a, c, r, reg)
    ensures Delivers(env, c, r, reg, Means(env, a, r))
  {
    EvalMeans(env, a, r);
    var n: nat :| RunsTo(env, a, c, r, reg, n);
    hide Eval, Means, Steps;
    assert forall s: Regs, i: nat :: Get(s, i) == Held(s, i);
    assert EndsIn(env, c, r, reg, Means(env, a, r), n);
  }

  // `not x`
  lemma NotDelivers(env: Env, x: nat, c: seq<Instr>, r: Regs, reg: nat)
    requires Runs(env, ENot(ELocal(x)), c, r, reg)
    ensures Delivers(env, c, r, reg, Val(Bool(x !in r || r[x].Nil? || r[x] == Bool(false))))
  {
    RunsDelivers(env, ENot(ELocal(x)), c, r, reg);
    hide Delivers, Runs;
  }

  // `x and y` leaves `x` if it is nil or false, and `y` otherwise.
  lemma AndDelivers(env: Env, x: nat, y: nat, c: seq<Instr>, r: Regs, reg: nat)
    requires Runs(env, EAnd(ELocal(x), ELocal(y)), c, r, reg) && x in r && y in r
    ensures Delivers(env, c, r, reg, Val(if r[x].Nil? || r[x] == Bool(false) then r[x] else r[y]))
  {
    RunsDelivers(env, EAnd(ELocal(x), ELocal(y)), c, r, reg);
    hide Delivers, Runs;
  }

  // `x or y` leaves `y` if `x` is nil or false, and `x` otherwise.
  lemma OrDelivers(env: Env, x: nat, y: nat, c: seq<Instr>, r: Regs, reg: nat)
    requires Runs(env, EOr(ELocal(x), ELocal(y)), c, r, reg) && x in r && y in r
    ensures Delivers(env, c, r, reg, Val(if r[x].Nil? || r[x] == Bool(false) then r[y] else r[x]))
  {
    RunsDelivers(env, EOr(ELocal(x), ELocal(y)), c, r, reg);
    hide Delivers, Runs;
  }
}
