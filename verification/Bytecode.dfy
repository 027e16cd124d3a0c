// Values, expressions, instructions and the virtual machine of the boolean core of Lua:
// constants, locals, upvalues, `not`, `and`, `or` and the six comparisons.

module Bytecode {
  import opened Sequences


  // ----- values -----

  // An `Obj` is a table, userdata, function or thread, known only by its identity.
  datatype Value = Nil | Bool(b: bool) | Int(i: int) | Str(s: string) | Obj(id: nat)

  // Only nil and false are false.
  predicate Truthy(v: Value) {
    v != Nil && v != Bool(false)
  }

  // What a comparison decides: an answer, or an error it raises.
  datatype Verdict = Says(b: bool) | Raises(err: Value)

  datatype OrderOp = Lt | Le

  /** What the running program supplies and the compiler cannot see: the constant table, the
      upvalues, `__eq` on two distinct objects, and order on anything but two integers (strings,
      `__lt`, `__le`, or the error for operands that cannot be compared). */
  datatype Env = Env(
    k: seq<Value>,
    up: nat -> Value,
    eqMeta: (Value, Value) -> Verdict,
    order: (OrderOp, Value, Value) -> Verdict)

  function Equal(env: Env, x: Value, y: Value): Verdict {
    if x.Obj? && y.Obj? && x != y then env.eqMeta(x, y) else Says(x == y)
  }

  function Order(env: Env, op: OrderOp, x: Value, y: Value): Verdict {
    if x.Int? && y.Int? then Says(if op.Lt? then x.i < y.i else x.i <= y.i)
    else env.order(op, x, y)
  }

  // ----- source expressions -----

  // `lua_Integer`.
  type Int64 = i: int | -0x8000_0000_0000_0000 <= i < 0x8000_0000_0000_0000

  datatype CmpOp = EQ | NE | LT | LE | GT | GE

  datatype Expr =
    | ENil | ETrue | EFalse
    | EInt(i: Int64)
    | EStr(s: string)
    | ELocal(r: nat)
    | EUpval(u: nat)
    | ENot(e: Expr)
    | EAnd(a: Expr, b: Expr)
    | EOr(a: Expr, b: Expr)
    | ECmp(op: CmpOp, a: Expr, b: Expr)

  datatype Outcome = Val(v: Value) | Err(err: Value)

  function FromVerdict(v: Verdict, sense: bool): Outcome {
    match v
    case Says(b) => Val(Bool(b == sense))
    case Raises(e) => Err(e)
  }

  // `a > b` is `b < a` and `a >= b` is `b <= a`.
  function Compare(env: Env, op: CmpOp, x: Value, y: Value): Outcome {
    match op
    case EQ => FromVerdict(Equal(env, x, y), true)
    case NE => FromVerdict(Equal(env, x, y), false)
    case LT => FromVerdict(Order(env, Lt, x, y), true)
    case LE => FromVerdict(Order(env, Le, x, y), true)
    case GT => FromVerdict(Order(env, Lt, y, x), true)
    case GE => FromVerdict(Order(env, Le, y, x), true)
  }

  // ----- registers -----

  type Regs = map<nat, Value>

  function Get(r: Regs, i: nat): Value {
    if i in r then r[i] else Nil
  }

  // Registers `from` to `from + n` set to nil.
  function SetNil(r: Regs, from: nat, n: nat): Regs {
    if n == 0 then r[from := Nil] else SetNil(r, from, n - 1)[from + n := Nil]
  }

  /** The meaning of an expression in registers `r`: left to right, `and` and `or` evaluating their
      second operand only when the first does not decide, the first error ending the evaluation. */
  function Eval(env: Env, e: Expr, r: Regs): Outcome {
    match e
    case ENil => Val(Nil)
    case ETrue => Val(Bool(true))
    case EFalse => Val(Bool(false))
    case EInt(i) => Val(Int(i))
    case EStr(s) => Val(Str(s))
    case ELocal(i) => Val(Get(r, i))
    case EUpval(u) => Val(env.up(u))
    case ENot(a) =>
      var x := Eval(env, a, r);
      if x.Err? then x else Val(Bool(!Truthy(x.v)))
    case EAnd(a, b) =>
      var x := Eval(env, a, r);
      if x.Err? || !Truthy(x.v) then x else Eval(env, b, r)
    case EOr(a, b) =>
      var x := Eval(env, a, r);
      if x.Err? || Truthy(x.v) then x else Eval(env, b, r)
    case ECmp(op, a, b) =>
      var x := Eval(env, a, r);
      if x.Err? then x else
      var y := Eval(env, b, r);
      if y.Err? then y else Compare(env, op, x.v, y.v)
  }

  // ----- instructions -----

  const NO_JUMP := -1
  const NO_REG: nat := 255

  // The second operand of a test on two values.
  datatype TestOp =
    | OpEq | OpLt | OpLe           // R[A] with R[B]
    | OpEqK                        // R[A] == K[B]
    | OpEqI | OpLtI | OpLeI | OpGtI | OpGeI  // R[A] with the immediate B

  datatype Instr =
    | Move(a: nat, b: nat)
    | LoadI(a: nat, sbx: int)
    | LoadK(a: nat, bx: nat)
    | LoadKX(a: nat)
    | ExtraArg(ax: nat)
    | LoadFalse(a: nat)
    | LFalseSkip(a: nat)
    | LoadTrue(a: nat)
    | LoadNil(a: nat, n: nat)      // R[a], ..., R[a+n] := nil
    | GetUpval(a: nat, b: nat)
    | Not(a: nat, b: nat)
    | Jmp(sj: int)
    | Cmp(op: TestOp, a: nat, bi: int, k: bool)
    | Test(a: nat, k: bool)
    | TestSet(a: nat, b: nat, k: bool)

  // Instructions whose successor must be a jump (bit T of the opcode modes).
  predicate IsTest(i: Instr) {
    i.Cmp? || i.Test? || i.TestSet?
  }

  const MAXREGS: int := 255
  const MAXARG_B: int := 255
  const MAXARG_Bx: int := 131071
  const OFFSET_sBx: int := 65535
  const MAXARG_Ax: int := 33554431
  const MAXARG_sJ: int := 33554431
  const OFFSET_sJ: int := 16777215

  predicate IsReg(n: int) {
    0 <= n < MAXREGS
  }

  // Every operand fits its field of the 32-bit instruction (signed ones in excess-K form).
  predicate Fits(i: Instr) {
    match i
    case Move(a, b) => IsReg(a) && IsReg(b)
    case LoadI(a, sbx) => IsReg(a) && -OFFSET_sBx <= sbx <= MAXARG_Bx - OFFSET_sBx
    case LoadK(a, bx) => IsReg(a) && bx <= MAXARG_Bx
    case LoadKX(a) => IsReg(a)
    case ExtraArg(ax) => ax <= MAXARG_Ax
    case LoadFalse(a) => IsReg(a)
    case LFalseSkip(a) => IsReg(a)
    case LoadTrue(a) => IsReg(a)
    case LoadNil(a, n) => IsReg(a) && IsReg(a + n)
    case GetUpval(a, b) => IsReg(a) && b <= MAXARG_B
    case Not(a, b) => IsReg(a) && IsReg(b)
    case Jmp(sj) => -OFFSET_sJ <= sj <= MAXARG_sJ - OFFSET_sJ
    case Cmp(op, a, bi, _) =>
      && IsReg(a)
      && (match op
          case OpEq => IsReg(bi)
          case OpLt => IsReg(bi)
          case OpLe => IsReg(bi)
          case OpEqK => 0 <= bi <= MAXARG_B
          case _ => -127 <= bi <= 128)
    case Test(a, _) => IsReg(a)
    case TestSet(a, b, _) => (IsReg(a) || a == NO_REG) && IsReg(b)
  }

  /** The fields of an instruction of 32 bits: 7 for the operation, 8 for A, 8 for B, 1 for k, 8 for C; 17 for Bx in
      the place of k, B and C, and 25 for Ax and sJ in the place of all. Signed operands are stored with half of their
      range added. */
  lemma FieldsFit(i: Instr)
    requires Fits(i)
    ensures (i.Move? || i.Not? || i.TestSet?) ==> i.a < 256 && i.b < 256
    ensures i.GetUpval? ==> i.a < 256 && i.b < 256
    ensures i.LoadI? ==> i.a < 256 && 0 <= i.sbx + 65535 < 0x20000
    ensures i.LoadK? ==> i.a < 256 && i.bx < 0x20000
    ensures i.ExtraArg? ==> i.ax < 0x200_0000
    ensures i.LoadNil? ==> i.a < 256 && i.n < 256
    ensures i.Jmp? ==> 0 <= i.sj + 16777215 < 0x200_0000
    ensures i.Cmp? && (i.op.OpEq? || i.op.OpLt? || i.op.OpLe? || i.op.OpEqK?) ==> 0 <= i.bi < 256
    ensures i.Cmp? && (i.op.OpEqI? || i.op.OpLtI? || i.op.OpLeI? || i.op.OpGtI? || i.op.OpGeI?) ==>
              0 <= i.bi + 127 < 256
    ensures i.LoadKX? || i.Cmp? || i.LoadFalse? || i.LFalseSkip? || i.LoadTrue? || i.Test? ==> i.a < 256
  {
  }

  // ----- the machine -----

  datatype State = At(pc: nat, r: Regs) | Raised(err: Value) | Stuck

  function TestVerdict(env: Env, op: TestOp, x: Value, y: Value): Verdict {
    match op
    case OpEq => Equal(env, x, y)
    case OpEqK => Says(x == y)
    case OpEqI => Says(x == y)
    case OpLt => Order(env, Lt, x, y)
    case OpLe => Order(env, Le, x, y)
    case OpLtI => Order(env, Lt, x, y)
    case OpLeI => Order(env, Le, x, y)
    case OpGtI => Order(env, Lt, y, x)
    case OpGeI => Order(env, Le, y, x)
  }

  function Operand(env: Env, op: TestOp, bi: int, r: Regs): Value {
    match op
    case OpEq => if bi < 0 then Nil else Get(r, bi)
    case OpLt => if bi < 0 then Nil else Get(r, bi)
    case OpLe => if bi < 0 then Nil else Get(r, bi)
    case OpEqK => if 0 <= bi < |env.k| then env.k[bi] else Nil
    case _ => Int(bi)
  }

  function CmpVerdict(env: Env, i: Instr, r: Regs): Verdict
    requires i.Cmp?
  {
    TestVerdict(env, i.op, Get(r, i.a), Operand(env, i.op, i.bi, r))
  }

  /** One step at a pc inside the code. A test that meets its condition goes on to the jump after it,
      any other test skips that jump. `NO_REG` is not a register: writing to it has no effect. */
  function Step(env: Env, c: seq<Instr>, pc: nat, r: Regs): State
    requires pc < |c|
  {
    match c[pc]
    case Move(a, b) => At(pc + 1, r[a := Get(r, b)])
    case LoadI(a, i) => At(pc + 1, r[a := Int(i)])
    case LoadK(a, bx) => if bx < |env.k| then At(pc + 1, r[a := env.k[bx]]) else Stuck
    case LoadKX(a) =>
      if pc + 1 < |c| && c[pc + 1].ExtraArg? && c[pc + 1].ax < |env.k|
      then At(pc + 2, r[a := env.k[c[pc + 1].ax]]) else Stuck
    case ExtraArg(_) => Stuck
    case LoadFalse(a) => At(pc + 1, r[a := Bool(false)])
    case LFalseSkip(a) => At(pc + 2, r[a := Bool(false)])
    case LoadTrue(a) => At(pc + 1, r[a := Bool(true)])
    case LoadNil(a, n) => At(pc + 1, SetNil(r, a, n))
    case GetUpval(a, b) => At(pc + 1, r[a := env.up(b)])
    case Not(a, b) => At(pc + 1, r[a := Bool(!Truthy(Get(r, b)))])
    case Jmp(sj) => if pc + 1 + sj < 0 then Stuck else At(pc + 1 + sj, r)
    case Cmp(_, _, _, k) =>
      (match CmpVerdict(env, c[pc], r)
       case Raises(e) => Raised(e)
       case Says(b) => At(if b == k then pc + 1 else pc + 2, r))
    case Test(a, k) => At(if Truthy(Get(r, a)) == k then pc + 1 else pc + 2, r)
    case TestSet(a, b, k) =>
      if Truthy(Get(r, b)) == k then At(pc + 1, if a == NO_REG then r else r[a := Get(r, b)])
      else At(pc + 2, r)
  }

  /** Steps from `o` until the end of the code or a pc in `x`, the jumps whose destination is still
      unknown. Code under construction only goes forward; a backward step is `Stuck`. */
  function Run(env: Env, c: seq<Instr>, x: set<nat>, o: nat, r: Regs): State
    decreases |c| - o
  {
    if o >= |c| || o in x then At(o, r)
    else
      match Step(env, c, o, r)
      case At(p, r') => if p > o then Run(env, c, x, p, r') else Stuck
      case s => s
  }

  // `n` steps of the machine on finished code; a machine past the end stays there.
  function Steps(env: Env, c: seq<Instr>, n: nat, s: State): State {
    if n == 0 || !s.At? || s.pc >= |c| then s else Steps(env, c, n - 1, Step(env, c, s.pc, s.r))
  }

  // ----- code under construction -----

  // Position `d` is not the second half of a two-instruction group.
  predicate Entry(c: seq<Instr>, d: nat) {
    d <= |c| && (d == 0 || !(IsTest(c[d - 1]) || c[d - 1].LoadKX?))
  }

  predicate InstrOk(c: seq<Instr>, x: set<nat>, lab: nat, p: nat)
    requires p < |c|
  {
    match c[p]
    case Jmp(sj) => p in x || (0 <= sj && p + 1 + sj <= lab <= |c| && Entry(c, p + 1 + sj))
    case LoadKX(_) => p + 1 < |c| && c[p + 1].ExtraArg?
    case ExtraArg(_) => p > 0 && c[p - 1].LoadKX?
    case LFalseSkip(_) => p + 1 < |c| && c[p + 1].LoadTrue?
    case Cmp(_, _, _, _) => p + 1 < |c| && c[p + 1].Jmp?
    case Test(_, _) => p + 1 < |c| && c[p + 1].Jmp?
    case TestSet(a, _, _) => p + 1 < |c| && c[p + 1].Jmp? && (a == NO_REG ==> p + 1 in x)
    case _ => true
  }

  /** Code emitted from `o` on: groups complete, every patched jump going forward to an entry no later
      than the last label `lab`. */
  ghost predicate CodeOk(c: seq<Instr>, x: set<nat>, lab: nat, o: nat) {
    && o <= |c|
    && forall p :: o <= p < |c| ==> InstrOk(c, x, lab, p)
  }

  lemma {:induction false} SetNilAt(r: Regs, from: nat, n: nat, i: nat)
    ensures i in SetNil(r, from, n) <==> i in r || from <= i <= from + n
    ensures from <= i <= from + n ==> SetNil(r, from, n)[i] == Nil
    ensures i in r && !(from <= i <= from + n) ==> SetNil(r, from, n)[i] == r[i]
  {
    if n > 0 { SetNilAt(r, from, n - 1, i); }
  }

  // Setting two touching or overlapping ranges is setting their union.
  lemma SetNilUnion(r: Regs, f1: nat, n1: nat, f2: nat, n2: nat, f: nat, n: nat)
    requires f1 <= f2 <= f1 + n1 + 1 || f2 <= f1 <= f2 + n2 + 1
    requires f == (if f1 < f2 then f1 else f2)
    requires f + n == (if f1 + n1 > f2 + n2 then f1 + n1 else f2 + n2)
    ensures SetNil(SetNil(r, f1, n1), f2, n2) == SetNil(r, f, n)
  {
    forall i: nat
      ensures i in SetNil(SetNil(r, f1, n1), f2, n2) <==> i in SetNil(r, f, n)
      ensures i in SetNil(r, f, n) ==> SetNil(SetNil(r, f1, n1), f2, n2)[i] == SetNil(r, f, n)[i]
    {
      SetNilAt(r, f1, n1, i);
      SetNilAt(SetNil(r, f1, n1), f2, n2, i);
      SetNilAt(r, f, n, i);
    }
  }

  // ----- how Run reacts to changes of the code -----

  // A step inside code under construction goes forward and never past the end.
  lemma StepForward(env: Env, c: seq<Instr>, x: set<nat>, lab: nat, o: nat, r: Regs)
    requires CodeOk(c, x, lab, o) && o < |c| && o !in x
    ensures var s := Step(env, c, o, r); s.At? ==> o < s.pc <= |c| && CodeOk(c, x, lab, s.pc)
  {
    assert InstrOk(c, x, lab, o);
  }

  // Running stops at the end, at a pending jump, or not at a pc at all.
  lemma {:induction false} RunStops(env: Env, c: seq<Instr>, x: set<nat>, lab: nat, o: nat, r: Regs)
    requires CodeOk(c, x, lab, o)
    ensures var s := Run(env, c, x, o, r); s.At? ==> o <= s.pc <= |c| && (s.pc in x || s.pc == |c|)
    decreases |c| - o
  {
    if o < |c| && o !in x {
      StepForward(env, c, x, lab, o, r);
      var s := Step(env, c, o, r);
      if s.At? { RunStops(env, c, x, lab, s.pc, s.r); }
    }
  }

  // Code emitted after the end only changes runs that reach the end.
  lemma {:induction false} RunExtend(env: Env, c: seq<Instr>, c': seq<Instr>, x: set<nat>, x': set<nat>,
                                     lab: nat, o: nat, r: Regs)
    requires CodeOk(c, x, lab, o)
    requires |c| <= |c'|
    requires forall p :: o <= p < |c| ==> c'[p] == c[p] && (p in x' <==> p in x)
    ensures var s := Run(env, c, x, o, r);
      Run(env, c', x', o, r) == if s.At? && s.pc == |c| then Run(env, c', x', |c|, s.r) else s
    decreases |c| - o
  {
    if o < |c| && o !in x {
      StepForward(env, c, x, lab, o, r);
      assert InstrOk(c, x, lab, o);
      var s := Step(env, c, o, r);
      assert Step(env, c', o, r) == s;
      if s.At? { RunExtend(env, c, c', x, x', lab, s.pc, s.r); }
    }
  }

  /** When the last instruction is a LOADNIL and no label follows it, widening its range is the same as
      setting the extra registers after the run. */
  lemma {:induction false} RunWiden(env: Env, c: seq<Instr>, x: set<nat>, lab: nat, o: nat, r: Regs,
                                    from: nat, last: nat, f: nat, l: nat)
    requires CodeOk(c, x, lab, o) && o < |c| && lab < |c| && c[|c| - 1].LoadNil? && |c| - 1 !in x
    requires from <= last && f <= l
    requires var i := c[|c| - 1];
      && (i.a <= from <= i.a + i.n + 1 || from <= i.a <= last + 1)
      && f == (if i.a < from then i.a else from)
      && l == (if i.a + i.n > last then i.a + i.n else last)
    ensures var c' := c[|c| - 1 := LoadNil(f, l - f)];
      var s := Run(env, c, x, o, r);
      Run(env, c', x, o, r) == if s.At? && s.pc == |c| then At(|c|, SetNil(s.r, from, last - from)) else s
    decreases |c| - o
  {
    var i := c[|c| - 1];
    var c' := c[|c| - 1 := LoadNil(f, l - f)];
    if o == |c| - 1 {
      SetNilUnion(r, i.a, i.n, from, last - from, f, l - f);
      var s := Step(env, c, o, r);
      assert Run(env, c, x, s.pc, s.r) == s;
    } else if o !in x {
      StepForward(env, c, x, lab, o, r);
      assert InstrOk(c, x, lab, o);
      var s := Step(env, c, o, r);
      assert Step(env, c', o, r) == s;
      if s.At? { RunWiden(env, c, x, lab, s.pc, s.r, from, last, f, l); }
    }
  }

  // ----- patching -----

  // The jump at `p` is controlled by a test that also produces a value.
  predicate HasValue(c: seq<Instr>, p: nat) {
    0 < p <= |c| && c[p - 1].TestSet?
  }

  // What `patchtestreg` makes of a test.
  function Retarget(i: Instr, reg: nat): Instr {
    if !i.TestSet? then i
    else if reg != NO_REG && reg != i.b then TestSet(reg, i.b, i.k)
    else Test(i.b, i.k)
  }

  function Target(c: seq<Instr>, p: nat, vtarget: int, dtarget: int): int {
    if HasValue(c, p) then vtarget else dtarget
  }

  // The registers once the jump `p` is taken and its test has the destination `reg`.
  function Stored(c: seq<Instr>, p: nat, reg: nat, r: Regs): Regs {
    if HasValue(c, p) && reg != NO_REG && reg != c[p - 1].b then r[reg := Get(r, c[p - 1].b)] else r
  }

  /** Every jump of `l` is sent to its target and every value-producing test that controls one of them
      is given its register; nothing else changes. */
  function PatchedAt(c: seq<Instr>, l: seq<nat>, vtarget: int, reg: nat, dtarget: int, p: nat): Instr
    requires p < |c|
  {
    if p in l then Jmp(Target(c, p, vtarget, dtarget) - (p + 1))
    else if p + 1 in l then Retarget(c[p], reg)
    else c[p]
  }

  ghost predicate PatchedTo(c: seq<Instr>, c': seq<Instr>, l: seq<nat>, vtarget: int, reg: nat, dtarget: int) {
    && |c'| == |c|
    && forall p :: 0 <= p < |c| ==> c'[p] == PatchedAt(c, l, vtarget, reg, dtarget, p)
  }

  // The jumps of `l` wait for a destination, their values for a register.
  ghost predicate Waiting(c: seq<Instr>, x: set<nat>, l: seq<nat>) {
    forall p :: p in l ==> p < |c| && p in x && c[p].Jmp? && (HasValue(c, p) ==> c[p - 1].a == NO_REG)
  }

  ghost predicate Forward(c: seq<Instr>, l: seq<nat>, vtarget: int, dtarget: int, lab: nat) {
    forall p :: p in l ==> p < Target(c, p, vtarget, dtarget) <= lab && Entry(c, Target(c, p, vtarget, dtarget))
  }

  lemma PatchedKinds(c: seq<Instr>, c': seq<Instr>, x: set<nat>, l: seq<nat>, vtarget: int, reg: nat,
                     dtarget: int, q: nat)
    requires PatchedTo(c, c', l, vtarget, reg, dtarget) && Waiting(c, x, l) && q < |c|
    ensures IsTest(c'[q]) <==> IsTest(c[q])
    ensures c[q].Jmp? <==> c'[q].Jmp?
    ensures !IsTest(c[q]) && !c[q].Jmp? ==> c'[q] == c[q]
    ensures c'[q].TestSet? && c'[q].a == NO_REG ==> c[q].TestSet? && c[q].a == NO_REG && q + 1 !in l
  {
    assert c'[q] == PatchedAt(c, l, vtarget, reg, dtarget, q);
    if q in l { assert c[q].Jmp?; }
  }

  // Patching changes a step only where a test takes a patched jump and stores its value.
  lemma StepPatched(env: Env, c: seq<Instr>, c': seq<Instr>, x: set<nat>, lab: nat, o: nat, r: Regs,
                    l: seq<nat>, vtarget: int, reg: nat, dtarget: int)
    requires CodeOk(c, x, lab, o) && o < |c| && o !in x
    requires PatchedTo(c, c', l, vtarget, reg, dtarget) && Waiting(c, x, l)
    ensures var s := Step(env, c, o, r);
      Step(env, c', o, r) ==
        if s.At? && s.pc in l && HasValue(c, s.pc) then At(s.pc, Stored(c, s.pc, reg, s.r)) else s
  {
    assert InstrOk(c, x, lab, o);
    assert c'[o] == PatchedAt(c, l, vtarget, reg, dtarget, o);
    assert o !in l;
    if c[o].LoadKX? { PatchedKinds(c, c', x, l, vtarget, reg, dtarget, o + 1); }
  }

  /** Patching a list resumes at their targets, with their values stored, exactly the runs that stopped
      at a jump of the list. */
  lemma {:induction false} RunPatched(env: Env, c: seq<Instr>, c': seq<Instr>, x: set<nat>, lab: nat, o: nat,
                                      r: Regs, l: seq<nat>, vtarget: int, reg: nat, dtarget: int)
    requires CodeOk(c, x, lab, o)
    requires PatchedTo(c, c', l, vtarget, reg, dtarget) && Waiting(c, x, l)
    requires o in l ==> !HasValue(c, o)
    requires Forward(c, l, vtarget, dtarget, |c|)
    ensures var s := Run(env, c, x, o, r);
      Run(env, c', x - Members(l), o, r) ==
        if s.At? && s.pc in l
        then Run(env, c', x - Members(l), Target(c, s.pc, vtarget, dtarget), Stored(c, s.pc, reg, s.r))
        else s
    decreases |c| - o
  {
    hide CodeOk;
    if o < |c| && o !in x {
      StepForward(env, c, x, lab, o, r);
      StepPatched(env, c, c', x, lab, o, r, l, vtarget, reg, dtarget);
      assert o !in l;
      var s := Step(env, c, o, r);
      if s.At? {
        if s.pc in l && HasValue(c, s.pc) {
          assert c'[s.pc] == PatchedAt(c, l, vtarget, reg, dtarget, s.pc);
        } else {
          RunPatched(env, c, c', x, lab, s.pc, s.r, l, vtarget, reg, dtarget);
        }
      }
    } else if o < |c| && o in l {
      assert c'[o] == PatchedAt(c, l, vtarget, reg, dtarget, o);
    }
  }

  // Patched code is still good code, up to the label its targets respect.
  lemma PatchedOk(c: seq<Instr>, c': seq<Instr>, x: set<nat>, lab: nat, lab': nat, o: nat,
                  l: seq<nat>, vtarget: int, reg: nat, dtarget: int)
    requires CodeOk(c, x, lab, o) && lab <= lab' <= |c|
    requires PatchedTo(c, c', l, vtarget, reg, dtarget) && Waiting(c, x, l)
    requires Forward(c, l, vtarget, dtarget, lab')
    ensures CodeOk(c', x - Members(l), lab', o)
  {
    forall p | o <= p < |c| ensures InstrOk(c', x - Members(l), lab', p) {
      assert InstrOk(c, x, lab, p);
      PatchedKinds(c, c', x, l, vtarget, reg, dtarget, p);
      if p + 1 < |c| { PatchedKinds(c, c', x, l, vtarget, reg, dtarget, p + 1); }
      if p > 0 { PatchedKinds(c, c', x, l, vtarget, reg, dtarget, p - 1); }
      if c[p].Jmp? && p !in x - Members(l) {
        var d := p + 1 + c'[p].sj;
        assert Entry(c, d);
        if d > 0 { PatchedKinds(c, c', x, l, vtarget, reg, dtarget, d - 1); }
      }
    }
  }

  // A run that reaches the end is a number of machine steps.
  lemma {:induction false} RunIsSteps(env: Env, c: seq<Instr>, o: nat, r: Regs) returns (n: nat)
    ensures Steps(env, c, n, At(o, r)) == Run(env, c, {}, o, r) || Run(env, c, {}, o, r).Stuck?
    decreases |c| - o
  {
    n := 0;
    if o < |c| {
      var s := Step(env, c, o, r);
      if s.At? && s.pc > o {
        var m := RunIsSteps(env, c, s.pc, s.r);
        n := m + 1;
      } else {
        n := 1;
      }
    }
  }
}
