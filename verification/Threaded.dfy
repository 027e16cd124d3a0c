// Compiled code after the final pass.

module Threaded {
  import opened Bytecode
  import opened CodeGen
  import opened JumpThreading
  import Meaning
  import opened Operators

  // The function around the code: the code, and an instruction that leaves the function at its end.
  function OpOf(c: seq<Instr>, p: nat): Op
    requires p <= |c|
  {
    if p == |c| then Ret(Return, 0, 0, 0, false) else if c[p].Jmp? then Op.Jmp(c[p].sj) else Other(p)
  }

  function Ops(c: seq<Instr>): (ops: seq<Op>)
    ensures |ops| == |c| + 1
  {
    seq(|c| + 1, p requires 0 <= p <= |c| => OpOf(c, p))
  }

  // The code with the jumps that the pass left.
  function Back(c: seq<Instr>, ops: seq<Op>): (c': seq<Instr>)
    requires |ops| == |c| + 1
    ensures |c'| == |c|
  {
    seq(|c|, p requires 0 <= p < |c| => if ops[p].Jmp? then Instr.Jmp(ops[p].sj) else c[p])
  }

  // The same instructions but for jumps, and the jumps lead to the same places.
  ghost predicate Same(c: seq<Instr>, c': seq<Instr>) {
    && |c'| == |c|
    && (forall p :: 0 <= p < |c| ==> (c'[p].Jmp? <==> c[p].Jmp?) && (c[p].Jmp? || c'[p] == c[p]))
    && forall p, d :: Reaches(Ops(c'), p, d) <==> Reaches(Ops(c), p, d)
  }

  lemma BackSame(c: seq<Instr>, ops: seq<Op>, n: nat, needclose: bool, vararg: bool, numparams: nat)
    requires Passed(Ops(c), ops, n, needclose, vararg, numparams)
    ensures Same(c, Back(c, ops))
  {
    var c' := Back(c, ops);
    forall p | 0 <= p < |c| ensures (c'[p].Jmp? <==> c[p].Jmp?) && (c[p].Jmp? || c'[p] == c[p]) {
      assert ops[p].Jmp? <==> Ops(c)[p].Jmp?;
    }
    forall p, d ensures Reaches(Ops(c'), p, d) <==> Reaches(Ops(c), p, d) {
      BackReaches(c, ops, p, d);
      assert Reaches(ops, p, d) <==> Reaches(Ops(c), p, d);
    }
  }

  lemma BackReaches(c: seq<Instr>, ops: seq<Op>, p: int, d: int)
    requires |ops| == |c| + 1 && !ops[|c|].Jmp?
    requires forall q :: 0 <= q < |c| ==> (ops[q].Jmp? <==> c[q].Jmp?)
    ensures Reaches(Ops(Back(c, ops)), p, d) <==> Reaches(ops, p, d)
  {
    var ops' := Ops(Back(c, ops));
    forall n: nat ensures ReachesIn(ops', p, d, n) <==> ReachesIn(ops, p, d, n) {
      FollowSame(ops, ops', p, n);
    }
    if Reaches(ops, p, d) {
      var n: nat :| ReachesIn(ops, p, d, n);
      assert ReachesIn(ops', p, d, n);
    }
    if Reaches(ops', p, d) {
      var n: nat :| ReachesIn(ops', p, d, n);
      assert ReachesIn(ops, p, d, n);
    }
  }

  // ----- the machine on threaded code -----

  predicate Halted(c: seq<Instr>, s: State) {
    !s.At? || s.pc >= |c|
  }

  lemma {:induction false} StepsAdd(env: Env, c: seq<Instr>, m: nat, n: nat, s: State)
    ensures Steps(env, c, m + n, s) == Steps(env, c, n, Steps(env, c, m, s))
    decreases m
  {
    if m > 0 && !Halted(c, s) {
      StepsAdd(env, c, m - 1, n, Step(env, c, s.pc, s.r));
    }
  }

  // The machine goes along the jumps.
  lemma {:induction false} JumpSteps(env: Env, c: seq<Instr>, p: nat, d: int, m: nat, r: Regs) returns (k: nat)
    requires p <= |c| && ReachesIn(Ops(c), p, d, m)
    ensures 0 <= d <= |c| && Steps(env, c, k, At(p, r)) == At(d, r) && (p < |c| && c[p].Jmp? ==> k > 0)
    decreases m
  {
    if p < |c| && c[p].Jmp? && m > 0 {
      var q := p + 1 + c[p].sj;
      assert Ops(c)[p] == Op.Jmp(c[p].sj) && ReachesIn(Ops(c), q, d, m - 1);
      k := JumpSteps(env, c, q, d, m - 1, r);
      k := k + 1;
    } else {
      k := 0;
    }
  }

  // A machine that halts leaves every chain of jumps.
  lemma {:induction false} JumpsEnd(env: Env, c: seq<Instr>, p: nat, n: nat, r: Regs) returns (d: nat, m: nat)
    requires JumpsInside(c) && p <= |c| && Halted(c, Steps(env, c, n, At(p, r)))
    ensures d <= |c| && m <= n && ReachesIn(Ops(c), p, d, m)
      && Steps(env, c, n, At(p, r)) == Steps(env, c, n - m, At(d, r))
    ensures p < |c| && c[p].Jmp? ==> m > 0
    decreases n
  {
    if p < |c| && c[p].Jmp? {
      var q := p + 1 + c[p].sj;
      d, m := JumpsEnd(env, c, q, n - 1, r);
      m := m + 1;
      assert Ops(c)[p] == Op.Jmp(c[p].sj) && ReachesIn(Ops(c), p, d, m);
    } else {
      d, m := p, 0;
      assert !Ops(c)[p].Jmp?;
    }
  }

  lemma StepSame(env: Env, c: seq<Instr>, c': seq<Instr>, p: nat, r: Regs)
    requires Same(c, c') && p < |c| && !c[p].Jmp?
    ensures Step(env, c', p, r) == Step(env, c, p, r)
  {
    hide Reaches, SetNil;
  }

  /** Threaded code halts where the code did, in the same state. */
  lemma {:induction false} SameRuns(env: Env, c: seq<Instr>, c': seq<Instr>, p: nat, n: nat, r: Regs) returns (n': nat)
    requires Same(c, c') && JumpsInside(c) && Halted(c, Steps(env, c, n, At(p, r)))
    ensures Steps(env, c', n', At(p, r)) == Steps(env, c, n, At(p, r))
    decreases n
  {
    if p >= |c| {
      n' := 0;
    } else if c[p].Jmp? {
      var d, m := JumpsEnd(env, c, p, n, r);
      assert Reaches(Ops(c), p, d);
      var m': nat :| ReachesIn(Ops(c'), p, d, m');
      var k := JumpSteps(env, c', p, d, m', r);
      var rest := SameRuns(env, c, c', d, n - m, r);
      StepsAdd(env, c', k, rest, At(p, r));
      n' := k + rest;
    } else {
      StepSame(env, c, c', p, r);
      var s := Step(env, c, p, r);
      if s.At? {
        var rest := SameRuns(env, c, c', s.pc, n - 1, s.r);
        n' := rest + 1;
      } else {
        n' := 1;
      }
    }
  }

  lemma LeavesHalted(env: Env, a: Expr, r: Regs, c: seq<Instr>, s: State, reg: nat)
    requires Leaves(env, a, r, s, |c|, reg, reg)
    ensures Halted(c, s)
  {
  }

  lemma ThreadedRuns(env: Env, a: Expr, c: seq<Instr>, c': seq<Instr>, r: Regs, reg: nat)
    requires Same(c, c') && JumpsInside(c) && Runs(env, a, c, r, reg)
    ensures Runs(env, a, c', r, reg)
  {
    hide Same, JumpsInside, Leaves, Steps;
    var n: nat :| RunsTo(env, a, c, r, reg, n);
    LeavesHalted(env, a, r, c, Steps(env, c, n, At(0, r)), reg);
    var n' := SameRuns(env, c, c', 0, n, r);
    SameLength(c, c');
    assert RunsTo(env, a, c', r, reg, n');
  }

  lemma SameLength(c: seq<Instr>, c': seq<Instr>)
    requires Same(c, c')
    ensures |c'| == |c|
  {
  }

  lemma InsideClosed(c: seq<Instr>)
    requires JumpsInside(c)
    ensures Closed(Ops(c))
  {
  }

  /** The compiler and the final pass together: the code of an expression, finished, still leaves exactly the
      expression's value in its register, or raises exactly its error, value by value as the manual says. They fail for
      big or deep expressions only. */
  method CompileAndFinish(a: Expr, nvar: nat, needclose: bool, vararg: bool, numparams: nat)
    returns (ok: bool, code: seq<Instr>, k: seq<Value>)
    requires Scoped(a, nvar) && InRange(a) && nvar < MAXREGS - 2
    ensures ok ==> forall env: Env, r: Regs :: k <= env.k ==> Runs(env, a, code, r, nvar)
    ensures ok ==> forall env: Env, r: Regs :: k <= env.k ==>
      Meaning.Delivers(env, code, r, nvar, Meaning.Means(env, a, r))
    ensures 27 * Size(a) + 7 <= Bytecode.OFFSET_sJ && nvar + Depth(a) < MAXREGS ==> ok
  {
    hide Runs, JumpsInside, Passed, Same, Closed, Meaning.Delivers, Meaning.Means;
    var st, c, kk := Compile(a, nvar);
    code, k := c, kk;
    if st.Fail? {
      return false, code, k;
    }
    InsideClosed(c);
    var ops := new Op[|c| + 1](p requires 0 <= p <= |c| => OpOf(c, p));
    assert ops[..] == Ops(c);
    ok := Finish(ops, needclose, vararg, numparams);
    if ok {
      BackSame(c, ops[..], ops.Length, needclose, vararg, numparams);
      code := Back(c, ops[..]);
      forall env: Env, r: Regs | k <= env.k ensures Runs(env, a, code, r, nvar) {
        ThreadedRuns(env, a, c, code, r, nvar);
      }
      forall env: Env, r: Regs | k <= env.k
        ensures Meaning.Delivers(env, code, r, nvar, Meaning.Means(env, a, r)) {
        Meaning.RunsDelivers(env, a, code, r, nvar);
      }
    }
  }
}
