// Patching lists, negation, `and`, `or`, comparisons, and the final move of a value to its register.

module Combine {
  import opened Bytecode
  import opened Denotation
  import opened Rules
  import opened Sequences

  // A later label does no harm.
  lemma LabelRule(g: Goal, c: seq<Instr>, x: set<nat>, lab: nat, lab': nat, pt: Point, t: seq<nat>, f: seq<nat>)
    requires Shape(g, c, x, lab, pt, t, f) && lab <= lab' <= |c| - Tail(pt)
    ensures Shape(g, c, x, lab', pt, t, f)
  {
    hide Framed, ListOk;
    forall p | g.origin <= p < |c| ensures InstrOk(c, x, lab', p) { assert InstrOk(c, x, lab, p); }
  }

  // ----- patching a list to the end of the code -----

  lemma PatchedShape(g: Goal, c: seq<Instr>, c': seq<Instr>, x: set<nat>, lab: nat, pt: Point,
                     t: seq<nat>, f: seq<nat>, sense: bool, reg: nat, dt: int)
    requires Shape(g, c, x, lab, pt, t, f) && Tail(pt) == 0
    requires var l := if sense then t else f;
      PatchedTo(c, c', l, |c|, reg, dt) && Forward(c, l, |c|, dt, |c|)
    ensures var l := if sense then t else f;
      Shape(g, c', x - Members(l), |c|, pt, if sense then [] else t, if sense then f else [])
  {
    var l := if sense then t else f;
    var rest := if sense then f else t;
    hide CodeOk, Framed, ListOk;
    PatchedWaiting(g, c, x, |c|, l);
    assert CodeOk(c', x - Members(l), |c|, g.origin) by {
      PatchedOk(c, c', x, lab, |c|, g.origin, l, |c|, reg, dt);
    }
    PatchedFrame(g, c, c', x, l, reg, dt);
    PatchedRest(g, c, c', x, l, rest, reg, dt);
    assert x - Members(l) == g.pending + Members(rest) by {
      PatchedBelow(g, c, x, |c|, l);
    }
    assert ListOk(g, c', x - Members(l), |c|, []) by { EmptyList(g, c', x - Members(l), |c|); }
  }

  lemma EmptyList(g: Goal, c: seq<Instr>, x: set<nat>, end: int)
    ensures ListOk(g, c, x, end, [])
  {
  }

  lemma PatchedWaiting(g: Goal, c: seq<Instr>, x: set<nat>, end: int, l: seq<nat>)
    requires ListOk(g, c, x, end, l)
    ensures Waiting(c, x, l)
    ensures g.origin <= |g.code| ==> g.origin !in l
  {
  }

  lemma PatchedBelow(g: Goal, c: seq<Instr>, x: set<nat>, end: int, l: seq<nat>)
    requires ListOk(g, c, x, end, l) && GoalOk(g)
    ensures Members(l) !! g.pending
  {
  }

  lemma PatchedFrame(g: Goal, c: seq<Instr>, c': seq<Instr>, x: set<nat>, l: seq<nat>, reg: nat, dt: int)
    requires Framed(g.code, c) && ListOk(g, c, x, |c|, l) && PatchedTo(c, c', l, |c|, reg, dt)
    ensures Framed(g.code, c')
  {
    forall p | 0 <= p < |g.code| ensures c'[p] == c[p] {
      assert c'[p] == PatchedAt(c, l, |c|, reg, dt, p);
    }
  }

  // The other list is not touched.
  lemma PatchedRest(g: Goal, c: seq<Instr>, c': seq<Instr>, x: set<nat>, l: seq<nat>, rest: seq<nat>,
                    reg: nat, dt: int)
    requires ListOk(g, c, x, |c|, l) && ListOk(g, c, x, |c|, rest) && PatchedTo(c, c', l, |c|, reg, dt)
    requires forall p :: p in rest ==> p !in l
    ensures ListOk(g, c', x - Members(l), |c|, rest)
    ensures forall p :: p in rest ==> 0 < p < |c| && c'[p - 1] == c[p - 1] && c'[p] == c[p]
  {
    forall p | p in rest ensures 0 < p < |c| && c'[p - 1] == c[p - 1] && c'[p] == c[p] {
      assert c'[p] == PatchedAt(c, l, |c|, reg, dt, p);
      assert c'[p - 1] == PatchedAt(c, l, |c|, reg, dt, p - 1);
      assert c[p].Jmp? && IsTest(c[p - 1]);
      if p + 1 in l { assert IsTest(c[p]); }
    }
  }

  lemma HereDenotes(env: Env, c: seq<Instr>, c': seq<Instr>, t: seq<nat>, f: seq<nat>, base: nat,
                    r: Regs, v: Outcome, s: State, s': State, sense: bool)
    requires Denotes(env, c, |c|, Falls(sense), t, f, base, -1, r, v, s)
    requires |c'| == |c| && Disjoint(t, f)
    requires var l, rest := (if sense then t else f), (if sense then f else t);
      && (forall p :: p in l ==> p < |c|)
      && (forall p :: p in rest ==> 0 < p < |c| && c'[p - 1] == c[p - 1])
      && s' == if s.At? && s.pc in l then At(|c|, s.r) else s
    ensures Denotes(env, c', |c|, Falls(sense), if sense then [] else t, if sense then f else [], base, -1, r, v, s')
  {
  }

  /** `luaK_patchtohere` on the list whose truth is the one the code falls through with: its values are
      not needed. */
  lemma HereRule(g: Goal, kk: seq<Value>, c: seq<Instr>, c': seq<Instr>, x: set<nat>, lab: nat,
                 t: seq<nat>, f: seq<nat>, sense: bool)
    requires Sem(g, kk, c, x, Falls(sense), t, f, -1) && Shape(g, c, x, lab, Falls(sense), t, f)
    requires PatchedTo(c, c', if sense then t else f, |c|, NO_REG, |c|)
    ensures var l := if sense then t else f;
      && Sem(g, kk, c', x - Members(l), Falls(sense), if sense then [] else t, if sense then f else [], -1)
      && Shape(g, c', x - Members(l), |c|, Falls(sense), if sense then [] else t, if sense then f else [])
  {
    var l := if sense then t else f;
    HereForward(g, c, x, lab, l);
    PatchedShape(g, c, c', x, lab, Falls(sense), t, f, sense, NO_REG, |c|);
    var pt, x', t', f' := Falls(sense), x - Members(l), if sense then [] else t, if sense then f else [];
    hide SemAt, Shape;
    forall env: Env, r0: Regs | kk <= env.k ensures SemAt(env, r0, g, c', x', pt, t', f', -1) {
      assert SemAt(env, r0, g, c, x, pt, t, f, -1);
      HereRuleAt(env, r0, g, c, c', x, lab, t, f, sense);
    }
  }

  // The end of the code is a proper destination: no group is left open.
  lemma HereForward(g: Goal, c: seq<Instr>, x: set<nat>, lab: nat, l: seq<nat>)
    requires ListOk(g, c, x, |c|, l) && CodeOk(c, x, lab, g.origin) && g.origin <= |g.code|
    ensures Forward(c, l, |c|, |c|, |c|)
  {
    if |c| > g.origin { assert InstrOk(c, x, lab, |c| - 1); }
  }

  lemma HereRuleAt(env: Env, r0: Regs, g: Goal, c: seq<Instr>, c': seq<Instr>, x: set<nat>, lab: nat,
                   t: seq<nat>, f: seq<nat>, sense: bool)
    requires SemAt(env, r0, g, c, x, Falls(sense), t, f, -1) && Shape(g, c, x, lab, Falls(sense), t, f)
    requires var l := if sense then t else f; PatchedTo(c, c', l, |c|, NO_REG, |c|) && Forward(c, l, |c|, |c|, |c|)
    ensures var l := if sense then t else f;
      SemAt(env, r0, g, c', x - Members(l), Falls(sense), if sense then [] else t, if sense then f else [], -1)
  {
    hide Eval, Run, CodeOk, Framed;
    var l := if sense then t else f;
    var rest := if sense then f else t;
    var x' := x - Members(l);
    PatchedWaiting(g, c, x, |c|, l);
    PatchedRest(g, c, c', x, l, rest, NO_REG, |c|);
    RunPatched(env, c, c', x, lab, g.origin, r0, l, |c|, NO_REG, |c|);
    BeforeStops(env, r0, g);
    assert c[..|c|] == c && c'[..|c'|] == c';
    var before := Run(env, g.code, g.pending, g.origin, r0);
    var s := Run(env, c, x, g.origin, r0);
    var s' := Run(env, c', x', g.origin, r0);
    if s.At? && s.pc in l { RunEnd(env, c', x', s.r); }
    PatchedBelow(g, c, x, |c|, l);
    if before.At? && before.pc == |g.code| {
      HereDenotes(env, c, c', t, f, g.base, before.r, Eval(env, g.expr, before.r), s, s', sense);
    }
  }

  lemma RunEnd(env: Env, c: seq<Instr>, x: set<nat>, r: Regs)
    ensures Run(env, c, x, |c|, r) == At(|c|, r)
  {
  }

  // ----- the final result in a register -----

  // `dt` starts the instructions, at the end of the code, that load the boolean `sense`.
  predicate BoolAt(c: seq<Instr>, dt: int, reg: nat, sense: bool) {
    if sense then dt + 1 == |c| && dt >= 0 && c[dt] == LoadTrue(reg)
    else dt + 2 == |c| && dt >= 0 && c[dt] == LFalseSkip(reg) && c[dt + 1] == LoadTrue(reg)
  }

  // Every jump of `l` carries a value, or there is code to load the boolean instead.
  ghost predicate Loadable(c: seq<Instr>, l: seq<nat>, reg: nat, sense: bool, dt: int) {
    (forall p :: p in l ==> HasValue(c, p)) || BoolAt(c, dt, reg, sense)
  }

  lemma ValueForward(g: Goal, c: seq<Instr>, x: set<nat>, lab: nat, l: seq<nat>, reg: nat, sense: bool, dt: int)
    requires ListOk(g, c, x, |c|, l) && CodeOk(c, x, lab, g.origin) && g.origin <= |g.code|
    requires Loadable(c, l, reg, sense, dt)
    ensures Forward(c, l, |c|, dt, |c|)
  {
    if |c| > g.origin { assert InstrOk(c, x, lab, |c| - 1); }
    forall p | p in l ensures p < Target(c, p, |c|, dt) <= |c| && Entry(c, Target(c, p, |c|, dt)) {
      if !HasValue(c, p) {
        assert BoolAt(c, dt, reg, sense);
        assert c[p].Jmp? && p < dt;
        assert InstrOk(c, x, lab, dt - 1);
      }
    }
  }

  // A run that takes a jump of the patched list ends with the value in the register.
  lemma ValueRuns(env: Env, c: seq<Instr>, c': seq<Instr>, x: set<nat>, x': set<nat>, l: seq<nat>, p: nat,
                  reg: nat, sense: bool, dt: int, r: Regs, v: Value)
    requires PatchedTo(c, c', l, |c|, reg, dt) && Waiting(c, x, l) && p in l
    requires Loadable(c, l, reg, sense, dt) && reg != NO_REG
    requires Forward(c, l, |c|, dt, |c|) && Carried(c, p, r, v, sense)
    requires BoolAt(c, dt, reg, sense) ==> dt !in x'
    ensures var s := Run(env, c', x', Target(c, p, |c|, dt), Stored(c, p, reg, r));
      s.At? && s.pc == |c| && Get(s.r, reg) == v && (forall i: nat :: i != reg ==> Get(s.r, i) == Get(r, i))
  {
    if HasValue(c, p) {
      RunEnd(env, c', x', Stored(c, p, reg, r));
    } else {
      assert BoolAt(c, dt, reg, sense);
      assert c'[dt] == PatchedAt(c, l, |c|, reg, dt, dt);
      assert c'[dt] == c[dt] by {
        assert dt !in l && dt + 1 !in l;
      }
      RunEnd(env, c', x', r[reg := Bool(sense)]);
    }
  }

  lemma ValueDenotes(env: Env, c: seq<Instr>, c': seq<Instr>, reg: nat, t: seq<nat>, f: seq<nat>, base: nat,
                     r: Regs, v: Outcome, s: State, s': State, sense: bool)
    requires Denotes(env, c, |c|, Main(VNonReloc(reg)), t, f, base, reg, r, v, s)
    requires |c'| == |c| && Disjoint(t, f)
    requires var l, rest := (if sense then t else f), (if sense then f else t);
      && (forall p :: p in l ==> p < |c|)
      && (forall p :: p in rest ==> 0 < p < |c| && c'[p - 1] == c[p - 1])
      && (!(s.At? && s.pc in l) ==> s' == s)
      && (s.At? && s.pc in l && v.Val? && Carried(c, s.pc, s.r, v.v, sense) ==>
            s'.At? && s'.pc == |c| && Get(s'.r, reg) == v.v
              && (forall i: nat :: i != reg ==> Get(s'.r, i) == Get(s.r, i)))
    ensures Denotes(env, c', |c|, Main(VNonReloc(reg)), if sense then [] else t, if sense then f else [],
                    base, reg, r, v, s')
  {
  }

  lemma ValueRuleAt(env: Env, r0: Regs, g: Goal, c: seq<Instr>, c': seq<Instr>, x: set<nat>, lab: nat,
                    t: seq<nat>, f: seq<nat>, reg: nat, sense: bool, dt: int)
    requires SemAt(env, r0, g, c, x, Main(VNonReloc(reg)), t, f, reg) && Shape(g, c, x, lab, Main(VNonReloc(reg)), t, f)
    requires var l := if sense then t else f;
      PatchedTo(c, c', l, |c|, reg, dt) && Loadable(c, l, reg, sense, dt) && Forward(c, l, |c|, dt, |c|)
    requires reg != NO_REG
    requires BoolAt(c, dt, reg, sense) ==> dt !in x
    ensures var l := if sense then t else f;
      SemAt(env, r0, g, c', x - Members(l), Main(VNonReloc(reg)), if sense then [] else t, if sense then f else [], reg)
  {
    hide Eval, Run, CodeOk, Framed, Loadable, BoolAt;
    var l := if sense then t else f;
    var rest := if sense then f else t;
    var x' := x - Members(l);
    PatchedWaiting(g, c, x, |c|, l);
    PatchedRest(g, c, c', x, l, rest, reg, dt);
    RunPatched(env, c, c', x, lab, g.origin, r0, l, |c|, reg, dt);
    BeforeStops(env, r0, g);
    assert c[..|c|] == c && c'[..|c'|] == c';
    var before := Run(env, g.code, g.pending, g.origin, r0);
    var s := Run(env, c, x, g.origin, r0);
    var s' := Run(env, c', x', g.origin, r0);
    PatchedBelow(g, c, x, |c|, l);
    if before.At? && before.pc == |g.code| {
      var v := Eval(env, g.expr, before.r);
      if s.At? && s.pc in l && v.Val? && Carried(c, s.pc, s.r, v.v, sense) {
        ValueRuns(env, c, c', x, x', l, s.pc, reg, sense, dt, s.r, v.v);
      }
      ValueDenotes(env, c, c', reg, t, f, g.base, before.r, v, s, s', sense);
    }
  }

  /** `exp2reg` on one list: jumps that carry a value store it in `reg` on their way to the end, the others
      go through the instruction that loads their boolean. */
  lemma ValueRule(g: Goal, kk: seq<Value>, c: seq<Instr>, c': seq<Instr>, x: set<nat>, lab: nat,
                  t: seq<nat>, f: seq<nat>, reg: nat, sense: bool, dt: int)
    requires Sem(g, kk, c, x, Main(VNonReloc(reg)), t, f, reg) && Shape(g, c, x, lab, Main(VNonReloc(reg)), t, f)
    requires var l := if sense then t else f;
      PatchedTo(c, c', l, |c|, reg, dt) && Loadable(c, l, reg, sense, dt)
    requires reg != NO_REG
    requires BoolAt(c, dt, reg, sense) ==> dt !in x
    ensures var l := if sense then t else f;
      && Sem(g, kk, c', x - Members(l), Main(VNonReloc(reg)), if sense then [] else t, if sense then f else [], reg)
      && Shape(g, c', x - Members(l), |c|, Main(VNonReloc(reg)), if sense then [] else t, if sense then f else [])
  {
    var l := if sense then t else f;
    ValueForward(g, c, x, lab, l, reg, sense, dt);
    PatchedShape(g, c, c', x, lab, Main(VNonReloc(reg)), t, f, sense, reg, dt);
    var pt, x', t', f' := Main(VNonReloc(reg)), x - Members(l), if sense then [] else t, if sense then f else [];
    hide SemAt, Shape, Loadable, BoolAt;
    forall env: Env, r0: Regs | kk <= env.k ensures SemAt(env, r0, g, c', x', pt, t', f', reg) {
      assert SemAt(env, r0, g, c, x, pt, t, f, reg);
      ValueRuleAt(env, r0, g, c, c', x, lab, t, f, reg, sense, dt);
    }
  }

  function SkipCode(reg: nat): seq<Instr> {
    [Jmp(2), LFalseSkip(reg), LoadTrue(reg)]
  }

  lemma SkipRun(env: Env, c: seq<Instr>, x: set<nat>, reg: nat, r: Regs)
    requires forall p :: p in x ==> p < |c|
    ensures Run(env, c + SkipCode(reg), x, |c|, r) == At(|c| + 3, r)
  {
    var c' := c + SkipCode(reg);
    assert c'[|c|] == Jmp(2);
    RunEnd(env, c', x, r);
  }

  lemma SkipRuleAt(env: Env, r0: Regs, g: Goal, c: seq<Instr>, x: set<nat>, lab: nat,
                   t: seq<nat>, f: seq<nat>, reg: nat)
    requires SemAt(env, r0, g, c, x, Main(VNonReloc(reg)), t, f, reg) && Shape(g, c, x, lab, Main(VNonReloc(reg)), t, f)
    ensures SemAt(env, r0, g, c + SkipCode(reg), x, Main(VNonReloc(reg)), t, f, reg)
  {
    hide Eval, CodeOk, Framed, Run;
    var c' := c + SkipCode(reg);
    PendingBelow(g, c, x, lab, Main(VNonReloc(reg)), t, f);
    assert c[..|c|] == c && c'[..|c'|] == c';
    BodyExtend(env, r0, g, c, x, lab, Main(VNonReloc(reg)), t, f, SkipCode(reg), x);
    BeforeStops(env, r0, g);
    var before := Run(env, g.code, g.pending, g.origin, r0);
    var s := Run(env, c, x, g.origin, r0);
    var s' := Run(env, c', x, g.origin, r0);
    if s.At? && s.pc == |c| { SkipRun(env, c, x, reg, s.r); }
    if before.At? && before.pc == |g.code| {
      SkipDenotes(env, c, c', reg, t, f, g.base, before.r, Eval(env, g.expr, before.r), s, s');
    }
  }

  lemma SkipDenotes(env: Env, c: seq<Instr>, c': seq<Instr>, reg: nat, t: seq<nat>, f: seq<nat>, base: nat,
                    r: Regs, v: Outcome, s: State, s': State)
    requires Denotes(env, c, |c|, Main(VNonReloc(reg)), t, f, base, reg, r, v, s)
    requires |c| <= |c'| && c'[..|c|] == c
    requires forall p :: p in t || p in f ==> p < |c|
    requires s' == if s.At? && s.pc == |c| then At(|c'|, s.r) else s
    requires s.At? ==> s.pc <= |c|
    ensures Denotes(env, c', |c'|, Main(VNonReloc(reg)), t, f, base, reg, r, v, s')
  {
    forall p | 0 <= p < |c| ensures c'[p] == c[p] { assert c'[..|c|][p] == c[p]; }
    CarriedFrame(c, c', t, f, |c|);
  }

  lemma SkipCodeOk(c: seq<Instr>, x: set<nat>, lab: nat, o: nat, reg: nat)
    requires CodeOk(c, x, lab, o)
    ensures CodeOk(c + SkipCode(reg), x, |c| + 3, o)
  {
    var c' := c + SkipCode(reg);
    forall p | o <= p < |c'| ensures InstrOk(c', x, |c'|, p) {
      if p < |c| { assert InstrOk(c, x, lab, p); }
    }
  }

  lemma ListExtend(g: Goal, c: seq<Instr>, x: set<nat>, l: seq<nat>, d: seq<Instr>)
    requires ListOk(g, c, x, |c|, l)
    ensures ListOk(g, c + d, x, |c + d|, l)
  {
    var c' := c + d;
    forall p | p in l ensures c'[p - 1] == c[p - 1] && c'[p] == c[p] && p < |c| { }
  }

  // The main value jumps around the two boolean loads.
  lemma SkipRule(g: Goal, kk: seq<Value>, c: seq<Instr>, x: set<nat>, lab: nat, t: seq<nat>, f: seq<nat>, reg: nat)
    requires Sem(g, kk, c, x, Main(VNonReloc(reg)), t, f, reg) && Shape(g, c, x, lab, Main(VNonReloc(reg)), t, f)
    ensures var c' := c + SkipCode(reg);
      && Sem(g, kk, c', x, Main(VNonReloc(reg)), t, f, reg)
      && Shape(g, c', x, |c'|, Main(VNonReloc(reg)), t, f)
  {
    var c' := c + SkipCode(reg);
    assert Shape(g, c', x, |c'|, Main(VNonReloc(reg)), t, f) by {
      hide CodeOk, Framed, ListOk;
      SkipCodeOk(c, x, lab, g.origin, reg);
      FramedExtend(g.code, c, SkipCode(reg));
      ListExtend(g, c, x, t, SkipCode(reg));
      ListExtend(g, c, x, f, SkipCode(reg));
    }
    hide SemAt, Shape;
    var pt := Main(VNonReloc(reg));
    forall env: Env, r0: Regs | kk <= env.k ensures SemAt(env, r0, g, c', x, pt, t, f, reg) {
      assert SemAt(env, r0, g, c, x, pt, t, f, reg);
      SkipRuleAt(env, r0, g, c, x, lab, t, f, reg);
    }
  }
}
