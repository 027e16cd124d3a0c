// The final pass over a function's code: jumps to jumps are shortened in place, returns are adjusted.

module JumpThreading {
  import Bytecode

  datatype RetOp = Return | Return0 | Return1 | TailCall

  // A jump, an instruction that leaves the function, or anything else.
  datatype Op =
    | Jmp(sj: int)
    | Ret(op: RetOp, a: nat, b: nat, c: nat, k: bool)
    | Other(id: nat)

  const MAXARG_sJ: int := Bytecode.MAXARG_sJ
  const OFFSET_sJ: int := Bytecode.OFFSET_sJ

  predicate InCode(c: seq<Op>, p: int) {
    0 <= p < |c|
  }

  // Jumps go somewhere in the code.
  ghost predicate Closed(c: seq<Op>) {
    forall p :: 0 <= p < |c| && c[p].Jmp? ==> InCode(c, p + 1 + c[p].sj)
  }

  // Where following at most `n` jumps from `p` leads.
  function Follow(c: seq<Op>, p: int, n: nat): int
    decreases n
  {
    if n == 0 || !InCode(c, p) || !c[p].Jmp? then p else Follow(c, p + 1 + c[p].sj, n - 1)
  }

  // `d` is the first instruction other than a jump that is reached from `p`, after `n` jumps or fewer.
  predicate ReachesIn(c: seq<Op>, p: int, d: int, n: nat) {
    Follow(c, p, n) == d && InCode(c, d) && !c[d].Jmp?
  }

  // Jumps from `p` lead to `d`; when there is no such `d` they go round for ever.
  ghost predicate Reaches(c: seq<Op>, p: int, d: int) {
    exists n: nat :: ReachesIn(c, p, d, n)
  }

  lemma {:induction false} FollowAdd(c: seq<Op>, p: int, m: nat, n: nat)
    ensures Follow(c, Follow(c, p, m), n) == Follow(c, p, m + n)
    decreases m
  {
    if m > 0 && InCode(c, p) && c[p].Jmp? { FollowAdd(c, p + 1 + c[p].sj, m - 1, n); }
  }

  lemma {:induction false} FollowInside(c: seq<Op>, p: int, n: nat)
    requires Closed(c) && InCode(c, p)
    ensures InCode(c, Follow(c, p, n))
    decreases n
  {
    if n > 0 && c[p].Jmp? { FollowInside(c, p + 1 + c[p].sj, n - 1); }
  }

  // The code with the jump at `i` redirected `h` hops ahead.
  function Shortened(c: seq<Op>, i: nat, h: nat): seq<Op>
    requires i < |c|
  {
    c[i := Jmp(Follow(c, i, h) - (i + 1))]
  }

  // Redirecting a jump loses no destination, and none gets further away.
  lemma {:induction false} ShortenedForth(c: seq<Op>, i: nat, h: nat, p: int, d: int, n: nat)
    requires i < |c| && c[i].Jmp? && h > 0 && ReachesIn(c, p, d, n)
    ensures ReachesIn(Shortened(c, i, h), p, d, n)
    decreases n
  {
    var c' := Shortened(c, i, h);
    if InCode(c, p) && c[p].Jmp? {
      if p != i {
        ShortenedForth(c, i, h, p + 1 + c[p].sj, d, n - 1);
      } else if n <= h {
        FollowAdd(c, i, n, h - n);
        assert Follow(c, d, h - n) == d;
        assert Follow(c', d, n - 1) == d;
      } else {
        FollowAdd(c, i, h, n - h);
        ShortenedForth(c, i, h, Follow(c, i, h), d, n - h);
        FollowAdd(c', Follow(c, i, h), n - h, h - 1);
        assert Follow(c', d, h - 1) == d;
      }
    }
  }

  // Redirecting a jump adds no destination.
  lemma {:induction false} ShortenedBack(c: seq<Op>, i: nat, h: nat, p: int, d: int, n: nat)
    requires i < |c| && c[i].Jmp? && ReachesIn(Shortened(c, i, h), p, d, n)
    ensures Reaches(c, p, d)
    decreases n
  {
    var c' := Shortened(c, i, h);
    if InCode(c', p) && c'[p].Jmp? {
      ShortenedBack(c, i, h, p + 1 + c'[p].sj, d, n - 1);
      var m: nat :| ReachesIn(c, p + 1 + c'[p].sj, d, m);
      if p != i {
        assert ReachesIn(c, p, d, m + 1);
      } else {
        FollowAdd(c, i, h, m);
        assert ReachesIn(c, p, d, h + m);
      }
    } else {
      assert ReachesIn(c, p, d, 0);
    }
  }

  /** One redirection, whatever the number of hops: every pc reaches the same instruction as before, or, as
      before, none. */
  lemma ShortenedSame(c: seq<Op>, i: nat, h: nat)
    requires i < |c| && c[i].Jmp? && h > 0
    ensures forall p, d :: Reaches(Shortened(c, i, h), p, d) <==> Reaches(c, p, d)
  {
    var c' := Shortened(c, i, h);
    forall p, d ensures Reaches(c', p, d) <==> Reaches(c, p, d) {
      if Reaches(c, p, d) {
        var n: nat :| ReachesIn(c, p, d, n);
        ShortenedForth(c, i, h, p, d, n);
      }
      if Reaches(c', p, d) {
        var n: nat :| ReachesIn(c', p, d, n);
        ShortenedBack(c, i, h, p, d, n);
      }
    }
  }

  // ----- the pass -----

  /** `finaltarget`: at most 100 jumps are followed, so that the search ends on a loop of jumps. */
  method FinalTarget(code: array<Op>, i: nat) returns (target: int)
    requires i < code.Length && Closed(code[..])
    ensures target == Follow(code[..], i, 100)
  {
    target := i;
    var count := 0;
    while count < 100
      invariant 0 <= count <= 100 && InCode(code[..], target)
      invariant Follow(code[..], i, 100) == Follow(code[..], target, 100 - count)
    {
      if !code[target].Jmp? { break; }
      target := target + 1 + code[target].sj;
      count := count + 1;
    }
  }

  // What the pass makes of an instruction that leaves the function.
  function Adjusted(op: Op, needclose: bool, vararg: bool, numparams: nat): Op
    requires op.Ret?
  {
    if (op.op.Return0? || op.op.Return1?) && !needclose && !vararg then op
    else Ret(if op.op.TailCall? then TailCall else Return, op.a, op.b,
             if vararg then numparams + 1 else op.c, op.k || needclose)
  }

  // ----- what a return does -----

  /** Where `func` is in a function called with `extra` arguments more than it has parameters: a vararg function copies
      itself and its parameters behind all the arguments. */
  function Entered(func: int, extra: nat, vararg: bool, numparams: nat): int {
    if vararg then func + (extra + numparams) + 1 else func
  }

  // Where a return leaves `func`: only the general ones look at C, which says that it was moved.
  function Left(op: Op, func: int, extra: nat): int
    requires op.Ret?
  {
    if op.op.Return0? || op.op.Return1? || op.c == 0 then func else func - (extra + op.c)
  }

  predicate Closes(op: Op)
    requires op.Ret?
  {
    op.k && (op.op.Return? || op.op.TailCall?)
  }

  // How many values are returned, from register A on, or passed by a tail call; -1 stands for all up to the top.
  function Values(op: Op): int
    requires op.Ret?
  {
    if op.op.Return0? then 0 else if op.op.Return1? then 1 else op.b - 1
  }

  // The operands that the code generator gives to the short forms.
  predicate ShortOk(op: Op)
    requires op.Ret?
  {
    (op.op.Return0? ==> op.b == 1 && op.c == 0) && (op.op.Return1? ==> op.b == 2 && op.c == 0)
  }

  /** A return before and after the pass. A vararg function puts `func` back where it was before the call, however many
      extra arguments it got, and any other leaves it as the return did; upvalues are closed if the function needs it;
      the values are the same. */
  ghost predicate Returns(op: Op, op': Op, needclose: bool, vararg: bool, numparams: nat)
    requires op.Ret?
  {
    && op'.Ret? && (op'.op.TailCall? <==> op.op.TailCall?) && op'.a == op.a
    && (vararg ==> forall func: int, extra: nat :: Left(op', Entered(func, extra, vararg, numparams), extra) == func)
    && (!vararg && ShortOk(op) ==> forall func: int, extra: nat :: Left(op', func, extra) == Left(op, func, extra))
    && (Closes(op') <==> needclose || (op.k && (vararg || op.op.Return? || op.op.TailCall?)))
    && (ShortOk(op) ==> Values(op') == Values(op))
  }

  lemma AdjustedReturns(op: Op, needclose: bool, vararg: bool, numparams: nat)
    requires op.Ret?
    ensures Returns(op, Adjusted(op, needclose, vararg, numparams), needclose, vararg, numparams)
  {
  }

  lemma PassedReturns(c: seq<Op>, c': seq<Op>, needclose: bool, vararg: bool, numparams: nat)
    requires Passed(c, c', |c|, needclose, vararg, numparams)
    ensures forall p :: 0 <= p < |c| && c[p].Ret? ==> Returns(c[p], c'[p], needclose, vararg, numparams)
  {
    hide Returns, Adjusted, Reaches, ReachesIn;
    forall p | 0 <= p < |c| && c[p].Ret? ensures Returns(c[p], c'[p], needclose, vararg, numparams) {
      AdjustedReturns(c[p], needclose, vararg, numparams);
    }
  }

  // The code after the pass has dealt with the instructions below `n`.
  ghost predicate Passed(c: seq<Op>, c': seq<Op>, n: nat, needclose: bool, vararg: bool, numparams: nat) {
    && |c'| == |c|
    && (forall p :: 0 <= p < |c| ==> (c'[p].Jmp? <==> c[p].Jmp?))
    && (forall p :: 0 <= p < |c| && !c[p].Jmp? ==>
          c'[p] == if p < n && c[p].Ret? then Adjusted(c[p], needclose, vararg, numparams) else c[p])
    && (forall p, d :: Reaches(c', p, d) <==> Reaches(c, p, d))
    && (forall p, d, m: nat :: ReachesIn(c, p, d, m) ==> ReachesIn(c', p, d, m))
    && (forall p, d :: 0 <= p < n && p < |c| && c[p].Jmp? && ReachesIn(c, p, d, 100) ==> p + 1 + c'[p].sj == d)
  }

  // Changing an instruction other than a jump does not change where jumps lead.
  lemma {:induction false} FollowSame(c: seq<Op>, c': seq<Op>, p: int, n: nat)
    requires |c'| == |c|
    requires forall q :: 0 <= q < |c| ==> (c'[q].Jmp? <==> c[q].Jmp?) && (c[q].Jmp? ==> c'[q] == c[q])
    ensures Follow(c', p, n) == Follow(c, p, n)
    decreases n
  {
    if n > 0 && InCode(c, p) && c[p].Jmp? { FollowSame(c, c', p + 1 + c[p].sj, n - 1); }
  }

  lemma PassedRet(c: seq<Op>, c1: seq<Op>, i: nat, needclose: bool, vararg: bool, numparams: nat)
    requires Passed(c, c1, i, needclose, vararg, numparams) && i < |c| && !c[i].Jmp?
    ensures var op := if c[i].Ret? then Adjusted(c[i], needclose, vararg, numparams) else c[i];
      Passed(c, c1[i := op], i + 1, needclose, vararg, numparams)
  {
    var op := if c[i].Ret? then Adjusted(c[i], needclose, vararg, numparams) else c[i];
    var c2 := c1[i := op];
    forall p, d, m: nat ensures ReachesIn(c2, p, d, m) <==> ReachesIn(c1, p, d, m) { FollowSame(c1, c2, p, m); }
    forall p, d ensures Reaches(c2, p, d) <==> Reaches(c1, p, d) {
      if Reaches(c1, p, d) { var m: nat :| ReachesIn(c1, p, d, m); assert ReachesIn(c2, p, d, m); }
      if Reaches(c2, p, d) { var m: nat :| ReachesIn(c2, p, d, m); assert ReachesIn(c1, p, d, m); }
    }
  }

  lemma PassedJmp(c: seq<Op>, c1: seq<Op>, i: nat, needclose: bool, vararg: bool, numparams: nat)
    requires Passed(c, c1, i, needclose, vararg, numparams) && i < |c| && c[i].Jmp?
    ensures Passed(c, Shortened(c1, i, 100), i + 1, needclose, vararg, numparams)
  {
    var c2 := Shortened(c1, i, 100);
    ShortenedSame(c1, i, 100);
    forall p, d, m: nat | ReachesIn(c, p, d, m) ensures ReachesIn(c2, p, d, m) {
      ShortenedForth(c1, i, 100, p, d, m);
    }
    forall p, d | 0 <= p < i + 1 && c[p].Jmp? && ReachesIn(c, p, d, 100) ensures p + 1 + c2[p].sj == d {
      assert ReachesIn(c1, p, d, 100);
    }
  }

  lemma ShortenedClosed(c: seq<Op>, i: nat, h: nat)
    requires Closed(c) && i < |c| && c[i].Jmp?
    ensures Closed(Shortened(c, i, h))
  {
    FollowInside(c, i, h);
  }

  /** `luaK_finish`, in place: from every pc the same instruction is reached as before the pass, jumps that go
      round for ever still do, jumps within 100 hops of their destination now go straight to it, and only
      returns are otherwise changed: they undo the call as the function needs it. The pass fails only on a jump that
      is too long. */
  method Finish(code: array<Op>, needclose: bool, vararg: bool, numparams: nat) returns (ok: bool)
    requires Closed(code[..])
    modifies code
    ensures ok ==> Passed(old(code[..]), code[..], code.Length, needclose, vararg, numparams)
    ensures ok ==> forall p :: 0 <= p < code.Length && old(code[..])[p].Ret? ==>
      Returns(old(code[..])[p], code[p], needclose, vararg, numparams)
    ensures code.Length <= OFFSET_sJ ==> ok
  {
    var i := 0;
    while i < code.Length
      invariant 0 <= i <= code.Length && Closed(code[..])
      invariant Passed(old(code[..]), code[..], i, needclose, vararg, numparams)
    {
      ghost var c1 := code[..];
      match code[i] {
        case Ret(op, a, b, c, k) =>
          var op' := op;
          if (op.Return0? || op.Return1?) && (needclose || vararg) { op' := Return; }
          if op'.Return? || op'.TailCall? {
            code[i] := Ret(op', a, b, if vararg then numparams + 1 else c, if needclose then true else k);
          }
          assert code[..] == c1[i := Adjusted(c1[i], needclose, vararg, numparams)];
          PassedRet(old(code[..]), c1, i, needclose, vararg, numparams);
        case Jmp(_) =>
          var target := FinalTarget(code, i);
          var offset := target - (i + 1);
          FollowInside(c1, i, 100);
          if !(-OFFSET_sJ <= offset <= MAXARG_sJ - OFFSET_sJ) { return false; }
          code[i] := Jmp(offset);
          assert code[..] == Shortened(c1, i, 100);
          PassedJmp(old(code[..]), c1, i, needclose, vararg, numparams);
          ShortenedClosed(c1, i, 100);
        case Other(_) =>
          assert code[..] == c1[i := c1[i]];
          PassedRet(old(code[..]), c1, i, needclose, vararg, numparams);
      }
      i := i + 1;
    }
    PassedReturns(old(code[..]), code[..], needclose, vararg, numparams);
    return true;
  }

  // ----- what the machine sees -----

  /** The instructions other than jumps that are executed, with the states in which they are, when `f` gives
      the effect of such an instruction on the pc and the state. */
  ghost predicate Executes<S>(c: seq<Op>, f: (int, S) -> (int, S), p: int, s: S, l: seq<(int, S)>)
    decreases |l|
  {
    l == [] ||
    (Reaches(c, p, l[0].0) && l[0].1 == s &&
     var (p', s') := f(l[0].0, s); Executes(c, f, p', s', l[1..]))
  }

  // Finished code executes the same instructions in the same states, for ever.
  lemma {:induction false} ExecutesSame<S>(c: seq<Op>, c': seq<Op>, n: nat, needclose: bool, vararg: bool,
                                           numparams: nat, f: (int, S) -> (int, S), p: int, s: S, l: seq<(int, S)>)
    requires Passed(c, c', n, needclose, vararg, numparams)
    ensures Executes(c', f, p, s, l) <==> Executes(c, f, p, s, l)
    decreases |l|
  {
    if l != [] {
      var (p', s') := f(l[0].0, s);
      ExecutesSame(c, c', n, needclose, vararg, numparams, f, p', s', l[1..]);
    }
  }
}
