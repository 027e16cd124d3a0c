// Lists of pending jumps, threaded through the jumps themselves: each one holds the relative address of
// the next, and the last one points to itself.

module JumpLists {
  import opened Bytecode

  // `getjump`: the successor of `pc` in its list.
  function GetJump(c: seq<Instr>, pc: nat): int
    requires pc < |c| && c[pc].Jmp?
  {
    if c[pc].sj == NO_JUMP then NO_JUMP else pc + 1 + c[pc].sj
  }

  // The list that starts at `head` has exactly the jumps `l`, in this order.
  ghost predicate ListOf(c: seq<Instr>, head: int, l: seq<nat>)
    decreases |l|
  {
    if l == [] then head == NO_JUMP
    else head == l[0] && l[0] < |c| && c[l[0]].Jmp? && ListOf(c, GetJump(c, l[0]), l[1..])
  }

  // A head determines its list.
  lemma {:induction false} ListUnique(c: seq<Instr>, head: int, l: seq<nat>, m: seq<nat>)
    requires ListOf(c, head, l) && ListOf(c, head, m)
    ensures l == m
    decreases |l|
  {
    if l != [] && m != [] {
      ListUnique(c, GetJump(c, l[0]), l[1..], m[1..]);
      assert l == [l[0]] + l[1..] && m == [m[0]] + m[1..];
    }
  }

  // Every tail of a list is the list of its head.
  lemma {:induction false} ListTail(c: seq<Instr>, head: int, l: seq<nat>, i: nat)
    requires ListOf(c, head, l) && i < |l|
    ensures l[i] < |c| && c[l[i]].Jmp? && ListOf(c, l[i], l[i..])
    ensures ListOf(c, GetJump(c, l[i]), l[i + 1..])
    decreases |l|
  {
    if i > 0 {
      ListTail(c, GetJump(c, l[0]), l[1..], i - 1);
      assert l[1..][i - 1..] == l[i..] && l[1..][i..] == l[i + 1..];
    } else {
      assert l[0..] == l;
    }
  }

  /** Lists are acyclic: no jump occurs twice, so no jump of a list points to itself except the end marker. */
  lemma ListNoDup(c: seq<Instr>, head: int, l: seq<nat>)
    requires ListOf(c, head, l)
    ensures forall i, j :: 0 <= i < j < |l| ==> l[i] != l[j]
  {
    forall i, j | 0 <= i < j < |l| ensures l[i] != l[j] {
      if l[i] == l[j] {
        ListTail(c, head, l, i);
        ListTail(c, head, l, j);
        ListUnique(c, l[i], l[i..], l[j..]);
      }
    }
  }

  // Code that keeps the jumps of a list keeps the list.
  lemma {:induction false} ListFrame(c: seq<Instr>, c': seq<Instr>, head: int, l: seq<nat>)
    requires ListOf(c, head, l)
    requires forall p :: p in l && p < |c| ==> p < |c'| && c'[p] == c[p]
    ensures ListOf(c', head, l)
    decreases |l|
  {
    if l != [] {
      assert forall p :: p in l[1..] ==> p in l;
      ListFrame(c, c', GetJump(c, l[0]), l[1..]);
    }
  }

  /** Linking the last jump of `l` to the head of `m` appends the lists; the link is never the end marker,
      because the last jump of `l` is not the first of `m`. */
  lemma {:induction false} ListAppend(c: seq<Instr>, head: int, l: seq<nat>, m: seq<nat>)
    requires ListOf(c, head, l) && l != [] && m != [] && ListOf(c, m[0], m)
    requires forall p :: p in l ==> p !in m
    ensures var last := l[|l| - 1];
      last < |c| && ListOf(c[last := Jmp(m[0] as int - (last + 1))], head, l + m)
    decreases |l|
  {
    var last := l[|l| - 1];
    ListTail(c, head, l, |l| - 1);
    var c' := c[last := Jmp(m[0] as int - (last + 1))];
    ListNoDup(c, head, l);
    if |l| == 1 {
      ListFrame(c, c', m[0], m);
      assert (l + m)[1..] == m;
    } else {
      ListAppend(c, GetJump(c, l[0]), l[1..], m);
      assert c'[l[0]] == c[l[0]];
      assert (l + m)[1..] == l[1..] + m;
    }
  }
}
