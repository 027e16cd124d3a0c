// The list of to-be-closed variables, threaded through the stack by distances of sixteen bits.

module ToBeClosed {
  const MAXDELTA: nat := 65535

  // ----- what the distances stand for -----

  // From `p` down over dummies, whose distance is 0 and stands for the greatest, one comes to `q`.
  ghost predicate Under(d: seq<nat>, p: nat, q: nat)
    decreases p
  {
    p == q || (q + MAXDELTA <= p < |d| && d[p] == 0 && Under(d, p - MAXDELTA, q))
  }

  // The variable below the last one, or the bottom of the stack.
  function Below(levels: seq<nat>): nat
    requires levels != []
  {
    if |levels| == 1 then 0 else levels[|levels| - 2]
  }

  // The list that begins at `top` is this stack of levels, the last one on top.
  ghost predicate Represents(d: seq<nat>, top: nat, levels: seq<nat>)
    decreases |levels|
  {
    if levels == [] then top == 0
    else
      && top == levels[|levels| - 1] && Below(levels) < top < |d|
      && 1 <= d[top] <= MAXDELTA && d[top] <= top && Under(d, top - d[top], Below(levels))
      && Represents(d, Below(levels), levels[..|levels| - 1])
  }

  lemma UnderFrame(d: seq<nat>, e: seq<nat>, p: nat, q: nat)
    requires Under(d, p, q) && p < |d| && |d| == |e| && forall i :: 0 <= i <= p ==> d[i] == e[i]
    ensures Under(e, p, q)
    decreases p
  {
    if p != q {
      UnderFrame(d, e, p - MAXDELTA, q);
    }
  }

  lemma UnderStart(d: seq<nat>, p: nat)
    ensures Under(d, p, p)
  {
  }

  lemma UnderMore(d: seq<nat>, p: nat, q: nat)
    requires MAXDELTA <= p < |d| && d[p] == 0 && Under(d, p - MAXDELTA, q) && q <= p - MAXDELTA
    ensures Under(d, p, q)
  {
  }

  // A whole number of greatest distances above `from`.
  predicate Apart(from: nat, i: int) {
    i >= from && (i - from) % 65535 == 0
  }

  // What is written is dummies, so far apart.
  ghost predicate OnlyDummies(d: seq<nat>, e: seq<nat>, from: nat) {
    |e| == |d| && forall i :: 0 <= i < |d| && e[i] != d[i] ==> e[i] == 0 && Apart(from, i)
  }

  lemma NoDummies(d: seq<nat>, from: nat)
    ensures OnlyDummies(d, d, from) && Apart(from, from)
  {
  }

  lemma DummyMore(d: seq<nat>, e: seq<nat>, from: nat, i: nat)
    requires OnlyDummies(d, e, from) && Apart(from, i) && i + MAXDELTA < |e|
    ensures Apart(from, i + MAXDELTA) && OnlyDummies(d, e[i + MAXDELTA := 0], from)
  {
    assert (i + 65535 - from) % 65535 == 0;
  }

  lemma DummiesBut(d: seq<nat>, e: seq<nat>, from: nat, level: nat, x: nat)
    requires OnlyDummies(d, e, from) && level < |e|
    ensures OnlyDummies(d[level := x], e[level := x], from)
  {
    hide Apart;
  }

  // The list does not depend on what lies above it.
  lemma {:induction false} RepresentsFrame(d: seq<nat>, e: seq<nat>, top: nat, levels: seq<nat>)
    requires Represents(d, top, levels) && |d| == |e| && forall i :: 0 <= i <= top && i < |d| ==> d[i] == e[i]
    ensures Represents(e, top, levels)
    decreases |levels|
  {
    if levels != [] {
      UnderFrame(d, e, top - d[top], Below(levels));
      RepresentsFrame(d, e, Below(levels), levels[..|levels| - 1]);
    }
  }

  /** One list represents one stack of levels only: dummies are never taken for variables. */
  lemma {:induction false} RepresentsOne(d: seq<nat>, top: nat, levels: seq<nat>, other: seq<nat>)
    requires Represents(d, top, levels) && Represents(d, top, other)
    ensures levels == other
    decreases |levels|
  {
    if levels != [] && other != [] {
      var q, r := Below(levels), Below(other);
      LevelReal(d, q, levels[..|levels| - 1]);
      LevelReal(d, r, other[..|other| - 1]);
      UnderOne(d, top - d[top], q, r);
      RepresentsOne(d, q, levels[..|levels| - 1], other[..|other| - 1]);
      assert levels == levels[..|levels| - 1] + [top] && other == other[..|other| - 1] + [top];
    }
  }

  lemma LevelReal(d: seq<nat>, top: nat, levels: seq<nat>)
    requires Represents(d, top, levels)
    ensures top > 0 ==> top < |d| && d[top] != 0
  {
  }

  lemma UnderOne(d: seq<nat>, p: nat, q: nat, r: nat)
    requires Under(d, p, q) && Under(d, p, r)
    requires (q > 0 ==> q < |d| && d[q] != 0) && (r > 0 ==> r < |d| && d[r] != 0)
    ensures q == r
    decreases p
  {
    if p != q && p != r {
      UnderOne(d, p - MAXDELTA, q, r);
    }
  }

  lemma Pushed(d: seq<nat>, top: nat, levels: seq<nat>, level: nat, p: nat)
    requires Represents(d, top, levels) && top <= p < level < |d| && level - p <= MAXDELTA
    requires Under(d, p, top) && d[level] == level - p
    ensures Represents(d, level, levels + [level])
  {
    assert (levels + [level])[..|levels|] == levels;
  }

  // ----- the list -----

  class LuaState {
    // The distances stored with the slots of the stack, and the head of the list.
    const delta: array<nat>
    var tbclist: nat
    ghost var levels: seq<nat>

    ghost predicate Valid()
      reads this, delta
    {
      tbclist < delta.Length && Represents(delta[..], tbclist, levels)
    }

    constructor (size: nat)
      requires size > 0
      ensures Valid() && levels == [] && delta.Length == size && fresh(delta)
    {
      delta := new nat[size](i => 0);
      tbclist, levels := 0, [];
    }

    /** `luaF_newtbcupval`. A false value needs no closing; a value without the method is an error. Distances are of
        sixteen bits, and dummies stand at the greatest of them only. */
    method NewTbc(level: nat, isFalse: bool, closable: bool) returns (ok: bool)
      requires Valid() && tbclist < level < delta.Length
      modifies `tbclist, `levels, delta
      ensures Valid() && ok == (isFalse || closable)
      ensures levels == if isFalse || !closable then old(levels) else old(levels) + [level]
      ensures forall i :: 0 <= i < delta.Length && !(old(tbclist) < i <= level) ==> delta[i] == old(delta[i])
      ensures OnlyDummies(old(delta[..])[level := delta[level]], delta[..], old(tbclist))
      ensures !isFalse && closable ==> 1 <= delta[level] <= 65535 && Apart(old(tbclist), level - delta[level])
    {
      hide Represents, Under, OnlyDummies, Apart;
      NoDummies(delta[..], tbclist);
      assert delta[..][level := delta[level]] == delta[..];
      if isFalse {
        return true;
      }
      if !closable {
        return false;
      }
      UnderStart(delta[..], tbclist);
      ghost var top, d := tbclist, delta[..];
      while level - tbclist > MAXDELTA
        invariant levels == old(levels) && top <= tbclist < level && Under(delta[..], tbclist, top)
        invariant forall i :: 0 <= i < delta.Length && !(top < i <= tbclist) ==> delta[i] == d[i]
        invariant Apart(top, tbclist) && OnlyDummies(d, delta[..], top)
      {
        ghost var e := delta[..];
        tbclist := tbclist + MAXDELTA;
        delta[tbclist] := 0;
        UnderFrame(e, delta[..], tbclist - MAXDELTA, top);
        UnderMore(delta[..], tbclist, top);
        DummyMore(d, e, top, tbclist - MAXDELTA);
        assert delta[..] == e[tbclist := 0];
      }
      ghost var e := delta[..];
      delta[level] := level - tbclist;
      DummiesBut(d, e, top, level, level - tbclist);
      assert delta[..] == e[level := delta[level]];
      UnderFrame(e, delta[..], tbclist, top);
      RepresentsFrame(d, delta[..], top, levels);
      Pushed(delta[..], top, levels, level, tbclist);
      tbclist := level;
      levels := levels + [level];
      return true;
    }

    /** `poptbclist` */
    method PopTbc()
      requires Valid() && levels != []
      modifies `tbclist, `levels
      ensures Valid() && levels == old(levels)[..|old(levels)| - 1]
    {
      ghost var q := Below(levels);
      LevelReal(delta[..], q, levels[..|levels| - 1]);
      var tbc: nat := tbclist - delta[tbclist];
      while tbc > 0 && delta[tbc] == 0
        invariant tbc < delta.Length && Under(delta[..], tbc, q)
      {
        tbc := tbc - MAXDELTA;
      }
      tbclist := tbc;
      levels := levels[..|levels| - 1];
    }

    /** The loop of `luaF_close`: closes the variables from a level up, the last one first. */
    method Close(level: nat) returns (closed: seq<nat>)
      requires Valid() && level > 0
      modifies `tbclist, `levels
      ensures Valid() && (levels == [] || levels[|levels| - 1] < level)
      ensures forall i :: 0 <= i < |closed| ==> closed[i] >= level
      ensures |old(levels)| == |levels| + |closed| && levels == old(levels)[..|levels|]
      ensures forall i :: 0 <= i < |closed| ==> closed[i] == old(levels)[|old(levels)| - 1 - i]
    {
      closed := [];
      while tbclist >= level
        invariant Valid() && |old(levels)| == |levels| + |closed| && levels == old(levels)[..|levels|]
        invariant forall i :: 0 <= i < |closed| ==>
                    closed[i] >= level && closed[i] == old(levels)[|old(levels)| - 1 - i]
        decreases |levels|
      {
        closed := closed + [tbclist];
        PopTbc();
      }
    }
  }
}
