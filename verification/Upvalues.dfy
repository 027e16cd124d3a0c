// Upvalues: the list of those that are open, and the variables that closures share.

module Upvalues {
  import opened Options

  type Value(==, 0)

  // Where the value of an upvalue lives: in the stack while the upvalue is open, in the upvalue itself when it is
  // closed.
  datatype Place = Slot(level: nat) | Own

  // What holds a link of the list: the head, or the `next` field of an upvalue.
  datatype Link = Head | NextOf(uv: nat)

  datatype UpVal = UpVal(v: Place, value: Value, next: Option<nat>, previous: Link)

  // ----- the list -----

  // The upvalues in memory, and the head of the list.
  datatype List = List(upvals: map<nat, UpVal>, head: Option<nat>) {
    predicate Open(u: nat) {
      u in upvals && upvals[u].v.Slot?
    }

    function Level(u: nat): nat
      requires Open(u)
    {
      upvals[u].v.level
    }

    // The open upvalues lie at different slots of a stack of this size.
    ghost predicate Levels(size: nat) {
      && (forall u :: Open(u) ==> Level(u) < size)
      && (forall u, w :: Open(u) && Open(w) && Level(u) == Level(w) ==> u == w)
    }

    // `next` is the first of the list below this level: no open upvalue lies between.
    ghost predicate Follows(level: nat, next: Option<nat>) {
      && (next.Some? ==> Open(next.value) && Level(next.value) < level)
      && forall x :: Open(x) && Level(x) < level ==> next.Some? && Level(x) <= Level(next.value)
    }

    // The list is strictly decreasing by level, and holds every open upvalue.
    ghost predicate Sorted(size: nat) {
      && Follows(size, head)
      && forall u :: Open(u) ==> Follows(Level(u), upvals[u].next)
    }

    // What `pp` points to.
    function Deref(pp: Link): Option<nat>
      requires pp.NextOf? ==> pp.uv in upvals
    {
      match pp
      case Head => head
      case NextOf(p) => upvals[p].next
    }

    // What points to an upvalue of the list is what its `previous` says.
    ghost predicate Linked() {
      && (head.Some? ==> head.value in upvals && upvals[head.value].previous == Head)
      && (forall u :: Open(u) ==> LinkedAt(u))
    }

    predicate LinkedAt(u: nat)
      requires Open(u)
    {
      && (upvals[u].next.Some? ==> upvals[u].next.value in upvals && upvals[upvals[u].next.value].previous == NextOf(u))
      && (upvals[u].previous.NextOf? ==> Open(upvals[u].previous.uv))
      && Deref(upvals[u].previous) == Some(u)
    }

    ghost predicate Ok(size: nat) {
      Levels(size) && Sorted(size) && Linked()
    }

    // `*pp = uv`
    function SetLink(pp: Link, uv: Option<nat>): List
      requires pp.NextOf? ==> pp.uv in upvals
    {
      match pp
      case Head => this.(head := uv)
      case NextOf(p) => this.(upvals := upvals[p := upvals[p].(next := uv)])
    }

    function SetPrevious(uv: Option<nat>, pp: Link): List
      requires uv.Some? ==> uv.value in upvals
    {
      if uv.Some? then this.(upvals := upvals[uv.value := upvals[uv.value].(previous := pp)]) else this
    }
  }

  // A new open upvalue, linked in where `pp` points.
  function Inserted(l: List, pp: Link, uv: nat, level: nat, value: Value): List
    requires pp.NextOf? ==> l.Open(pp.uv)
    requires l.Deref(pp).Some? ==> l.Deref(pp).value in l.upvals
    requires uv !in l.upvals
  {
    var next := l.Deref(pp);
    l.(upvals := l.upvals[uv := UpVal(Slot(level), value, next, pp)]).SetPrevious(next, NextOf(uv)).SetLink(pp,
      Some(uv))
  }

  // Where a new upvalue for a slot belongs.
  ghost predicate Belongs(l: List, pp: Link, level: nat) {
    && (pp.NextOf? ==> l.Open(pp.uv) && l.Level(pp.uv) > level)
    && l.Follows(level, l.Deref(pp))
    && forall u :: l.Open(u) ==> l.Level(u) != level
  }

  ghost predicate Fits(l: List, pp: Link, uv: nat, level: nat, size: nat) {
    l.Ok(size) && Belongs(l, pp, level) && level < size && uv !in l.upvals
  }

  lemma InsertedAt(l: List, pp: Link, uv: nat, level: nat, value: Value, size: nat, u: nat)
    requires Fits(l, pp, uv, level, size)
    ensures l.Deref(pp).Some? ==> l.Deref(pp).value in l.upvals
    ensures var m := Inserted(l, pp, uv, level, value);
      && (u in m.upvals <==> u in l.upvals || u == uv)
      && (u == uv ==> m.upvals[u] == UpVal(Slot(level), value, l.Deref(pp), pp))
      && (u in l.upvals ==>
        && m.upvals[u].v == l.upvals[u].v && m.upvals[u].value == l.upvals[u].value
        && m.upvals[u].next == (if pp == NextOf(u) then Some(uv) else l.upvals[u].next)
        && m.upvals[u].previous == if l.Deref(pp) == Some(u) then NextOf(uv) else l.upvals[u].previous)
      && m.head == (if pp == Head then Some(uv) else l.head)
      && (m.Open(u) <==> l.Open(u) || u == uv) && (m.Open(u) ==> m.Level(u) == if u == uv then level else l.Level(u))
  {
    hide List.Levels, List.Sorted, List.Linked;
  }

  lemma InsertedOpen(l: List, pp: Link, uv: nat, level: nat, value: Value, size: nat)
    requires Fits(l, pp, uv, level, size)
    ensures l.Deref(pp).Some? ==> l.Deref(pp).value in l.upvals
    ensures var m := Inserted(l, pp, uv, level, value);
      forall u :: (m.Open(u) <==> l.Open(u) || u == uv)
                  && (m.Open(u) ==> m.Level(u) == if u == uv then level else l.Level(u))
  {
    hide Inserted, List.Sorted, List.Linked, List.Levels, List.Follows;
    InsertedAt(l, pp, uv, level, value, size, uv);
    var m := Inserted(l, pp, uv, level, value);
    forall u
      ensures (m.Open(u) <==> l.Open(u) || u == uv)
        && (m.Open(u) ==> m.Level(u) == if u == uv then level else l.Level(u))
    {
      InsertedAt(l, pp, uv, level, value, size, u);
    }
  }

  lemma InsertedFollows(l: List, pp: Link, uv: nat, level: nat, value: Value, size: nat, u: nat)
    requires Fits(l, pp, uv, level, size)
    ensures l.Deref(pp).Some? ==> l.Deref(pp).value in l.upvals
    ensures var m := Inserted(l, pp, uv, level, value); m.Open(u) ==> m.Follows(m.Level(u), m.upvals[u].next)
  {
    hide Inserted, List.Linked;
    InsertedOpen(l, pp, uv, level, value, size);
    InsertedAt(l, pp, uv, level, value, size, u);
  }
  lemma InsertedLinked(l: List, pp: Link, uv: nat, level: nat, value: Value, size: nat, u: nat)
    requires Fits(l, pp, uv, level, size)
    ensures l.Deref(pp).Some? ==> l.Deref(pp).value in l.upvals
    ensures var m := Inserted(l, pp, uv, level, value); m.Open(u) ==> m.LinkedAt(u)
  {
    hide Inserted, List.Sorted;
    var m := Inserted(l, pp, uv, level, value);
    InsertedOpen(l, pp, uv, level, value, size);
    InsertedAt(l, pp, uv, level, value, size, u);
    if m.Open(u) && m.upvals[u].next.Some? {
      InsertedAt(l, pp, uv, level, value, size, m.upvals[u].next.value);
    }
    if m.Open(u) && m.upvals[u].previous.NextOf? {
      InsertedAt(l, pp, uv, level, value, size, m.upvals[u].previous.uv);
    }
  }

  lemma InsertedOk(l: List, pp: Link, uv: nat, level: nat, value: Value, size: nat)
    requires Fits(l, pp, uv, level, size)
    ensures l.Deref(pp).Some? ==> l.Deref(pp).value in l.upvals
    ensures Inserted(l, pp, uv, level, value).Ok(size)
  {
    hide Inserted, List.LinkedAt;
    var m := Inserted(l, pp, uv, level, value);
    InsertedOpen(l, pp, uv, level, value, size);
    InsertedAt(l, pp, uv, level, value, size, uv);
    if m.head.Some? {
      InsertedAt(l, pp, uv, level, value, size, m.head.value);
    }
    forall u | m.Open(u) ensures m.LinkedAt(u) && m.Follows(m.Level(u), m.upvals[u].next) {
      InsertedLinked(l, pp, uv, level, value, size, u);
      InsertedFollows(l, pp, uv, level, value, size, u);
    }
  }

  // What stands around an upvalue exists.
  predicate Neighbours(l: List, uv: nat) {
    && uv in l.upvals
    && (l.upvals[uv].previous.NextOf? ==> l.upvals[uv].previous.uv in l.upvals && l.upvals[uv].previous.uv != uv)
    && (l.upvals[uv].next.Some? ==> l.upvals[uv].next.value in l.upvals && l.upvals[uv].next.value != uv)
  }

  // `luaF_unlinkupval`
  function Unlinked(l: List, uv: nat): List
    requires Neighbours(l, uv)
  {
    l.SetLink(l.upvals[uv].previous, l.upvals[uv].next).SetPrevious(l.upvals[uv].next, l.upvals[uv].previous)
  }

  ghost predicate Listed(l: List, uv: nat, size: nat) {
    l.Ok(size) && l.Open(uv)
  }

  lemma Around(l: List, uv: nat, size: nat)
    requires Listed(l, uv, size)
    ensures Neighbours(l, uv)
  {
    assert l.LinkedAt(uv) && l.Follows(l.Level(uv), l.upvals[uv].next);
    if l.upvals[uv].previous.NextOf? {
      var p := l.upvals[uv].previous.uv;
      assert l.Follows(l.Level(p), l.upvals[p].next);
    }
  }

  // The list without an upvalue, which becomes `c`.
  function Closed(l: List, uv: nat, c: UpVal): List
    requires Neighbours(l, uv)
  {
    var m := Unlinked(l, uv);
    m.(upvals := m.upvals[uv := c])
  }

  lemma ClosedAt(l: List, uv: nat, c: UpVal, size: nat, u: nat)
    requires Listed(l, uv, size) && c.v.Own?
    ensures Neighbours(l, uv)
    ensures var m, x := Closed(l, uv, c), l.upvals[uv];
      && (u in m.upvals <==> u in l.upvals)
      && (u == uv ==> m.upvals[u] == c)
      && (u in l.upvals && u != uv ==>
        && m.upvals[u].v == l.upvals[u].v && m.upvals[u].value == l.upvals[u].value
        && m.upvals[u].next == (if x.previous == NextOf(u) then x.next else l.upvals[u].next)
        && m.upvals[u].previous == if x.next == Some(u) then x.previous else l.upvals[u].previous)
      && m.head == (if x.previous == Head then x.next else l.head)
      && (m.Open(u) <==> l.Open(u) && u != uv) && (m.Open(u) ==> m.Level(u) == l.Level(u))
  {
    hide List.Levels, List.Sorted, List.Linked, List.Follows;
    Around(l, uv, size);
  }

  lemma ClosedOpen(l: List, uv: nat, c: UpVal, size: nat)
    requires Listed(l, uv, size) && c.v.Own?
    ensures Neighbours(l, uv)
    ensures var m := Closed(l, uv, c);
      forall u :: (m.Open(u) <==> l.Open(u) && u != uv) && (m.Open(u) ==> m.Level(u) == l.Level(u))
  {
    hide Closed, List.Sorted, List.Linked, List.Levels, List.Follows;
    Around(l, uv, size);
    var m := Closed(l, uv, c);
    forall u ensures (m.Open(u) <==> l.Open(u) && u != uv) && (m.Open(u) ==> m.Level(u) == l.Level(u)) {
      ClosedAt(l, uv, c, size, u);
    }
  }

  lemma ClosedFollows(l: List, uv: nat, c: UpVal, size: nat, u: nat)
    requires Listed(l, uv, size) && c.v.Own?
    ensures Neighbours(l, uv)
    ensures var m := Closed(l, uv, c); m.Open(u) ==> m.Follows(m.Level(u), m.upvals[u].next)
  {
    hide Closed;
    ClosedOpen(l, uv, c, size);
    ClosedAt(l, uv, c, size, u);
    assert l.LinkedAt(uv);
    if l.Open(u) {
      assert l.LinkedAt(u);
    }
  }

  lemma ClosedLinked(l: List, uv: nat, c: UpVal, size: nat, u: nat)
    requires Listed(l, uv, size) && c.v.Own?
    ensures Neighbours(l, uv)
    ensures var m := Closed(l, uv, c); m.Open(u) ==> m.LinkedAt(u)
  {
    hide Closed, List.Sorted;
    Around(l, uv, size);
    var m := Closed(l, uv, c);
    ClosedOpen(l, uv, c, size);
    ClosedAt(l, uv, c, size, u);
    if m.Open(u) && m.upvals[u].next.Some? {
      ClosedAt(l, uv, c, size, m.upvals[u].next.value);
    }
    if m.Open(u) && m.upvals[u].previous.NextOf? {
      ClosedAt(l, uv, c, size, m.upvals[u].previous.uv);
    }
  }

  lemma ClosedHead(l: List, uv: nat, c: UpVal, size: nat)
    requires Listed(l, uv, size) && c.v.Own?
    ensures Neighbours(l, uv)
    ensures var m := Closed(l, uv, c);
      m.Levels(size) && m.Follows(size, m.head)
        && (m.head.Some? ==> m.head.value in m.upvals && m.upvals[m.head.value].previous == Head)
  {
    hide Closed, Neighbours;
    Around(l, uv, size);
    ClosedOpen(l, uv, c, size);
    ClosedAt(l, uv, c, size, uv);
    assert l.LinkedAt(uv) && l.Follows(l.Level(uv), l.upvals[uv].next);
    var m := Closed(l, uv, c);
    if m.head.Some? {
      ClosedAt(l, uv, c, size, m.head.value);
    }
  }

  lemma ClosedOk(l: List, uv: nat, c: UpVal, size: nat)
    requires Listed(l, uv, size) && c.v.Own?
    ensures Neighbours(l, uv)
    ensures Closed(l, uv, c).Ok(size)
  {
    hide Closed, Neighbours, Listed, List.LinkedAt, List.Levels, List.Follows;
    ClosedHead(l, uv, c, size);
    var m := Closed(l, uv, c);
    assert m.Levels(size);
    forall u | m.Open(u) ensures m.LinkedAt(u) && m.Follows(m.Level(u), m.upvals[u].next) {
      ClosedLinked(l, uv, c, size, u);
      ClosedFollows(l, uv, c, size, u);
    }
  }

  // ----- variables -----

  /** What a thread's stack and upvalues stand for: every slot holds a variable, every upvalue is a reference to one,
      and variables have values. Variables are numbered in the order they were made. */
  datatype Variables = Variables(slots: seq<nat>, refers: map<nat, nat>, values: map<nat, Value>, made: nat) {
    // A value is assigned to a variable.
    function Assign(k: nat, x: Value): Variables {
      this.(values := values[k := x])
    }

    // The variable in a slot goes out of scope; the next one there starts with the value that lies there.
    function Leave(level: nat): Variables
      requires level < |slots| && slots[level] in values
    {
      this.(slots := slots[level := made], values := values[made := values[slots[level]]], made := made + 1)
    }

    ghost predicate Ok() {
      && (forall k :: k in values ==> k < made)
      && (forall i :: 0 <= i < |slots| ==> slots[i] in values)
      && (forall u :: u in refers ==> refers[u] in values)
      && (forall i, j :: 0 <= i < j < |slots| ==> slots[i] != slots[j])
      && (forall u, w :: u in refers && w in refers && refers[u] == refers[w] ==> u == w)
    }
  }

  // The value an upvalue leads to.
  function Through(l: List, stack: seq<Value>, u: nat): Value
    requires u in l.upvals && (l.Open(u) ==> l.Level(u) < |stack|)
  {
    match l.upvals[u].v
    case Slot(level) => stack[level]
    case Own => l.upvals[u].value
  }

  // An upvalue refers to the variable of its slot, or, when closed, to a variable that is in no slot any more.
  ghost predicate Refers(l: List, n: Variables, u: nat)
    requires u in l.upvals && u in n.refers
  {
    match l.upvals[u].v
    case Slot(level) => level < |n.slots| && n.refers[u] == n.slots[level]
    case Own => n.refers[u] !in n.slots
  }

  // The stack and the upvalues stand for these variables.
  ghost predicate Represents(l: List, stack: seq<Value>, n: Variables) {
    && n.Ok() && |n.slots| == |stack| && n.refers.Keys == l.upvals.Keys
    && (forall i :: 0 <= i < |stack| ==> n.values[n.slots[i]] == stack[i])
    && (forall u :: u in l.upvals ==> Refers(l, n, u))
    && (forall u :: u in l.upvals ==> n.values[n.refers[u]] == Through(l, stack, u))
  }

  lemma SetSlotRepresents(l: List, stack: seq<Value>, n: Variables, level: nat, x: Value)
    requires Represents(l, stack, n) && level < |stack|
    ensures Represents(l, stack[level := x], n.Assign(n.slots[level], x))
  {
  }

  lemma SetClosedRepresents(l: List, stack: seq<Value>, n: Variables, uv: nat, x: Value)
    requires Represents(l, stack, n) && uv in l.upvals && !l.Open(uv)
    ensures Represents(l.(upvals := l.upvals[uv := l.upvals[uv].(value := x)]), stack, n.Assign(n.refers[uv], x))
  {
  }

  lemma InsertedRefers(l: List, stack: seq<Value>, n: Variables, pp: Link, uv: nat, level: nat, value: Value, u: nat)
    requires Represents(l, stack, n) && Fits(l, pp, uv, level, |stack|) && (u in l.upvals || u == uv)
    ensures l.Deref(pp).Some? ==> l.Deref(pp).value in l.upvals
    ensures var m, o := Inserted(l, pp, uv, level, value), n.(refers := n.refers[uv := n.slots[level]]);
      && u in m.upvals && Refers(m, o, u) && (m.Open(u) ==> m.Level(u) < |stack|)
      && n.values[o.refers[u]] == Through(m, stack, u) && (u != uv ==> n.refers[u] != n.slots[level])
  {
    hide Inserted, List.Sorted, List.Linked;
    InsertedAt(l, pp, uv, level, value, |stack|, u);
    if u != uv {
      assert Refers(l, n, u);
    }
  }

  lemma InsertedRepresents(l: List, stack: seq<Value>, n: Variables, pp: Link, uv: nat, level: nat, value: Value)
    requires Represents(l, stack, n) && Fits(l, pp, uv, level, |stack|)
    ensures l.Deref(pp).Some? ==> l.Deref(pp).value in l.upvals
    ensures Represents(Inserted(l, pp, uv, level, value), stack, n.(refers := n.refers[uv := n.slots[level]]))
  {
    hide Inserted, List.Ok, Through, Refers;
    InsertedAt(l, pp, uv, level, value, |stack|, uv);
    var m, o := Inserted(l, pp, uv, level, value), n.(refers := n.refers[uv := n.slots[level]]);
    forall u | u in m.upvals ensures u in l.upvals || u == uv {
      InsertedAt(l, pp, uv, level, value, |stack|, u);
    }
    forall u | u in l.upvals || u == uv
      ensures u in m.upvals && Refers(m, o, u) && (m.Open(u) ==> m.Level(u) < |stack|)
      ensures n.values[o.refers[u]] == Through(m, stack, u) && (u != uv ==> n.refers[u] != n.slots[level])
    {
      InsertedRefers(l, stack, n, pp, uv, level, value, u);
    }
  }

  // Closing an upvalue whose value moves from its slot takes the slot's variable out of scope and changes nothing else.
  lemma ClosedRepresents(l: List, stack: seq<Value>, n: Variables, uv: nat, c: UpVal)
    requires Represents(l, stack, n) && Listed(l, uv, |stack|) && l.Level(uv) < |stack| && c.v.Own?
      && c.value == stack[l.Level(uv)]
    ensures Neighbours(l, uv)
    ensures Represents(Closed(l, uv, c), stack, n.Leave(l.Level(uv)))
  {
    hide Closed, List.Ok, Neighbours, Through, Refers;
    Around(l, uv, |stack|);
    var m := Closed(l, uv, c);
    forall u | u in m.upvals ensures u in l.upvals {
      ClosedAt(l, uv, c, |stack|, u);
    }
    forall u | u in l.upvals
      ensures u in m.upvals && Refers(m, n.Leave(l.Level(uv)), u) && (m.Open(u) ==> m.Level(u) < |stack|)
      ensures n.values[n.refers[u]] == Through(m, stack, u)
    {
      ClosedRefers(l, stack, n, uv, c, u);
    }
  }

  lemma ClosedRefers(l: List, stack: seq<Value>, n: Variables, uv: nat, c: UpVal, u: nat)
    requires Represents(l, stack, n) && Listed(l, uv, |stack|) && l.Level(uv) < |stack| && c.v.Own?
      && c.value == stack[l.Level(uv)]
    requires u in l.upvals
    ensures Neighbours(l, uv)
    ensures var m := Closed(l, uv, c);
      u in m.upvals && Refers(m, n.Leave(l.Level(uv)), u) && (m.Open(u) ==> m.Level(u) < |stack|)
      && n.values[n.refers[u]] == Through(m, stack, u)
  {
    hide Closed, Neighbours, List.Sorted, List.Linked;
    ClosedAt(l, uv, c, |stack|, u);
    assert Refers(l, n, u) && Refers(l, n, uv);
  }

  ghost predicate State(l: List, stack: seq<Value>, n: Variables, free: nat) {
    l.Ok(|stack|) && Represents(l, stack, n) && forall u :: u in l.upvals ==> u < free
  }

  lemma InsertedState(l: List, stack: seq<Value>, n: Variables, pp: Link, uv: nat, level: nat, value: Value)
    requires State(l, stack, n, uv) && level < |stack| && Belongs(l, pp, level)
    ensures |n.slots| == |stack| && uv !in l.upvals && (pp.NextOf? ==> l.Open(pp.uv))
      && (l.Deref(pp).Some? ==> l.Deref(pp).value in l.upvals)
    ensures var m := Inserted(l, pp, uv, level, value);
      && State(m, stack, n.(refers := n.refers[uv := n.slots[level]]), uv + 1)
      && m.Open(uv) && m.Level(uv) == level
  {
    hide Inserted, List.Ok, Represents;
    SlotRange(l, stack, n, level);
    InsertedOk(l, pp, uv, level, value, |stack|);
    InsertedRepresents(l, stack, n, pp, uv, level, value);
    forall u ensures u in Inserted(l, pp, uv, level, value).upvals ==> u in l.upvals || u == uv {
      InsertedAt(l, pp, uv, level, value, |stack|, u);
    }
    InsertedAt(l, pp, uv, level, value, |stack|, uv);
  }

  // Every open upvalue but the one closed stays, and so do the variables of all.
  lemma ClosedState(l: List, stack: seq<Value>, n: Variables, free: nat, uv: nat, c: UpVal)
    requires State(l, stack, n, free) && l.Open(uv) && l.Level(uv) < |stack| && c.v.Own?
      && c.value == stack[l.Level(uv)]
    ensures |n.slots| == |stack| && n.slots[l.Level(uv)] in n.values && n.made !in n.values && Neighbours(l, uv)
    ensures var m := Closed(l, uv, c);
      && State(m, stack, n.Leave(l.Level(uv)), free) && m.upvals.Keys == l.upvals.Keys
      && forall u :: u in l.upvals && u != uv ==> m.upvals[u].v == l.upvals[u].v
  {
    hide Closed, List.Ok, Represents;
    ClosedOk(l, uv, c, |stack|);
    ClosedRepresents(l, stack, n, uv, c);
    SlotRange(l, stack, n, l.Level(uv));
    var m := Closed(l, uv, c);
    forall u ensures (u in m.upvals <==> u in l.upvals)
      && (u in l.upvals && u != uv ==> m.upvals[u].v == l.upvals[u].v) {
      ClosedAt(l, uv, c, |stack|, u);
    }
  }

  lemma SlotRange(l: List, stack: seq<Value>, n: Variables, level: nat)
    requires Represents(l, stack, n) && level < |stack|
    ensures |n.slots| == |stack| && n.slots[level] in n.values && n.made !in n.values
  {
  }

  // The head has the highest level, and every open upvalue's slot is in the stack.
  lemma HeadHighest(l: List, size: nat)
    requires l.Ok(size)
    ensures l.head.Some? ==> l.Open(l.head.value)
    ensures forall u :: l.Open(u) ==> l.Level(u) < size && l.head.Some? && l.Level(u) <= l.Level(l.head.value)
    ensures forall u, w :: l.Open(u) && l.Open(w) && l.Level(u) == l.Level(w) ==> u == w
  {
    hide List.Linked;
  }

  // One upvalue was closed, `uv`.
  predicate OneClosed(l: List, m: List, uv: nat) {
    && m.upvals.Keys == l.upvals.Keys && l.Open(uv) && m.upvals[uv].v == Own
    && forall u :: u in l.upvals && u != uv ==> m.upvals[u].v == l.upvals[u].v
  }

  lemma HeadDrops(l: List, m: List, size: nat)
    requires l.Ok(size) && m.Ok(size) && l.head.Some? && OneClosed(l, m, l.head.value)
    ensures m.head.Some? ==> m.Open(m.head.value) && m.Level(m.head.value) < l.Level(l.head.value)
  {
    hide List.Ok;
    HeadHighest(l, size);
    HeadHighest(m, size);
    if m.head.Some? {
      assert l.Open(m.head.value) && l.Level(m.head.value) == m.Level(m.head.value);
    }
  }

  // Some upvalues from the level up were closed, each with the end of its slot's variable.
  ghost predicate ClosedDown(l: List, n: Variables, m: List, o: Variables, level: nat) {
    && m.upvals.Keys == l.upvals.Keys && o.refers == n.refers && |o.slots| == |n.slots|
    && (forall u :: u in l.upvals ==> m.upvals[u].v == l.upvals[u].v
                                      || (m.upvals[u].v == Own && l.Open(u) && l.Level(u) >= level))
    && (forall k :: k in n.values ==> k in o.values && o.values[k] == n.values[k])
    && (forall i :: 0 <= i < |n.slots| && i < level ==> o.slots[i] == n.slots[i])
  }

  lemma ClosedDownStep(l0: List, n0: Variables, l: List, n: Variables, m: List, uv: nat, level: nat)
    requires ClosedDown(l0, n0, l, n, level) && OneClosed(l, m, uv) && level <= l.Level(uv) < |n.slots|
    requires n.slots[l.Level(uv)] in n.values && n.made !in n.values
    ensures ClosedDown(l0, n0, m, n.Leave(l.Level(uv)), level)
  {
  }

  lemma AllClosed(l: List, n: Variables, m: List, o: Variables, level: nat)
    requires ClosedDown(l, n, m, o, level) && forall u :: m.Open(u) ==> m.Level(u) < level
    ensures forall u :: u in l.upvals ==> m.upvals[u].v == if l.Open(u) && l.Level(u) >= level then Own
      else l.upvals[u].v
  {
    forall u | u in l.upvals ensures m.upvals[u].v == if l.Open(u) && l.Level(u) >= level then Own else l.upvals[u].v {
      if l.Open(u) && m.upvals[u].v.Slot? {
        assert m.Open(u);
      }
    }
  }

  // After closing from a level up, no upvalue refers to a variable in a slot from there on.
  lemma Unreferred(l: List, stack: seq<Value>, n: Variables, level: nat)
    requires Represents(l, stack, n) && forall u :: l.Open(u) ==> l.Level(u) < level
    ensures |n.slots| == |stack|
    ensures forall u, i :: u in n.refers && level <= i < |stack| ==> n.refers[u] != n.slots[i]
  {
    forall u, i | u in n.refers && level <= i < |stack| ensures n.refers[u] != n.slots[i] {
      assert Refers(l, n, u);
      if l.Open(u) {
        assert l.Level(u) < i;
      }
    }
  }

  // The walk down the list stops where the slot's upvalue is or belongs.
  lemma StopsWhereItBelongs(l: List, pp: Link, level: nat, size: nat)
    requires l.Ok(size) && level < size && (pp.NextOf? ==> l.Open(pp.uv) && l.Level(pp.uv) > level)
    requires var p := l.Deref(pp); p.Some? ==> l.Open(p.value) && l.Level(p.value) < level
    ensures Belongs(l, pp, level)
  {
    hide List.Linked;
    assert l.Follows(if pp.NextOf? then l.Level(pp.uv) else size, l.Deref(pp));
  }

  lemma SetSlotState(l: List, stack: seq<Value>, n: Variables, free: nat, level: nat, x: Value)
    requires State(l, stack, n, free) && level < |stack|
    ensures |n.slots| == |stack| && State(l, stack[level := x], n.Assign(n.slots[level], x), free)
  {
    hide List.Ok;
    SetSlotRepresents(l, stack, n, level, x);
  }

  lemma SetClosedOk(l: List, uv: nat, x: Value, size: nat)
    requires l.Ok(size) && uv in l.upvals && !l.Open(uv)
    ensures l.(upvals := l.upvals[uv := l.upvals[uv].(value := x)]).Ok(size)
  {
    var m := l.(upvals := l.upvals[uv := l.upvals[uv].(value := x)]);
    forall u ensures (m.Open(u) <==> l.Open(u)) && (l.Open(u) ==> m.upvals[u] == l.upvals[u]) {
    }
    forall u | m.Open(u) ensures m.LinkedAt(u) && m.Follows(m.Level(u), m.upvals[u].next) {
      assert l.LinkedAt(u) && l.Follows(l.Level(u), l.upvals[u].next);
    }
  }

  lemma SetClosedState(l: List, stack: seq<Value>, n: Variables, free: nat, uv: nat, x: Value)
    requires State(l, stack, n, free) && uv in l.upvals && !l.Open(uv)
    ensures uv in n.refers
    ensures State(l.(upvals := l.upvals[uv := l.upvals[uv].(value := x)]), stack, n.Assign(n.refers[uv], x), free)
  {
    hide List.Ok;
    SetClosedRepresents(l, stack, n, uv, x);
    SetClosedOk(l, uv, x, |stack|);
  }

  // ----- threads -----

  class LuaState {
    var stack: seq<Value>
    var upvals: map<nat, UpVal>
    var openupval: Option<nat>
    // The next address to be given out.
    var free: nat
    ghost var vars: Variables

    function AsList(): List
      reads `upvals, `openupval
    {
      List(upvals, openupval)
    }

    ghost predicate Valid()
      reads `stack, `upvals, `openupval, `free, `vars
    {
      State(AsList(), stack, vars, free)
    }

    constructor (s: seq<Value>)
      ensures Valid() && stack == s && upvals == map[]
    {
      stack, upvals, openupval, free := s, map[], None, 0;
      vars := Variables(seq(|s|, i => i), map[], map i | 0 <= i < |s| :: s[i], |s|);
    }

    // `newupval`: puts a new upvalue for the slot into the list, where `pp` points.
    method NewUpval(level: nat, pp: Link) returns (uv: nat)
      requires Valid() && level < |stack| && Belongs(AsList(), pp, level)
      modifies `upvals, `openupval, `free, `vars
      ensures Valid() && uv !in old(upvals) && AsList().Open(uv) && AsList().Level(uv) == level
      ensures vars == old(vars).(refers := old(vars.refers)[uv := vars.slots[level]])
    {
      hide State, Belongs;
      var value: Value := *;
      InsertedState(AsList(), stack, vars, pp, free, level, value);
      var next := if pp.NextOf? then upvals[pp.uv].next else openupval;
      uv := free;
      free := free + 1;
      upvals := upvals[uv := UpVal(Slot(level), value, next, pp)];
      if next.Some? {
        upvals := upvals[next.value := upvals[next.value].(previous := NextOf(uv))];
      }
      match pp {
        case Head => openupval := Some(uv);
        case NextOf(p) => upvals := upvals[p := upvals[p].(next := Some(uv))];
      }
      vars := vars.(refers := vars.refers[uv := vars.slots[level]]);
    }

    /** `luaF_findupval`: one upvalue for each slot, whoever asks for it. */
    method FindUpval(level: nat) returns (uv: nat)
      requires Valid() && level < |stack|
      modifies `upvals, `openupval, `free, `vars
      ensures Valid() && AsList().Open(uv) && AsList().Level(uv) == level
      ensures vars == old(vars).(refers := old(vars.refers)[uv := vars.slots[level]])
      ensures uv in old(upvals) ==> upvals == old(upvals) && openupval == old(openupval)
      ensures forall w :: w in old(upvals) && old(vars.refers)[w] == vars.slots[level] ==> uv == w
    {
      var pp, p := Head, openupval;
      while p.Some? && upvals[p.value].v.level >= level
        invariant pp.NextOf? ==> AsList().Open(pp.uv) && AsList().Level(pp.uv) > level
        invariant p == AsList().Deref(pp) && (p.Some? ==> AsList().Open(p.value))
        decreases if p.Some? then AsList().Level(p.value) + 1 else 0
      {
        if upvals[p.value].v.level == level {
          return p.value;
        }
        assert AsList().Follows(AsList().Level(p.value), upvals[p.value].next);
        pp := NextOf(p.value);
        p := upvals[p.value].next;
      }
      StopsWhereItBelongs(AsList(), pp, level, |stack|);
      uv := NewUpval(level, pp);
    }

    // `luaF_unlinkupval`
    method UnlinkUpval(uv: nat)
      requires Neighbours(AsList(), uv)
      modifies `upvals, `openupval
      ensures AsList() == Unlinked(old(AsList()), uv)
    {
      var u := upvals[uv];
      match u.previous {
        case Head => openupval := u.next;
        case NextOf(p) => upvals := upvals[p := upvals[p].(next := u.next)];
      }
      if u.next.Some? {
        upvals := upvals[u.next.value := upvals[u.next.value].(previous := u.previous)];
      }
    }

    // The value moves from the slot into the upvalue.
    method Close(uv: nat)
      requires Valid() && AsList().Open(uv) && AsList().Level(uv) < |stack|
      modifies `upvals, `openupval, `vars
      ensures Valid() && old(|vars.slots| == |stack| && vars.slots[AsList().Level(uv)] in vars.values
                             && vars.made !in vars.values)
      ensures vars == old(vars).Leave(old(AsList().Level(uv)))
      ensures OneClosed(old(AsList()), AsList(), uv)
    {
      hide State;
      var level := upvals[uv].v.level;
      ClosedState(AsList(), stack, vars, free, uv, upvals[uv].(v := Own, value := stack[level]));
      UnlinkUpval(uv);
      upvals := upvals[uv := upvals[uv].(v := Own, value := stack[level])];
      vars := vars.Leave(level);
    }

    // Closes the head of the list.
    method CloseHead(level: nat, ghost l: List, ghost n: Variables)
      requires Valid() && openupval.Some? && AsList().Open(openupval.value) && AsList().Level(openupval.value) >= level
      requires ClosedDown(l, n, AsList(), vars, level)
      modifies `upvals, `openupval, `vars
      ensures Valid() && ClosedDown(l, n, AsList(), vars, level)
      ensures openupval.Some? ==> AsList().Open(openupval.value)
                                  && AsList().Level(openupval.value) < old(AsList().Level(openupval.value))
    {
      hide List.Ok, Represents, ClosedDown, Variables.Leave;
      HeadHighest(AsList(), |stack|);
      Close(openupval.value);
      HeadDrops(old(AsList()), AsList(), |stack|);
      ClosedDownStep(l, n, old(AsList()), old(vars), AsList(), old(openupval.value), level);
    }

    /** `luaF_closeupval`: closes the upvalues from a level up, those and no others. Every upvalue goes on referring to
        its variable, and every variable keeps its value; those of the slots from the level up are now the upvalues'
        alone. */
    method CloseUpval(level: nat)
      requires Valid()
      modifies `upvals, `openupval, `vars
      ensures Valid() && upvals.Keys == old(upvals.Keys)
      ensures forall u :: u in upvals ==>
        upvals[u].v == if old(AsList()).Open(u) && old(AsList()).Level(u) >= level then Own else old(upvals)[u].v
      ensures vars.refers == old(vars.refers)
        && forall k :: k in old(vars.values) ==> k in vars.values && vars.values[k] == old(vars.values)[k]
      ensures |vars.slots| == |stack| == old(|vars.slots|)
        && forall i :: 0 <= i < |stack| && i < level ==> vars.slots[i] == old(vars.slots)[i]
      ensures forall u, i :: u in vars.refers && level <= i < |stack| ==> vars.refers[u] != vars.slots[i]
    {
      hide List.Ok, Represents;
      HeadHighest(AsList(), |stack|);
      while openupval.Some? && upvals[openupval.value].v.level >= level
        invariant Valid() && ClosedDown(old(AsList()), old(vars), AsList(), vars, level)
        invariant openupval.Some? ==> AsList().Open(openupval.value)
        decreases if openupval.Some? then AsList().Level(openupval.value) + 1 else 0
      {
        CloseHead(level, old(AsList()), old(vars));
      }
      HeadHighest(AsList(), |stack|);
      Unreferred(AsList(), stack, vars, level);
      AllClosed(old(AsList()), old(vars), AsList(), vars, level);
    }

    // ----- access -----

    /** The stack holds the values of the variables. */
    method GetSlot(level: nat) returns (x: Value)
      requires Valid() && level < |stack|
      ensures vars.slots[level] in vars.values && x == vars.values[vars.slots[level]]
    {
      x := stack[level];
    }

    method SetSlot(level: nat, x: Value)
      requires Valid() && level < |stack|
      modifies `stack, `vars
      ensures Valid() && |stack| == old(|stack|) && vars == old(vars).Assign(old(vars).slots[level], x)
    {
      SetSlotState(AsList(), stack, vars, free, level, x);
      stack := stack[level := x];
      vars := vars.Assign(vars.slots[level], x);
    }

    /** Reading through an upvalue, open or closed, gives the value of the variable it refers to. */
    method GetUpval(uv: nat) returns (x: Value)
      requires Valid() && uv in upvals
      ensures uv in vars.refers && vars.refers[uv] in vars.values && x == vars.values[vars.refers[uv]]
    {
      assert Refers(AsList(), vars, uv);
      x := match upvals[uv].v case Slot(level) => stack[level] case Own => upvals[uv].value;
      assert x == Through(AsList(), stack, uv);
    }

    /** Writing through an upvalue assigns to the variable: to the slot too, while it is open. */
    method SetUpval(uv: nat, x: Value)
      requires Valid() && uv in upvals
      modifies `stack, `upvals, `vars
      ensures Valid() && |stack| == old(|stack|) && uv in old(vars).refers
        && vars == old(vars).Assign(old(vars).refers[uv], x)
    {
      assert Refers(AsList(), vars, uv);
      match upvals[uv].v {
        case Slot(level) => SetSlot(level, x);
        case Own =>
          SetClosedState(AsList(), stack, vars, free, uv, x);
          upvals := upvals[uv := upvals[uv].(value := x)];
          vars := vars.Assign(vars.refers[uv], x);
      }
    }
  }
}
