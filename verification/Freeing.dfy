// Closing upvalues and freeing dead objects: what is live keeps its contents.

module Freeing {
  import opened Heap
  import opened Marking
  import opened Mutation
  import opened Sequences

  // The contents of the slot of an open upvalue, as the contents of a closed one.
  function Content(objs: Graph, u: Ref): Obj
    requires u in objs && objs[u].kind.Open?
  {
    var k := objs[u].kind;
    Obj(Cell, if k.th in objs && k.slot in objs[k.th].fields then map[0 := objs[k.th].fields[k.slot]] else map[], {})
  }

  // What the program sees in an object: it cannot tell an open upvalue from a closed one.
  function Seen(objs: Graph, o: Ref): Obj
    requires o in objs
  {
    if objs[o].kind.Open? then Content(objs, o) else objs[o]
  }

  /** What looks the same is the same: an object that is no upvalue is not changed, and through an upvalue, open or
      closed before and after, the same value is read, or none. */
  lemma SeenReads(objs: Graph, objs': Graph, o: Ref)
    requires o in objs && o in objs' && Seen(objs', o) == Seen(objs, o)
    ensures !objs[o].kind.Open? && !objs'[o].kind.Open? ==> objs'[o] == objs[o]
    ensures objs[o].kind.Open? ==> objs'[o].kind.Open? || objs'[o].kind.Cell?
    ensures objs[o].kind.Open? && objs'[o].kind.Cell? && objs[o].kind.th in objs ==>
      var fields, slot := objs[objs[o].kind.th].fields, objs[o].kind.slot;
      if slot in fields then 0 in objs'[o].fields && objs'[o].fields[0] == fields[slot] else 0 !in objs'[o].fields
    ensures objs[o].kind.Open? && objs'[o].kind == objs[o].kind ==>
      var th, slot := objs[o].kind.th, objs[o].kind.slot;
      th in objs && th in objs' ==>
        if slot in objs[th].fields then slot in objs'[th].fields && objs'[th].fields[slot] == objs[th].fields[slot]
        else slot !in objs'[th].fields
  {
    if objs[o].kind.Open? {
      var k := objs[o].kind;
      var seen := Seen(objs, o);
      assert k.th in objs && k.slot in objs[k.th].fields ==>
        0 in seen.fields && seen.fields[0] == objs[k.th].fields[k.slot];
    }
  }

  // The live objects of one graph are there in the other, and look the same.
  ghost predicate Kept(objs: Graph, color: Colors, objs': Graph, color': Colors, white: bool) {
    && (forall o :: o in objs && Live(color, white, o) ==>
          o in objs' && Live(color', white, o) && Seen(objs', o) == Seen(objs, o))
    && (forall o :: o in objs' ==> o in objs)
    && (forall o :: o in objs' && Live(color', white, o) ==> Live(color, white, o))
    && NoneNew(objs, objs')
  }

  // No address appears that was not there.
  ghost predicate NoneNew(objs: Graph, objs': Graph) {
    forall n :: Below(objs, n) ==> Below(objs', n)
  }

  lemma KeptTrans(o0: Graph, c0: Colors, o1: Graph, c1: Colors, o2: Graph, c2: Colors, white: bool)
    requires Kept(o0, c0, o1, c1, white) && Kept(o1, c1, o2, c2, white)
    ensures Kept(o0, c0, o2, c2, white)
  {
    hide Seen, Below, Live;
  }

  // ----- closing an upvalue -----

  // The thread of `u` forgets it.
  function Unlinked(objs: Graph, u: Ref): Graph
    requires u in objs && objs[u].kind.Open? && objs[u].kind.th in objs
  {
    var th := objs[u].kind.th;
    objs[th := Obj(objs[th].kind, objs[th].fields, objs[th].uvs - {u})]
  }

  function Closed(objs: Graph, u: Ref): Graph
    requires u in objs && objs[u].kind.Open? && objs[u].kind.th in objs
  {
    Unlinked(objs, u)[u := Content(objs, u)]
  }

  lemma ClosedTyped(objs: Graph, u: Ref)
    requires Typed(objs) && u in objs && objs[u].kind.Open? && objs[u].kind.th in objs
    ensures Typed(Closed(objs, u))
  {
    var objs' := Closed(objs, u);
    var k := objs[u].kind;
    assert TypedObj(objs, u) && TypedObj(objs, k.th);
    forall p | p in objs' ensures TypedObj(objs', p) {
      assert TypedObj(objs, p);
      if p == u && k.slot in objs[k.th].fields { assert objs[k.th].fields[k.slot] in objs[k.th].fields.Values; }
    }
  }

  lemma ClosedSucc(objs: Graph, u: Ref, p: Ref)
    requires Typed(objs) && u in objs && objs[u].kind.Open? && objs[u].kind.th in objs && p in objs
    ensures Succ(Closed(objs, u), p) <= Succ(objs, p)
    ensures p != objs[u].kind.th ==> Succ(Closed(objs, u), p) == Succ(objs, p)
                                     && Seen(Closed(objs, u), p) == Seen(objs, p)
  {
    assert TypedObj(objs, p) && TypedObj(objs, u);
    if p == u {
      var m := Content(objs, u).fields;
      assert m.Values == if 0 in m then {m[0]} else {};
    } else if objs[p].kind.Open? {
      assert TypedObj(objs, objs[p].kind.th);
    }
  }

  lemma ClosedNone(objs: Graph, u: Ref)
    requires Typed(objs) && u in objs && objs[u].kind.Open? && objs[u].kind.th in objs
    ensures NoneNew(objs, Closed(objs, u))
  {
    var objs' := Closed(objs, u);
    assert objs[u].kind.slot in objs[objs[u].kind.th].fields ==>
      objs[objs[u].kind.th].fields[objs[u].kind.slot] in objs[objs[u].kind.th].fields.Values;
    forall o, v | o in objs' && v in objs'[o].fields.Values
      ensures o in objs && exists p :: p in objs && v in objs[p].fields.Values
    {
      assert o in objs;
      if o != u { assert v in objs[o].fields.Values; }
    }
  }

  lemma ClosedShape(objs: Graph, u: Ref)
    requires Typed(objs) && u in objs && objs[u].kind.Open? && objs[u].kind.th in objs
    ensures Typed(Closed(objs, u)) && Closed(objs, u).Keys == objs.Keys
    ensures (forall p :: p in objs && p != u ==> Closed(objs, u)[p].kind == objs[p].kind)
      && Closed(objs, u)[u].kind.Cell?
    ensures forall p :: p in objs ==> Succ(Closed(objs, u), p) <= Succ(objs, p)
    ensures forall p :: p in objs && p != objs[u].kind.th ==> Seen(Closed(objs, u), p) == Seen(objs, p)
    ensures NoneNew(objs, Closed(objs, u))
  {
    ClosedTyped(objs, u);
    ClosedNone(objs, u);
    hide Typed, Succ, Seen;
    forall p | p in objs
      ensures Succ(Closed(objs, u), p) <= Succ(objs, p)
      ensures p != objs[u].kind.th ==> Seen(Closed(objs, u), p) == Seen(objs, p)
    {
      ClosedSucc(objs, u, p);
    }
  }

  lemma CloseTri(objs: Graph, color: Colors, color': Colors, white: bool, fixed: set<Ref>, alive: set<Ref>,
                 gray: seq<Ref>, extra: set<Ref>, u: Ref)
    requires Tri(objs, color, white, fixed, alive, gray, extra, {})
    requires u in objs && objs[u].kind.Open? && objs[u].kind.th in objs && u in color
    requires color' == if color[u].White? then color else color[u := Black]
    ensures Tri(Closed(objs, u), color', white, fixed, alive, gray, extra, {u})
  {
    ClosedShape(objs, u);
    hide Closed, Seen, BlackOk, GrayOk, WaitOk, NoDead, NoDangling, AliveClosed, MarkedAlive, FixedOk, OpenNotBlack;
    CloseTriAt(objs, Closed(objs, u), color, color', white, fixed, alive, gray, extra, u);
  }

  lemma CloseTriAt(objs: Graph, objs': Graph, color: Colors, color': Colors, white: bool, fixed: set<Ref>,
                   alive: set<Ref>,
                   gray: seq<Ref>, extra: set<Ref>, u: Ref)
    requires Tri(objs, color, white, fixed, alive, gray, extra, {}) && Typed(objs')
    requires u in objs && objs[u].kind.Open? && u in color
    requires color' == if color[u].White? then color else color[u := Black]
    requires objs'.Keys == objs.Keys && (forall p :: p in objs ==> Succ(objs', p) <= Succ(objs, p))
    requires (forall p :: p in objs && p != u ==> objs'[p].kind == objs[p].kind) && objs'[u].kind.Cell?
    ensures Tri(objs', color', white, fixed, alive, gray, extra, {u})
  {
    hide Typed, Succ, GraphOk;
    CloseGraphAt(objs, objs', color, color', white, fixed, alive, u);
  }

  lemma CloseGraphAt(objs: Graph, objs': Graph, color: Colors, color': Colors, white: bool, fixed: set<Ref>,
                     alive: set<Ref>, u: Ref)
    requires GraphOk(objs, color, white, fixed, alive) && Typed(objs')
    requires u in objs && objs[u].kind.Open? && u in color
    requires color' == if color[u].White? then color else color[u := Black]
    requires objs'.Keys == objs.Keys && (forall p :: p in objs ==> Succ(objs', p) <= Succ(objs, p))
    requires (forall p :: p in objs && p != u ==> objs'[p].kind == objs[p].kind) && objs'[u].kind.Cell?
    ensures GraphOk(objs', color', white, fixed, alive) && color.Keys == objs.Keys == color'.Keys
    ensures forall p :: Marked(color', p) == Marked(color, p)
  {
    hide Typed, Succ;
    assert forall p :: Marked(color', p) == Marked(color, p);
  }

  lemma CloseSweep(objs: Graph, color: Colors, color': Colors, white: bool, fixed: set<Ref>, alive: set<Ref>,
                   pending: set<Ref>, u: Ref, c: Color)
    requires Sweep(objs, color, white, fixed, alive, pending)
    requires u in objs && objs[u].kind.Open? && objs[u].kind.th in objs && u in color
    requires color' == color[u := c] && (c == color[u] || (!color[u].White? && (c.Black? || c == White(white))))
    ensures Sweep(Closed(objs, u), color', white, fixed, alive, pending)
    ensures !Live(color, white, objs[u].kind.th) ==> Kept(objs, color, Closed(objs, u), color', white)
  {
    ClosedShape(objs, u);
    hide Closed, Typed, Succ, Seen, Swept, LiveAlive, LiveClosed, AliveClosed;
    assert forall p :: Live(color', white, p) == Live(color, white, p);
    CloseSweepAt(objs, Closed(objs, u), color, color', white, fixed, alive, pending, u, c);
    if !Live(color, white, objs[u].kind.th) {
      CloseKept(objs, Closed(objs, u), color, color', white, objs[u].kind.th);
    }
  }

  lemma CloseKept(objs: Graph, objs': Graph, color: Colors, color': Colors, white: bool, th: Ref)
    requires objs'.Keys == objs.Keys && !Live(color, white, th)
    requires forall p :: Live(color', white, p) == Live(color, white, p)
    requires forall p :: p in objs && p != th ==> Seen(objs', p) == Seen(objs, p)
    requires NoneNew(objs, objs')
    ensures Kept(objs, color, objs', color', white)
  {
    hide Seen, Live, NoneNew;
  }

  lemma CloseSweepAt(objs: Graph, objs': Graph, color: Colors, color': Colors, white: bool, fixed: set<Ref>,
                     alive: set<Ref>,
                     pending: set<Ref>, u: Ref, c: Color)
    requires Sweep(objs, color, white, fixed, alive, pending) && Typed(objs')
    requires u in objs && objs[u].kind.Open? && u in color
    requires color' == color[u := c] && (c == color[u] || (!color[u].White? && (c.Black? || c == White(white))))
    requires forall p :: Live(color', white, p) == Live(color, white, p)
    requires objs'.Keys == objs.Keys && (forall p :: p in objs ==> Succ(objs', p) <= Succ(objs, p))
    requires forall p :: p in objs && p != u ==> objs'[p].kind == objs[p].kind
    ensures Sweep(objs', color', white, fixed, alive, pending)
  {
    hide Typed, Succ, Live;
  }

  // ----- freeing -----

  function Freed(objs: Graph, o: Ref): Graph
    requires o in objs && (objs[o].kind.Open? ==> objs[o].kind.th in objs)
  {
    if objs[o].kind.Open? then Unlinked(objs, o) - {o} else objs - {o}
  }

  lemma FreedTyped(objs: Graph, o: Ref)
    requires Typed(objs) && o in objs && (objs[o].kind.Open? ==> objs[o].kind.th in objs)
      && (objs[o].kind.Thread? ==> objs[o].uvs == {})
    ensures Typed(Freed(objs, o))
  {
    var objs' := Freed(objs, o);
    assert TypedObj(objs, o);
    forall p | p in objs' ensures TypedObj(objs', p) {
      assert TypedObj(objs, p);
      assert objs'[p].fields == objs[p].fields;
    }
  }

  lemma FreedSucc(objs: Graph, o: Ref, p: Ref)
    requires Typed(objs) && o in objs && (objs[o].kind.Open? ==> objs[o].kind.th in objs)
      && (objs[o].kind.Thread? ==> objs[o].uvs == {})
    requires p in objs && p != o
    ensures Succ(Freed(objs, o), p) <= Succ(objs, p)
    ensures o !in Succ(objs, p) ==> Seen(Freed(objs, o), p) == Seen(objs, p)
  {
    assert TypedObj(objs, p) && TypedObj(objs, o);
    if objs[p].kind.Open? { assert TypedObj(objs, objs[p].kind.th); }
  }

  lemma FreedNone(objs: Graph, o: Ref)
    requires o in objs && (objs[o].kind.Open? ==> objs[o].kind.th in objs)
    ensures NoneNew(objs, Freed(objs, o))
  {
    var objs' := Freed(objs, o);
    assert forall p :: p in objs' ==> p in objs && objs'[p].fields == objs[p].fields;
  }

  lemma FreedShape(objs: Graph, o: Ref)
    requires Typed(objs) && o in objs && (objs[o].kind.Open? ==> objs[o].kind.th in objs)
      && (objs[o].kind.Thread? ==> objs[o].uvs == {})
    ensures Typed(Freed(objs, o)) && Freed(objs, o).Keys == objs.Keys - {o}
    ensures forall p :: p in Freed(objs, o) ==> Freed(objs, o)[p].kind == objs[p].kind
    ensures forall p :: p in objs && p != o ==> Succ(Freed(objs, o), p) <= Succ(objs, p)
    ensures forall p :: p in objs && p != o && o !in Succ(objs, p) ==> Seen(Freed(objs, o), p) == Seen(objs, p)
    ensures NoneNew(objs, Freed(objs, o))
  {
    FreedTyped(objs, o);
    FreedNone(objs, o);
    hide Typed, Succ, Seen;
    forall p | p in objs && p != o
      ensures Succ(Freed(objs, o), p) <= Succ(objs, p)
      ensures o !in Succ(objs, p) ==> Seen(Freed(objs, o), p) == Seen(objs, p)
    {
      FreedSucc(objs, o, p);
    }
  }

  lemma FreeSweep(objs: Graph, color: Colors, white: bool, fixed: set<Ref>, alive: set<Ref>, pending: set<Ref>, o: Ref)
    requires Sweep(objs, color, white, fixed, alive, pending)
    requires o in objs && (objs[o].kind.Open? ==> objs[o].kind.th in objs)
      && (objs[o].kind.Thread? ==> objs[o].uvs == {})
    requires !Live(color, white, o)
    ensures Sweep(Freed(objs, o), color - {o}, white, fixed, alive, pending)
    ensures Kept(objs, color, Freed(objs, o), color - {o}, white)
  {
    FreedShape(objs, o);
    hide Typed, Succ, Seen, Freed;
    FreeSweepAt(objs, Freed(objs, o), color, white, fixed, alive, pending, o);
  }

  lemma FreeSweepAt(objs: Graph, objs': Graph, color: Colors, white: bool, fixed: set<Ref>, alive: set<Ref>,
                    pending: set<Ref>, o: Ref)
    requires Sweep(objs, color, white, fixed, alive, pending) && o in objs && !Live(color, white, o)
    requires Typed(objs') && objs'.Keys == objs.Keys - {o}
    requires forall p :: p in objs' ==> objs'[p].kind == objs[p].kind
    requires forall p :: p in objs && p != o ==> Succ(objs', p) <= Succ(objs, p)
    requires forall p :: p in objs && p != o && o !in Succ(objs, p) ==> Seen(objs', p) == Seen(objs, p)
    requires NoneNew(objs, objs')
    ensures Sweep(objs', color - {o}, white, fixed, alive, pending)
    ensures Kept(objs, color, objs', color - {o}, white)
  {
    hide Typed, Succ, Seen, NoneNew;
    assert forall p :: Live(color - {o}, white, p) <==> p != o && Live(color, white, p);
  }

  // A live object swept.
  lemma WhitenSweep(objs: Graph, color: Colors, white: bool, fixed: set<Ref>, alive: set<Ref>, pending: set<Ref>,
                    pending': set<Ref>, o: Ref)
    requires Sweep(objs, color, white, fixed, alive, pending) && o in objs && o !in fixed && Live(color, white, o)
    requires pending <= pending' + {o}
    ensures Sweep(objs, color[o := White(white)], white, fixed, alive, pending')
    ensures Kept(objs, color, objs, color[o := White(white)], white)
  {
    hide Typed, Succ, Seen;
    assert forall p :: Live(color[o := White(white)], white, p) == Live(color, white, p);
  }

  // A dead object that is no longer there is not to be swept.
  lemma GoneSweep(objs: Graph, color: Colors, white: bool, fixed: set<Ref>, alive: set<Ref>, pending: set<Ref>,
                  pending': set<Ref>, o: Ref)
    requires Sweep(objs, color, white, fixed, alive, pending) && o !in objs && pending <= pending' + {o}
    ensures Sweep(objs, color, white, fixed, alive, pending')
  {
    hide Typed, Succ;
  }

  // Exchanging the whites: the unmarked objects are dead from now on.
  lemma Flip(objs: Graph, color: Colors, white: bool, fixed: set<Ref>, alive: set<Ref>)
    requires Tri(objs, color, white, fixed, alive, [], {}, {}) && OpenOk(objs, color, {})
    ensures Sweep(objs, color, !white, fixed, alive, objs.Keys - fixed)
    ensures forall o :: Live(color, !white, o) <==> Marked(color, o)
  {
    forall o ensures Live(color, !white, o) <==> Marked(color, o) {}
    forall o, v | o in objs && Live(color, !white, o) && v in Succ(objs, o)
      ensures v in objs && Live(color, !white, v) {
      MarkedClosed(objs, color, white, fixed, alive, o, v);
    }
    hide Typed, Succ, OpenOk, BlackOk;
  }

  // Live threads with open upvalues are listed, and no dead ones.
  ghost predicate TwupsLive(objs: Graph, color: Colors, white: bool, twups: seq<Ref>) {
    && NoDup(twups)
    && (forall th :: th in twups ==> th in objs && objs[th].kind.Thread? && Live(color, white, th))
    && (forall th :: th in objs && objs[th].kind.Thread? && Live(color, white, th) && objs[th].uvs != {} ==>
          th in twups)
  }

  lemma FlipTwups(objs: Graph, color: Colors, white: bool, fixed: set<Ref>, alive: set<Ref>, twups: seq<Ref>)
    requires Tri(objs, color, white, fixed, alive, [], {}, {})
    requires TwupsBlack(objs, color, twups) && TwupsMarked(color, twups)
    ensures TwupsLive(objs, color, !white, twups)
  {
    NoGrayThread(objs, color, white, fixed, alive);
    hide Typed, NoDangling, AliveClosed, BlackOk, GrayOk, WaitOk;
  }

  lemma KeptTwups(objs: Graph, color: Colors, objs': Graph, color': Colors, white: bool, twups: seq<Ref>)
    requires Kept(objs, color, objs', color', white) && TwupsLive(objs, color, white, twups)
    ensures TwupsLive(objs', color', white, twups)
  {
    forall th | th in objs && Live(color, white, th)
                && (objs[th].kind.Thread? || (th in objs' && objs'[th].kind.Thread?))
      ensures th in objs' && Live(color', white, th) && objs'[th] == objs[th]
    {
      assert Seen(objs', th) == Seen(objs, th);
    }
  }

  lemma KeptRefl(objs: Graph, color: Colors, white: bool)
    ensures Kept(objs, color, objs, color, white)
  {
  }

  lemma DeadUpvalues(objs: Graph, color: Colors, white: bool, fixed: set<Ref>, alive: set<Ref>, pending: set<Ref>,
                     u: Ref)
    requires Sweep(objs, color, white, fixed, alive, pending) && u in objs && objs[u].kind.Open?
    ensures u in color && objs[u].kind.th in objs && objs[objs[u].kind.th].kind.Thread?
      && u in objs[objs[u].kind.th].uvs
    ensures !color[u].White? && objs[u].kind.slot in objs[objs[u].kind.th].fields ==>
              objs[objs[u].kind.th].fields[objs[u].kind.slot] in color
  {
    assert TypedObj(objs, u);
    if !color[u].White? && objs[u].kind.slot in objs[objs[u].kind.th].fields {
      assert objs[objs[u].kind.th].fields[objs[u].kind.slot] in Succ(objs, u);
    }
  }

  lemma ThreadUpvalue(objs: Graph, th: Ref, u: Ref)
    requires Typed(objs) && th in objs && objs[th].kind.Thread? && u in objs[th].uvs
    ensures u in objs && objs[u].kind.Open? && objs[u].kind.th == th
  {
    assert TypedObj(objs, th);
  }

  ghost predicate AllLive(l: seq<Ref>, color: Colors, white: bool) {
    forall o :: o in l ==> Live(color, white, o)
  }

  // Between two cycles everything is white, and marking can start.
  lemma StartWhite(objs: Graph, color: Colors, white: bool, fixed: set<Ref>, alive: set<Ref>)
    requires Sweep(objs, color, white, fixed, alive, {})
    ensures forall o :: o in color ==> Live(color, white, o) && (o !in fixed ==> color[o] == White(white))
  {
    hide Typed, Succ;
  }

  lemma StartReach(objs: Graph, color: Colors, white: bool, fixed: set<Ref>, alive: set<Ref>, roots: set<Ref>)
    requires Sweep(objs, color, white, fixed, alive, {}) && roots <= objs.Keys
    ensures AliveClosed(objs, ReachSet(objs, roots)) && roots <= ReachSet(objs, roots)
  {
    hide Typed, Succ;
    StartWhite(objs, color, white, fixed, alive);
    var s := ReachSet(objs, roots);
    forall o, v | o in s && v in Succ(objs, o) ensures v in s {
      SuccReachable(objs, roots, o, v);
      assert Live(color, white, o);
    }
    forall r | r in roots ensures r in s { RootReachable(objs, roots, r); }
  }

  lemma StartTri(objs: Graph, color: Colors, white: bool, fixed: set<Ref>, alive: set<Ref>, roots: set<Ref>)
    requires Sweep(objs, color, white, fixed, alive, {}) && roots <= objs.Keys
    ensures Tri(objs, color, white, fixed, ReachSet(objs, roots), [], {}, {}) && roots <= ReachSet(objs, roots)
    ensures ThreadsGray(objs, color)
  {
    hide Typed, Succ, ReachSet, Reachable, AliveClosed;
    StartWhite(objs, color, white, fixed, alive);
    StartReach(objs, color, white, fixed, alive, roots);
  }

  // Between two cycles every thread is live.
  lemma TwupsWhole(objs: Graph, color: Colors, white: bool, fixed: set<Ref>, alive: set<Ref>, twups: seq<Ref>)
    requires Sweep(objs, color, white, fixed, alive, {}) && TwupsLive(objs, color, white, twups)
    ensures TwupsAll(objs, twups)
  {
    forall th | th in objs && objs[th].kind.Thread? ensures Live(color, white, th) {}
    hide Sweep, Live;
  }

  // What an object refers to is what is seen in it.
  lemma SeenSucc(objs: Graph, o: Ref)
    requires o in objs
    ensures Succ(objs, o) == Seen(objs, o).fields.Values + Seen(objs, o).uvs
  {
    if objs[o].kind.Open? {
      var m := Content(objs, o).fields;
      assert 0 in m ==> m[0] in m.Values;
      assert forall v :: v in m.Values ==> 0 in m && v == m[0];
    }
  }

  // And nothing else is.
  lemma SeenReachableOnly(o0: Graph, r0: set<Ref>, o1: Graph)
    requires forall o :: Reachable(o0, r0, o) ==> o in o0 && o in o1 && Seen(o1, o) == Seen(o0, o)
    ensures forall o :: Reachable(o1, r0, o) ==> Reachable(o0, r0, o)
  {
    var s := iset o | Reachable(o0, r0, o);
    hide Reachable, Seen, Succ;
    forall o, v | o in s && o in o1 && v in Succ(o1, o) ensures v in s {
      SeenSucc(o0, o);
      SeenSucc(o1, o);
      SuccReachable(o0, r0, o, v);
    }
    forall r | r in r0 ensures r in s { RootReachable(o0, r0, r); }
    ReachableInside(o1, r0, s);
  }

  // What looks the same is reached in the same way.
  lemma SeenReachable(o0: Graph, r0: set<Ref>, o1: Graph, r1: set<Ref>)
    requires r0 <= r1 && forall o :: Reachable(o0, r0, o) ==> o in o0 && o in o1 && Seen(o1, o) == Seen(o0, o)
    ensures forall o :: Reachable(o0, r0, o) ==> Reachable(o1, r1, o)
  {
    var s := iset o | Reachable(o0, r0, o) && Reachable(o1, r1, o);
    hide Reachable, Seen, Succ;
    forall o, v | o in s && o in o0 && v in Succ(o0, o) ensures v in s {
      SeenSucc(o0, o);
      SeenSucc(o1, o);
      SuccReachable(o0, r0, o, v);
      SuccReachable(o1, r1, o, v);
    }
    forall r | r in r0 ensures r in s {
      RootReachable(o0, r0, r);
      RootReachable(o1, r1, r);
    }
    ReachableInside(o0, r0, s);
  }

  // A marking given up: nothing is dead, and everything may be kept.
  lemma GiveUp(objs: Graph, color: Colors, white: bool, fixed: set<Ref>, alive: set<Ref>, twups: seq<Ref>)
    requires GraphOk(objs, color, white, fixed, alive) && TwupsAll(objs, twups)
    ensures Sweep(objs, color, white, fixed, objs.Keys, objs.Keys - fixed) && TwupsLive(objs, color, white, twups)
  {
    forall o ensures Live(color, white, o) <==> o in objs {}
    hide Typed, Succ, AliveClosed, MarkedAlive, FixedOk, Live;
    assert AliveClosed(objs, objs.Keys) by { assert NoDangling(objs); GiveUpAlive(objs); }
    assert FixedOk(objs, color, fixed);
  }

  lemma GiveUpAlive(objs: Graph)
    requires NoDangling(objs)
    ensures AliveClosed(objs, objs.Keys)
  {
    hide Succ;
  }
}
