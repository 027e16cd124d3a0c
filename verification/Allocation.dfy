// Creating objects, and opening and closing upvalues.

module Allocation {
  import opened Heap
  import opened Marking
  import opened Mutation
  import opened Freeing
  import opened Lists
  import opened Collector
  import opened Mutator
  import opened Sequences

  // ----- new objects -----

  lemma BlankThreads(objs: Graph, n: Ref, kind: Kind, color: Colors, white: bool, twups: seq<Ref>)
    requires n !in objs && !kind.Open?
    ensures ThreadsGray(objs, color) ==> ThreadsGray(Blank(objs, n, kind), color[n := White(white)])
    ensures TwupsAll(objs, twups) ==> TwupsAll(Blank(objs, n, kind), twups)
    ensures TwupsLive(objs, color, white, twups) ==>
              TwupsLive(Blank(objs, n, kind), color[n := White(white)], white, twups)
  {
    BlankTwups(objs, n, kind, color, white, twups);
    hide TwupsLive;
  }

  lemma BlankTwups(objs: Graph, n: Ref, kind: Kind, color: Colors, white: bool, twups: seq<Ref>)
    requires n !in objs && !kind.Open?
    ensures TwupsLive(objs, color, white, twups) ==>
              TwupsLive(Blank(objs, n, kind), color[n := White(white)], white, twups)
  {
  }

  lemma SweepWiden(objs: Graph, color: Colors, white: bool, fixed: set<Ref>, alive: set<Ref>, pending: set<Ref>,
                   pending': set<Ref>)
    requires Sweep(objs, color, white, fixed, alive, pending) && pending <= pending'
    ensures Sweep(objs, color, white, fixed, alive, pending')
  {
    hide Typed, LiveClosed, AliveClosed, FixedOk, LiveAlive;
  }

  // A cursor inside a list stays before the same element when an object is put in front; at the head it does not.
  function Shifted(at: Cursor): Cursor {
    if at.At? && at.i > 0 then At(at.i + 1) else at
  }

  lemma FromShifted(l: seq<Ref>, at: Cursor, n: Ref)
    ensures From(l, at) <= From([n] + l, Shifted(at))
    ensures at.At? && at.i <= |l| ==> Shifted(at).i <= |l| + 1
  {
    if at.At? && at.i <= |l| {
      assert ([n] + l)[at.i + 1..] == l[at.i..];
      if at.i == 0 { assert l[0..] == l && ([n] + l)[0..] == [n] + l; }
    }
  }

  // The list of all objects grew at its head, and the cursor moved along if it is in that list.
  ghost predicate AllGcPushed(g: GlobalState, l0: seq<Ref>, at0: Cursor, n: Ref)
    reads g`allgc, g`sweepgc, g`gcstate
  {
    g.allgc == [n] + l0 && g.sweepgc == if g.gcstate.SwpAllGc? then Shifted(at0) else at0
  }

  lemma PushedPending(g: GlobalState, l0: seq<Ref>, at0: Cursor, n: Ref)
    requires CursorIn(g.gcstate, at0, l0, g.finobj, g.tobefnz) && AllGcPushed(g, l0, at0, n)
    ensures g.CursorOk() && StillPending(g.gcstate, at0, l0, g.finobj, g.tobefnz) <= g.Pending()
  {
    FromShifted(l0, at0, n);
  }

  // The fields of the global state that change when an object is created, as they were.
  datatype Was = Was(objs: Graph, color: Colors, alive: set<Ref>, allgc: seq<Ref>, sweepgc: Cursor, next: Ref,
                     twups: seq<Ref>)

  // The invariant before the change.
  ghost predicate Before(g: GlobalState, w: Was)
    reads g`gcstate, g`finobj, g`tobefnz, g`fin, g`gray, g`grayagain, g`white, g`fixed, g`main, g`running,
      g`registry, g`mt
  {
    && !g.gcstate.Atomic? && FinOk(g.fin, g.finobj, g.tobefnz) && Below(w.objs, w.next) && Typed(w.objs)
    && Partition(w.objs.Keys, g.fixed, w.allgc, g.finobj, g.tobefnz) && w.color.Keys == w.objs.Keys && RootsWere(g, w)
    && (g.KeepInvariant() ==> MarkedBefore(g, w))
    && (!g.KeepInvariant() ==> SweptBefore(g, w))
  }

  ghost predicate RootsWere(g: GlobalState, w: Was)
    reads g`white, g`main, g`running, g`registry, g`mt, g`tobefnz, g`finobj
  {
    && g.Roots() <= w.objs.Keys && g.Roots() <= w.alive && (forall r :: r in g.Roots() ==> Live(w.color, g.white, r))
    && g.Kinds(w.objs)
    && Members(g.finobj) <= w.objs.Keys
  }

  ghost predicate MarkedBefore(g: GlobalState, w: Was)
    reads g`tobefnz, g`gray, g`grayagain, g`white, g`fixed, g`main
  {
    && NoDup(g.grayagain) && Marked(w.color, g.main) && (forall o :: o in g.tobefnz ==> Marked(w.color, o))
    && Tri(w.objs, w.color, g.white, g.fixed, w.alive, g.gray, Members(g.grayagain), {})
    && ThreadsGray(w.objs, w.color) && TwupsAll(w.objs, w.twups)
  }

  ghost predicate SweptBefore(g: GlobalState, w: Was)
    reads g`gcstate, g`finobj, g`tobefnz, g`white, g`fixed
  {
    && CursorIn(g.gcstate, w.sweepgc, w.allgc, g.finobj, g.tobefnz) && AllLive(g.finobj, w.color, g.white)
    && Sweep(w.objs, w.color, g.white, g.fixed, w.alive,
       StillPending(g.gcstate, w.sweepgc, w.allgc, g.finobj, g.tobefnz))
    && TwupsLive(w.objs, w.color, g.white, w.twups)
  }

  lemma Snapshot(g: GlobalState) returns (w: Was)
    requires g.Valid()
    ensures w == Was(g.objs, g.color, g.alive, g.allgc, g.sweepgc, g.next, g.twups) && Before(g, w)
  {
    w := Was(g.objs, g.color, g.alive, g.allgc, g.sweepgc, g.next, g.twups);
    hide Tri, Sweep, TwupsLive, TwupsAll, ThreadsGray, Below;
    TypedNow(g, {});
    forall o | o in g.finobj ensures o in g.objs { InOneList(g.objs.Keys, g.fixed, g.allgc, g.finobj, g.tobefnz, o); }
  }

  // A graph that got an object `n`, and references to `vs` from `o`.
  ghost predicate Grew(g: GlobalState, w: Was, n: Ref, o: Ref, vs: set<Ref>)
    reads g`objs, g`color, g`alive, g`allgc, g`sweepgc, g`next, g`gcstate, g`white
  {
    && n !in w.objs && g.objs.Keys == w.objs.Keys + {n} && Typed(g.objs) && Below(g.objs, g.next)
    && Effect(w.objs, g.objs, o, vs) && Extends(w.objs, g.objs, w.color, g.color, g.white)
    && g.alive == w.alive + {n} && AllGcPushed(g, w.allgc, w.sweepgc, n)
    && o in w.objs && (forall v :: v in vs ==> v in g.objs && v in g.alive && Live(g.color, g.white, v))
  }

  // What is left to show of the threads and the list of those with open upvalues.
  ghost predicate ThreadsOk(g: GlobalState)
    reads g`gcstate, g`objs, g`color, g`white, g`twups
  {
    && (g.KeepInvariant() ==> ThreadsGray(g.objs, g.color) && TwupsAll(g.objs, g.twups))
    && (!g.KeepInvariant() ==> TwupsLive(g.objs, g.color, g.white, g.twups))
  }

  lemma GrewRoots(g: GlobalState, w: Was, n: Ref, o: Ref, vs: set<Ref>)
    requires Grew(g, w, n, o, vs) && RootsWere(g, w) && w.color.Keys == w.objs.Keys
    ensures g.RootsIn(g.objs, g.color)
    ensures MarkedBefore(g, w) ==> g.MarkedRoots()
    ensures AllLive(g.finobj, w.color, g.white) ==> AllLive(g.finobj, g.color, g.white)
  {
    hide Grew, Tri, ThreadsGray, TwupsAll, NoDup;
    GrewSame(g, w, n, o, vs);
    g.KindsKept(w.objs, g.objs);
    hide g.Kinds;
  }

  lemma GrewSame(g: GlobalState, w: Was, n: Ref, o: Ref, vs: set<Ref>)
    requires Grew(g, w, n, o, vs) && w.color.Keys == w.objs.Keys
    ensures w.objs.Keys <= g.objs.Keys == g.color.Keys && w.alive <= g.alive
    ensures forall p :: p in w.objs ==> g.objs[p].kind == w.objs[p].kind && g.color[p] == w.color[p]
  {
    hide Typed, Below, AllGcPushed;
    KindsSame(w.objs, g.objs, o, vs);
    hide Effect;
  }

  lemma KindsSame(objs: Graph, objs': Graph, o: Ref, vs: set<Ref>)
    requires Effect(objs, objs', o, vs)
    ensures forall p :: p in objs ==> p in objs' && objs'[p].kind == objs[p].kind
  {
  }

  lemma GrewLists(g: GlobalState, w: Was, n: Ref, o: Ref, vs: set<Ref>)
    requires Grew(g, w, n, o, vs) && Partition(w.objs.Keys, g.fixed, w.allgc, g.finobj, g.tobefnz)
    ensures Partition(g.objs.Keys, g.fixed, g.allgc, g.finobj, g.tobefnz)
  {
    assert multiset(g.objs.Keys) == multiset(w.objs.Keys) + multiset{n};
    assert multiset(g.allgc) == multiset{n} + multiset(w.allgc);
  }

  lemma GrewMark(g: GlobalState, w: Was, n: Ref, o: Ref, vs: set<Ref>)
    requires Grew(g, w, n, o, vs) && !NeedsBarrier(g.color, o, vs) && w.color.Keys == w.objs.Keys
    requires Tri(w.objs, w.color, g.white, g.fixed, w.alive, g.gray, Members(g.grayagain), {})
    ensures Tri(g.objs, g.color, g.white, g.fixed, g.alive, g.gray, Members(g.grayagain), {})
  {
    EffectTri(w.objs, g.objs, w.color, g.color, g.white, g.fixed, w.alive, g.alive, g.gray, Members(g.grayagain), {},
              o, vs);
    assert o in g.color && g.color[o] == w.color[o];
  }

  lemma GrewSweep(g: GlobalState, w: Was, n: Ref, o: Ref, vs: set<Ref>)
    requires Grew(g, w, n, o, vs) && SweptBefore(g, w)
    ensures Sweep(g.objs, g.color, g.white, g.fixed, g.alive, g.Pending()) && g.CursorOk()
  {
    assert g.objs.Keys - w.objs.Keys == {n};
    var pending := StillPending(g.gcstate, w.sweepgc, w.allgc, g.finobj, g.tobefnz);
    EffectSweep(w.objs, g.objs, w.color, g.color, g.white, g.fixed, w.alive, g.alive, pending, o, vs);
    PushedPending(g, w.allgc, w.sweepgc, n);
    SweepWiden(g.objs, g.color, g.white, g.fixed, g.alive, pending, g.Pending());
  }

  lemma GrewValid(g: GlobalState, w: Was, n: Ref, o: Ref, vs: set<Ref>)
    requires Before(g, w) && Grew(g, w, n, o, vs) && ThreadsOk(g)
      && (g.KeepInvariant() ==> !NeedsBarrier(g.color, o, vs))
    ensures g.Valid()
  {
    hide Grew, Typed, Effect, Extends, Partition, Tri, Sweep, TwupsLive, TwupsAll, ThreadsGray, Below, Live, AllLive,
         FinOk, NeedsBarrier;
    GrewRoots(g, w, n, o, vs);
    GrewLists(g, w, n, o, vs);
    GrewBelow(g, w, n, o, vs);
    if g.KeepInvariant() { GrewMark(g, w, n, o, vs); } else { GrewSweep(g, w, n, o, vs); }
    Join(g, {});
  }

  lemma GrewBelow(g: GlobalState, w: Was, n: Ref, o: Ref, vs: set<Ref>)
    requires Grew(g, w, n, o, vs)
    ensures Below(g.objs, g.next)
  {
  }

  // Creating an object: the fields as they become.
  ghost predicate Created(g: GlobalState, w: Was, n: Ref)
    reads g`color, g`alive, g`allgc, g`sweepgc, g`next, g`gcstate, g`white
  {
    && g.color == w.color[n := White(g.white)] && g.alive == w.alive + {n} && g.next == n + 1
    && g.allgc == [n] + w.allgc && g.sweepgc == if g.gcstate.SwpAllGc? then Shifted(w.sweepgc) else w.sweepgc
  }

  /** `luaC_newobj`: a new object has the current white and is put at the head of the list of all objects. */
  method Link(g: GlobalState, ghost w: Was) returns (n: Ref)
    requires w == Was(g.objs, g.color, g.alive, g.allgc, g.sweepgc, g.next, g.twups)
    modifies g`color, g`alive, g`next, g`allgc, g`sweepgc
    ensures n == w.next && Created(g, w, n)
  {
    n := g.next;
    g.color := g.color[n := White(g.white)];
    g.alive := g.alive + {n};
    g.next := n + 1;
    g.allgc := [n] + g.allgc;
    if g.gcstate.SwpAllGc? { g.sweepgc := Shifted(g.sweepgc); }
  }

  // A new object, which nothing refers to yet.
  method Alloc(g: GlobalState, kind: Kind) returns (n: Ref)
    requires g.Valid() && !kind.Open?
    modifies g`objs, g`color, g`alive, g`next, g`allgc, g`sweepgc
    ensures g.Valid() && n == old(g.next) && n !in old(g.objs) && Usable(g, n) && n in g.color
      && g.color[n] == White(g.white)
    ensures g.objs == Blank(old(g.objs), n, kind) && g.alive == old(g.alive) + {n} && g.next == n + 1
  {
    hide *;
    ghost var w := Snapshot(g);
    BlankReady(g, w, g.next, kind);
    n := Link(g, w);
    g.objs := Blank(g.objs, n, kind);
    BlankGrew(g, w, n, kind);
    GrewValid(g, w, n, g.main, {});
    BlankUsable(g, w, n, kind);
  }

  lemma BlankReady(g: GlobalState, w: Was, n: Ref, kind: Kind)
    requires Before(g, w) && n == w.next && !kind.Open?
    ensures n !in w.objs && Typed(Blank(w.objs, n, kind)) && Effect(w.objs, Blank(w.objs, n, kind), g.main, {})
    ensures Below(Blank(w.objs, n, kind), n + 1)
  {
    BlankEffect(w.objs, n, kind, g.main);
  }

  lemma CreatedGrew(g: GlobalState, w: Was, n: Ref, o: Ref, vs: set<Ref>)
    requires n !in w.objs && g.objs.Keys == w.objs.Keys + {n} && w.color.Keys == w.objs.Keys && Created(g, w, n)
    requires Typed(g.objs) && Below(g.objs, n + 1) && Effect(w.objs, g.objs, o, vs) && o in w.objs
    requires forall v :: v in vs ==> v in g.objs && v in g.alive && Live(g.color, g.white, v)
    ensures Grew(g, w, n, o, vs)
  {
    hide Typed, Effect, Below;
  }

  lemma BlankGrew(g: GlobalState, w: Was, n: Ref, kind: Kind)
    requires Before(g, w) && n !in w.objs && Typed(Blank(w.objs, n, kind))
      && Effect(w.objs, Blank(w.objs, n, kind), g.main, {})
    requires Below(Blank(w.objs, n, kind), n + 1) && !kind.Open?
    requires g.objs == Blank(w.objs, n, kind) && Created(g, w, n) && g.twups == w.twups
    ensures Grew(g, w, n, g.main, {}) && ThreadsOk(g) && !NeedsBarrier(g.color, g.main, {})
  {
    hide Typed, Effect, Below, Tri, Sweep, TwupsLive, TwupsAll, ThreadsGray, Partition, Live, CursorIn, FinOk, NoDup,
         AllLive;
    BlankThreads(w.objs, n, kind, w.color, g.white, g.twups);
    CreatedGrew(g, w, n, g.main, {});
  }

  lemma BlankUsable(g: GlobalState, w: Was, n: Ref, kind: Kind)
    requires g.objs == Blank(w.objs, n, kind) && Created(g, w, n)
    ensures Usable(g, n) && n in g.color && g.color[n] == White(g.white) && g.alive == w.alive + {n} && g.next == n + 1
  {
  }

  /** A new object that a stack slot of the running thread refers to from the start. */
  method New(g: GlobalState, kind: Kind, slot: nat) returns (n: Ref)
    requires g.Valid() && ValueKind(kind)
    modifies g`objs, g`color, g`alive, g`next, g`allgc, g`sweepgc
    ensures g.Valid() && n == old(g.next) && g.alive == old(g.alive) + {n}
    ensures n !in old(g.objs) && g.running in old(g.objs)
      && g.objs == Put(Blank(old(g.objs), n, kind), g.running, slot, n)
  {
    hide *;
    RunningThread(g);
    assert !kind.Open? by { NotOpen(kind); }
    n := Alloc(g, kind);
    StackStorable(g, old(g.objs), n, kind, slot);
    StoreSlot(g, g.running, slot, n);
  }

  lemma NotOpen(kind: Kind)
    requires ValueKind(kind)
    ensures !kind.Open?
  {
  }

  lemma RunningThread(g: GlobalState)
    requires g.Valid()
    ensures g.running in g.objs && g.objs[g.running].kind.Thread?
  {
  }

  lemma StackStorable(g: GlobalState, o0: Graph, n: Ref, kind: Kind, slot: nat)
    requires g.objs == Blank(o0, n, kind) && n !in o0 && g.running in o0 && o0[g.running].kind.Thread?
      && ValueKind(kind)
    ensures g.running in g.objs && g.objs[g.running].kind.Thread? && n in g.objs && Storable(g.objs, g.running, slot, n)
  {
  }

  /** A new closed upvalue that a closure refers to from the start (`luaF_initupvals`). */
  method NewUpvalue(g: GlobalState, cl: Ref, k: nat) returns (n: Ref)
    requires g.Valid() && Held(g, cl) && cl in g.objs && g.objs[cl].kind.Box?
    modifies g`objs, g`color, g`alive, g`next, g`allgc, g`sweepgc, g`gray, g`grayagain
    ensures g.Valid() && n == old(g.next) && g.alive == old(g.alive) + {n}
    ensures n !in old(g.objs) && g.objs == Put(Blank(old(g.objs), n, Cell), cl, k, n)
  {
    hide *;
    n := Alloc(g, Cell);
    ClosureStorable(g, old(g.objs), n, cl, k);
    Store(g, cl, k, n, false);
  }

  lemma ClosureStorable(g: GlobalState, o0: Graph, n: Ref, cl: Ref, k: nat)
    requires g.Valid() && g.objs == Blank(o0, n, Cell) && n !in o0 && cl in o0 && o0[cl].kind.Box?
    ensures cl in g.objs && cl in g.color && !g.objs[cl].kind.Open? && n in g.objs && Storable(g.objs, cl, k, n)
  {
    TypedNow(g, {});
  }

  // ----- open upvalues -----

  lemma OpenedThreads(objs: Graph, n: Ref, th: Ref, slot: nat, color: Colors, white: bool, twups: seq<Ref>,
                      twups': seq<Ref>)
    requires n !in objs && th in objs && objs[th].kind.Thread? && Live(color, white, th)
    requires twups' == if th in twups then twups else [th] + twups
    ensures ThreadsGray(objs, color) ==> ThreadsGray(Opened(objs, n, th, slot), color[n := White(white)])
    ensures TwupsAll(objs, twups) ==> TwupsAll(Opened(objs, n, th, slot), twups')
    ensures TwupsLive(objs, color, white, twups) ==>
              TwupsLive(Opened(objs, n, th, slot), color[n := White(white)], white, twups')
  {
    hide Live, Opened;
    OpenedKinds(objs, n, th, slot);
    assert forall p :: p in twups' <==> p == th || p in twups;
    OpenedLive(objs, n, color, white);
  }

  lemma OpenedLive(objs: Graph, n: Ref, color: Colors, white: bool)
    ensures forall p :: p != n ==> (Live(color[n := White(white)], white, p) <==> Live(color, white, p))
  {
  }

  lemma OpenedKinds(objs: Graph, n: Ref, th: Ref, slot: nat)
    requires n !in objs && th in objs && objs[th].kind.Thread?
    ensures Opened(objs, n, th, slot).Keys == objs.Keys + {n} && !Opened(objs, n, th, slot)[n].kind.Thread?
    ensures forall p :: p in objs ==> Opened(objs, n, th, slot)[p].kind == objs[p].kind
    ensures forall p :: p in objs && p != th ==> Opened(objs, n, th, slot)[p].uvs == objs[p].uvs
    ensures th in Opened(objs, n, th, slot)
  {
  }

  lemma SuccUsable(g: GlobalState, o: Ref)
    requires g.Valid() && Usable(g, o)
    ensures forall v :: v in Succ(g.objs, o) ==> Usable(g, v)
  {
    LiveNow(g);
    hide Succ, g.Valid;
  }

  lemma LiveNow(g: GlobalState)
    requires g.Valid()
    ensures AliveClosed(g.objs, g.alive) && LiveClosed(g.objs, g.color, g.white) && g.color.Keys == g.objs.Keys
  {
    if g.KeepInvariant() { NoneDead(g.objs, g.color, g.white, g.fixed, g.alive); }
  }

  // What a thread's new upvalue refers to.
  ghost function OpenedRefs(objs: Graph, n: Ref, th: Ref, slot: nat): set<Ref>
    requires th in objs
  {
    {n} + if slot in objs[th].fields then {objs[th].fields[slot]} else {}
  }

  // What makes a new upvalue of a thread fit in.
  ghost predicate OpenReady(w: Was, white: bool, marking: bool, th: Ref, slot: nat) {
    && w.next !in w.objs && th in w.objs && w.objs[th].kind.Thread? && Live(w.color, white, th)
    && Typed(Opened(w.objs, w.next, th, slot)) && Below(Opened(w.objs, w.next, th, slot), w.next + 1)
    && Effect(w.objs, Opened(w.objs, w.next, th, slot), th, OpenedRefs(w.objs, w.next, th, slot))
    && (forall v :: v in OpenedRefs(w.objs, w.next, th, slot) && v != w.next ==>
          v in w.objs && v in w.alive && Live(w.color, white, v))
    && (marking ==> th in w.color && !w.color[th].Black?)
  }

  lemma OpenedReady(g: GlobalState, w: Was, th: Ref, slot: nat)
    requires g.Valid() && w == Was(g.objs, g.color, g.alive, g.allgc, g.sweepgc, g.next, g.twups)
    requires Usable(g, th) && th in w.objs && w.objs[th].kind.Thread?
    ensures OpenReady(w, g.white, g.KeepInvariant(), th, slot)
  {
    hide *;
    Hot(g);
    TypedNow(g, {});
    SlotUsable(g, w, th, slot);
    OpenedFits(w, g.white, g.KeepInvariant(), th, slot);
  }

  lemma SlotUsable(g: GlobalState, w: Was, th: Ref, slot: nat)
    requires g.Valid() && w == Was(g.objs, g.color, g.alive, g.allgc, g.sweepgc, g.next, g.twups)
    requires Usable(g, th) && th in w.objs && w.objs[th].kind.Thread?
    ensures forall v :: v in OpenedRefs(w.objs, w.next, th, slot) && v != w.next ==>
              v in w.objs && v in w.alive && Live(w.color, g.white, v)
    ensures g.KeepInvariant() ==> th in w.color && !w.color[th].Black?
    ensures Live(w.color, g.white, th)
  {
    SuccUsable(g, th);
    assert slot in w.objs[th].fields ==> w.objs[th].fields[slot] in Succ(w.objs, th);
  }

  lemma OpenedFits(w: Was, white: bool, marking: bool, th: Ref, slot: nat)
    requires Typed(w.objs) && Below(w.objs, w.next) && th in w.objs && w.objs[th].kind.Thread?
      && Live(w.color, white, th)
    requires forall v :: v in OpenedRefs(w.objs, w.next, th, slot) && v != w.next ==>
               v in w.objs && v in w.alive && Live(w.color, white, v)
    requires marking ==> th in w.color && !w.color[th].Black?
    ensures OpenReady(w, white, marking, th, slot)
  {
    hide Typed, Effect, Below, Live;
    NotIn(w.objs, w.next);
    OpenedTyped(w.objs, w.next, th, slot);
    OpenedEffect(w.objs, w.next, th, slot);
  }

  lemma NotIn(objs: Graph, n: Ref)
    requires Below(objs, n)
    ensures n !in objs
  {
  }

  lemma OpenedGrew(g: GlobalState, w: Was, th: Ref, slot: nat)
    requires Before(g, w) && OpenReady(w, g.white, g.KeepInvariant(), th, slot)
    requires g.objs == Opened(w.objs, w.next, th, slot) && Created(g, w, w.next)
    ensures Grew(g, w, w.next, th, OpenedRefs(w.objs, w.next, th, slot))
    ensures g.KeepInvariant() ==> !NeedsBarrier(g.color, th, OpenedRefs(w.objs, w.next, th, slot))
  {
    hide Typed, Effect, Below, Tri, Sweep, TwupsLive, TwupsAll, ThreadsGray, Partition, CursorIn, FinOk, NoDup, AllLive,
         OpenedRefs, RootsWere, MarkedBefore, SweptBefore;
    CreatedGrew(g, w, w.next, th, OpenedRefs(w.objs, w.next, th, slot));
  }

  lemma OpenedListed(g: GlobalState, w: Was, th: Ref, slot: nat)
    requires Before(g, w) && OpenReady(w, g.white, g.KeepInvariant(), th, slot)
    requires g.objs == Opened(w.objs, w.next, th, slot) && Created(g, w, w.next)
    requires g.twups == if th in w.twups then w.twups else [th] + w.twups
    ensures ThreadsOk(g)
  {
    hide Typed, Effect, Below, Tri, Sweep, TwupsLive, TwupsAll, ThreadsGray, Partition, CursorIn, FinOk, NoDup, AllLive,
         OpenedRefs, RootsWere;
    OpenedThreads(w.objs, w.next, th, slot, w.color, g.white, w.twups, g.twups);
  }

  // A new open upvalue; its thread is then listed among those with open upvalues.
  method NewOpen(g: GlobalState, th: Ref, slot: nat) returns (u: Ref)
    requires g.Valid() && Usable(g, th) && th in g.objs && g.objs[th].kind.Thread?
    modifies g`objs, g`color, g`alive, g`next, g`allgc, g`sweepgc, g`twups
    ensures g.Valid() && u == old(g.next) && g.objs == Opened(old(g.objs), u, th, slot) && g.alive == old(g.alive) + {u}
    ensures u !in old(g.objs)
  {
    hide *;
    ghost var w := Snapshot(g);
    OpenedReady(g, w, th, slot);
    BeforeFresh(g, w);
    u := Link(g, w);
    g.objs := Opened(g.objs, u, th, slot);
    if th !in g.twups { g.twups := [th] + g.twups; }
    OpenedValid(g, w, th, slot);
  }

  lemma OpenedValid(g: GlobalState, w: Was, th: Ref, slot: nat)
    requires Before(g, w) && OpenReady(w, g.white, g.KeepInvariant(), th, slot) && th in w.objs
    requires g.objs == Opened(w.objs, w.next, th, slot) && Created(g, w, w.next)
    requires g.twups == if th in w.twups then w.twups else [th] + w.twups
    ensures g.Valid() && g.alive == w.alive + {w.next}
  {
    hide *;
    OpenedGrew(g, w, th, slot);
    OpenedListed(g, w, th, slot);
    GrewValid(g, w, w.next, th, OpenedRefs(w.objs, w.next, th, slot));
    CreatedAlive(g, w, w.next);
  }

  lemma CreatedAlive(g: GlobalState, w: Was, n: Ref)
    requires Created(g, w, n)
    ensures g.alive == w.alive + {n}
  {
  }

  lemma BeforeFresh(g: GlobalState, w: Was)
    requires Before(g, w)
    ensures w.next !in w.objs
  {
  }

  /** `luaF_findupval`: a slot has one open upvalue, made when it is first asked for. */
  method FindUpvalue(g: GlobalState, th: Ref, slot: nat) returns (u: Ref)
    requires g.Valid() && Held(g, th) && th in g.objs && g.objs[th].kind.Thread?
    modifies g`objs, g`color, g`alive, g`next, g`allgc, g`sweepgc, g`twups
    ensures g.Valid()
    ensures u in old(g.objs) ==> u in old(g.objs)[th].uvs && old(g.objs)[u].kind == Open(th, slot)
                                 && g.objs == old(g.objs)
    ensures u in old(g.objs) ==> g.alive == old(g.alive) && g.next == old(g.next)
    ensures u !in old(g.objs) ==> g.objs == Opened(old(g.objs), u, th, slot) && g.alive == old(g.alive) + {u}
                                  && u == old(g.next)
    ensures u !in old(g.objs) ==> forall p :: p in old(g.objs)[th].uvs && p in old(g.objs) ==>
                                old(g.objs)[p].kind != Open(th, slot)
  {
    hide *;
    HeldUsable(g, th);
    UpvaluesOpen(g, th);
    if p :| p in g.objs[th].uvs && g.objs[p].kind.slot == slot {
      u := p;
    } else {
      u := NewOpen(g, th, slot);
    }
  }

  lemma UpvaluesOpen(g: GlobalState, th: Ref)
    requires g.Valid() && th in g.objs && g.objs[th].kind.Thread?
    ensures forall u :: u in g.objs[th].uvs ==> u in g.objs && g.objs[u].kind.Open? && g.objs[u].kind.th == th
  {
    TypedNow(g, {});
    assert TypedObj(g.objs, th);
  }

  // ----- closing upvalues -----

  lemma ClosedThreads(objs: Graph, u: Ref, color: Colors, c: Color, white: bool, twups: seq<Ref>)
    requires u in objs && objs[u].kind.Open? && objs[u].kind.th in objs && u in color
      && Live(color, white, u) == Live(color[u := c], white, u)
    ensures ThreadsGray(objs, color) ==> ThreadsGray(Closed(objs, u), color[u := c])
    ensures TwupsAll(objs, twups) ==> TwupsAll(Closed(objs, u), twups)
    ensures TwupsLive(objs, color, white, twups) ==> TwupsLive(Closed(objs, u), color[u := c], white, twups)
  {
    var objs' := Closed(objs, u);
    assert objs'.Keys == objs.Keys;
    forall p | p in objs ensures objs'[p].uvs <= objs[p].uvs && (objs'[p].kind.Thread? ==> objs[p].kind.Thread?) {}
    forall p | p in objs && objs[p].kind.Thread? ensures objs'[p].kind.Thread? {}
    forall p ensures Live(color[u := c], white, p) == Live(color, white, p) {}
    hide Closed, Live;
  }

  // The colours after an upvalue was closed, before a barrier.
  ghost predicate Reclosed(g: GlobalState, w: Was, u: Ref)
    reads g`objs, g`color, g`alive, g`allgc, g`sweepgc, g`next, g`twups
  {
    && u in w.objs && w.objs[u].kind.Open? && w.objs[u].kind.th in w.objs && u in w.color
    && g.objs == Closed(w.objs, u) && g.color == w.color[u := if w.color[u].White? then w.color[u] else Black]
    && g.alive == w.alive && g.allgc == w.allgc && g.sweepgc == w.sweepgc && g.next == w.next && g.twups == w.twups
  }

  lemma ReclosedColors(g: GlobalState, w: Was, u: Ref)
    requires Reclosed(g, w, u)
    ensures forall p :: Live(g.color, g.white, p) == Live(w.color, g.white, p)
    ensures forall p :: Marked(g.color, p) == Marked(w.color, p)
  {
    hide Closed;
  }

  lemma ReclosedRoots(g: GlobalState, w: Was, u: Ref)
    requires Before(g, w) && Reclosed(g, w, u)
    ensures g.RootsIn(g.objs, g.color) && Partition(g.objs.Keys, g.fixed, g.allgc, g.finobj, g.tobefnz)
      && Below(g.objs, g.next)
    ensures g.KeepInvariant() ==> g.MarkedRoots()
    ensures !g.KeepInvariant() ==> AllLive(g.finobj, g.color, g.white)
  {
    hide Tri, Sweep, TwupsLive, TwupsAll, ThreadsGray, Live, Marked, Succ, Seen, Closed, Typed;
    ReclosedColors(g, w, u);
    ClosedShape(w.objs, u);
    assert forall p :: p in g.tobefnz ==> p in g.Roots();
    g.KindsKept(w.objs, g.objs);
  }

  lemma ReclosedMark(g: GlobalState, w: Was, u: Ref)
    requires Before(g, w) && Reclosed(g, w, u) && g.KeepInvariant()
    ensures MarkGraph(g, g.objs, {u})
  {
    ReclosedColors(g, w, u);
    hide Tri, ThreadsGray, TwupsAll, Partition, Below, RootsWere, SweptBefore, Closed, Live, Marked, Typed;
    var c := if w.color[u].White? then w.color[u] else Black;
    CloseTri(w.objs, w.color, g.color, g.white, g.fixed, g.alive, g.gray, Members(g.grayagain), u);
    ClosedThreads(w.objs, u, w.color, c, g.white, w.twups);
  }

  lemma ReclosedSweep(g: GlobalState, w: Was, u: Ref)
    requires Before(g, w) && Reclosed(g, w, u) && !g.KeepInvariant()
    ensures SweepGraph(g, g.objs) && g.CursorOk()
  {
    ReclosedColors(g, w, u);
    hide Sweep, TwupsLive, Partition, Below, RootsWere, MarkedBefore, Closed, Live, Marked, Typed, StillPending,
         CursorIn;
    var c := if w.color[u].White? then w.color[u] else Black;
    CloseSweep(w.objs, w.color, g.color, g.white, g.fixed, g.alive, g.Pending(), u, c);
    ClosedThreads(w.objs, u, w.color, c, g.white, w.twups);
  }

  lemma ReclosedValid(g: GlobalState, w: Was, u: Ref)
    requires Before(g, w) && Reclosed(g, w, u)
    ensures g.ValidHot({u})
  {
    hide Reclosed, MarkGraph, SweepGraph, Partition, Below, RootsWere, MarkedBefore, Typed, AllLive, FinOk, CursorIn,
         StillPending, Marked;
    ReclosedRoots(g, w, u);
    if g.KeepInvariant() {
      ReclosedMark(g, w, u);
      assert NoDup(g.grayagain) by { GrayAgainOnce(g, w); }
    } else {
      ReclosedSweep(g, w, u);
    }
    Join(g, {u});
  }

  lemma GrayAgainOnce(g: GlobalState, w: Was)
    requires Before(g, w) && g.KeepInvariant()
    ensures NoDup(g.grayagain)
  {
  }

  // An upvalue that is not black, or whose value is marked, needs no barrier.
  lemma ClosedCool(g: GlobalState, u: Ref)
    requires g.ValidHot({u}) && u in g.objs && u in g.color
    requires !g.color[u].Black? || forall v :: v in Succ(g.objs, u) ==> Marked(g.color, v)
    ensures g.Valid()
  {
    Split(g, {u});
    hide Rest, Sweep, TwupsLive, GraphOk, GrayOk, WaitOk, ThreadsGray, TwupsAll, Partition, Below, Succ;
    assert GraphFor(g, g.objs, {});
    Join(g, {});
  }

  /** `luaF_closeupval` for one upvalue: it takes the value of its slot with it, and turns black with a barrier if it
      was not white. The value seen through it stays. */
  method CloseUpvalue(g: GlobalState, u: Ref)
    requires g.Valid() && Held(g, u) && u in g.objs && g.objs[u].kind.Open? && g.objs[u].kind.th in g.objs
    modifies g`objs, g`color, g`gray
    ensures g.Valid() && g.objs == Closed(old(g.objs), u) && u in g.objs && Seen(g.objs, u) == Seen(old(g.objs), u)
  {
    hide *;
    HeldUsable(g, u);
    InUsable(g, u);
    ghost var w := Snapshot(g);
    ClosedValue(g, u);
    var th, slot := g.objs[u].kind.th, g.objs[u].kind.slot;
    var has := slot in g.objs[th].fields;
    var v := if has then g.objs[th].fields[slot] else u;
    if has { InUsable(g, v); }
    if !g.color[u].White? { g.color := g.color[u := Black]; }
    g.objs := Closed(g.objs, u);
    ReclosedNow(g, w, u, v, has);
    ReclosedValid(g, w, u);
    if g.color[u].Black? && has && g.color[v].White? {
      Barrier(g, u, v);
    } else {
      ClosedCool(g, u);
    }
  }

  lemma ClosedValue(g: GlobalState, u: Ref)
    requires g.Valid() && Usable(g, u) && u in g.objs && g.objs[u].kind.Open? && g.objs[u].kind.th in g.objs
    ensures g.objs[u].kind.slot in g.objs[g.objs[u].kind.th].fields ==>
              Usable(g, g.objs[g.objs[u].kind.th].fields[g.objs[u].kind.slot])
  {
    SuccUsable(g, u);
    hide Usable, Live;
    var k := g.objs[u].kind;
    assert k.slot in g.objs[k.th].fields ==> g.objs[k.th].fields[k.slot] in Succ(g.objs, u);
  }

  lemma ReclosedNow(g: GlobalState, w: Was, u: Ref, v: Ref, has: bool)
    requires u in w.objs && w.objs[u].kind.Open? && w.objs[u].kind.th in w.objs && u in w.color
      && g.objs == Closed(w.objs, u)
    requires w == Was(w.objs, w.color, g.alive, g.allgc, g.sweepgc, g.next, g.twups)
    requires g.color == if w.color[u].White? then w.color else w.color[u := Black]
    requires has == (w.objs[u].kind.slot in w.objs[w.objs[u].kind.th].fields)
    requires has ==> v == w.objs[w.objs[u].kind.th].fields[w.objs[u].kind.slot] && v in w.objs && v in w.alive
                     && v in w.color
    ensures Reclosed(g, w, u) && u in g.objs && u in g.color && Seen(g.objs, u) == Seen(w.objs, u)
      && (has ==> v in g.color)
    ensures has && g.color[u].Black? && g.color[v].White? ==> Stored(g, u, v)
    ensures !(has && g.color[u].Black? && g.color[v].White?) ==>
              !g.color[u].Black? || forall p :: p in Succ(g.objs, u) ==> Marked(g.color, p)
  {
    assert w.color[u := w.color[u]] == w.color;
    assert has ==> forall p :: p in (map[0 := v]).Values ==> p == v;
    assert g.objs[u] == Content(w.objs, u);
    assert g.objs[u].fields == if has then map[0 := v] else map[];
  }
}
