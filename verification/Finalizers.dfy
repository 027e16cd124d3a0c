// Roots that change without barriers, objects that get finalizers, and finalizers that are called.

module Finalizers {
  import opened Heap
  import opened Marking
  import opened Mutation
  import opened Freeing
  import opened Lists
  import opened Collector
  import opened Mutator
  import opened Allocation
  import opened Sequences

  // ----- roots -----

  // The graph invariant but for the roots.
  ghost predicate NoRoots(g: GlobalState)
    reads g`objs, g`gcstate, g`sweepgc, g`allgc, g`finobj, g`tobefnz, g`gray, g`grayagain, g`color, g`white, g`fixed,
      g`alive, g`twups, g`next
  {
    && Partition(g.objs.Keys, g.fixed, g.allgc, g.finobj, g.tobefnz) && Below(g.objs, g.next)
    && (g.KeepInvariant() ==> MarkGraph(g, g.objs, {}))
    && (!g.KeepInvariant() ==> SweepGraph(g, g.objs))
  }

  // Objects that can serve as roots.
  ghost predicate CanRoot(g: GlobalState, roots: set<Ref>)
    reads g`objs, g`color, g`white, g`alive
  {
    forall r :: r in roots ==> r in g.objs && r in g.alive && Live(g.color, g.white, r)
  }

  lemma TakeRoots(g: GlobalState)
    requires g.Valid()
    ensures Rest(g) && NoRoots(g) && CanRoot(g, g.Roots())
    ensures g.Kinds(g.objs)
  {
    hide MarkGraph, SweepGraph, Partition, Below;
    Split(g, {});
  }

  lemma Rooted(g: GlobalState, roots: set<Ref>)
    requires Rest(g) && NoRoots(g) && CanRoot(g, roots) && g.Roots() <= roots
    requires g.Kinds(g.objs)
    ensures g.Valid()
  {
    hide MarkGraph, SweepGraph, Partition, Below, Rest;
    Join(g, {});
  }

  lemma MoreRoots(g: GlobalState, roots: set<Ref>, v: Ref)
    requires CanRoot(g, roots) && Usable(g, v)
    ensures CanRoot(g, roots + {v})
  {
  }

  // `lua_setmetatable` on a basic type.
  method SetMetatable(g: GlobalState, tag: nat, v: Ref)
    requires g.Valid() && Held(g, v)
    modifies g`mt
    ensures g.Valid() && g.mt == old(g.mt)[tag := v]
  {
    hide *;
    HeldUsable(g, v);
    TakeRoots(g);
    ghost var roots := g.Roots() + {v};
    MoreRoots(g, g.Roots(), v);
    MtRoots(g, tag, v);
    g.mt := g.mt[tag := v];
    MtRooted(g, old(g.mt), tag, v, roots);
    Rooted(g, roots);
  }

  lemma MtRoots(g: GlobalState, tag: nat, v: Ref)
    ensures {g.main, g.running, g.registry} + g.mt.Values + Members(g.tobefnz) == g.Roots()
  {
  }

  lemma MtRooted(g: GlobalState, mt0: map<nat, Ref>, tag: nat, v: Ref, roots: set<Ref>)
    requires g.mt == mt0[tag := v] && {g.main, g.running, g.registry} + mt0.Values + Members(g.tobefnz) + {v} == roots
    ensures g.Roots() <= roots
  {
    assert g.mt.Values <= mt0.Values + {v};
  }

  // `lua_resume`: another thread runs.
  method Resume(g: GlobalState, th: Ref)
    requires g.Valid() && Held(g, th) && th in g.objs && g.objs[th].kind.Thread?
    modifies g`running
    ensures g.Valid() && g.running == th
  {
    hide *;
    HeldUsable(g, th);
    TakeRoots(g);
    ghost var roots := g.Roots() + {th};
    MoreRoots(g, g.Roots(), th);
    MtRoots(g, 0, th);
    RunKinds(g, th);
    g.running := th;
    RunRooted(g, old(g.running), th, roots);
    assert g.Kinds(g.objs) by { KindsRun(g, th); }
    Rooted(g, roots);
  }

  lemma RunKinds(g: GlobalState, th: Ref)
    requires g.Kinds(g.objs)
    ensures g.main in g.objs && g.objs[g.main].kind.Thread? && FinKinds(g.objs, g.finobj, g.tobefnz)
  {
  }

  lemma KindsRun(g: GlobalState, th: Ref)
    requires g.main in g.objs && g.objs[g.main].kind.Thread? && FinKinds(g.objs, g.finobj, g.tobefnz)
    requires g.running in g.objs && g.objs[g.running].kind.Thread?
    ensures g.Kinds(g.objs)
  {
  }

  lemma RunRooted(g: GlobalState, running0: Ref, th: Ref, roots: set<Ref>)
    requires g.running == th && {g.main, running0, g.registry} + g.mt.Values + Members(g.tobefnz) + {th} == roots
    ensures g.Roots() <= roots
  {
  }

  // The registry is replaced.
  method SetRegistry(g: GlobalState, v: Ref)
    requires g.Valid() && Held(g, v)
    modifies g`registry
    ensures g.Valid() && g.registry == v
  {
    hide *;
    HeldUsable(g, v);
    TakeRoots(g);
    ghost var roots := g.Roots() + {v};
    MoreRoots(g, g.Roots(), v);
    MtRoots(g, 0, v);
    g.registry := v;
    RegistryRooted(g, old(g.registry), v, roots);
    Rooted(g, roots);
  }

  lemma RegistryRooted(g: GlobalState, registry0: Ref, v: Ref, roots: set<Ref>)
    requires g.registry == v && {g.main, g.running, registry0} + g.mt.Values + Members(g.tobefnz) + {v} == roots
    ensures g.Roots() <= roots
  {
  }

  // ----- calling finalizers -----

  // A free slot at the top of the stack of the running thread.
  method Top(g: GlobalState) returns (slot: nat)
    requires g.running in g.objs
    ensures slot !in g.objs[g.running].fields
  {
    slot := 0;
    var taken := g.objs[g.running].fields.Keys;
    while slot in g.objs[g.running].fields
      invariant forall k :: k in g.objs[g.running].fields && k >= slot ==> k in taken
      decreases taken
    {
      taken := taken - {slot};
      slot := slot + 1;
    }
  }

  // The phases after the sweep.
  predicate AfterSweep(p: Phase) {
    p.SwpEnd? || p.CallFin? || p.Pause?
  }

  // What holds after the sweep, whatever the lists are.
  ghost predicate IdleGraph(g: GlobalState)
    reads g`objs, g`color, g`white, g`fixed, g`alive, g`twups, g`next, g`main, g`running, g`sweepgc
  {
    && Sweep(g.objs, g.color, g.white, g.fixed, g.alive, {}) && TwupsLive(g.objs, g.color, g.white, g.twups)
    && Below(g.objs, g.next)
    && g.main in g.objs && g.objs[g.main].kind.Thread? && g.running in g.objs && g.objs[g.running].kind.Thread?
    && g.sweepgc.NoCursor?
  }

  lemma IdleParts(g: GlobalState)
    requires g.Valid() && AfterSweep(g.gcstate)
    ensures IdleGraph(g) && AllLive(g.finobj, g.color, g.white) && CanRoot(g, g.Roots())
      && FinKinds(g.objs, g.finobj, g.tobefnz)
    ensures FinOk(g.fin, g.finobj, g.tobefnz) && Partition(g.objs.Keys, g.fixed, g.allgc, g.finobj, g.tobefnz)
  {
    hide Sweep, TwupsLive, Partition, Below, Live;
  }

  lemma DueParts(g: GlobalState)
    requires g.Valid() && g.gcstate.CallFin? && g.tobefnz != []
    ensures Usable(g, g.tobefnz[0]) && g.tobefnz[0] in g.objs && IdleGraph(g) && AllLive(g.finobj, g.color, g.white)
    ensures FinOk(g.fin, g.finobj, g.tobefnz) && Partition(g.objs.Keys, g.fixed, g.allgc, g.finobj, g.tobefnz)
    ensures CanRoot(g, {g.main, g.running, g.registry} + g.mt.Values + Members(g.tobefnz))
    ensures FinKinds(g.objs, g.finobj, g.tobefnz) && ValueKind(g.objs[g.tobefnz[0]].kind) && AfterSweep(g.gcstate)
  {
    assert g.tobefnz[0] in g.Roots();
    TypedNow(g, {});
  }

  lemma DueTaken(g: GlobalState, o: Ref, due: seq<Ref>, l0: seq<Ref>, fin0: set<Ref>)
    requires IdleGraph(g) && AfterSweep(g.gcstate) && AllLive(g.finobj, g.color, g.white) && due != [] && o == due[0]
    requires FinKinds(g.objs, g.finobj, due) && FinOk(fin0, g.finobj, due)
      && Partition(g.objs.Keys, g.fixed, l0, g.finobj, due)
    requires CanRoot(g, {g.main, g.running, g.registry} + g.mt.Values + Members(due))
    requires g.tobefnz == due[1..] && g.allgc == [o] + l0 && g.fin == fin0 - {o}
    ensures g.Valid()
  {
    hide IdleGraph, Sweep, TwupsLive, Below, Live, FinKinds;
    DueLists(g, o, due, l0, fin0);
    DueRootsLeft(g, due);
    FewerDue(g.objs, g.finobj, due);
    IdleValid(g);
  }

  lemma FewerDue(objs: Graph, finobj: seq<Ref>, due: seq<Ref>)
    requires FinKinds(objs, finobj, due) && due != []
    ensures FinKinds(objs, finobj, due[1..])
  {
    assert forall p :: p in due[1..] ==> p in due;
  }

  lemma DueRootsLeft(g: GlobalState, due: seq<Ref>)
    requires CanRoot(g, {g.main, g.running, g.registry} + g.mt.Values + Members(due)) && due != []
      && g.tobefnz == due[1..]
    ensures CanRoot(g, g.Roots())
  {
    assert forall p :: p in due[1..] ==> p in due;
  }

  lemma DueLists(g: GlobalState, o: Ref, due: seq<Ref>, l0: seq<Ref>, fin0: set<Ref>)
    requires due != [] && o == due[0] && FinOk(fin0, g.finobj, due)
      && Partition(g.objs.Keys, g.fixed, l0, g.finobj, due)
    requires g.tobefnz == due[1..] && g.allgc == [o] + l0 && g.fin == fin0 - {o}
    ensures Partition(g.objs.Keys, g.fixed, g.allgc, g.finobj, g.tobefnz) && FinOk(g.fin, g.finobj, g.tobefnz)
  {
    assert due == [o] + due[1..];
    InOneList(g.objs.Keys, g.fixed, l0, g.finobj, due, o);
    ListsNoDup(g.objs.Keys, g.fixed, l0, g.finobj, due);
    assert o !in due[1..];
    assert multiset(due) == multiset{o} + multiset(due[1..]);
    assert forall p :: p in due <==> p == o || p in due[1..];
  }

  lemma IdleValid(g: GlobalState)
    requires IdleGraph(g) && AfterSweep(g.gcstate) && AllLive(g.finobj, g.color, g.white) && CanRoot(g, g.Roots())
    requires Partition(g.objs.Keys, g.fixed, g.allgc, g.finobj, g.tobefnz) && FinOk(g.fin, g.finobj, g.tobefnz)
    requires FinKinds(g.objs, g.finobj, g.tobefnz)
    ensures g.Valid()
  {
    hide Sweep, TwupsLive, Below, Partition;
  }

  /** `udata2finalize`: the first object that is due becomes an object like any other again. */
  method TakeDue(g: GlobalState) returns (o: Ref)
    requires g.Valid() && g.gcstate.CallFin? && g.tobefnz != []
    modifies g`allgc, g`tobefnz, g`fin
    ensures g.Valid() && o == old(g.tobefnz)[0] && g.tobefnz == old(g.tobefnz)[1..] && g.allgc == [o] + old(g.allgc)
    ensures g.fin == old(g.fin) - {o} && Usable(g, o) && o in g.objs && ValueKind(g.objs[o].kind)
  {
    hide *;
    o := g.tobefnz[0];
    DueParts(g);
    g.tobefnz := g.tobefnz[1..];
    g.allgc := [o] + g.allgc;
    g.fin := g.fin - {o};
    DueTaken(g, o, old(g.tobefnz), old(g.allgc), old(g.fin));
  }

  /** The start of `GCTM`: the object is pushed as the argument of its finalizer, which is program like any other. */
  method CallFinalizer(g: GlobalState) returns (o: Ref, slot: nat)
    requires g.Valid() && g.gcstate.CallFin? && g.tobefnz != []
    modifies g`objs, g`allgc, g`tobefnz, g`fin
    ensures g.Valid() && o == old(g.tobefnz)[0] && g.tobefnz == old(g.tobefnz)[1..] && g.allgc == [o] + old(g.allgc)
    ensures g.fin == old(g.fin) - {o} && g.running in old(g.objs) && slot !in old(g.objs)[g.running].fields
    ensures g.objs == Put(old(g.objs), g.running, slot, o)
  {
    hide *;
    o := TakeDue(g);
    RunningThread(g);
    slot := Top(g);
    StackSlot(g, g.running, slot, o);
    StoreSlot(g, g.running, slot, o);
  }

  lemma StackSlot(g: GlobalState, th: Ref, slot: nat, o: Ref)
    requires th in g.objs && g.objs[th].kind.Thread? && o in g.objs && ValueKind(g.objs[o].kind)
    ensures Storable(g.objs, th, slot, o)
  {
  }

  // ----- getting a finalizer -----

  // The cursor when the element at `j` leaves the list.
  function Pulled(at: Cursor, j: nat): Cursor {
    if at.At? && at.i > j then At(at.i - 1) else at
  }

  // The cursor when the element at `j` of the list of all objects goes to the head of the list of those with
  // finalizers.
  function MovedCursor(p: Phase, at: Cursor, j: nat): Cursor {
    if p.SwpAllGc? then Pulled(at, j) else if p.SwpFinObj? then Shifted(at) else at
  }

  lemma FromPulled(l: seq<Ref>, at: Cursor, j: nat)
    requires j < |l|
    ensures From(l, at) <= From(l[..j] + l[j + 1..], Pulled(at, j)) + {l[j]}
    ensures at.At? && at.i <= |l| ==> Pulled(at, j).i <= |l| - 1
  {
    if at.At? && at.i <= |l| {
      var l' := l[..j] + l[j + 1..];
      if at.i > j {
        assert l'[at.i - 1..] == l[at.i..];
      } else {
        assert l'[at.i..] == l[at.i..j] + l[j + 1..];
        assert l[at.i..] == l[at.i..j] + [l[j]] + l[j + 1..];
      }
    }
  }

  lemma MovedPending(p: Phase, at: Cursor, l: seq<Ref>, f: seq<Ref>, t: seq<Ref>, j: nat)
    requires j < |l| && CursorIn(p, at, l, f, t) && l[j] !in f && l[j] !in t
    ensures StillPending(p, at, l, f, t) <= StillPending(p, MovedCursor(p, at, j), l[..j] + l[j + 1..], [l[j]] + f, t)
    ensures CursorIn(p, MovedCursor(p, at, j), l[..j] + l[j + 1..], [l[j]] + f, t)
  {
    FromPulled(l, at, j);
    FromShifted(f, at, l[j]);
    assert Members([l[j]] + f) == {l[j]} + Members(f);
  }

  // What a change of the lists leaves alone.
  ghost predicate ListFree(g: GlobalState, pending: set<Ref>)
    reads g`objs, g`gcstate, g`gray, g`grayagain, g`color, g`white, g`fixed, g`alive, g`twups, g`next
    reads g`main, g`running, g`registry, g`mt, g`tobefnz
  {
    && !g.gcstate.Atomic? && Below(g.objs, g.next) && CanRoot(g, g.Roots())
    && g.main in g.objs && g.objs[g.main].kind.Thread? && g.running in g.objs && g.objs[g.running].kind.Thread?
    && (g.KeepInvariant() ==> MarkGraph(g, g.objs, {}) && NoDup(g.grayagain) && g.MarkedRoots())
    && (!g.KeepInvariant() ==>
        Sweep(g.objs, g.color, g.white, g.fixed, g.alive, pending) && TwupsLive(g.objs, g.color, g.white, g.twups))
  }

  // The lists, as they are or were.
  ghost predicate ListsFit(g: GlobalState, at: Cursor, allgc: seq<Ref>, finobj: seq<Ref>, fin: set<Ref>)
    reads g`objs, g`gcstate, g`color, g`white, g`fixed, g`tobefnz
  {
    && Partition(g.objs.Keys, g.fixed, allgc, finobj, g.tobefnz) && FinOk(fin, finobj, g.tobefnz)
    && FinKinds(g.objs, finobj, g.tobefnz)
    && (!g.KeepInvariant() ==> CursorIn(g.gcstate, at, allgc, finobj, g.tobefnz) && AllLive(finobj, g.color, g.white))
  }

  lemma ListParts(g: GlobalState)
    requires g.Valid()
    ensures ListFree(g, g.Pending()) && ListsFit(g, g.sweepgc, g.allgc, g.finobj, g.fin)
  {
    hide MarkGraph, Sweep, TwupsLive, Partition, Below, Live;
    TakeRoots(g);
  }

  lemma ListsJoin(g: GlobalState, pending: set<Ref>)
    requires ListFree(g, pending) && ListsFit(g, g.sweepgc, g.allgc, g.finobj, g.fin)
    requires !g.KeepInvariant() ==> pending <= g.Pending()
    ensures g.Valid()
  {
    if !g.KeepInvariant() { SweepWiden(g.objs, g.color, g.white, g.fixed, g.alive, pending, g.Pending()); }
    hide MarkGraph, Sweep, TwupsLive, Partition, Below, Live;
    assert Rest(g) && NoRoots(g);
    Rooted(g, g.Roots());
  }

  // An object goes from one list to the other.
  lemma MovedLists(g: GlobalState, at: Cursor, l: seq<Ref>, f: seq<Ref>, fin: set<Ref>, j: nat)
    requires ListsFit(g, at, l, f, fin) && j < |l| && l[j] in g.objs && ValueKind(g.objs[l[j]].kind)
      && Live(g.color, g.white, l[j])
    ensures ListsFit(g, MovedCursor(g.gcstate, at, j), l[..j] + l[j + 1..], [l[j]] + f, fin + {l[j]})
    ensures !g.KeepInvariant() ==>
      StillPending(g.gcstate, at, l, f, g.tobefnz)
      <= StillPending(g.gcstate, MovedCursor(g.gcstate, at, j), l[..j] + l[j + 1..], [l[j]] + f, g.tobefnz)
  {
    var o := l[j];
    InOneList(g.objs.Keys, g.fixed, l, f, g.tobefnz, o);
    Removed(l, j);
    assert multiset([o] + f) == multiset{o} + multiset(f);
    hide StillPending, CursorIn, MovedCursor, Live;
    assert FinOk(fin + {o}, [o] + f, g.tobefnz);
    if !g.KeepInvariant() { MovedPending(g.gcstate, at, l, f, g.tobefnz, j); }
  }

  // The index of an object in the list of all objects.
  method Search(l: seq<Ref>, o: Ref) returns (j: nat)
    requires o in l
    ensures j < |l| && l[j] == o
  {
    j := 0;
    while l[j] != o
      invariant j < |l| && o in l[j..]
      decreases |l| - j
    {
      j := j + 1;
    }
  }

  // The last part of `luaC_checkfinalizer`.
  method MoveToFin(g: GlobalState, o: Ref)
    requires g.Valid() && o in g.allgc && o in g.objs && ValueKind(g.objs[o].kind) && Live(g.color, g.white, o)
    modifies g`allgc, g`finobj, g`fin, g`sweepgc
    ensures g.Valid() && g.finobj == [o] + old(g.finobj) && g.fin == old(g.fin) + {o}
    ensures exists j: nat :: j < |old(g.allgc)| && old(g.allgc)[j] == o
                             && g.allgc == old(g.allgc)[..j] + old(g.allgc)[j + 1..]
  {
    hide *;
    ListParts(g);
    ghost var pending := g.Pending();
    var j := Search(g.allgc, o);
    MovedLists(g, g.sweepgc, g.allgc, g.finobj, g.fin, j);
    PendingIs(g);
    g.sweepgc := MovedCursor(g.gcstate, g.sweepgc, j);
    g.allgc := g.allgc[..j] + g.allgc[j + 1..];
    g.finobj := [o] + g.finobj;
    g.fin := g.fin + {o};
    PendingIs(g);
    ListsJoin(g, pending);
  }

  lemma PendingIs(g: GlobalState)
    ensures g.Pending() == StillPending(g.gcstate, g.sweepgc, g.allgc, g.finobj, g.tobefnz)
  {
  }

  // An object is swept ahead of its turn.
  method SweepSelf(g: GlobalState, o: Ref)
    requires g.Valid() && !g.KeepInvariant() && Usable(g, o) && o in g.objs && o !in g.fixed
    modifies g`color
    ensures g.Valid() && Usable(g, o)
  {
    hide *;
    InUsable(g, o);
    Hot(g);
    Split(g, {});
    FrameSweep(g, {});
    WhitenUsable(g, o);
    g.color := g.color[o := White(g.white)];
    SweptMore(g, g.objs, old(g.color));
    StaysUsable(g, old(g.color), o);
  }

  lemma WhitenUsable(g: GlobalState, o: Ref)
    requires Sweep(g.objs, g.color, g.white, g.fixed, g.alive, g.Pending()) && Usable(g, o) && o !in g.fixed
    ensures Sweep(g.objs, g.color[o := White(g.white)], g.white, g.fixed, g.alive, g.Pending())
    ensures Kept(g.objs, g.color, g.objs, g.color[o := White(g.white)], g.white)
  {
    WhitenSweep(g.objs, g.color, g.white, g.fixed, g.alive, g.Pending(), g.Pending(), o);
  }

  lemma StaysUsable(g: GlobalState, c0: Colors, o: Ref)
    requires g.color == c0[o := White(g.white)] && o in g.objs && o in g.alive
    ensures Usable(g, o)
  {
  }

  /** The sweep must not stop right behind an object that is about to leave the list: it goes on to the next live
      one. */
  method PassOver(g: GlobalState, o: Ref)
    requires g.Valid() && g.gcstate.SwpAllGc? && g.sweepgc.At? && Usable(g, o)
    requires 0 < g.sweepgc.i <= |g.allgc| && g.allgc[g.sweepgc.i - 1] == o
    modifies g`objs, g`color, g`allgc, g`sweepgc
    ensures g.Valid() && Usable(g, o) && o in g.allgc && g.Intact(old(g.objs), old(g.Roots()))
    ensures o in old(g.objs) && o in g.objs && Seen(g.objs, o) == Seen(old(g.objs), o)
  {
    hide *;
    InUsable(g, o);
    g.NowReached();
    SweepingAll(g);
    ghost var others, rest := g.BeginSweep();
    var i := g.sweepgc.i;
    var l, at := g.SweepToLive(g.allgc, i, others, rest);
    assert l[..i][i - 1] == o;
    g.allgc := l;
    g.sweepgc := at;
    g.SweptPhase(old(g.allgc), old(g.allgc), l, others, rest, old(g.objs), old(g.color));
    KeptUsable(g, old(g.objs), old(g.color), o);
  }

  lemma SweepingAll(g: GlobalState)
    requires g.gcstate.SwpAllGc?
    ensures g.InSweep() && g.SweptList() == g.allgc
  {
  }

  lemma KeptUsable(g: GlobalState, o0: Graph, c0: Colors, o: Ref)
    requires Kept(o0, c0, g.objs, g.color, g.white) && o in o0 && o in g.alive && o in c0 && Live(c0, g.white, o)
      && g.Valid()
    ensures Usable(g, o) && o in g.objs && Seen(g.objs, o) == Seen(o0, o)
  {
    TypedNow(g, {});
  }

  // `issweepphase`
  predicate SweepPhase(p: Phase) {
    p.SwpAllGc? || p.SwpFinObj? || p.SwpToBeFnz? || p.SwpEnd?
  }

  /** `luaC_checkfinalizer`: an object that gets a metatable with a finalizer leaves the list of all objects, swept
      ahead of its turn if a sweep is on. */
  method CheckFinalizer(g: GlobalState, o: Ref, hasGc: bool)
    requires g.Valid() && Held(g, o) && o in g.objs && (g.objs[o].kind.Box? || g.objs[o].kind.Udata?)
    modifies g`objs, g`color, g`allgc, g`finobj, g`fin, g`sweepgc
    ensures g.Valid() && g.Intact(old(g.objs), old(g.Roots()))
    ensures g.fin == if hasGc then old(g.fin) + {o} else old(g.fin)
    ensures g.finobj == if hasGc && o !in old(g.fin) then [o] + old(g.finobj) else old(g.finobj)
  {
    hide *;
    HeldUsable(g, o);
    NowIntact(g);
    if o !in g.fin && hasGc {
      ToMove(g, o);
      if SweepPhase(g.gcstate) {
        SweepNot(g);
        SweepSelf(g, o);
        if g.gcstate.SwpAllGc? && g.sweepgc.At? && 0 < g.sweepgc.i <= |g.allgc| && g.allgc[g.sweepgc.i - 1] == o {
          PassOver(g, o);
        }
      }
      StillMoves(g, old(g.objs), o);
      MoveToFin(g, o);
    }
  }

  lemma NowIntact(g: GlobalState)
    requires g.Valid()
    ensures g.Intact(g.objs, g.Roots())
  {
    g.Accessible();
  }

  lemma SweepNot(g: GlobalState)
    requires SweepPhase(g.gcstate)
    ensures !g.KeepInvariant()
  {
  }

  lemma ToMove(g: GlobalState, o: Ref)
    requires g.Valid() && Usable(g, o) && o in g.objs && (g.objs[o].kind.Box? || g.objs[o].kind.Udata?) && o !in g.fin
    ensures o in g.allgc && o !in g.fixed && Seen(g.objs, o) == g.objs[o] && Live(g.color, g.white, o)
  {
    assert FixedOk(g.objs, g.color, g.fixed) && g.ListsOk();
    InOneList(g.objs.Keys, g.fixed, g.allgc, g.finobj, g.tobefnz, o);
  }

  lemma StillMoves(g: GlobalState, o0: Graph, o: Ref)
    requires o in o0 && (o0[o].kind.Box? || o0[o].kind.Udata?) && o in g.objs && Seen(g.objs, o) == Seen(o0, o)
      && Usable(g, o)
    ensures ValueKind(g.objs[o].kind) && Live(g.color, g.white, o)
  {
  }
}
