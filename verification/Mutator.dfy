// What the program does to the heap between steps of the collector, with the barriers it is obliged to run.

module Mutator {
  import opened Heap
  import opened Marking
  import opened Mutation
  import opened Freeing
  import opened Lists
  import opened Collector
  import opened Sequences

  // ----- the invariant in two parts -----

  // The part of the invariant that is not about the graph.
  ghost predicate Rest(g: GlobalState)
    reads g`gcstate, g`sweepgc, g`allgc, g`finobj, g`tobefnz, g`fin, g`grayagain, g`color, g`white, g`main
  {
    && !g.gcstate.Atomic? && FinOk(g.fin, g.finobj, g.tobefnz)
    && (g.KeepInvariant() ==> NoDup(g.grayagain) && g.MarkedRoots())
    && (!g.KeepInvariant() ==> g.CursorOk() && AllLive(g.finobj, g.color, g.white))
  }

  // The part about the graph, for a graph `objs` that may be about to be written.
  ghost predicate GraphFor(g: GlobalState, objs: Graph, hot: set<Ref>)
    reads g`gcstate, g`sweepgc, g`allgc, g`finobj, g`tobefnz, g`gray, g`grayagain, g`color, g`white, g`fixed, g`alive,
      g`twups, g`next
    reads g`main, g`running, g`registry, g`mt
  {
    && Partition(objs.Keys, g.fixed, g.allgc, g.finobj, g.tobefnz) && Below(objs, g.next) && g.RootsIn(objs, g.color)
    && (g.KeepInvariant() ==> MarkGraph(g, objs, hot))
    && (!g.KeepInvariant() ==> SweepGraph(g, objs))
  }

  ghost predicate MarkGraph(g: GlobalState, objs: Graph, hot: set<Ref>)
    reads g`gray, g`grayagain, g`color, g`white, g`fixed, g`alive, g`twups
  {
    && Tri(objs, g.color, g.white, g.fixed, g.alive, g.gray, Members(g.grayagain), hot)
    && ThreadsGray(objs, g.color) && TwupsAll(objs, g.twups)
  }

  ghost predicate SweepGraph(g: GlobalState, objs: Graph)
    reads g`gcstate, g`sweepgc, g`allgc, g`finobj, g`tobefnz, g`color, g`white, g`fixed, g`alive, g`twups
  {
    Sweep(objs, g.color, g.white, g.fixed, g.alive, g.Pending()) && TwupsLive(objs, g.color, g.white, g.twups)
  }

  lemma Hot(g: GlobalState)
    requires g.Valid()
    ensures g.ValidHot({})
  {
  }

  lemma Split(g: GlobalState, hot: set<Ref>)
    requires g.ValidHot(hot)
    ensures Rest(g) && GraphFor(g, g.objs, hot)
  {
    hide Sweep, TwupsLive, Tri, ThreadsGray, TwupsAll, Partition;
  }

  lemma Join(g: GlobalState, hot: set<Ref>)
    requires Rest(g) && GraphFor(g, g.objs, hot)
    ensures g.ValidHot(hot) && (hot == {} ==> g.Valid())
  {
    hide Sweep, TwupsLive, Tri, ThreadsGray, TwupsAll, Partition;
  }

  // ----- writes that keep the objects, their kinds and the open upvalues -----

  ghost predicate SameShape(objs: Graph, objs': Graph) {
    objs'.Keys == objs.Keys && forall o :: o in objs ==> objs'[o].kind == objs[o].kind && objs'[o].uvs == objs[o].uvs
  }

  lemma ShapeThreads(objs: Graph, objs': Graph, color: Colors, white: bool, twups: seq<Ref>)
    requires SameShape(objs, objs')
    ensures ThreadsGray(objs, color) ==> ThreadsGray(objs', color)
    ensures TwupsAll(objs, twups) ==> TwupsAll(objs', twups)
    ensures TwupsLive(objs, color, white, twups) ==> TwupsLive(objs', color, white, twups)
  {
  }

  // The black object `o` has a reference to a white one among `vs`.
  predicate NeedsBarrier(color: Colors, o: Ref, vs: set<Ref>) {
    o in color && color[o].Black? && exists v :: v in vs && !Marked(color, v)
  }

  /** A write adds references to `vs` to `o`. Unless a black object got a reference to a white one, the invariant stands
      as it was; then it stands but for `o`, for the barrier to see to. */
  lemma WriteGraph(g: GlobalState, objs': Graph, o: Ref, vs: set<Ref>)
    requires GraphFor(g, g.objs, {}) && SameShape(g.objs, objs') && Typed(objs') && Below(objs', g.next)
      && Effect(g.objs, objs', o, vs)
    requires o in g.objs && forall v :: v in vs ==> v in g.objs && v in g.alive && Live(g.color, g.white, v)
    ensures GraphFor(g, objs', {o})
    ensures !NeedsBarrier(g.color, o, vs) ==> GraphFor(g, objs', {})
  {
    ShapeThreads(g.objs, objs', g.color, g.white, g.twups);
    ShapeRoots(g, objs');
    hide Sweep, TwupsLive, Tri, ThreadsGray, TwupsAll, Partition, Effect, Typed, NeedsBarrier, Live, SameShape;
    if g.KeepInvariant() {
      WriteMark(g, objs', o, vs);
    } else {
      WriteSweep(g, objs', o, vs);
    }
  }

  lemma ShapeRoots(g: GlobalState, objs': Graph)
    requires g.RootsIn(g.objs, g.color) && SameShape(g.objs, objs')
    ensures g.RootsIn(objs', g.color) && objs'.Keys == g.objs.Keys
  {
  }

  lemma WriteMark(g: GlobalState, objs': Graph, o: Ref, vs: set<Ref>)
    requires Tri(g.objs, g.color, g.white, g.fixed, g.alive, g.gray, Members(g.grayagain), {})
    requires SameShape(g.objs, objs') && Typed(objs') && Effect(g.objs, objs', o, vs)
    requires o in g.objs && forall v :: v in vs ==> v in g.objs && v in g.alive && Live(g.color, g.white, v)
    ensures Tri(objs', g.color, g.white, g.fixed, g.alive, g.gray, Members(g.grayagain), {o})
    ensures !NeedsBarrier(g.color, o, vs) ==>
              Tri(objs', g.color, g.white, g.fixed, g.alive, g.gray, Members(g.grayagain), {})
  {
    assert Extends(g.objs, objs', g.color, g.color, g.white);
    EffectTri(g.objs, objs', g.color, g.color, g.white, g.fixed, g.alive, g.alive, g.gray, Members(g.grayagain), {},
              o, vs);
    assert {} + {o} == {o};
    assert o in g.color;
  }

  lemma WriteSweep(g: GlobalState, objs': Graph, o: Ref, vs: set<Ref>)
    requires Sweep(g.objs, g.color, g.white, g.fixed, g.alive, g.Pending())
    requires SameShape(g.objs, objs') && Typed(objs') && Effect(g.objs, objs', o, vs)
    requires o in g.objs && forall v :: v in vs ==> v in g.objs && v in g.alive && Live(g.color, g.white, v)
    ensures Sweep(objs', g.color, g.white, g.fixed, g.alive, g.Pending())
  {
    assert Extends(g.objs, objs', g.color, g.color, g.white);
    assert g.alive == g.alive + (objs'.Keys - g.objs.Keys);
    EffectSweep(g.objs, objs', g.color, g.color, g.white, g.fixed, g.alive, g.alive, g.Pending(), o, vs);
  }

  // ----- barriers -----

  // What the object written refers to is marked, but for the object just stored.
  ghost predicate Stored(g: GlobalState, o: Ref, v: Ref)
    reads g`objs, g`color, g`alive, g`gcstate
  {
    && o in g.objs && o in g.color && g.color[o].Black? && v in g.objs && v in g.alive && v in g.color
    && g.color[v].White?
    && (g.KeepInvariant() ==> forall w :: w in Succ(g.objs, o) ==> Marked(g.color, w) || w == v)
  }

  // The invariant while marking, with the colours `c` that the objects had.
  ghost predicate MarkFrame(g: GlobalState, c: Colors)
    reads g`objs, g`gcstate, g`allgc, g`finobj, g`tobefnz, g`fin, g`white, g`fixed, g`alive, g`twups, g`next
    reads g`main, g`running, g`registry, g`mt
  {
    && g.KeepInvariant() && FinOk(g.fin, g.finobj, g.tobefnz)
    && Partition(g.objs.Keys, g.fixed, g.allgc, g.finobj, g.tobefnz)
    && Below(g.objs, g.next) && g.RootsIn(g.objs, c) && ThreadsGray(g.objs, c) && TwupsAll(g.objs, g.twups)
    && Marked(c, g.main) && (forall o :: o in g.tobefnz ==> Marked(c, o))
  }

  lemma FrameMark(g: GlobalState, hot: set<Ref>)
    requires Rest(g) && GraphFor(g, g.objs, hot) && g.KeepInvariant()
    ensures MarkFrame(g, g.color) && NoDup(g.grayagain) && g.Mk(Members(g.grayagain), hot)
      && ThreadsGray(g.objs, g.color)
  {
    hide Tri, ThreadsGray, TwupsAll, Partition, Below, FinOk;
  }

  // Marking more keeps everything else.
  lemma MarkedMore(g: GlobalState, c: Colors)
    requires MarkFrame(g, c) && NoDup(g.grayagain) && g.Mk(Members(g.grayagain), {}) && Grows(c, g.color)
    requires ThreadsGray(g.objs, g.color)
    ensures g.Valid()
  {
    g.MkRoots(Members(g.grayagain));
    hide Tri, ThreadsGray, TwupsAll, Partition, Below, FinOk;
  }

  // The invariant while sweeping, with the graph and colours that were.
  ghost predicate SweepFrame(g: GlobalState, o0: Graph, c0: Colors)
    reads g`gcstate, g`sweepgc, g`allgc, g`finobj, g`tobefnz, g`fin, g`white, g`fixed, g`alive, g`twups, g`next
    reads g`main, g`running, g`registry, g`mt
  {
    && !g.KeepInvariant() && !g.gcstate.Atomic? && FinOk(g.fin, g.finobj, g.tobefnz) && g.CursorOk()
    && Partition(o0.Keys, g.fixed, g.allgc, g.finobj, g.tobefnz)
    && Below(o0, g.next) && g.RootsIn(o0, c0) && TwupsLive(o0, c0, g.white, g.twups)
    && AllLive(g.finobj, c0, g.white) && Members(g.finobj) <= o0.Keys
  }

  lemma FrameSweep(g: GlobalState, hot: set<Ref>)
    requires Rest(g) && GraphFor(g, g.objs, hot) && !g.KeepInvariant()
    ensures SweepFrame(g, g.objs, g.color) && Sweep(g.objs, g.color, g.white, g.fixed, g.alive, g.Pending())
  {
    forall o | o in g.finobj ensures o in g.objs { InOneList(g.objs.Keys, g.fixed, g.allgc, g.finobj, g.tobefnz, o); }
    hide Sweep, TwupsLive, Partition, Below, FinOk;
  }

  lemma SweptMore(g: GlobalState, o0: Graph, c0: Colors)
    requires SweepFrame(g, o0, c0) && Kept(o0, c0, g.objs, g.color, g.white) && g.objs.Keys == o0.Keys
    requires Sweep(g.objs, g.color, g.white, g.fixed, g.alive, g.Pending())
    ensures g.Valid()
  {
    g.KeptInv(o0, c0, g.Pending());
    hide Sweep, TwupsLive, Partition, Below, FinOk, Kept;
  }

  /** `luaC_barrier_`: while marking, the object stored is marked; while sweeping, the object written is swept at once,
      so that it causes no other barrier. */
  method Barrier(g: GlobalState, o: Ref, v: Ref)
    requires g.ValidHot({o}) && Stored(g, o, v)
    modifies g`color, g`gray
    ensures g.Valid()
    ensures g.KeepInvariant() ==> Marks(g.objs, old(g.color), g.color) && Marked(g.color, v)
    ensures !g.KeepInvariant() ==> g.color == old(g.color)[o := White(g.white)] && g.gray == old(g.gray)
  {
    hide *;
    Split(g, {o});
    InStored(g, o, v);
    ghost var c0 := g.color;
    if g.KeepInvariant() {
      FrameMark(g, {o});
      g.ReallyMark(v, Members(g.grayagain), {o}, {});
      StoredMarked(g, c0, o, v);
      ForwardDone(g, c0, o);
    } else {
      FrameSweep(g, {o});
      WhitenBlack(g, o);
      g.color := g.color[o := White(g.white)];
      SweptMore(g, g.objs, c0);
    }
  }

  lemma InStored(g: GlobalState, o: Ref, v: Ref)
    requires Stored(g, o, v)
    ensures o in g.objs && o in g.color && g.color[o].Black? && v in g.objs && v in g.alive && v in g.color
      && g.color[v].White?
    ensures g.KeepInvariant() ==> forall w :: w in Succ(g.objs, o) ==> Marked(g.color, w) || w == v
  {
  }

  lemma StoredMarked(g: GlobalState, c0: Colors, o: Ref, v: Ref)
    requires Marks(g.objs, c0, g.color) && Marked(g.color, v) && o in g.objs
    requires forall w :: w in Succ(g.objs, o) ==> Marked(c0, w) || w == v
    ensures forall w :: w in Succ(g.objs, o) ==> Marked(g.color, w)
  {
    StillMarked(g.objs, c0, g.color);
  }

  lemma ForwardDone(g: GlobalState, c0: Colors, o: Ref)
    requires MarkFrame(g, c0) && NoDup(g.grayagain) && g.Mk(Members(g.grayagain), {o}) && Marks(g.objs, c0, g.color)
    requires o in g.objs && forall w :: w in Succ(g.objs, o) ==> Marked(g.color, w)
    ensures g.Valid()
  {
    assert {o} == {} + {o};
    Cool(g.objs, g.color, g.white, g.fixed, g.alive, g.gray, Members(g.grayagain), {}, o);
    StillMarked(g.objs, c0, g.color);
    ThreadsKept(g.objs, c0, g.color);
    assert ThreadsGray(g.objs, g.color);
    hide Tri, Marks, MarkFrame, ThreadsGray, Succ;
    MarkedMore(g, c0);
  }

  lemma WhitenBlack(g: GlobalState, o: Ref)
    requires Sweep(g.objs, g.color, g.white, g.fixed, g.alive, g.Pending()) && o in g.objs && o in g.color
      && g.color[o].Black?
    ensures Sweep(g.objs, g.color[o := White(g.white)], g.white, g.fixed, g.alive, g.Pending())
    ensures Kept(g.objs, g.color, g.objs, g.color[o := White(g.white)], g.white)
  {
    WhitenSweep(g.objs, g.color, g.white, g.fixed, g.alive, g.Pending(), g.Pending(), o);
  }

  // `luaC_barrierback_`: the object written is to be visited again in the atomic step.
  method BarrierBack(g: GlobalState, o: Ref)
    requires g.ValidHot({o}) && o in g.objs && g.objs[o].kind.Box? && o in g.color && g.color[o].Black?
    modifies g`color, g`grayagain
    ensures g.Valid() && g.color == old(g.color)[o := Gray] && g.grayagain == [o] + old(g.grayagain)
  {
    hide *;
    Split(g, {o});
    ghost var c0 := g.color;
    if g.KeepInvariant() { FrameMark(g, {o}); BackTri(g, o); } else { FrameSweep(g, {o}); GraySweep(g, o); }
    g.grayagain := [o] + g.grayagain;
    g.color := g.color[o := Gray];
    if g.KeepInvariant() { g.MkOf(Members(g.grayagain), {});
      MarkedMore(g, c0); } else { SweptMore(g, g.objs, c0); }
  }

  lemma BackTri(g: GlobalState, o: Ref)
    requires g.Mk(Members(g.grayagain), {o}) && NoDup(g.grayagain) && ThreadsGray(g.objs, g.color)
    requires o in g.objs && g.objs[o].kind.Box? && o in g.color && g.color[o].Black?
    ensures Tri(g.objs, g.color[o := Gray], g.white, g.fixed, g.alive, g.gray, Members([o] + g.grayagain), {})
    ensures NoDup([o] + g.grayagain) && Grows(g.color, g.color[o := Gray]) && ThreadsGray(g.objs, g.color[o := Gray])
  {
    ReturnGray(g.objs, g.color, g.white, g.fixed, g.alive, g.gray, Members(g.grayagain), o);
    assert Members([o] + g.grayagain) == Members(g.grayagain) + {o};
    hide Tri;
    assert o !in g.grayagain;
  }

  lemma GraySweep(g: GlobalState, o: Ref)
    requires Sweep(g.objs, g.color, g.white, g.fixed, g.alive, g.Pending()) && o in g.objs && o in g.color
      && g.color[o].Black?
    ensures Sweep(g.objs, g.color[o := Gray], g.white, g.fixed, g.alive, g.Pending())
    ensures Kept(g.objs, g.color, g.objs, g.color[o := Gray], g.white)
  {
    hide Typed, Succ, Seen;
    assert forall p :: Live(g.color[o := Gray], g.white, p) == Live(g.color, g.white, p);
  }

  // ----- stores -----

  // The program holds `o`.
  ghost predicate Held(g: GlobalState, o: Ref)
    reads g`objs, g`main, g`running, g`registry, g`mt, g`tobefnz
  {
    Reachable(g.objs, g.Roots(), o)
  }

  // What holds of an object that may be stored anywhere.
  ghost predicate Usable(g: GlobalState, o: Ref)
    reads g`objs, g`color, g`white, g`alive
  {
    o in g.objs && o in g.alive && o in g.color && Live(g.color, g.white, o)
  }

  lemma HeldUsable(g: GlobalState, o: Ref)
    requires g.Valid() && Held(g, o)
    ensures Usable(g, o)
  {
    g.Accessible();
    hide Reachable;
  }

  lemma TypedNow(g: GlobalState, hot: set<Ref>)
    requires g.ValidHot(hot)
    ensures Typed(g.objs) && g.color.Keys == g.objs.Keys && Below(g.objs, g.next)
  {
  }

  lemma ShapePut(objs: Graph, o: Ref, k: nat, v: Ref, next: Ref)
    requires o in objs && Below(objs, next) && v < next
    ensures SameShape(objs, Put(objs, o, k, v)) && Below(Put(objs, o, k, v), next)
  {
    var objs' := Put(objs, o, k, v);
    assert objs'[o].fields.Values <= objs[o].fields.Values + {v};
  }

  lemma ShapeDrop(objs: Graph, o: Ref, k: nat, next: Ref)
    requires o in objs && Below(objs, next)
    ensures SameShape(objs, Drop(objs, o, k)) && Below(Drop(objs, o, k), next)
  {
    var objs' := Drop(objs, o, k);
    assert objs'[o].fields.Values <= objs[o].fields.Values;
  }

  // What a store does to the invariant before its barrier.
  lemma PutGraph(g: GlobalState, o: Ref, k: nat, v: Ref)
    requires g.Valid() && o in g.objs && Usable(g, v) && Storable(g.objs, o, k, v)
    ensures Rest(g) && GraphFor(g, Put(g.objs, o, k, v), {o})
    ensures !NeedsBarrier(g.color, o, {v}) ==> GraphFor(g, Put(g.objs, o, k, v), {})
  {
    hide *;
    Hot(g);
    Split(g, {});
    TypedNow(g, {});
    InUsable(g, v);
    PutTyped(g.objs, o, k, v);
    PutEffect(g.objs, o, k, v);
    BelowIn(g.objs, g.next, v);
    ShapePut(g.objs, o, k, v, g.next);
    WriteGraph(g, Put(g.objs, o, k, v), o, {v});
  }

  lemma InUsable(g: GlobalState, v: Ref)
    requires Usable(g, v)
    ensures v in g.objs && v in g.alive && v in g.color && Live(g.color, g.white, v)
  {
  }

  lemma BelowIn(objs: Graph, next: Ref, v: Ref)
    requires Below(objs, next) && v in objs
    ensures v < next
  {
  }

  // A store into a black object, before its barrier.
  lemma PutStored(g: GlobalState, objs: Graph, o: Ref, k: nat, v: Ref)
    requires o in objs && g.objs == Put(objs, o, k, v) && !objs[o].kind.Open? && Usable(g, v)
    requires o in g.color && g.color[o].Black? && g.color[v].White?
    requires g.KeepInvariant() ==> forall w :: w in Succ(objs, o) ==> Marked(g.color, w)
    ensures Stored(g, o, v)
  {
    assert g.objs[o].fields.Values <= objs[o].fields.Values + {v};
  }

  // While marking, a black object refers only to marked ones; while sweeping, nothing else is asked for.
  lemma BlackRefs(g: GlobalState, o: Ref)
    requires g.Valid() && g.KeepInvariant() && o in g.objs && o in g.color && g.color[o].Black?
    ensures forall w :: w in Succ(g.objs, o) ==> Marked(g.color, w)
  {
  }

  /** A store into an object that is not a thread, with its barrier: `luaC_barrier` or, for tables and other objects
      that are written often, `luaC_barrierback`. */
  method Store(g: GlobalState, o: Ref, k: nat, v: Ref, back: bool)
    requires g.Valid() && o in g.objs && o in g.color && Usable(g, v) && Storable(g.objs, o, k, v)
    requires !g.objs[o].kind.Open? && (back ==> g.objs[o].kind.Box?)
    modifies g`objs, g`color, g`gray, g`grayagain
    ensures g.Valid() && g.objs == Put(old(g.objs), o, k, v)
  {
    hide *;
    InUsable(g, v);
    PutGraph(g, o, k, v);
    ghost var o0 := g.objs;
    if g.color[o].Black? && g.color[v].White? {
      if g.KeepInvariant() { BlackRefs(g, o); }
      g.objs := Put(g.objs, o, k, v);
      StillUsable(g, o0, o, k, v);
      Join(g, {o});
      if back {
        BarrierBack(g, o);
      } else {
        PutStored(g, o0, o, k, v);
        Barrier(g, o, v);
      }
    } else {
      NoBarrier(g.color, o, v);
      g.objs := Put(g.objs, o, k, v);
      Join(g, {});
    }
  }

  lemma StillUsable(g: GlobalState, o0: Graph, o: Ref, k: nat, v: Ref)
    requires o in o0 && g.objs == Put(o0, o, k, v) && v in o0 && v in g.alive && v in g.color
      && Live(g.color, g.white, v)
    ensures Usable(g, v) && o in g.objs && g.objs[o].kind == o0[o].kind
  {
  }

  lemma NoBarrier(color: Colors, o: Ref, v: Ref)
    requires o in color && v in color && !(color[o].Black? && color[v].White?)
    ensures !NeedsBarrier(color, o, {v})
  {
  }

  /** `t[k] = v`, a metatable, an upvalue of a closure: any store by the program but into a stack. */
  method SetField(g: GlobalState, o: Ref, k: nat, v: Ref, back: bool)
    requires g.Valid() && Held(g, o) && Held(g, v)
    requires o in g.objs && v in g.objs && Storable(g.objs, o, k, v)
    requires !g.objs[o].kind.Thread? && (back ==> g.objs[o].kind.Box?)
    modifies g`objs, g`color, g`gray, g`grayagain
    ensures g.Valid() && g.objs == Put(old(g.objs), o, k, v)
  {
    HeldUsable(g, o);
    HeldUsable(g, v);
    assert !g.objs[o].kind.Open?;
    hide Put;
    Store(g, o, k, v, back);
  }

  // While sweeping no object is hot, and while marking no thread needs a barrier.
  lemma ThreadCold(g: GlobalState, objs: Graph, th: Ref, vs: set<Ref>)
    requires g.Valid() && th in g.objs && g.objs[th].kind.Thread? && GraphFor(g, objs, {th})
    requires !NeedsBarrier(g.color, th, vs) ==> GraphFor(g, objs, {})
    ensures GraphFor(g, objs, {})
  {
    if g.KeepInvariant() { assert th in g.color ==> !g.color[th].Black?; }
  }

  // Stacks are written without barriers: while marking no thread is black.
  method StoreSlot(g: GlobalState, th: Ref, k: nat, v: Ref)
    requires g.Valid() && Usable(g, v) && th in g.objs && g.objs[th].kind.Thread? && Storable(g.objs, th, k, v)
    modifies g`objs
    ensures g.Valid() && g.objs == Put(old(g.objs), th, k, v)
  {
    hide *;
    PutGraph(g, th, k, v);
    ThreadCold(g, Put(g.objs, th, k, v), th, {v});
    g.objs := Put(g.objs, th, k, v);
    Join(g, {});
  }

  method SetSlot(g: GlobalState, th: Ref, k: nat, v: Ref)
    requires g.Valid() && Held(g, v) && th in g.objs && g.objs[th].kind.Thread? && v in g.objs
      && Storable(g.objs, th, k, v)
    modifies g`objs
    ensures g.Valid() && g.objs == Put(old(g.objs), th, k, v)
  {
    hide *;
    HeldUsable(g, v);
    StoreSlot(g, th, k, v);
  }

  // A reference is removed, from any object and without any barrier.
  method Clear(g: GlobalState, o: Ref, k: nat)
    requires g.Valid() && o in g.objs
    modifies g`objs
    ensures g.Valid() && g.objs == Drop(old(g.objs), o, k)
  {
    hide *;
    Hot(g);
    Split(g, {});
    TypedNow(g, {});
    DropTyped(g.objs, o, k);
    DropEffect(g.objs, o, k);
    ShapeDrop(g.objs, o, k, g.next);
    assert !NeedsBarrier(g.color, o, {}) by { NoneNeeded(g.color, o); }
    WriteGraph(g, Drop(g.objs, o, k), o, {});
    g.objs := Drop(g.objs, o, k);
    Join(g, {});
  }

  lemma NoneNeeded(color: Colors, o: Ref)
    ensures !NeedsBarrier(color, o, {})
  {
  }

  // The graph after a store through an upvalue: into the slot of its thread, or into the upvalue itself.
  function UpvalPut(objs: Graph, u: Ref, v: Ref): Graph
    requires u in objs
  {
    var k := objs[u].kind;
    if k.Open? && k.th in objs then Put(objs, k.th, k.slot, v) else Put(objs, u, 0, v)
  }

  // Either way it is the value seen through the upvalue.
  lemma UpvalSeen(objs: Graph, u: Ref, v: Ref)
    requires Typed(objs) && u in objs && (objs[u].kind.Open? || objs[u].kind.Cell?)
    ensures u in UpvalPut(objs, u, v) && Seen(UpvalPut(objs, u, v), u) == Obj(Cell, map[0 := v], {})
  {
    assert TypedObj(objs, u);
    if objs[u].kind.Cell? { assert objs[u].fields[0 := v] == map[0 := v]; }
  }

  /** `OP_SETUPVAL`: an open upvalue is the slot of its thread, which need not be reachable any more; a closed one is an
      object written with a barrier. */
  method SetUpvalue(g: GlobalState, u: Ref, v: Ref)
    requires g.Valid() && Held(g, u) && Held(g, v) && u in g.objs && v in g.objs && ValueKind(g.objs[v].kind)
    requires g.objs[u].kind.Open? || g.objs[u].kind.Cell?
    modifies g`objs, g`color, g`gray, g`grayagain
    ensures g.Valid() && g.objs == UpvalPut(old(g.objs), u, v)
    ensures u in g.objs && Seen(g.objs, u) == Obj(Cell, map[0 := v], {})
  {
    hide *;
    HeldUsable(g, u);
    HeldUsable(g, v);
    InUsable(g, u);
    UpvalueThread(g, u, v);
    if g.objs[u].kind.Cell? {
      Store(g, u, 0, v, false);
    } else {
      StoreSlot(g, g.objs[u].kind.th, g.objs[u].kind.slot, v);
    }
  }

  lemma UpvalueThread(g: GlobalState, u: Ref, v: Ref)
    requires g.Valid() && u in g.objs && (g.objs[u].kind.Open? || g.objs[u].kind.Cell?) && v in g.objs
      && ValueKind(g.objs[v].kind)
    ensures g.objs[u].kind.Open? ==> g.objs[u].kind.th in g.objs && g.objs[g.objs[u].kind.th].kind.Thread?
    ensures g.objs[u].kind.Open? ==> Storable(g.objs, g.objs[u].kind.th, g.objs[u].kind.slot, v)
    ensures g.objs[u].kind.Open? ==> UpvalPut(g.objs, u, v) == Put(g.objs, g.objs[u].kind.th, g.objs[u].kind.slot, v)
    ensures g.objs[u].kind.Cell? ==> Storable(g.objs, u, 0, v) && UpvalPut(g.objs, u, v) == Put(g.objs, u, 0, v)
    ensures u in UpvalPut(g.objs, u, v) && Seen(UpvalPut(g.objs, u, v), u) == Obj(Cell, map[0 := v], {})
  {
    TypedNow(g, {});
    assert TypedObj(g.objs, u);
    UpvalSeen(g.objs, u, v);
  }
}
