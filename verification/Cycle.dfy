// Steps and cycles of the incremental collector.

module Cycle {
  import opened Heap
  import opened Marking
  import opened Mutation
  import opened Freeing
  import opened Lists
  import opened Collector
  import opened Finalizers
  import opened Sequences

  // How many phases are left until the collector pauses.
  function PhasesLeft(p: Phase): nat {
    match p
    case Propagate => 8
    case EnterAtomic => 7
    case Atomic => 6
    case SwpAllGc => 5
    case SwpFinObj => 4
    case SwpToBeFnz => 3
    case SwpEnd => 2
    case CallFin => 1
    case Pause => 0
  }

  // How much work is left in a phase.
  function WorkLeft(g: GlobalState): nat
    reads g`gcstate, g`sweepgc, g`allgc, g`finobj, g`tobefnz, g`objs, g`color, g`grayagain
  {
    match g.gcstate
    case Propagate => |Unvisited(g.objs, g.color, g.grayagain)|
    case CallFin => |g.tobefnz|
    case _ => g.SweepWork()
  }

  // One step nearer the end of the cycle.
  predicate Nearer(p: Phase, w: nat, p': Phase, w': nat) {
    PhasesLeft(p') < PhasesLeft(p) || (p' == p && w' < w)
  }

  lemma LessUnvisited(a: set<Ref>, b: set<Ref>)
    requires a < b
    ensures |a| < |b|
  {
    var o :| o in b && o !in a;
    assert a <= b - {o};
    Smaller(a, b - {o});
  }

  lemma {:induction false} Smaller(a: set<Ref>, b: set<Ref>)
    requires a <= b
    ensures |a| <= |b|
  {
    if a != {} {
      var o :| o in a;
      Smaller(a - {o}, b - {o});
    }
  }

  method PropagatePhase(g: GlobalState)
    requires g.Valid() && g.gcstate.Propagate?
    modifies g`color, g`gray, g`grayagain, g`twups, g`gcstate
    ensures g.Valid() && g.KeepInvariant() && g.Intact(g.objs, g.Roots())
      && (g.gcstate.Propagate? || g.gcstate.EnterAtomic?)
    ensures Nearer(old(g.gcstate), old(WorkLeft(g)), g.gcstate, WorkLeft(g))
  {
    hide *;
    NowIntact(g);
    PropagateWork(g);
    g.PropagateStep();
    PropagateWork(g);
    if g.gcstate.Propagate? {
      LessUnvisited(Unvisited(g.objs, g.color, g.grayagain), Unvisited(g.objs, old(g.color), old(g.grayagain)));
    }
    PropagateNearer(old(WorkLeft(g)), g.gcstate, WorkLeft(g));
  }

  lemma PropagateNearer(w: nat, p': Phase, w': nat)
    requires p'.EnterAtomic? || (p'.Propagate? && w' < w)
    ensures Nearer(Propagate, w, p', w')
  {
  }

  lemma PropagateWork(g: GlobalState)
    ensures g.gcstate.Propagate? ==> WorkLeft(g) == |Unvisited(g.objs, g.color, g.grayagain)|
  {
  }

  method SweepPhaseStep(g: GlobalState)
    requires g.Valid() && (g.gcstate.SwpAllGc? || g.gcstate.SwpFinObj? || g.gcstate.SwpToBeFnz?)
    modifies g`objs, g`color, g`allgc, g`gcstate, g`sweepgc
    ensures g.Valid() && g.Intact(old(g.objs), old(g.Roots())) && g.objs.Keys <= old(g.objs).Keys && !g.gcstate.Pause?
    ensures Nearer(old(g.gcstate), old(WorkLeft(g)), g.gcstate, WorkLeft(g))
  {
    hide *;
    SweepWorkIs(g);
    g.SweepStep();
    SweepWorkIs(g);
    Ahead(old(g.gcstate), old(WorkLeft(g)), g.gcstate, WorkLeft(g));
  }

  lemma SweepWorkIs(g: GlobalState)
    ensures g.gcstate.SwpAllGc? || g.gcstate.SwpFinObj? || g.gcstate.SwpToBeFnz? ==>
              WorkLeft(g) == g.SweepWork() && g.InSweep()
  {
  }

  lemma Ahead(p: Phase, w: nat, p': Phase, w': nat)
    requires p.SwpAllGc? || p.SwpFinObj? || p.SwpToBeFnz?
    requires (p' == p && w' < w) || p' == if p.SwpAllGc? then SwpFinObj else if p.SwpFinObj? then SwpToBeFnz else SwpEnd
    ensures Nearer(p, w, p', w')
  {
  }

  /** The objects whose finalizers become due: those with a finalizer that marking did not reach, in the order of their
      list; the others stay. What the program can reach was marked. */
  ghost predicate Separated(finobj: seq<Ref>, tobefnz: seq<Ref>, objs: Graph, roots: set<Ref>, finobj': seq<Ref>,
                            tobefnz': seq<Ref>) {
    exists strong: Colors :: finobj' == Others(finobj, strong)
                             && DueAfter(finobj, tobefnz, objs, roots, strong, tobefnz')
  }

  ghost predicate DueAfter(finobj: seq<Ref>, tobefnz: seq<Ref>, objs: Graph, roots: set<Ref>, strong: Colors,
                           tobefnz': seq<Ref>) {
    tobefnz' == tobefnz + Whites(finobj, strong) && forall o :: Reachable(objs, roots, o) ==> Marked(strong, o)
  }

  lemma IsSeparated(finobj: seq<Ref>, tobefnz: seq<Ref>, objs: Graph, roots: set<Ref>, strong: Colors)
    requires forall o :: Reachable(objs, roots, o) ==> Marked(strong, o)
    ensures Separated(finobj, tobefnz, objs, roots, Others(finobj, strong), tobefnz + Whites(finobj, strong))
  {
    assert DueAfter(finobj, tobefnz, objs, roots, strong, tobefnz + Whites(finobj, strong));
  }

  // The step that ends the marking.
  method AtomicPhase(g: GlobalState)
    requires g.Valid() && g.gcstate.EnterAtomic?
    modifies g`objs, g`color, g`white, g`gray, g`grayagain, g`twups, g`allgc, g`finobj, g`tobefnz, g`gcstate, g`sweepgc,
      g`alive
    ensures g.Valid() && g.Intact(old(g.objs), old(g.Roots())) && g.objs.Keys <= old(g.objs).Keys
      && g.white == !old(g.white)
    ensures old(g.Roots()) <= g.Roots() && g.gcstate.SwpAllGc? && old(g.tobefnz) <= g.tobefnz
    ensures old(g.finobj) == [] ==> g.finobj == [] && g.tobefnz == old(g.tobefnz) && g.alive == old(g.alive)
    ensures Separated(old(g.finobj), old(g.tobefnz), old(g.objs), old(g.Roots()), g.finobj, g.tobefnz)
    ensures Nearer(old(g.gcstate), old(WorkLeft(g)), g.gcstate, WorkLeft(g))
  {
    hide *;
    AtomicNearer(g, WorkLeft(g));
    ghost var strong := g.FinishMarking();
    IsSeparated(old(g.finobj), old(g.tobefnz), old(g.objs), old(g.Roots()), strong);
    SweptNearer(g.gcstate, old(WorkLeft(g)), WorkLeft(g));
  }

  lemma AtomicNearer(g: GlobalState, w: nat)
    requires g.gcstate.EnterAtomic?
    ensures g.KeepInvariant()
  {
  }

  lemma SweptNearer(p': Phase, w: nat, w': nat)
    requires p'.SwpAllGc?
    ensures Nearer(EnterAtomic, w, p', w')
  {
  }

  // An object was put into a free slot of a thread.
  ghost predicate Handed(objs: Graph, th: Ref, o: Ref, objs': Graph) {
    th in objs && exists slot: nat :: slot !in objs[th].fields && objs' == Put(objs, th, slot, o)
  }

  lemma HandedAt(objs: Graph, th: Ref, slot: nat, o: Ref)
    requires th in objs && slot !in objs[th].fields
    ensures Handed(objs, th, o, Put(objs, th, slot, o))
  {
  }

  // The two phases after the sweep.
  method IdleStep(g: GlobalState)
    requires g.Valid() && (g.gcstate.SwpEnd? || g.gcstate.CallFin?)
    modifies g`objs, g`allgc, g`tobefnz, g`fin, g`gcstate
    ensures g.Valid() && (g.gcstate == if old(g.gcstate).SwpEnd? then CallFin else if old(g.tobefnz) == [] then Pause
                          else CallFin)
    ensures old(g.gcstate).SwpEnd? || old(g.tobefnz) == [] ==> unchanged(g`objs, g`allgc, g`tobefnz, g`fin)
    ensures old(g.gcstate).CallFin? && old(g.tobefnz) != [] ==>
              g.tobefnz == old(g.tobefnz)[1..] && g.allgc == [old(g.tobefnz)[0]] + old(g.allgc)
    ensures old(g.gcstate).CallFin? && old(g.tobefnz) != [] ==> g.fin == old(g.fin) - {old(g.tobefnz)[0]}
    ensures old(g.gcstate).CallFin? && old(g.tobefnz) != [] ==>
              Handed(old(g.objs), g.running, old(g.tobefnz)[0], g.objs)
    ensures g.objs.Keys == old(g.objs).Keys && Nearer(old(g.gcstate), old(WorkLeft(g)), g.gcstate, WorkLeft(g))
  {
    hide *;
    FinWork(g);
    if g.gcstate.CallFin? && g.tobefnz != [] {
      var o, slot := CallFinalizer(g);
      HandedAt(old(g.objs), g.running, slot, o);
      assert Put(old(g.objs), g.running, slot, o).Keys
        == old(g.objs).Keys by { PutKeys(old(g.objs), g.running, slot, o); }
    } else {
      SomeIdle(g);
      IdleParts(g);
      g.gcstate := if g.gcstate.SwpEnd? then CallFin else Pause;
      SomeIdle(g);
      IdleValid(g);
    }
    FinWork(g);
    IdleNearer(old(g.gcstate), old(WorkLeft(g)), g.gcstate, WorkLeft(g));
  }

  lemma FinWork(g: GlobalState)
    ensures g.gcstate.CallFin? ==> WorkLeft(g) == |g.tobefnz|
  {
  }

  lemma IdleNearer(p: Phase, w: nat, p': Phase, w': nat)
    requires (p.SwpEnd? && p'.CallFin?) || (p.CallFin? && (p'.Pause? || (p'.CallFin? && w' < w)))
    ensures Nearer(p, w, p', w')
  {
  }

  lemma PutKeys(objs: Graph, o: Ref, k: nat, v: Ref)
    requires o in objs
    ensures Put(objs, o, k, v).Keys == objs.Keys
  {
  }

  lemma SomeIdle(g: GlobalState)
    ensures g.gcstate.SwpEnd? || g.gcstate.CallFin? || g.gcstate.Pause? ==> AfterSweep(g.gcstate)
  {
  }

  /** `singlestep`. Whatever the step, the program finds what it can reach as it left it; only the step that calls a
      finalizer adds to it, pushing the object to be finalized. What a cycle may keep is what can be reached when it
      starts, and from then on grows only by what the last step of the marking resurrects for finalizers. The objects
      with a pending finalizer stay the same until it is called, first in, first out; by `OneList` they are all
      there. */
  method SingleStep(g: GlobalState)
    requires g.Valid()
    modifies g`objs, g`color, g`white, g`gcstate, g`gray, g`grayagain, g`twups, g`allgc, g`finobj, g`tobefnz, g`fin,
      g`sweepgc, g`alive
    ensures g.Valid() && g.objs.Keys <= old(g.objs).Keys
    ensures !old(g.gcstate).CallFin? ==> g.Intact(old(g.objs), old(g.Roots())) && old(g.Roots()) <= g.Roots()
                                         && !g.gcstate.Pause?
    ensures old(g.gcstate).Pause? ==> g.alive == ReachSet(g.objs, g.Roots()) && g.gcstate.Propagate?
                                      && g.objs == old(g.objs) && g.tobefnz == old(g.tobefnz)
    ensures old(g.gcstate).Propagate? ==> g.objs == old(g.objs)
    ensures !old(g.gcstate).Pause? && (old(g.gcstate).EnterAtomic? ==> old(g.finobj) == []) ==> g.alive == old(g.alive)
    ensures !old(g.gcstate).EnterAtomic? || old(g.finobj) == [] ==> g.finobj == old(g.finobj)
    ensures g.white == if old(g.gcstate).EnterAtomic? then !old(g.white) else old(g.white)
    ensures old(g.gcstate).CallFin? && old(g.tobefnz) == [] ==>
              g.gcstate.Pause? && g.objs == old(g.objs) && g.tobefnz == [] && g.fin == old(g.fin)
    ensures !old(g.gcstate).CallFin? ==> old(g.tobefnz) <= g.tobefnz && g.fin == old(g.fin)
    ensures !old(g.gcstate).CallFin? && !old(g.gcstate).EnterAtomic? ==> g.tobefnz == old(g.tobefnz)
    ensures old(g.gcstate).EnterAtomic? ==>
      Separated(old(g.finobj), old(g.tobefnz), old(g.objs), old(g.Roots()), g.finobj, g.tobefnz)
    ensures old(g.gcstate).CallFin? && old(g.tobefnz) != [] ==> g.fin == old(g.fin) - {old(g.tobefnz)[0]}
    ensures old(g.gcstate).CallFin? && old(g.tobefnz) != [] ==>
      g.tobefnz == old(g.tobefnz)[1..] && g.allgc == [old(g.tobefnz)[0]] + old(g.allgc)
    ensures old(g.gcstate).CallFin? && old(g.tobefnz) != [] ==>
              Handed(old(g.objs), g.running, old(g.tobefnz)[0], g.objs)
    ensures !old(g.gcstate).Pause? ==> Nearer(old(g.gcstate), old(WorkLeft(g)), g.gcstate, WorkLeft(g))
  {
    hide *;
    NowIntact(g);
    NotAtomic(g);
    if g.gcstate.Pause? {
      g.Restart();
    } else if g.gcstate.Propagate? {
      PropagatePhase(g);
    } else if g.gcstate.EnterAtomic? {
      AtomicPhase(g);
    } else if g.gcstate.SwpEnd? || g.gcstate.CallFin? {
      IdleStep(g);
    } else {
      SweepPhaseStep(g);
    }
  }

  lemma NotAtomic(g: GlobalState)
    requires g.Valid()
    ensures !g.gcstate.Atomic?
  {
  }

  /** Every object that is not fixed is in exactly one of the three lists, and the finalized bit is set exactly in the
      last two. So an object with a pending finalizer is there. */
  lemma OneList(g: GlobalState, o: Ref)
    requires g.Valid()
    ensures o in g.allgc || o in g.finobj || o in g.tobefnz <==> o in g.objs && o !in g.fixed
    ensures o in g.fin <==> o in g.finobj || o in g.tobefnz
    ensures !(o in g.allgc && o in g.fin) && !(o in g.finobj && o in g.tobefnz)
    ensures NoDup(g.allgc) && NoDup(g.finobj) && NoDup(g.tobefnz)
  {
    assert g.ListsOk();
    hide g.Valid;
    InOneList(g.objs.Keys, g.fixed, g.allgc, g.finobj, g.tobefnz, o);
    ListsNoDup(g.objs.Keys, g.fixed, g.allgc, g.finobj, g.tobefnz);
  }

  // ----- whole cycles -----

  // Steps that each leave alone what could be reached before.
  lemma IntactTrans(g: GlobalState, o0: Graph, r0: set<Ref>, o1: Graph, r1: set<Ref>)
    requires forall o :: Reachable(o0, r0, o) ==> o in o0 && o in o1 && Seen(o1, o) == Seen(o0, o)
    requires r0 <= r1 && g.Intact(o1, r1)
    ensures g.Intact(o0, r0)
  {
    hide Reachable, Seen;
    SeenReachable(o0, r0, o1, r1);
  }

  lemma IntactNow(g: GlobalState, o0: Graph, r0: set<Ref>)
    requires g.Intact(o0, r0)
    ensures forall o :: Reachable(o0, r0, o) ==> o in o0 && o in g.objs && Seen(g.objs, o) == Seen(o0, o)
  {
  }

  // After the sweep all that is left is white again, and is what the cycle was to keep.
  lemma CycleEnd(g: GlobalState)
    requires g.Valid() && AfterSweep(g.gcstate)
    ensures forall o :: o in g.objs && o !in g.fixed ==> o in g.color && g.color[o] == White(g.white) && o in g.alive
  {
    IdleParts(g);
    assert g.color.Keys == g.objs.Keys;
  }

  lemma NothingSeparated(tobefnz: seq<Ref>, objs: Graph, roots: set<Ref>, finobj': seq<Ref>, tobefnz': seq<Ref>)
    requires Separated([], tobefnz, objs, roots, finobj', tobefnz')
    ensures finobj' == [] && tobefnz' == tobefnz
  {
  }

  /** `luaC_runtilstate`, up to the calls of finalizers. It takes finitely many steps. */
  method RunToFinalizers(g: GlobalState)
    requires g.Valid() && !g.gcstate.Pause?
    modifies g`objs, g`color, g`white, g`gcstate, g`gray, g`grayagain, g`twups, g`allgc, g`finobj, g`tobefnz, g`fin,
      g`sweepgc, g`alive
    ensures g.Valid() && g.gcstate.CallFin? && g.objs.Keys <= old(g.objs).Keys && g.Intact(old(g.objs), old(g.Roots()))
    ensures old(g.finobj) == [] ==> g.finobj == [] && g.alive == old(g.alive) && g.tobefnz == old(g.tobefnz)
  {
    hide *;
    NowIntact(g);
    while !g.gcstate.CallFin?
      invariant g.Valid() && !g.gcstate.Pause? && g.objs.Keys <= old(g.objs).Keys
      invariant g.Intact(old(g.objs), old(g.Roots())) && old(g.Roots()) <= g.Roots()
      invariant old(g.finobj) == [] ==> g.finobj == [] && g.alive == old(g.alive) && g.tobefnz == old(g.tobefnz)
      decreases PhasesLeft(g.gcstate), WorkLeft(g)
    {
      ghost var o1, r1 := g.objs, g.Roots();
      ghost var p, w := g.gcstate, WorkLeft(g);
      IntactNow(g, old(g.objs), old(g.Roots()));
      ghost var f, d := g.finobj, g.tobefnz;
      SingleStep(g);
      if f == [] && p.EnterAtomic? { NothingSeparated(d, o1, r1, g.finobj, g.tobefnz); }
      IntactTrans(g, old(g.objs), old(g.Roots()), o1, r1);
      IsNearer(p, w, g.gcstate, WorkLeft(g));
    }
  }

  lemma IsNearer(p: Phase, w: nat, p': Phase, w': nat)
    requires Nearer(p, w, p', w') && !p.Pause?
    ensures PhasesLeft(p') < PhasesLeft(p) || (p' == p && w' < w)
  {
  }

  /** A whole cycle without a program beside it, from the pause to the calls of finalizers. With no object that has a
      finalizer, of the objects that are not fixed exactly those stay that could be reached when it started. */
  method Collect(g: GlobalState)
    requires g.Valid() && g.gcstate.Pause?
    modifies g`objs, g`color, g`white, g`gcstate, g`gray, g`grayagain, g`twups, g`allgc, g`finobj, g`tobefnz, g`fin,
      g`sweepgc, g`alive
    ensures g.Valid() && g.gcstate.CallFin? && g.Intact(old(g.objs), old(g.Roots()))
    ensures forall o :: o in g.objs && o !in g.fixed ==> o in g.color && g.color[o] == White(g.white)
    ensures old(g.finobj) == [] ==>
      forall o :: o in old(g.objs) && o !in g.fixed ==> (o in g.objs <==> Reachable(old(g.objs), old(g.Roots()), o))
  {
    hide *;
    SingleStep(g);
    PauseLeft(g);
    IntactNow(g, old(g.objs), old(g.Roots()));
    ghost var r1 := g.Roots();
    RunToFinalizers(g);
    IntactTrans(g, old(g.objs), old(g.Roots()), old(g.objs), r1);
    SomeIdle(g);
    CycleEnd(g);
    if old(g.finobj) == [] { ExactlyReached(g, old(g.objs), old(g.Roots())); }
  }

  lemma PauseLeft(g: GlobalState)
    requires g.gcstate.Propagate?
    ensures !g.gcstate.Pause?
  {
  }

  lemma ExactlyReached(g: GlobalState, o0: Graph, r0: set<Ref>)
    requires g.Intact(o0, r0) && g.alive == ReachSet(o0, r0)
    requires forall o :: o in g.objs && o !in g.fixed ==> o in g.alive
    ensures forall o :: o in o0 && o !in g.fixed ==> (o in g.objs <==> Reachable(o0, r0, o))
  {
    hide Reachable;
  }

  // Nothing that could come due, and nothing that is.
  ghost predicate NoneDue(g: GlobalState)
    reads g`finobj, g`tobefnz
  {
    g.finobj == [] && g.tobefnz == []
  }

  lemma NoneDueIs(g: GlobalState)
    ensures NoneDue(g) <==> g.finobj == [] && g.tobefnz == []
  {
  }

  lemma SameIntact(g: GlobalState, o0: Graph, r0: set<Ref>, o1: Graph)
    requires forall o :: Reachable(o0, r0, o) ==> o in o0 && o in o1 && Seen(o1, o) == Seen(o0, o)
    requires g.objs == o1
    ensures g.Intact(o0, r0)
  {
    hide Reachable, Seen;
  }

  // `luaC_runtilstate`, up to the pause: the finalizers that are due are called one by one.
  method RunToPause(g: GlobalState)
    requires g.Valid()
    modifies g`objs, g`color, g`white, g`gcstate, g`gray, g`grayagain, g`twups, g`allgc, g`finobj, g`tobefnz, g`fin,
      g`sweepgc, g`alive
    ensures g.Valid() && g.gcstate.Pause?
    ensures old(NoneDue(g)) ==> NoneDue(g) && g.Intact(old(g.objs), old(g.Roots())) && g.objs.Keys <= old(g.objs).Keys
    ensures old(NoneDue(g)) ==> g.Roots() == old(g.Roots())
    ensures old(NoneDue(g)) && old(g.gcstate).CallFin? ==> g.objs == old(g.objs)
  {
    hide *;
    NowIntact(g);
    NoneDueIs(g);
    while !g.gcstate.Pause?
      invariant g.Valid()
      invariant old(NoneDue(g)) ==> NoneDue(g) && g.Intact(old(g.objs), old(g.Roots()))
      invariant old(NoneDue(g)) ==> g.Roots() == old(g.Roots()) && g.objs.Keys <= old(g.objs).Keys
      invariant old(NoneDue(g)) && old(g.gcstate).CallFin? ==>
                  g.objs == old(g.objs) && (g.gcstate.CallFin? || g.gcstate.Pause?)
      decreases PhasesLeft(g.gcstate), WorkLeft(g)
    {
      ghost var p, w := g.gcstate, WorkLeft(g);
      StepToPause(g, old(NoneDue(g)), old(g.objs), old(g.Roots()));
      IsNearer(p, w, g.gcstate, WorkLeft(g));
    }
  }

  // One step towards the pause.
  method StepToPause(g: GlobalState, ghost none: bool, ghost o0: Graph, ghost r0: set<Ref>)
    requires g.Valid() && !g.gcstate.Pause?
    requires none ==> NoneDue(g) && g.Intact(o0, r0) && g.Roots() == r0
    modifies g`objs, g`color, g`white, g`gcstate, g`gray, g`grayagain, g`twups, g`allgc, g`finobj, g`tobefnz, g`fin,
      g`sweepgc, g`alive
    ensures g.Valid() && g.objs.Keys <= old(g.objs).Keys
    ensures Nearer(old(g.gcstate), old(WorkLeft(g)), g.gcstate, WorkLeft(g))
    ensures none ==> NoneDue(g) && g.Intact(o0, r0) && g.Roots() == r0
    ensures none && old(g.gcstate).CallFin? ==> g.objs == old(g.objs) && g.gcstate.Pause?
  {
    hide *;
    NoneDueIs(g);
    if none { IntactNow(g, o0, r0); }
    SingleStep(g);
    NoneDueIs(g);
    if none {
      if old(g.gcstate).CallFin? {
        SameIntact(g, o0, r0, old(g.objs));
      } else {
        if old(g.gcstate).EnterAtomic? {
          NothingSeparated([], old(g.objs), old(g.Roots()), g.finobj, g.tobefnz);
        }
        IntactTrans(g, o0, r0, old(g.objs), old(g.Roots()));
      }
    }
  }

  /** `luaC_fullgc`: whatever the collector was doing, a whole cycle follows, up to the next pause, with all the marking
      in the atomic step. With no object that has a finalizer or waits for one, of the objects that are not fixed
      exactly those stay that could be reached. */
  method FullGc(g: GlobalState)
    requires g.Valid()
    modifies g`objs, g`color, g`white, g`gcstate, g`gray, g`grayagain, g`twups, g`allgc, g`finobj, g`tobefnz, g`fin,
      g`sweepgc, g`alive
    ensures g.Valid() && g.gcstate.Pause?
    ensures forall o :: o in g.objs && o !in g.fixed ==> o in g.color && g.color[o] == White(g.white)
    ensures old(NoneDue(g)) ==> NoneDue(g) && g.Intact(old(g.objs), old(g.Roots()))
    ensures old(NoneDue(g)) ==>
      forall o :: o in old(g.objs) && o !in g.fixed ==> (o in g.objs <==> Reachable(old(g.objs), old(g.Roots()), o))
  {
    hide *;
    FinishOldCycle(g);
    ghost var o1, r1 := g.objs, g.Roots();
    if old(NoneDue(g)) { IntactNow(g, old(g.objs), old(g.Roots())); }
    WholeCycle(g);
    SomeIdle(g);
    CycleEnd(g);
    if old(NoneDue(g)) {
      ExactlyBoth(g, old(g.objs), old(g.Roots()), o1);
      IntactTrans(g, old(g.objs), old(g.Roots()), o1, r1);
    }
  }

  // What is left of a cycle that was on.
  method FinishOldCycle(g: GlobalState)
    requires g.Valid()
    modifies g`objs, g`color, g`white, g`gcstate, g`gray, g`grayagain, g`twups, g`allgc, g`finobj, g`tobefnz, g`fin,
      g`sweepgc, g`alive
    ensures g.Valid() && g.gcstate.Pause?
    ensures old(NoneDue(g)) ==> NoneDue(g) && g.Intact(old(g.objs), old(g.Roots())) && g.Roots() == old(g.Roots())
    ensures old(NoneDue(g)) ==> g.objs.Keys <= old(g.objs).Keys
  {
    hide *;
    NoneDueIs(g);
    NowIntact(g);
    IntactNow(g, g.objs, g.Roots());
    if g.KeepInvariant() { g.GiveUpMarking(); }
    NoneDueIs(g);
    ghost var o1, r1 := g.objs, g.Roots();
    IntactNow(g, old(g.objs), old(g.Roots()));
    RunToPause(g);
    if old(NoneDue(g)) { IntactTrans(g, old(g.objs), old(g.Roots()), o1, r1); }
  }

  lemma ExactlyBoth(g: GlobalState, o0: Graph, r0: set<Ref>, o1: Graph)
    requires forall o :: Reachable(o0, r0, o) ==> o in o0 && o in o1 && Seen(o1, o) == Seen(o0, o)
    requires forall o :: o in o1 && o !in g.fixed ==> (o in g.objs <==> Reachable(o1, r0, o))
    requires g.objs.Keys <= o1.Keys
    ensures forall o :: o in o0 && o !in g.fixed ==> (o in g.objs <==> Reachable(o0, r0, o))
  {
    hide Reachable, Seen;
    SeenReachable(o0, r0, o1, r0);
    SeenReachableOnly(o0, r0, o1);
  }

  // A cycle from one pause to the next, with all the marking in the atomic step.
  method WholeCycle(g: GlobalState)
    requires g.Valid() && g.gcstate.Pause?
    modifies g`objs, g`color, g`white, g`gcstate, g`gray, g`grayagain, g`twups, g`allgc, g`finobj, g`tobefnz, g`fin,
      g`sweepgc, g`alive
    ensures g.Valid() && g.gcstate.Pause?
    ensures old(NoneDue(g)) ==> NoneDue(g) && g.Intact(old(g.objs), old(g.Roots())) && g.objs.Keys <= old(g.objs).Keys
    ensures old(NoneDue(g)) ==>
      forall o :: o in old(g.objs) && o !in g.fixed ==> (o in g.objs <==> Reachable(old(g.objs), old(g.Roots()), o))
  {
    hide *;
    NoneDueIs(g);
    NowIntact(g);
    SingleStep(g);
    g.SkipPropagation();
    RunToFinalizers(g);
    NoneDueIs(g);
    SomeIdle(g);
    CycleEnd(g);
    if old(NoneDue(g)) { ExactlyReached(g, old(g.objs), old(g.Roots())); }
    IntactNow(g, old(g.objs), old(g.Roots()));
    ghost var o2 := g.objs;
    RunToPause(g);
    if old(NoneDue(g)) { SameIntact(g, old(g.objs), old(g.Roots()), o2); }
  }
}
