// Programs that run beside the incremental collector, and what every run keeps.

module Program {
  import opened Heap
  import opened Marking
  import opened Mutation
  import opened Freeing
  import opened Collector
  import opened Mutator
  import opened Allocation
  import opened Finalizers
  import opened Cycle
  import opened Options
  import opened Sequences

  // A program names an object by a root and the slots that lead to it.
  datatype Root = RunningThread | MainThread | Registry | Metatable(tag: nat)

  datatype Place = Place(root: Root, path: seq<nat>)

  // What happens in a run: a step of the collector, or something the program does. What cannot be done does nothing.
  datatype Action =
    | Step
    | Write(at: Place, slot: nat, from: Place, back: bool)
    | Erase(at: Place, slot: nat)
    | Create(kind: Kind, slot: nat)
    | CreateUpvalue(closure: Place, index: nat)
    | Capture(slot: nat, closure: Place, index: nat)
    | Assign(upvalue: Place, from: Place)
    | CloseOff(upvalue: Place)
    | TypeMetatable(tag: nat, from: Place)
    | Switch(thread: Place)
    | Register(from: Place)
    | Finalize(owner: Place, hasGc: bool)

  // What the program sees: the objects and its roots.
  datatype View = View(objs: Graph, main: Ref, running: Ref, registry: Ref, mt: map<nat, Ref>)

  function Now(g: GlobalState): View
    reads g`objs, g`main, g`running, g`registry, g`mt
  {
    View(g.objs, g.main, g.running, g.registry, g.mt)
  }

  function RootOf(w: View, r: Root): Option<Ref> {
    match r
    case RunningThread => Some(w.running)
    case MainThread => Some(w.main)
    case Registry => Some(w.registry)
    case Metatable(tag) => if tag in w.mt then Some(w.mt[tag]) else None
  }

  function Follow(objs: Graph, o: Ref, path: seq<nat>): Option<Ref>
    decreases |path|
  {
    if path == [] then Some(o)
    else if o in objs && path[0] in objs[o].fields then Follow(objs, objs[o].fields[path[0]], path[1..])
    else None
  }

  function Look(w: View, p: Place): Option<Ref> {
    var r := RootOf(w, p.root);
    if r.None? then None else Follow(w.objs, r.value, p.path)
  }

  // Places, one step at a time: the four kinds of roots, and the slot of an object that a place names.
  lemma {:induction false} LookMore(w: View, root: Root, path: seq<nat>, slot: nat)
    ensures Look(w, Place(RunningThread, [])) == Some(w.running) && Look(w, Place(MainThread, [])) == Some(w.main)
      && Look(w, Place(Registry, [])) == Some(w.registry)
    ensures forall tag :: Look(w, Place(Metatable(tag), [])) == if tag in w.mt then Some(w.mt[tag]) else None
    ensures Look(w, Place(root, path + [slot])) ==
      match Look(w, Place(root, path))
      case None => None
      case Some(o) => if o in w.objs && slot in w.objs[o].fields then Some(w.objs[o].fields[slot]) else None
  {
    if RootOf(w, root).Some? { FollowMore(w.objs, RootOf(w, root).value, path, slot); }
  }

  lemma {:induction false} FollowMore(objs: Graph, o: Ref, path: seq<nat>, slot: nat)
    ensures Follow(objs, o, path + [slot]) ==
      match Follow(objs, o, path)
      case None => None
      case Some(p) => if p in objs && slot in objs[p].fields then Some(objs[p].fields[slot]) else None
    decreases |path|
  {
    if path == [] {
      assert path + [slot] == [slot];
    } else {
      assert (path + [slot])[1..] == path[1..] + [slot];
      if o in objs && path[0] in objs[o].fields { FollowMore(objs, objs[o].fields[path[0]], path[1..], slot); }
    }
  }

  function Find(g: GlobalState, p: Place): Option<Ref>
    reads g`objs, g`main, g`running, g`registry, g`mt
  {
    Look(Now(g), p)
  }

  lemma {:induction false} FollowHeld(objs: Graph, roots: set<Ref>, o: Ref, path: seq<nat>)
    requires Typed(objs) && Reachable(objs, roots, o) && Follow(objs, o, path).Some?
    ensures Reachable(objs, roots, Follow(objs, o, path).value)
    decreases |path|
  {
    if path != [] {
      assert TypedObj(objs, o);
      SuccReachable(objs, roots, o, objs[o].fields[path[0]]);
      FollowHeld(objs, roots, objs[o].fields[path[0]], path[1..]);
    }
  }

  lemma WellTyped(g: GlobalState)
    requires g.Valid()
    ensures Typed(g.objs) && Below(g.objs, g.next)
  {
    TypedNow(g, {});
  }

  // What a program can name is there.
  lemma FindHeld(g: GlobalState, p: Place)
    requires g.Valid() && Find(g, p).Some?
    ensures Held(g, Find(g, p).value) && Find(g, p).value in g.objs
  {
    hide g.Valid, Reachable;
    WellTyped(g);
    var o := RootOf(Now(g), p.root).value;
    RootHeld(g, p.root);
    FollowHeld(g.objs, g.Roots(), o, p.path);
    HeldThere(g, Find(g, p).value);
  }

  lemma RootHeld(g: GlobalState, r: Root)
    requires RootOf(Now(g), r).Some?
    ensures Reachable(g.objs, g.Roots(), RootOf(Now(g), r).value)
  {
    hide Reachable;
    RootReachable(g.objs, g.Roots(), RootOf(Now(g), r).value);
  }

  lemma HeldThere(g: GlobalState, o: Ref)
    requires g.Valid() && Held(g, o)
    ensures o in g.objs
  {
    hide g.Valid, Held;
    HeldUsable(g, o);
  }

  // ----- what actions do to the graph -----

  function Wrote(objs: Graph, o: Option<Ref>, k: nat, v: Option<Ref>): Graph {
    if o.Some? && v.Some? && o.value in objs && v.value in objs && Storable(objs, o.value, k, v.value)
    then Put(objs, o.value, k, v.value) else objs
  }

  function Erased(objs: Graph, o: Option<Ref>, k: nat): Graph {
    if o.Some? && o.value in objs then Drop(objs, o.value, k) else objs
  }

  function CreatedIn(objs: Graph, n: Ref, kind: Kind, th: Ref, slot: nat): Graph {
    if ValueKind(kind) && th in objs then Put(Blank(objs, n, kind), th, slot, n) else objs
  }

  function UpvalueIn(objs: Graph, n: Ref, cl: Option<Ref>, index: nat): Graph {
    if cl.Some? && cl.value in objs && objs[cl.value].kind.Box?
    then Put(Blank(objs, n, Cell), cl.value, index, n) else objs
  }

  // The closure `cl` shares the upvalue of the slot with whoever has it already; `n` is a new one if nobody does.
  ghost predicate Captured(objs: Graph, n: Ref, th: Ref, slot: nat, cl: Option<Ref>, index: nat, objs': Graph) {
    if th in objs && cl.Some? && cl.value in objs && objs[cl.value].kind.Box? then
      || (exists u :: u in objs[th].uvs && u in objs && objs[u].kind == Open(th, slot)
                      && objs' == Put(objs, cl.value, index, u))
      || (n !in objs && (forall u :: u in objs[th].uvs && u in objs ==> objs[u].kind != Open(th, slot))
          && objs' == Put(Opened(objs, n, th, slot), cl.value, index, n))
    else objs' == objs
  }

  function Assigned(objs: Graph, u: Option<Ref>, v: Option<Ref>): Graph {
    if u.Some? && v.Some? && u.value in objs && v.value in objs && ValueKind(objs[v.value].kind)
       && (objs[u.value].kind.Open? || objs[u.value].kind.Cell?)
    then UpvalPut(objs, u.value, v.value) else objs
  }

  function ClosedOff(objs: Graph, u: Option<Ref>): Graph {
    if u.Some? && u.value in objs && objs[u.value].kind.Open? && objs[u.value].kind.th in objs
    then Closed(objs, u.value) else objs
  }

  /** What the program does, from the view `w` to the view `w'`; `n` is the next address. An action that names something
      that is not there does nothing. */
  ghost predicate Did(a: Action, w: View, n: Ref, w': View) {
    match a
    case Write(at, slot, from, _) => w' == w.(objs := Wrote(w.objs, Look(w, at), slot, Look(w, from)))
    case Erase(at, slot) => w' == w.(objs := Erased(w.objs, Look(w, at), slot))
    case Create(kind, slot) => w' == w.(objs := CreatedIn(w.objs, n, kind, w.running, slot))
    case CreateUpvalue(closure, index) => w' == w.(objs := UpvalueIn(w.objs, n, Look(w, closure), index))
    case Capture(slot, closure, index) =>
      w' == w.(objs := w'.objs) && Captured(w.objs, n, w.running, slot, Look(w, closure), index, w'.objs)
    case Assign(upvalue, from) => w' == w.(objs := Assigned(w.objs, Look(w, upvalue), Look(w, from)))
    case CloseOff(upvalue) => w' == w.(objs := ClosedOff(w.objs, Look(w, upvalue)))
    case TypeMetatable(tag, from) => w' == w.(mt := if Look(w, from).Some? then w.mt[tag := Look(w, from).value]
                                              else w.mt)
    case Switch(thread) => w' == w.(running := SwitchedTo(w, Look(w, thread)))
    case Register(from) => w' == w.(registry := if Look(w, from).Some? then Look(w, from).value else w.registry)
    case _ => true
  }

  function SwitchedTo(w: View, th: Option<Ref>): Ref {
    if th.Some? && th.value in w.objs && w.objs[th.value].kind.Thread? then th.value else w.running
  }

  // ----- moments of a run -----

  // What the program sees, and what the collector is doing: the next address, the phase, the objects with finalizers,
  // and those whose finalizers are due.
  datatype Moment = Moment(view: View, next: Ref, phase: Phase, finobj: seq<Ref>, due: seq<Ref>)

  function Here(g: GlobalState): Moment
    reads g`objs, g`main, g`running, g`registry, g`mt, g`next, g`gcstate, g`finobj, g`tobefnz
  {
    Moment(Now(g), g.next, g.gcstate, g.finobj, g.tobefnz)
  }

  function RootsAt(m: Moment): set<Ref> {
    {m.view.main, m.view.running, m.view.registry} + m.view.mt.Values + Members(m.due)
  }

  // What the program can reach is there, and looks the same.
  ghost predicate Kept(m: Moment, m': Moment) {
    && m'.view == m.view.(objs := m'.view.objs) && m'.next == m.next
    && forall o :: Reachable(m.view.objs, RootsAt(m), o) ==>
         o in m.view.objs && o in m'.view.objs && Seen(m'.view.objs, o) == Seen(m.view.objs, o)
  }

  // An object gets a finalizer, unless it has one.
  function GivenFinalizer(m: Moment, o: Option<Ref>, hasGc: bool): seq<Ref> {
    if o.Some? && o.value in m.view.objs && hasGc && o.value !in m.finobj && o.value !in m.due
       && (m.view.objs[o.value].kind.Box? || m.view.objs[o.value].kind.Udata?)
    then [o.value] + m.finobj else m.finobj
  }

  /** What happens between one moment and the next. Objects become due in the atomic step only, and only when the
      program cannot reach them; the first that is due is handed to the program, and nothing else touches the queue. */
  ghost predicate Next(a: Action, m: Moment, m': Moment) {
    if a.Finalize? then
      Kept(m, m') && m'.phase == m.phase && m'.due == m.due
      && m'.finobj == GivenFinalizer(m, Look(m.view, a.owner), a.hasGc)
    else if !a.Step? then
      m'.phase == m.phase && m'.due == m.due && m'.finobj == m.finobj && m.next <= m'.next
      && Did(a, m.view, m.next, m'.view)
    else if m.phase.EnterAtomic? then
      Kept(m, m') && Separated(m.finobj, m.due, m.view.objs, RootsAt(m), m'.finobj, m'.due)
    else if !m.phase.CallFin? then
      Kept(m, m') && m'.finobj == m.finobj && m'.due == m.due
    else
      m'.view == m.view.(objs := m'.view.objs) && m'.next == m.next && m'.finobj == m.finobj &&
      if m.due == [] then m'.due == [] && m'.view.objs == m.view.objs
      else m'.due == m.due[1..] && Handed(m.view.objs, m.view.running, m.due[0], m'.view.objs)
  }

  ghost predicate History(actions: seq<Action>, h: seq<Moment>) {
    |h| == |actions| + 1 && forall i :: 0 <= i < |actions| ==> Next(actions[i], h[i], h[i + 1])
  }

  // The objects handed to the program, one by one.
  function Called(actions: seq<Action>, h: seq<Moment>): seq<Ref>
    requires |h| == |actions| + 1
  {
    if actions == [] then [] else
      var n := |actions| - 1;
      Called(actions[..n], h[..n + 1]) + CalledNow(actions[n], h[n])
  }

  // The objects in the order in which they became due.
  function CameDue(actions: seq<Action>, h: seq<Moment>): seq<Ref>
    requires |h| == |actions| + 1
  {
    if actions == [] then [] else
      var n := |actions| - 1;
      CameDue(actions[..n], h[..n + 1]) + DueNow(actions[n], h[n], h[n + 1])
  }

  function NewlyDue(m: Moment, m': Moment): seq<Ref> {
    if m.phase.EnterAtomic? && m.due <= m'.due then m'.due[|m.due|..] else []
  }

  /** What comes due had a finalizer and could not be reached. */
  lemma DueUnreachable(m: Moment, m': Moment)
    requires Next(Step, m, m')
    ensures forall o :: o in NewlyDue(m, m') ==> o in m.finobj && !Reachable(m.view.objs, RootsAt(m), o)
  {
    hide Kept, Reachable, RootsAt;
    if m.phase.EnterAtomic? {
      SeparatedDue(m.finobj, m.due, m.view.objs, RootsAt(m), m'.finobj, m'.due);
    }
  }

  lemma SeparatedDue(finobj: seq<Ref>, due: seq<Ref>, objs: Graph, roots: set<Ref>, finobj': seq<Ref>, due': seq<Ref>)
    requires Separated(finobj, due, objs, roots, finobj', due')
    ensures due <= due' && forall o :: o in due'[|due|..] ==> o in finobj && !Reachable(objs, roots, o)
  {
    hide Reachable;
    var strong: Colors :| finobj' == Others(finobj, strong) && DueAfter(finobj, due, objs, roots, strong, due');
    WhitesOthers(finobj, strong);
    assert due'[|due|..] == Whites(finobj, strong);
  }

  /** First in, first out, over every run: what was handed over, and then what is due, is what came due, in its
      order. */
  lemma {:induction false} FirstInFirstOut(actions: seq<Action>, h: seq<Moment>)
    requires History(actions, h) && h[0].due == []
    ensures Called(actions, h) + h[|actions|].due == CameDue(actions, h)
    decreases |actions|
  {
    if actions != [] {
      var n := |actions| - 1;
      HistoryBefore(actions, h);
      FirstInFirstOut(actions[..n], h[..n + 1]);
      QueueStep(actions[n], h[n], h[n + 1]);
      var before, came := Called(actions[..n], h[..n + 1]), CameDue(actions[..n], h[..n + 1]);
      Regroup(before, h[n].due, came, CalledNow(actions[n], h[n]), h[n + 1].due, DueNow(actions[n], h[n], h[n + 1]));
    }
  }

  function CalledNow(a: Action, m: Moment): seq<Ref> {
    if a.Step? && m.phase.CallFin? && m.due != [] then [m.due[0]] else []
  }

  function DueNow(a: Action, m: Moment, m': Moment): seq<Ref> {
    if a.Step? then NewlyDue(m, m') else []
  }

  lemma HistoryBefore(actions: seq<Action>, h: seq<Moment>)
    requires History(actions, h) && actions != []
    ensures var n := |actions| - 1; History(actions[..n], h[..n + 1]) && Next(actions[n], h[n], h[n + 1])
  {
    hide Next;
  }

  lemma QueueStep(a: Action, m: Moment, m': Moment)
    requires Next(a, m, m')
    ensures CalledNow(a, m) + m'.due == m.due + DueNow(a, m, m')
  {
    hide Kept, Did, RootsAt, Handed;
    if a.Step? && m.phase.EnterAtomic? {
      SeparatedDue(m.finobj, m.due, m.view.objs, RootsAt(m), m'.finobj, m'.due);
    }
  }

  lemma Regroup(called: seq<Ref>, due: seq<Ref>, came: seq<Ref>, now: seq<Ref>, due': seq<Ref>, newly: seq<Ref>)
    requires called + due == came && now + due' == due + newly
    ensures (called + now) + due' == came + newly
  {
    assert (called + now) + due' == called + (now + due');
    assert called + (due + newly) == (called + due) + newly;
  }

  // ----- actions -----

  method DoWrite(g: GlobalState, at: Place, slot: nat, from: Place, back: bool)
    requires g.Valid()
    modifies g`objs, g`color, g`gray, g`grayagain
    ensures g.Valid()
    ensures g.objs == Wrote(old(g.objs), old(Find(g, at)), slot, old(Find(g, from)))
  {
    hide g.Valid, Held, Look, Put, Blank, Drop, Opened, UpvalPut, Closed, Storable;
    var o, v := Find(g, at), Find(g, from);
    if o.Some? && v.Some? {
      FindHeld(g, at);
      FindHeld(g, from);
      if Storable(g.objs, o.value, slot, v.value) {
        if g.objs[o.value].kind.Thread? {
          SetSlot(g, o.value, slot, v.value);
        } else {
          SetField(g, o.value, slot, v.value, back && g.objs[o.value].kind.Box?);
        }
      }
    }
  }

  method DoErase(g: GlobalState, at: Place, slot: nat)
    requires g.Valid()
    modifies g`objs
    ensures g.Valid()
    ensures g.objs == Erased(old(g.objs), old(Find(g, at)), slot)
  {
    hide g.Valid, Held, Look, Put, Blank, Drop, Opened, UpvalPut, Closed, Storable;
    var o := Find(g, at);
    if o.Some? {
      FindHeld(g, at);
      Clear(g, o.value, slot);
    }
  }

  // The new objects of an action have addresses that were not given out before.
  ghost predicate Born(g: GlobalState, alive0: set<Ref>, next0: Ref, born: set<Ref>)
    reads g`alive, g`next
  {
    g.alive == alive0 + born && next0 <= g.next && forall b :: b in born ==> next0 <= b < g.next
  }

  lemma NoneBorn(g: GlobalState)
    ensures Born(g, g.alive, g.next, {})
  {
  }

  lemma OneBorn(g: GlobalState, alive0: set<Ref>, n: Ref)
    requires g.Valid() && n in g.objs && g.alive == alive0 + {n}
    ensures Born(g, alive0, n, {n})
  {
    WellTyped(g);
  }

  method DoCreate(g: GlobalState, kind: Kind, slot: nat) returns (ghost born: set<Ref>)
    requires g.Valid()
    modifies g`objs, g`color, g`alive, g`next, g`allgc, g`sweepgc
    ensures g.Valid() && Born(g, old(g.alive), old(g.next), born)
    ensures g.objs == CreatedIn(old(g.objs), old(g.next), kind, g.running, slot)
  {
    hide g.Valid, Held, Look, Put, Blank, Drop, Opened, UpvalPut, Closed, Storable;
    born := {};
    NoneBorn(g);
    if ValueKind(kind) {
      var n := New(g, kind, slot);
      assert n in g.objs by { PutBlank(old(g.objs), n, kind, g.running, slot); }
      born := {n};
      OneBorn(g, old(g.alive), n);
    }
  }

  lemma PutBlank(objs: Graph, n: Ref, kind: Kind, o: Ref, slot: nat)
    requires o in objs
    ensures n in Put(Blank(objs, n, kind), o, slot, n)
  {
  }

  method DoCreateUpvalue(g: GlobalState, closure: Place, index: nat) returns (ghost born: set<Ref>)
    requires g.Valid()
    modifies g`objs, g`color, g`alive, g`next, g`allgc, g`sweepgc, g`gray, g`grayagain
    ensures g.Valid() && Born(g, old(g.alive), old(g.next), born)
    ensures g.objs == UpvalueIn(old(g.objs), old(g.next), old(Find(g, closure)), index)
  {
    hide g.Valid, Held, Look, Put, Blank, Drop, Opened, UpvalPut, Closed, Storable;
    born := {};
    NoneBorn(g);
    var cl := Find(g, closure);
    if cl.Some? {
      FindHeld(g, closure);
      if g.objs[cl.value].kind.Box? {
        var n := NewUpvalue(g, cl.value, index);
        assert n in g.objs by { PutBlank(old(g.objs), n, Cell, cl.value, index); }
        born := {n};
        OneBorn(g, old(g.alive), n);
      }
    }
  }

  // A closure takes a variable of the running function: the open upvalue of its slot, old or new.
  method DoCapture(g: GlobalState, slot: nat, closure: Place, index: nat) returns (ghost born: set<Ref>)
    requires g.Valid()
    modifies g`objs, g`color, g`alive, g`next, g`allgc, g`sweepgc, g`twups, g`gray, g`grayagain
    ensures g.Valid() && Born(g, old(g.alive), old(g.next), born)
    ensures Captured(old(g.objs), old(g.next), g.running, slot, old(Find(g, closure)), index, g.objs)
  {
    hide *;
    born := {};
    NoneBorn(g);
    var cl := Find(g, closure);
    if cl.Some? {
      FindHeld(g, closure);
      if g.objs[cl.value].kind.Box? {
        RunningHeld(g);
        WellTyped(g);
        HeldReached(g, g.running);
        HeldReached(g, cl.value);
        var u := FindUpvalue(g, g.running, slot);
        CaptureHeld(g, old(g.objs), u, slot, cl.value);
        ghost var made, o1 := u !in old(g.objs), g.objs;
        SetField(g, cl.value, index, u, false);
        PutKeepsIn(o1, cl.value, index, u);
        CapturedBy(old(g.objs), old(g.next), g.running, slot, cl, index, u, o1, g.objs);
        if made {
          born := {u};
          OneBorn(g, old(g.alive), u);
        }
        return;
      }
    }
    NotCaptured(g.objs, g.next, g.running, slot, cl, index);
  }

  lemma NotCaptured(objs: Graph, n: Ref, th: Ref, slot: nat, cl: Option<Ref>, index: nat)
    requires !(cl.Some? && cl.value in objs && objs[cl.value].kind.Box?)
    ensures Captured(objs, n, th, slot, cl, index, objs)
  {
  }

  lemma CapturedBy(objs: Graph, n: Ref, th: Ref, slot: nat, cl: Option<Ref>, index: nat, u: Ref, objs1: Graph,
                   objs': Graph)
    requires th in objs && cl.Some? && cl.value in objs && objs[cl.value].kind.Box?
    requires u in objs ==> u in objs[th].uvs && objs[u].kind == Open(th, slot) && objs1 == objs
    requires u !in objs ==> u == n && objs1 == Opened(objs, n, th, slot)
    requires u !in objs ==> forall p :: p in objs[th].uvs && p in objs ==> objs[p].kind != Open(th, slot)
    requires cl.value in objs1 && objs' == Put(objs1, cl.value, index, u)
    ensures Captured(objs, n, th, slot, cl, index, objs')
  {
    hide Put, Opened;
  }

  lemma HeldReached(g: GlobalState, o: Ref)
    requires Held(g, o)
    ensures Reachable(g.objs, g.Roots(), o)
  {
  }

  lemma RunningHeld(g: GlobalState)
    requires g.Valid()
    ensures Held(g, g.running) && g.running in g.objs && g.objs[g.running].kind.Thread?
  {
    hide g.Valid, Reachable;
    Allocation.RunningThread(g);
    RootHeld(g, Root.RunningThread);
  }

  // More references lead to no fewer objects.
  lemma MoreReachable(objs: Graph, objs': Graph, roots: set<Ref>, o: Ref)
    requires Reachable(objs, roots, o) && forall p :: p in objs ==> p in objs' && Succ(objs, p) <= Succ(objs', p)
    ensures Reachable(objs', roots, o)
  {
    hide Succ;
    var path :| PathTo(objs, roots, o, path);
    forall i | 0 <= i < |path| - 1 ensures path[i] in objs' && path[i + 1] in Succ(objs', path[i]) {
      assert path[i] in objs && path[i + 1] in Succ(objs, path[i]);
    }
    assert IsPath(objs', path) && PathTo(objs', roots, o, path);
  }

  lemma OpenedReachable(objs: Graph, u: Ref, th: Ref, slot: nat, roots: set<Ref>, o: Ref)
    requires Typed(objs) && Below(objs, u) && th in objs && objs[th].kind.Thread? && Reachable(objs, roots, o)
    ensures Reachable(Opened(objs, u, th, slot), roots, o)
  {
    hide Typed, Succ, Reachable;
    var objs' := Opened(objs, u, th, slot);
    forall p | p in objs ensures p in objs' && Succ(objs, p) <= Succ(objs', p) {
      OpenedSucc(objs, u, th, slot, p);
    }
    MoreReachable(objs, objs', roots, o);
  }

  // An open upvalue can be reached from its thread.
  lemma UpvalueReachable(objs: Graph, roots: set<Ref>, th: Ref, u: Ref)
    requires Reachable(objs, roots, th) && th in objs && objs[th].kind.Thread? && u in objs[th].uvs
    ensures Reachable(objs, roots, u)
  {
    hide Reachable;
    assert u in Succ(objs, th);
    SuccReachable(objs, roots, th, u);
  }

  lemma OpenedKeeps(objs: Graph, u: Ref, th: Ref, slot: nat, cl: Ref)
    requires u !in objs && th in objs && objs[th].kind.Thread? && cl in objs && objs[cl].kind.Box?
    ensures var objs' := Opened(objs, u, th, slot);
      u in objs' && th in objs' && u in objs'[th].uvs && objs'[th].kind.Thread? && cl in objs' && objs'[cl].kind.Box?
  {
  }

  // The upvalue found, and the closure that is to take it.
  lemma CaptureHeld(g: GlobalState, o0: Graph, u: Ref, slot: nat, cl: Ref)
    requires g.Valid() && Typed(o0) && Reachable(o0, g.Roots(), g.running) && Reachable(o0, g.Roots(), cl)
    requires g.running in o0 && o0[g.running].kind.Thread? && cl in o0 && o0[cl].kind.Box?
    requires u in o0 ==> u in o0[g.running].uvs && g.objs == o0
    requires u !in o0 ==> Below(o0, u) && g.objs == Opened(o0, u, g.running, slot)
    ensures Held(g, u) && Held(g, cl) && u in g.objs && cl in g.objs && g.objs[cl].kind.Box?
    ensures forall index :: Storable(g.objs, cl, index, u)
  {
    hide Reachable, Opened, Typed, Succ, g.Valid;
    if u !in o0 {
      OpenedReachable(o0, u, g.running, slot, g.Roots(), g.running);
      OpenedReachable(o0, u, g.running, slot, g.Roots(), cl);
      OpenedKeeps(o0, u, g.running, slot, cl);
    }
    UpvalueReachable(g.objs, g.Roots(), g.running, u);
    HeldThere(g, u);
  }

  lemma PutKeepsIn(objs: Graph, o: Ref, k: nat, v: Ref)
    requires o in objs && v in objs
    ensures v in Put(objs, o, k, v)
  {
  }

  method DoAssign(g: GlobalState, upvalue: Place, from: Place)
    requires g.Valid()
    modifies g`objs, g`color, g`gray, g`grayagain
    ensures g.Valid()
    ensures g.objs == Assigned(old(g.objs), old(Find(g, upvalue)), old(Find(g, from)))
  {
    hide g.Valid, Held, Look, Put, Blank, Drop, Opened, UpvalPut, Closed, Storable;
    var u, v := Find(g, upvalue), Find(g, from);
    if u.Some? && v.Some? {
      FindHeld(g, upvalue);
      FindHeld(g, from);
      if (g.objs[u.value].kind.Open? || g.objs[u.value].kind.Cell?) && ValueKind(g.objs[v.value].kind) {
        SetUpvalue(g, u.value, v.value);
      }
    }
  }

  method DoCloseOff(g: GlobalState, upvalue: Place)
    requires g.Valid()
    modifies g`objs, g`color, g`gray
    ensures g.Valid()
    ensures g.objs == ClosedOff(old(g.objs), old(Find(g, upvalue)))
  {
    hide g.Valid, Held, Look, Put, Blank, Drop, Opened, UpvalPut, Closed, Storable;
    var u := Find(g, upvalue);
    if u.Some? {
      FindHeld(g, upvalue);
      if g.objs[u.value].kind.Open? && g.objs[u.value].kind.th in g.objs {
        CloseUpvalue(g, u.value);
      }
    }
  }

  method DoRoots(g: GlobalState, a: Action)
    requires g.Valid() && (a.TypeMetatable? || a.Switch? || a.Register?)
    modifies g`mt, g`running, g`registry
    ensures g.Valid()
    ensures Did(a, old(Now(g)), old(g.next), Now(g))
  {
    hide g.Valid, Held, Look;
    var v := Find(g, if a.Switch? then a.thread else a.from);
    if v.Some? {
      FindHeld(g, if a.Switch? then a.thread else a.from);
      if a.TypeMetatable? {
        SetMetatable(g, a.tag, v.value);
      } else if a.Register? {
        SetRegistry(g, v.value);
      } else if g.objs[v.value].kind.Thread? {
        Resume(g, v.value);
      }
    }
  }

  method DoFinalize(g: GlobalState, owner: Place, hasGc: bool)
    requires g.Valid()
    modifies g`objs, g`color, g`allgc, g`finobj, g`fin, g`sweepgc
    ensures g.Valid()
    ensures g.Intact(old(g.objs), old(g.Roots()))
    ensures g.finobj == GivenFinalizer(old(Here(g)), old(Find(g, owner)), hasGc)
  {
    hide g.Valid, Held, Look, Put, Blank, Drop, Opened, UpvalPut, Closed, Storable;
    NowIntact(g);
    var o := Find(g, owner);
    if o.Some? {
      FindHeld(g, owner);
      OneList(g, o.value);
      if g.objs[o.value].kind.Box? || g.objs[o.value].kind.Udata? {
        CheckFinalizer(g, o.value, hasGc);
      }
    }
  }

  lemma HereIs(g: GlobalState)
    ensures Here(g) == Moment(View(g.objs, g.main, g.running, g.registry, g.mt), g.next, g.gcstate, g.finobj, g.tobefnz)
    ensures RootsAt(Here(g)) == g.Roots()
  {
  }

  lemma KeptBy(m: Moment, m': Moment)
    requires m'.view == m.view.(objs := m'.view.objs) && m'.next == m.next
    requires forall o :: Reachable(m.view.objs, RootsAt(m), o) ==>
      o in m.view.objs && o in m'.view.objs && Seen(m'.view.objs, o) == Seen(m.view.objs, o)
    ensures Kept(m, m')
  {
  }

  lemma StepNext(m: Moment, m': Moment)
    requires m'.view == m.view.(objs := m'.view.objs) && m'.next == m.next
    requires !m.phase.CallFin? ==> Kept(m, m')
    requires m.phase.EnterAtomic? ==> Separated(m.finobj, m.due, m.view.objs, RootsAt(m), m'.finobj, m'.due)
    requires !m.phase.EnterAtomic? ==> m'.finobj == m.finobj
    requires !m.phase.EnterAtomic? && !m.phase.CallFin? ==> m'.due == m.due
    requires m.phase.CallFin? && m.due == [] ==> m'.due == [] && m'.view.objs == m.view.objs
    requires m.phase.CallFin? && m.due != [] ==>
      m'.due == m.due[1..] && Handed(m.view.objs, m.view.running, m.due[0], m'.view.objs)
    ensures Next(Step, m, m')
  {
    hide Kept, Separated, RootsAt, Handed;
  }

  // A step of the collector.
  method DoStep(g: GlobalState)
    requires g.Valid()
    modifies g`objs, g`color, g`white, g`gcstate, g`gray, g`grayagain, g`twups, g`allgc, g`finobj, g`tobefnz, g`fin,
      g`sweepgc, g`alive
    ensures g.Valid() && Next(Step, old(Here(g)), Here(g))
    ensures !old(g.gcstate).Pause? && !old(g.gcstate).CallFin? && old(g.finobj) == [] ==>
      g.finobj == [] && g.alive == old(g.alive) && !g.gcstate.Pause?
  {
    hide *;
    HereIs(g);
    ghost var o0, r0 := g.objs, g.Roots();
    SingleStep(g);
    HereIs(g);
    if !old(g.gcstate).CallFin? {
      IntactNow(g, o0, r0);
      KeptBy(old(Here(g)), Here(g));
    }
    StepNext(old(Here(g)), Here(g));
  }

  // What the program does.
  method DoProgram(g: GlobalState, a: Action) returns (ghost born: set<Ref>)
    requires g.Valid() && !a.Step? && !a.Finalize?
    modifies g`objs, g`color, g`alive, g`next, g`allgc, g`sweepgc, g`twups, g`gray, g`grayagain, g`mt, g`running,
      g`registry
    ensures g.Valid() && Did(a, old(Now(g)), old(g.next), Now(g)) && Born(g, old(g.alive), old(g.next), born)
  {
    hide g.Valid, Held, Look, Put, Blank, Drop, Opened, UpvalPut, Closed, Storable;
    born := {};
    NoneBorn(g);
    if a.Write? {
      DoWrite(g, a.at, a.slot, a.from, a.back);
    } else if a.Erase? {
      DoErase(g, a.at, a.slot);
    } else if a.Create? {
      born := DoCreate(g, a.kind, a.slot);
    } else if a.CreateUpvalue? {
      born := DoCreateUpvalue(g, a.closure, a.index);
    } else if a.Capture? {
      born := DoCapture(g, a.slot, a.closure, a.index);
    } else if a.Assign? {
      DoAssign(g, a.upvalue, a.from);
    } else if a.CloseOff? {
      DoCloseOff(g, a.upvalue);
    } else {
      DoRoots(g, a);
    }
  }

  lemma ProgramNext(a: Action, m: Moment, m': Moment)
    requires !a.Step? && !a.Finalize? && Did(a, m.view, m.next, m'.view) && m.next <= m'.next
    requires m'.phase == m.phase && m'.due == m.due && m'.finobj == m.finobj
    ensures Next(a, m, m')
  {
    hide Did;
  }

  lemma FinalizeNext(a: Action, m: Moment, m': Moment)
    requires a.Finalize? && Kept(m, m') && m'.phase == m.phase && m'.due == m.due
    requires m'.finobj == GivenFinalizer(m, Look(m.view, a.owner), a.hasGc)
    ensures Next(a, m, m')
  {
    hide Kept, GivenFinalizer, Look;
  }

  lemma FindIs(g: GlobalState, p: Place)
    ensures Find(g, p) == Look(Here(g).view, p)
  {
  }

  lemma BornAfter(g: GlobalState, alive0: set<Ref>, next0: Ref, born: set<Ref>)
    requires Born(g, alive0, next0, born)
    ensures next0 <= g.next
  {
  }

  /** One action. The program changes neither the collector's phase nor what the cycle may keep, but that its new
      objects are kept too. */
  method Do(g: GlobalState, a: Action) returns (ghost born: set<Ref>)
    requires g.Valid()
    modifies g
    ensures g.Valid() && g.fixed == old(g.fixed) && Next(a, old(Here(g)), Here(g))
    ensures !a.Step? ==> g.white == old(g.white) && Born(g, old(g.alive), old(g.next), born)
    ensures a.Step? ==> born == {}
    ensures a.Step? && !old(g.gcstate).Pause? && !old(g.gcstate).CallFin? && old(g.finobj) == [] ==>
      g.finobj == [] && g.alive == old(g.alive) && !g.gcstate.Pause?
  {
    hide *;
    born := {};
    HereIs(g);
    if a.Step? {
      DoStep(g);
    } else if a.Finalize? {
      NoneBorn(g);
      FindIs(g, a.owner);
      ghost var o0, r0 := g.objs, g.Roots();
      DoFinalize(g, a.owner, a.hasGc);
      HereIs(g);
      IntactNow(g, o0, r0);
      KeptBy(old(Here(g)), Here(g));
      FinalizeNext(a, old(Here(g)), Here(g));
    } else {
      NowIs(g);
      born := DoProgram(g, a);
      HereIs(g);
      NowIs(g);
      BornAfter(g, old(g.alive), old(g.next), born);
      ProgramNext(a, old(Here(g)), Here(g));
    }
  }

  lemma NowIs(g: GlobalState)
    ensures Now(g) == View(g.objs, g.main, g.running, g.registry, g.mt)
  {
  }

  lemma NextFacts(a: Action, m: Moment, m': Moment)
    requires Next(a, m, m')
    ensures !a.Step? ==> m'.phase == m.phase && m'.due == m.due
    ensures !a.Step? && !a.Finalize? ==> m'.finobj == m.finobj
    ensures a.Step? ==> m'.next == m.next
  {
    hide Did, Handed, Separated;
  }

  // ----- runs -----

  // All that the program can reach is there.
  ghost predicate Safe(m: Moment) {
    forall o :: Reachable(m.view.objs, RootsAt(m), o) ==> o in m.view.objs
  }

  lemma HereSafe(g: GlobalState)
    requires g.Valid()
    ensures Safe(Here(g))
  {
    hide g.Valid, Reachable;
    HereIs(g);
    g.Accessible();
  }

  lemma HistoryMore(actions: seq<Action>, h: seq<Moment>, n: nat, m: Moment)
    requires n < |actions| && History(actions[..n], h) && Next(actions[n], h[n], m)
    ensures History(actions[..n + 1], h + [m])
  {
    hide Next;
  }

  lemma NoHistory(actions: seq<Action>, m: Moment)
    ensures History(actions[..0], [m])
  {
  }

  /** Every run from the start, whatever the program does and whenever the collector steps. At every moment what the
      program can reach is there; from each to the next the program's view changes by what the program does, or the
      collector keeps what can be reached, or hands over the next object that is due; finalizers are called in the order
      in which they came due. */
  method Run(reserved: set<Ref>, first: Ref, actions: seq<Action>) returns (g: GlobalState, ghost h: seq<Moment>)
    requires 2 <= first && forall o :: o in reserved ==> 2 <= o < first
    ensures g.Valid() && History(actions, h) && h[|actions|] == Here(g) && forall i :: 0 <= i < |h| ==> Safe(h[i])
    ensures Called(actions, h) + g.tobefnz == CameDue(actions, h)
  {
    hide *;
    g := new GlobalState(reserved, first);
    HereSafe(g);
    HereIs(g);
    h := [Here(g)];
    NoHistory(actions, Here(g));
    for i := 0 to |actions|
      invariant g.Valid() && fresh(g)
      invariant History(actions[..i], h) && |h| == i + 1 && h[i] == Here(g) && h[0].due == []
      invariant forall j :: 0 <= j < |h| ==> Safe(h[j])
    {
      ghost var born := Do(g, actions[i]);
      HereSafe(g);
      HistoryMore(actions, h, i, Here(g));
      h := h + [Here(g)];
    }
    assert actions[..|actions|] == actions;
    HereIs(g);
    FirstInFirstOut(actions, h);
  }

  // What a cycle may keep when it ends: what could be reached when it started, and what was created since.
  ghost predicate KeepsOnly(g: GlobalState, o0: Graph, r0: set<Ref>, next0: Ref, born: set<Ref>)
    reads g`alive, g`next
  {
    g.alive <= ReachSet(o0, r0) + born && next0 <= g.next && forall b :: b in born ==> next0 <= b
  }

  lemma KeepsMore(g: GlobalState, alive1: set<Ref>, next1: Ref, more: set<Ref>, o0: Graph, r0: set<Ref>, next0: Ref,
                  born: set<Ref>)
    requires alive1 <= ReachSet(o0, r0) + born && next0 <= next1 && (forall b :: b in born ==> next0 <= b)
    requires Born(g, alive1, next1, more)
    ensures KeepsOnly(g, o0, r0, next0, born + more)
  {
    hide ReachSet;
  }

  lemma KeepsSame(g: GlobalState, alive1: set<Ref>, next1: Ref, o0: Graph, r0: set<Ref>, next0: Ref, born: set<Ref>)
    requires g.alive == alive1 && g.next == next1
    ensures KeepsOnly(g, o0, r0, next0, born) <==>
              alive1 <= ReachSet(o0, r0) + born && next0 <= next1 && forall b :: b in born ==> next0 <= b
  {
    hide ReachSet;
  }

  lemma KeepsStart(g: GlobalState, o0: Graph, r0: set<Ref>)
    requires g.alive == ReachSet(o0, r0)
    ensures KeepsOnly(g, o0, r0, g.next, {})
  {
    hide ReachSet;
  }

  lemma CycleKept(g: GlobalState, o0: Graph, r0: set<Ref>, next0: Ref, born: set<Ref>)
    requires g.Valid() && KeepsOnly(g, o0, r0, next0, born) && Below(o0, next0)
    ensures forall b :: b in born ==> b !in o0
    ensures g.gcstate.CallFin? ==> forall o :: o in g.objs && o !in g.fixed ==>
      o in g.color && g.color[o] == White(g.white) && (o in born || Reachable(o0, r0, o))
  {
    hide g.Valid, Reachable;
    if g.gcstate.CallFin? {
      SomeIdle(g);
      CycleEnd(g);
    }
  }

  /** Completeness over every run: while a cycle goes on, the program may do anything but give finalizers. When the
      cycle comes to the calls of finalizers, of the objects that are not fixed only such are left as could be reached
      when it started or were created since, and all have the current white. */
  method RunCycle(g: GlobalState, actions: seq<Action>) returns (ghost born: set<Ref>)
    requires g.Valid() && g.gcstate.Pause? && g.finobj == [] && forall i :: 0 <= i < |actions| ==> !actions[i].Finalize?
    modifies g
    ensures g.Valid() && (forall b :: b in born ==> b !in old(g.objs))
    ensures g.gcstate.CallFin? ==> forall o :: o in g.objs && o !in g.fixed ==>
      o in g.color && g.color[o] == White(g.white) && (o in born || Reachable(old(g.objs), old(g.Roots()), o))
  {
    hide *;
    ghost var o0, r0, next0 := g.objs, g.Roots(), g.next;
    WellTyped(g);
    SingleStep(g);
    KeepsStart(g, o0, r0);
    PauseLeft(g);
    born := {};
    for i := 0 to |actions|
      invariant g.Valid() && !g.gcstate.Pause? && g.finobj == [] && KeepsOnly(g, o0, r0, next0, born)
    {
      if !g.gcstate.CallFin? {
        ghost var a1, n1 := g.alive, g.next;
        KeepsSame(g, a1, n1, o0, r0, next0, born);
        ghost var m := Here(g);
        HereIs(g);
        ghost var more := Do(g, actions[i]);
        HereIs(g);
        NextFacts(actions[i], m, Here(g));
        if actions[i].Step? {
          KeepsSame(g, a1, n1, o0, r0, next0, born);
        } else {
          KeepsMore(g, a1, n1, more, o0, r0, next0, born);
          born := born + more;
        }
      }
    }
    CycleKept(g, o0, r0, next0, born);
  }
}
