// Programs that run beside the generational collector.

module GenProgram {
  import opened Heap
  import opened Mutation
  import opened Shades
  import opened Ages
  import opened YoungMarking
  import opened YoungSweep
  import opened Generations

  // What happens in a run: a young collection, or something the program does. What cannot be done does nothing.
  datatype Action =
    | Collect
    | Write(o: Ref, slot: nat, v: Ref, back: bool)
    | Erase(o: Ref, slot: nat)
    | Create(kind: Kind, slot: nat)
    | CreateUpvalue
    | TypeMetatable(tag: nat, v: Ref)
    | Switch(th: Ref)
    | Register(v: Ref)

  predicate Possible(objs: Graph, a: Action) {
    match a
    case Write(o, slot, v, back) => o in objs && v in objs && Storable(objs, o, slot, v) && (back ==> objs[o].kind.Box?)
    case Erase(o, _) => o in objs
    case Create(kind, _) => ValueKind(kind)
    case TypeMetatable(_, v) => v in objs
    case Switch(th) => th in objs && objs[th].kind.Thread?
    case Register(v) => v in objs
    case CreateUpvalue => true
    case Collect => true
  }

  // A store by which a black old object gets a young one that is marked already.
  predicate Escapes(g: GenState, a: Action)
    reads g`objs, g`color, g`age
  {
    a.Write? && Possible(g.objs, a) && !g.objs[a.o].kind.Thread?
    && a.o in g.color && a.o in g.age && a.v in g.color && a.v in g.age && Ages.Escapes(g.color, g.age, a.o, a.v)
  }

  // What the program sees, the objects and its roots, and what the next collection will go by: what is not white, and
  // the ages.
  datatype View = View(objs: Graph, main: Ref, running: Ref, registry: Ref, mt: map<nat, Ref>, marked: set<Ref>,
                       age: AgeMap)

  ghost function Now(g: GenState): View
    reads g`objs, g`main, g`running, g`registry, g`mt, g`color, g`age
  {
    View(g.objs, g.main, g.running, g.registry, g.mt, NonWhite(g.color), g.age)
  }

  function Roots(w: View): set<Ref> {
    {w.main, w.running, w.registry} + w.mt.Values
  }

  /** What an action does, from the view `w` to the view `w'`; `n` is the next address. A collection leaves what it does
      not free as it is, and frees exactly what can be reached neither from the roots nor from what is not white; the
      rest changes what it says and nothing else. */
  ghost predicate Did(a: Action, w: View, n: Ref, w': View) {
    if !Possible(w.objs, a) then w' == w else
      match a
      case Collect => w' == w.(objs := w'.objs, marked := w'.marked, age := w'.age) && Collected(w, w')
      case Write(o, slot, v, _) =>
        && w' == w.(objs := Put(w.objs, o, slot, v), marked := w'.marked, age := w'.age)
        && if w.objs[o].kind.Thread? then w'.marked == w.marked && w'.age == w.age else Stored(w, w', o, v)
      case Erase(o, slot) => w' == w.(objs := Drop(w.objs, o, slot))
      case Create(kind, slot) =>
        w.running in w.objs
        && w' == w.(objs := Put(Blank(w.objs, n, kind), w.running, slot, n), age := w.age[n := New])
      case CreateUpvalue => w' == w.(objs := Blank(w.objs, n, Cell), age := w.age[n := New])
      case TypeMetatable(tag, v) => w' == w.(mt := w.mt[tag := v])
      case Switch(th) => w' == w.(running := th)
      case Register(v) => w' == w.(registry := v)
  }

  /** A young collection. What it keeps is one collection older, and white only if it was new. */
  ghost predicate Collected(w: View, w': View) {
    && w'.objs.Keys <= w.objs.Keys && (forall o :: o in w'.objs ==> w'.objs[o] == w.objs[o])
    && (forall o :: Reachable(w.objs, Roots(w), o) ==> o in w'.objs)
    && (forall o :: o in w'.objs <==> Reachable(w.objs, Roots(w) + w.marked, o))
    && (forall o :: o in w'.objs ==> o in w.age && o in w'.age && w'.age[o] == Older(w.age[o]))
    && (forall o :: o in w'.objs ==> (o in w'.marked <==> !w.age[o].New?))
  }

  // What nothing refers to any more and no barrier has marked is freed.
  lemma Unreferenced(w: View, n: Ref, w': View, o: Ref)
    requires Did(Collect, w, n, w') && o !in Roots(w) && o !in w.marked
    requires forall p :: p in w.objs ==> o !in Succ(w.objs, p)
    ensures o !in w'.objs
  {
    hide Reachable, Succ, Older;
    NotReached(w.objs, Roots(w) + w.marked, o);
  }

  /** A store in an object that is no thread, with its barrier: what it marks can be reached from the object stored, and
      no age changes but those of the two objects, of which one may become old and one touched. */
  ghost predicate Stored(w: View, w': View, o: Ref, v: Ref) {
    && w.marked <= w'.marked && AllReachable(w'.objs, w.marked + {v}, w'.marked) && w'.age.Keys == w.age.Keys
    && forall p :: p in w.age && w'.age[p] != w.age[p] ==>
      o in w.age && IsOld(w.age[o]) && ((p == v && w'.age[p].Old0?) || (p == o && w'.age[p].Touched1?))
  }

  /** One action. It keeps the invariant exactly when it is not a store that escapes. */
  method Do(g: GenState, a: Action)
    requires g.Ok()
    modifies g
    ensures g.Ok() <==> !old(Escapes(g, a))
    ensures Did(a, old(Now(g)), old(g.next), Now(g)) && old(g.next) <= g.next
  {
    hide g.Ok, Ages.Escapes, Storable, Put, Drop, Blank, Reachable, g.Roots, NonWhite, Older, Stored;
    if Possible(g.objs, a) {
      match a {
        case Collect =>
          SameRoots(g);
          g.YoungCollection();
          WhiteIs(g.color);
        case Write(o, slot, v, back) =>
          if g.objs[o].kind.Thread? {
            g.StoreSlot(o, slot, v);
          } else {
            Assign(g, o, slot, v, back);
          }
        case Erase(o, slot) => g.Clear(o, slot);
        case Create(kind, slot) =>
          NextWhite(g);
          var _ := g.NewObject(kind, slot);
        case CreateUpvalue =>
          NextWhite(g);
          var _ := g.Alloc(Cell);
        case TypeMetatable(tag, v) => g.SetMetatable(tag, v);
        case Switch(th) => g.Resume(th);
        case Register(v) => g.SetRegistry(v);
      }
    }
  }

  lemma SameRoots(g: GenState)
    ensures Roots(Now(g)) == g.Roots()
  {
  }

  lemma IsStored(g: GenState, w: View, c0: Colors, o: Ref, v: Ref, back: bool)
    requires w.marked == NonWhite(c0) && c0.Keys == w.age.Keys && o in c0 && v in c0
    requires if c0[o].Black? && c0[v].White? then
               if back then g.color == c0[o := Gray]
                            && g.age == (if IsOld(w.age[o]) then w.age[o := Touched1] else w.age)
               else Spreads(g.objs, c0, g.color, {v}) && g.age == (if IsOld(w.age[o]) then w.age[v := Old0] else w.age)
             else g.color == c0 && g.age == w.age
    ensures Stored(w, Now(g), o, v)
  {
    hide Reachable;
    if c0[o].Black? && c0[v].White? && !back {
      WhiteIs(g.color);
      forall p | p in NonWhite(c0) ensures p in NonWhite(g.color) { assert Marked(c0, p); }
    } else {
      assert NonWhite(g.color) == NonWhite(c0);
      RootsReachable(g.objs, w.marked + {v}, w.marked);
    }
  }

  method Assign(g: GenState, o: Ref, slot: nat, v: Ref, back: bool)
    requires g.Ok() && Possible(g.objs, Write(o, slot, v, back)) && !g.objs[o].kind.Thread?
    modifies g`objs, g`color, g`age, g`gray, g`grayagain
    ensures o in old(g.color) && o in old(g.age) && v in old(g.color) && v in old(g.age)
    ensures g.Ok() <==> !old(Ages.Escapes(g.color, g.age, o, v))
    ensures g.objs == Put(old(g.objs), o, slot, v) && Stored(old(Now(g)), Now(g), o, v)
  {
    hide g.Ok, Ages.Escapes, Storable, Put, Reachable, g.Roots, Spreads, NonWhite, MarkRel, Stored;
    InKeys(g, o);
    InKeys(g, v);
    ghost var w := Now(g);
    g.Store(o, slot, v, back);
    IsStored(g, w, old(g.color), o, v, back);
  }

  lemma InKeys(g: GenState, o: Ref)
    requires g.Ok() && o in g.objs
    ensures o in g.color && o in g.age && g.color.Keys == g.age.Keys
  {
    hide Valid, g.Segments, g.RootsOk;
    g.OkSplit();
  }

  lemma WhiteIs(c: Colors)
    ensures forall o :: o in NonWhite(c) <==> Marked(c, o)
  {
  }

  // A new object is white.
  lemma NextWhite(g: GenState)
    requires g.Ok()
    ensures NonWhite(g.color[g.next := White]) == NonWhite(g.color)
  {
    hide Valid, g.Segments, g.RootsOk;
    g.OkSplit();
  }

  // No old object but a thread refers to a young one.
  ghost predicate OldToOld(g: GenState)
    reads g`objs, g`age
  {
    forall o, v :: o in g.objs && o in g.age && g.age[o].Old? && !g.objs[o].kind.Thread? && v in Succ(g.objs, o) ==>
      v in g.age && IsOld(g.age[v])
  }

  lemma OkOldToOld(g: GenState)
    requires g.Ok()
    ensures OldToOld(g)
  {
    hide g.Ok, Succ;
    forall o, v | o in g.objs && o in g.age && g.age[o].Old? && !g.objs[o].kind.Thread? && v in Succ(g.objs, o)
      ensures v in g.age && IsOld(g.age[v]) {
      g.OldToOld(o, v);
    }
  }

  lemma OkReached(g: GenState)
    requires g.Ok()
    ensures forall o :: Reachable(g.objs, g.Roots(), o) ==> o in g.objs
  {
    hide g.Ok, Reachable;
    g.OkSplit();
    g.ValidGraph();
    ReachableClosed(g.objs, g.Roots(), g.objs.Keys);
  }

  ghost predicate Safe(w: View) {
    forall o :: Reachable(w.objs, Roots(w), o) ==> o in w.objs
  }

  // The views of a run, and the addresses that were next.
  ghost predicate History(actions: seq<Action>, views: seq<View>, nexts: seq<Ref>) {
    && |views| == |nexts| == |actions| + 1
    && forall i :: 0 <= i < |actions| ==> Did(actions[i], views[i], nexts[i], views[i + 1]) && nexts[i] <= nexts[i + 1]
  }

  lemma HistoryMore(actions: seq<Action>, n: nat, views: seq<View>, nexts: seq<Ref>, w: View, next: Ref)
    requires n < |actions| && History(actions[..n], views, nexts) && Did(actions[n], views[n], nexts[n], w)
      && nexts[n] <= next
    ensures History(actions[..n + 1], views + [w], nexts + [next])
  {
    hide Did;
  }

  lemma NoHistory(actions: seq<Action>, w: View, next: Ref)
    ensures History(actions[..0], [w], [next])
  {
  }

  /** Every run, however many young collections there are in it and wherever they come, up to the first store that
      escapes: at every moment what can be reached is there, from each to the next the program's view changes by what is
      done and by nothing else, and in the end old objects refer to old objects only. `done` actions were done. */
  method Run(g: GenState, actions: seq<Action>) returns (done: nat, ghost views: seq<View>, ghost nexts: seq<Ref>)
    requires g.Ok()
    modifies g
    ensures done <= |actions| && g.Ok() && OldToOld(g)
    ensures History(actions[..done], views, nexts) && views[0] == old(Now(g)) && views[done] == Now(g)
    ensures forall i :: 0 <= i < |views| ==> Safe(views[i])
    ensures done < |actions| ==> Escapes(g, actions[done])
  {
    hide g.Ok, Escapes, OldToOld, Reachable, Did, History, Safe;
    done := 0;
    views, nexts := [Now(g)], [g.next];
    NoHistory(actions, Now(g), g.next);
    OkSafe(g);
    while done < |actions| && !Escapes(g, actions[done])
      invariant done <= |actions| && g.Ok() && |views| == |nexts| == done + 1
      invariant History(actions[..done], views, nexts) && views[0] == old(Now(g))
      invariant views[done] == Now(g) && nexts[done] == g.next
      invariant forall i :: 0 <= i < |views| ==> Safe(views[i])
    {
      Do(g, actions[done]);
      OkSafe(g);
      HistoryMore(actions, done, views, nexts, Now(g), g.next);
      views, nexts := views + [Now(g)], nexts + [g.next];
      done := done + 1;
    }
    OkOldToOld(g);
  }

  lemma OkSafe(g: GenState)
    requires g.Ok()
    ensures Safe(Now(g))
  {
    hide g.Ok, Reachable;
    SameRoots(g);
    OkReached(g);
  }
}
