// The incremental collector and the mutator it runs beside, over one heap that both update in place.

module Collector {
  import opened Heap
  import opened Marking
  import opened Mutation
  import opened Freeing
  import opened Lists
  import opened Sequences

  datatype Phase = Propagate | EnterAtomic | Atomic | SwpAllGc | SwpFinObj | SwpToBeFnz | SwpEnd | CallFin | Pause

  // Where the sweep goes on: at an index of the list of its phase.
  datatype Cursor = NoCursor | At(i: nat)

  function From(l: seq<Ref>, at: Cursor): set<Ref> {
    if at.At? && at.i <= |l| then Members(l[at.i..]) else {}
  }

  predicate CursorIn(p: Phase, at: Cursor, allgc: seq<Ref>, finobj: seq<Ref>, tobefnz: seq<Ref>) {
    at.At? ==>
      match p
      case SwpAllGc => at.i <= |allgc|
      case SwpFinObj => at.i <= |finobj|
      case SwpToBeFnz => at.i <= |tobefnz|
      case _ => false
  }

  // Objects with finalizers are values.
  ghost predicate FinKinds(o: Graph, finobj: seq<Ref>, tobefnz: seq<Ref>) {
    forall p :: p in o && (p in finobj || p in tobefnz) ==> ValueKind(o[p].kind)
  }

  function StillPending(p: Phase, at: Cursor, allgc: seq<Ref>, finobj: seq<Ref>, tobefnz: seq<Ref>): set<Ref> {
    match p
    case SwpAllGc => From(allgc, at) + (Members(finobj) + Members(tobefnz))
    case SwpFinObj => From(finobj, at) + Members(tobefnz)
    case SwpToBeFnz => From(tobefnz, at)
    case _ => {}
  }

  // The list of a sweep phase, the members of the other lists, and the members of the lists to be swept after it.
  ghost predicate PhaseLists(p: Phase, allgc: seq<Ref>, finobj: seq<Ref>, tobefnz: seq<Ref>, fixed: set<Ref>,
                             l: seq<Ref>, others: multiset<Ref>, rest: set<Ref>)
  {
    match p
    case SwpAllGc =>
      l == allgc && others == multiset(finobj) + multiset(tobefnz) + multiset(fixed)
        && rest == Members(finobj) + Members(tobefnz)
    case SwpFinObj => l == finobj && others == multiset(allgc) + multiset(tobefnz) + multiset(fixed)
      && rest == Members(tobefnz)
    case SwpToBeFnz => l == tobefnz && others == multiset(allgc) + multiset(finobj) + multiset(fixed) && rest == {}
    case _ => false
  }

  lemma StartSweep(objs: Graph, color: Colors, white: bool, fixed: set<Ref>, alive: set<Ref>, reserved: set<Ref>)
    requires objs.Keys == color.Keys == alive == reserved + {0, 1} && fixed == reserved && !white
    requires forall o :: o in reserved ==> objs[o] == Obj(Leaf, map[], {}) && color[o] == Gray
    requires objs[0] == Obj(Thread, map[], {}) && objs[1] == Obj(Box, map[], {}) && color[0] == color[1] == White(false)
    ensures Sweep(objs, color, white, fixed, alive, {})
  {
    assert forall o :: o in objs ==> Succ(objs, o) == {};
  }

  class GlobalState {
    var objs: Graph
    var color: Colors
    var white: bool               // the current white
    var gcstate: Phase
    var gray: seq<Ref>
    var grayagain: seq<Ref>
    var twups: seq<Ref>           // threads with open upvalues
    var allgc: seq<Ref>
    var finobj: seq<Ref>          // objects with finalizers
    var tobefnz: seq<Ref>         // objects whose finalizers are due
    var fin: set<Ref>             // objects with the finalized bit
    var sweepgc: Cursor
    var main: Ref
    var running: Ref
    var registry: Ref
    var mt: map<nat, Ref>         // metatables of the basic types
    var next: Ref                 // addresses from here on are fresh
    var fixed: set<Ref>           // never collected: gray for ever
    ghost var alive: set<Ref>     // what this cycle may keep

    /** `lua_newstate`: a main thread and a registry, and the strings that are never collected. */
    constructor (reserved: set<Ref>, first: Ref)
      requires forall o :: o in reserved ==> 2 <= o < first
      requires 2 <= first
      ensures Valid() && gcstate.Pause? && fixed == reserved && objs.Keys == reserved + {0, 1} && main == 0
        && registry == 1
      ensures finobj == [] && tobefnz == []
    {
      objs := map o | o in reserved + {0, 1} :: Obj(if o == 0 then Thread else if o == 1 then Box else Leaf, map[], {});
      color := map o | o in reserved + {0, 1} :: if o in reserved then Gray else White(false);
      white, gcstate, gray, grayagain, twups := false, Pause, [], [], [];
      allgc, finobj, tobefnz, fin, sweepgc := [0, 1], [], [], {}, NoCursor;
      main, running, registry, mt := 0, 0, 1, map[];
      next, fixed, alive := first, reserved, reserved + {0, 1};
      new;
      StartLists(reserved);
      StartValid(reserved);
    }

    lemma StartLists(reserved: set<Ref>)
      requires objs.Keys == reserved + {0, 1} && fixed == reserved && 0 !in reserved && 1 !in reserved
      requires allgc == [0, 1] && finobj == [] && tobefnz == [] && fin == {}
      ensures ListsOk()
    {
      assert multiset(reserved + {0, 1}) == multiset(reserved) + multiset{0, 1};
      assert multiset([0, 1]) == multiset{0, 1};
    }

    lemma StartValid(reserved: set<Ref>)
      requires ListsOk() && gcstate.Pause? && sweepgc.NoCursor? && twups == [] && main == 0 && running == 0
        && registry == 1 && mt == map[]
      requires finobj == [] && tobefnz == [] && objs.Keys == reserved + {0, 1} && alive == objs.Keys
        && fixed == reserved
      requires forall o :: o in reserved ==> 2 <= o < next
      requires 2 <= next && color.Keys == objs.Keys && !white
      requires forall o :: o in reserved ==> objs[o] == Obj(Leaf, map[], {}) && color[o] == Gray
      requires objs[0] == Obj(Thread, map[], {}) && objs[1] == Obj(Box, map[], {})
        && color[0] == color[1] == White(false)
      ensures Valid()
    {
      hide ListsOk, Sweep, Succ;
      StartSweep(objs, color, white, fixed, alive, reserved);
      assert Roots() == {0, 1};
    }

    ghost predicate Mk(extra: set<Ref>, hot: set<Ref>)
      reads `objs, `color, `white, `fixed, `alive, `gray
    {
      Tri(objs, color, white, fixed, alive, gray, extra, hot)
    }

    // `markobject`
    method MarkObject(o: Ref, ghost extra: set<Ref>, ghost hot: set<Ref>, ghost wide: set<Ref>)
      requires Mk(extra, hot) && o in objs && o in alive
      modifies `color, `gray
      ensures Mk(extra, hot) && Marks(objs, old(color), color) && Marked(color, o)
      ensures OpenOk(objs, old(color), wide) ==> OpenOk(objs, color, wide)
      ensures ValueKind(objs[o].kind) ==> OpensSame(objs, old(color), color)
      decreases Rank(objs[o].kind), 2
    {
      hide Tri, OpenOk;
      assert o in color by { Colored(extra, hot); }
      if color[o].White? { ReallyMark(o, extra, hot, wide); }
    }

    lemma Colored(extra: set<Ref>, hot: set<Ref>)
      requires Mk(extra, hot)
      ensures color.Keys == objs.Keys
    {
    }

    /** `reallymarkobject`: strings, closed upvalues and userdata without values are visited at once, open
        upvalues stay gray with their value marked, everything else waits in the gray list. */
    method ReallyMark(o: Ref, ghost extra: set<Ref>, ghost hot: set<Ref>, ghost wide: set<Ref>)
      requires Mk(extra, hot) && o in objs && o in alive && o in color && color[o].White?
      modifies `color, `gray
      ensures Mk(extra, hot) && Marks(objs, old(color), color) && Marked(color, o)
      ensures OpenOk(objs, old(color), wide) ==> OpenOk(objs, color, wide)
      ensures ValueKind(objs[o].kind) ==> OpensSame(objs, old(color), color)
      decreases Rank(objs[o].kind), 1
    {
      hide Tri, OpenOk;
      match objs[o].kind {
        case Box => Link(o, extra, hot, wide);
        case Thread => Link(o, extra, hot, wide);
        case Leaf =>
          Blacken(objs, color, white, fixed, alive, gray, extra, hot, o);
          MarkedOther(objs, color, color[o := Black], wide, o);
          color := color[o := Black];
          LeafCool(objs, color, white, fixed, alive, gray, extra, hot, o);
        case Cell =>
          Blacken(objs, color, white, fixed, alive, gray, extra, hot, o);
          MarkedHot(objs, color, color[o := Black], wide, o);
          color := color[o := Black];
          MarkContent(o, extra, hot, wide);
        case Open(_, _) =>
          GrayOpen(objs, color, white, fixed, alive, gray, extra, hot, o);
          MarkedHot(objs, color, color[o := Gray], wide, o);
          color := color[o := Gray];
          TriHot(objs, color, white, fixed, alive, gray, extra, hot, o);
          MarkContent(o, extra, hot, wide);
        case Udata =>
          ghost var c0 := color;
          Inside(extra, hot, o);
          if 0 in objs[o].fields { MarkObject(objs[o].fields[0], extra, hot, wide); }
          UdataColor(objs, color, white, fixed, alive, gray, extra, hot, o);
          ghost var c1 := color;
          color := color[o := Black];
          UdataDone(objs, c0, c1, white, fixed, alive, gray, extra, hot, wide, o);
      }
    }

    // Links an object that has references of its own into the gray list.
    method Link(o: Ref, ghost extra: set<Ref>, ghost hot: set<Ref>, ghost wide: set<Ref>)
      requires Mk(extra, hot) && o in objs && o in alive && o in color && color[o].White? && Listable(objs[o].kind)
      modifies `color, `gray
      ensures Mk(extra, hot) && Marks(objs, old(color), color) && Marked(color, o)
      ensures OpenOk(objs, old(color), wide) ==> OpenOk(objs, color, wide)
      ensures OpensSame(objs, old(color), color)
    {
      hide Tri, OpenOk;
      Enlist(objs, color, white, fixed, alive, gray, extra, hot, o);
      MarkedOther(objs, color, color[o := Gray], wide, o);
      gray := [o] + gray;
      color := color[o := Gray];
    }

    // The value of an upvalue that has just been coloured.
    method MarkContent(o: Ref, ghost extra: set<Ref>, ghost hot: set<Ref>, ghost wide: set<Ref>)
      requires Mk(extra, hot + {o}) && o in objs && o in alive && (objs[o].kind.Cell? || objs[o].kind.Open?)
      requires Marked(color, o)
      modifies `color, `gray
      ensures Mk(extra, hot) && Marks(objs, old(color), color)
      ensures OpenOk(objs, old(color), wide + {o}) ==> OpenOk(objs, color, wide)
      decreases Rank(objs[o].kind), 0
    {
      hide Tri, OpenOk;
      Inside(extra, hot + {o}, o);
      if objs[o].kind.Open? {
        var th, slot := objs[o].kind.th, objs[o].kind.slot;
        if slot in objs[th].fields { MarkObject(objs[th].fields[slot], extra, hot + {o}, wide + {o}); }
      } else if 0 in objs[o].fields {
        MarkObject(objs[o].fields[0], extra, hot + {o}, wide + {o});
      }
      Cool(objs, color, white, fixed, alive, gray, extra, hot, o);
      if OpenOk(objs, color, wide + {o}) { OpenCool(objs, color, wide, o); }
    }

    lemma Inside(extra: set<Ref>, hot: set<Ref>, o: Ref)
      requires Mk(extra, hot) && o in objs
      ensures Typed(objs) && TypedObj(objs, o) && color.Keys == objs.Keys
      ensures forall v :: v in Succ(objs, o) ==> v in objs && (o in alive ==> v in alive)
      ensures objs[o].kind.Cell? || objs[o].kind.Udata? || objs[o].kind.Open? ==>
        forall v :: v in Succ(objs, o) ==> Rank(objs[v].kind) < Rank(objs[o].kind)
    {
      forall v | v in Succ(objs, o) && (objs[o].kind.Cell? || objs[o].kind.Udata? || objs[o].kind.Open?)
        ensures v in objs && Rank(objs[v].kind) < Rank(objs[o].kind)
      {
        RankDrops(objs, o, v);
      }
    }

    // ----- propagation -----

    method MarkSet(s: set<Ref>, ghost extra: set<Ref>, ghost hot: set<Ref>, ghost wide: set<Ref>)
      requires Mk(extra, hot) && s <= objs.Keys && s <= alive
      modifies `color, `gray
      ensures Mk(extra, hot) && Marks(objs, old(color), color)
      ensures forall v :: v in s ==> Marked(color, v)
      ensures OpenOk(objs, old(color), wide) ==> OpenOk(objs, color, wide)
    {
      var todo := s;
      hide Mk, OpenOk;
      while todo != {}
        invariant Mk(extra, hot) && Marks(objs, old(color), color) && todo <= s
        invariant forall v :: v in s && v !in todo ==> Marked(color, v)
        invariant OpenOk(objs, old(color), wide) ==> OpenOk(objs, color, wide)
        decreases todo
      {
        var v :| v in todo;
        ghost var before := color;
        MarkObject(v, extra, hot, wide);
        MarksTrans(objs, old(color), before, color);
        StillMarked(objs, before, color);
        todo := todo - {v};
      }
    }

    // Marks everything `o` refers to.
    method Traverse(o: Ref, ghost extra: set<Ref>, ghost hot: set<Ref>, ghost wide: set<Ref>)
      requires Mk(extra, hot) && o in objs && o in alive
      modifies `color, `gray
      ensures Mk(extra, hot) && Marks(objs, old(color), color)
      ensures forall v :: v in Succ(objs, o) ==> Marked(color, v)
      ensures OpenOk(objs, old(color), wide) ==> OpenOk(objs, color, wide)
    {
      Inside(extra, hot, o);
      hide *;
      MarkSet(Succ(objs, o), extra, hot, wide);
    }

    // `traversethread` while the program still runs: the thread stays gray, to be visited again.
    method TraverseLive()
      requires Mk(Members(grayagain), {}) && NoDup(grayagain) && gray != [] && objs[gray[0]].kind.Thread?
      modifies `color, `gray, `grayagain
      ensures Mk(Members(grayagain), {}) && NoDup(grayagain) && Marks(objs, old(color), color)
      ensures Unvisited(objs, color, grayagain) < Unvisited(objs, old(color), old(grayagain))
    {
      MovedHead();
      hide *;
      var o := gray[0];
      gray := gray[1..];
      grayagain := [o] + grayagain;
      MkOf(Members(grayagain), {});
      Traverse(o, Members(grayagain), {}, {});
      VisitedThread(objs, old(color), color, old(grayagain), o);
    }

    lemma MkOf(extra: set<Ref>, hot: set<Ref>)
      requires Tri(objs, color, white, fixed, alive, gray, extra, hot)
      ensures Mk(extra, hot)
    {
    }

    lemma MovedHead()
      requires Mk(Members(grayagain), {}) && NoDup(grayagain) && gray != []
      ensures gray[0] in objs && gray[0] in alive && NoDup([gray[0]] + grayagain)
      ensures gray[0] in color && color[gray[0]].Gray? && gray[0] !in grayagain
      ensures Tri(objs, color, white, fixed, alive, gray[1..], Members([gray[0]] + grayagain), {})
    {
      var o := gray[0];
      ListedAlive(objs, color, white, fixed, alive, gray, Members(grayagain), {});
      MoveGray(objs, color, white, fixed, alive, gray, Members(grayagain));
      assert o in gray;
      assert Members([o] + grayagain) == Members(grayagain) + {o};
    }

    // `propagatemark` of anything else: the object turns black.
    method TraverseBlack(ghost extra: set<Ref>)
      requires Mk(extra, {}) && gray != []
      modifies `color, `gray
      ensures Mk(extra, {}) && old(gray)[0] in objs && color.Keys == old(color).Keys
      ensures Marks(objs, old(color)[old(gray)[0] := Black], color) && old(gray)[0] in old(color)
        && old(color)[old(gray)[0]].Gray?
      ensures OpenOk(objs, old(color), {}) ==> OpenOk(objs, color, {})
    {
      var o := gray[0];
      ListedAlive(objs, color, white, fixed, alive, gray, extra, {});
      TakeGray(objs, color, white, fixed, alive, gray, extra);
      if OpenOk(objs, color, {}) { OpenTake(objs, color, {}, o); }
      ghost var taken := color[o := Black];
      color := color[o := Black];
      gray := gray[1..];
      assert Typed(objs);
      hide Tri, OpenOk, Succ;
      assert {o} == {} + {o};
      Traverse(o, extra, {o}, {o});
      Cool(objs, color, white, fixed, alive, gray, extra, {}, o);
      if OpenOk(objs, color, {o}) { OpenCool(objs, color, {}, o); }
    }

    // ----- the atomic step -----

    lemma Head(extra: set<Ref>)
      requires Mk(extra, {}) && gray != []
      ensures gray[0] in objs && (extra == Members(grayagain) ==> gray[0] !in grayagain)
    {
      assert gray[0] in gray;
      ListedAlive(objs, color, white, fixed, alive, gray, extra, {});
    }

    /** `propagatemark`. While the program still runs, a thread stays gray and goes to the list to be visited again. In
        the atomic step it is linked back among the threads with open upvalues if `remarkupvals` took it out. */
    method PropagateMark(ghost extra: set<Ref>)
      requires Mk(extra, {}) && gray != [] && TwupsBlack(objs, color, twups)
      requires gcstate.Propagate? ==> extra == Members(grayagain) && NoDup(grayagain)
      modifies `color, `gray, `grayagain, `twups
      ensures gcstate.Propagate? ==> Mk(Members(grayagain), {}) && NoDup(grayagain) && twups == old(twups)
      ensures gcstate.Propagate? && ThreadsGray(objs, old(color)) ==> ThreadsGray(objs, color)
      ensures gcstate.Propagate? ==> Unvisited(objs, color, grayagain) < Unvisited(objs, old(color), old(grayagain))
      ensures !gcstate.Propagate? ==> Mk(extra, {}) && TwupsBlack(objs, color, twups) && grayagain == old(grayagain)
      ensures !gcstate.Propagate? ==> NonBlack(objs, color) < NonBlack(objs, old(color))
      ensures !gcstate.Propagate? && TwupsMarked(old(color), old(twups)) ==> TwupsMarked(color, twups)
      ensures !gcstate.Propagate? && OpenOk(objs, old(color), {}) ==> OpenOk(objs, color, {})
      ensures Grows(old(color), color)
      ensures TwupsAll(objs, old(twups)) ==> twups == old(twups)
    {
      hide *;
      Head(extra);
      ghost var o := gray[0];
      var isThread := objs[gray[0]].kind.Thread?;
      if isThread && gcstate.Propagate? {
        TraverseLive();
        StillMarked(objs, old(color), color);
        ThreadsKept(objs, old(color), color);
      } else {
        var th := gray[0];
        TraverseBlack(extra);
        TwupsTraversed(objs, old(color), color, twups, o);
        if !gcstate.Propagate? && isThread && objs[th].uvs != {} && th !in twups { twups := [th] + twups; }
        if !isThread { ThreadsTraversed(objs, old(color), color, o); }
        if gcstate.Propagate? { VisitedBlack(objs, old(color), color, grayagain, o); }
      }
    }

    method PropagateAll(ghost extra: set<Ref>)
      requires gcstate.Atomic? && Mk(extra, {}) && TwupsBlack(objs, color, twups)
      modifies `color, `gray, `grayagain, `twups
      ensures Mk(extra, {}) && TwupsBlack(objs, color, twups) && gray == [] && grayagain == old(grayagain)
      ensures TwupsMarked(old(color), old(twups)) ==> TwupsMarked(color, twups)
      ensures OpenOk(objs, old(color), {}) ==> OpenOk(objs, color, {})
      ensures Grows(old(color), color)
      ensures TwupsAll(objs, old(twups)) ==> twups == old(twups)
    {
      assert Grows(color, color);
      hide *;
      while gray != []
        invariant Mk(extra, {}) && TwupsBlack(objs, color, twups) && grayagain == old(grayagain)
        invariant TwupsMarked(old(color), old(twups)) ==> TwupsMarked(color, twups)
        invariant OpenOk(objs, old(color), {}) ==> OpenOk(objs, color, {})
        invariant Grows(old(color), color)
        invariant TwupsAll(objs, old(twups)) ==> twups == old(twups)
        decreases NonBlack(objs, color)
      {
        ghost var before := color;
        PropagateMark(extra);
        GrowsTrans(old(color), before, color);
      }
    }

    // `remarkupvals` for one thread: the values of its upvalues that are marked.
    method RemarkThread(th: Ref, ghost extra: set<Ref>, ghost wide: set<Ref>)
      requires Mk(extra, {}) && th in objs && objs[th].kind.Thread?
      modifies `color, `gray
      ensures Mk(extra, {}) && Marks(objs, old(color), color)
      ensures UvsDone(objs, color, objs[th].uvs)
      ensures OpenOk(objs, old(color), wide) ==> OpenOk(objs, color, wide)
    {
      UpvaluesIn(extra, th);
      var todo := objs[th].uvs;
      MarksRefl(objs, color);
      hide Mk, OpenOk, Marks, Succ, Typed, TypedObj, UvsDone, OpensSame, Marked;
      assert UvsDone(objs, color, {}) by { UvsNone(objs, color); }
      while todo != {}
        invariant Mk(extra, {}) && Marks(objs, old(color), color) && todo <= objs[th].uvs
        invariant UvsDone(objs, color, objs[th].uvs - todo)
        invariant OpenOk(objs, old(color), wide) ==> OpenOk(objs, color, wide)
        decreases todo
      {
        var u :| u in todo;
        ghost var before := color;
        RemarkUpval(th, u, extra, wide, objs[th].uvs - todo);
        MarksTrans(objs, old(color), before, color);
        todo := todo - {u};
        assert objs[th].uvs - todo <= objs[th].uvs - (todo + {u}) + {u};
        UvsFewer(objs, color, objs[th].uvs - (todo + {u}) + {u}, objs[th].uvs - todo);
      }
    }

    method RemarkUpval(th: Ref, u: Ref, ghost extra: set<Ref>, ghost wide: set<Ref>, ghost done: set<Ref>)
      requires Mk(extra, {}) && th in objs && objs[th].kind.Thread? && u in objs[th].uvs && UvsDone(objs, color, done)
        && done <= objs[th].uvs
      modifies `color, `gray
      ensures Mk(extra, {}) && Marks(objs, old(color), color) && UvsDone(objs, color, done + {u})
      ensures OpenOk(objs, old(color), wide) ==> OpenOk(objs, color, wide)
    {
      UpvaluesIn(extra, th);
      MarksRefl(objs, color);
      hide Mk, OpenOk, Marks, Succ, Typed, TypedObj, UvsDone, OpensSame;
      ghost var before := color;
      if Marked(color, u) && objs[u].kind.slot in objs[th].fields {
        Slot(extra, th, u);
        MarkObject(objs[th].fields[objs[u].kind.slot], extra, {}, wide);
      }
      UvsMore(objs, before, color, done, u);
    }

    lemma UpvaluesIn(extra: set<Ref>, th: Ref)
      requires Mk(extra, {}) && th in objs && objs[th].kind.Thread?
      ensures forall u :: u in objs[th].uvs ==> u in objs && objs[u].kind.Open? && objs[u].kind.th == th
      ensures forall u, v :: u in objs[th].uvs && v in Succ(objs, u) ==>
                objs[u].kind.slot in objs[th].fields && v == objs[th].fields[objs[u].kind.slot]
      ensures color.Keys == objs.Keys
    {
      assert TypedObj(objs, th);
    }

    lemma Slot(extra: set<Ref>, th: Ref, u: Ref)
      requires Mk(extra, {}) && th in objs && objs[th].kind.Thread? && u in objs[th].uvs && Marked(color, u)
      requires u in objs && objs[u].kind.Open? && objs[u].kind.th == th && objs[u].kind.slot in objs[th].fields
      ensures objs[th].fields[objs[u].kind.slot] in objs && objs[th].fields[objs[u].kind.slot] in alive
      ensures ValueKind(objs[objs[th].fields[objs[u].kind.slot]].kind)
    {
      var v := objs[th].fields[objs[u].kind.slot];
      assert TypedObj(objs, th) && v in objs[th].fields.Values;
      assert v in Succ(objs, u) && v in Succ(objs, th);
      assert u in alive;
    }

    /** `remarkupvals`: of the threads with open upvalues only the marked ones stay listed; for the others, the values
        of their marked upvalues are marked now, for nothing will traverse these threads. */
    method RemarkUpvals(ghost extra: set<Ref>)
      requires Mk(extra, {}) && TwupsAll(objs, twups)
      modifies `color, `gray, `twups
      ensures Mk(extra, {}) && Marks(objs, old(color), color) && OpenOk(objs, color, {})
      ensures TwupsBlack(objs, color, twups) && TwupsMarked(color, twups)
    {
      var i := 0;
      RemarkStart(extra);
      assert Members(twups[0..]) == Members(twups) by { assert twups[0..] == twups; }
      assert TwupsMarked(color, twups[..0]);
      MarksRefl(objs, color);
      hide *;
      while i < |twups|
        invariant i <= |twups| && Mk(extra, {}) && Marks(objs, old(color), color)
        invariant OpenOk(objs, color, Members(twups[i..])) && TwupsBlack(objs, color, twups)
          && TwupsMarked(color, twups[..i])
        decreases |twups| - i
      {
        InTwups(i);
        var th := twups[i];
        if Marked(color, th) && objs[th].uvs != {} {
          KeepThread(extra, i);
          i := i + 1;
        } else {
          ghost var before := color;
          ghost var listed := twups;
          DropThread(color, i);
          twups := twups[..i] + twups[i + 1..];
          RemarkThread(th, extra, Members(listed[i..]));
          DroppedThread(extra, before, listed, th, i);
          MarksTrans(objs, old(color), before, color);
        }
      }
      AllKept(i);
    }

    lemma RemarkStart(extra: set<Ref>)
      requires Mk(extra, {}) && TwupsAll(objs, twups)
      ensures OpenOk(objs, color, Members(twups)) && TwupsBlack(objs, color, twups)
    {
      OpenWaiting(objs, color, twups);
    }

    lemma InTwups(i: nat)
      requires i < |twups| && TwupsBlack(objs, color, twups)
      ensures twups[i] in objs && objs[twups[i]].kind.Thread?
    {
      assert twups[i] in twups;
    }

    lemma TriParts(extra: set<Ref>)
      requires Mk(extra, {})
      ensures Typed(objs) && BlackOk(objs, color, {}) && color.Keys == objs.Keys
    {
    }

    lemma KeepThread(extra: set<Ref>, i: nat)
      requires Mk(extra, {}) && i < |twups| && TwupsBlack(objs, color, twups) && TwupsMarked(color, twups[..i])
      requires OpenOk(objs, color, Members(twups[i..])) && Marked(color, twups[i])
      ensures OpenOk(objs, color, Members(twups[i + 1..])) && TwupsMarked(color, twups[..i + 1])
    {
      hide Tri, OpenOk, Typed, BlackOk, Mk, UvsDone;
      var th := twups[i];
      InTwups(i);
      TriParts(extra);
      if color[th].Black? { BlackThread(objs, color, th); }
      assert Members(twups[i..]) <= Members(twups[i + 1..]) + {th};
      assert forall o :: o in twups[i..] ==> o in twups;
      OpenRetire(objs, color, Members(twups[i..]), Members(twups[i + 1..]), th);
      assert twups[..i + 1] == twups[..i] + [th];
    }

    lemma DropThread(c: Colors, i: nat)
      requires i < |twups| && TwupsBlack(objs, c, twups) && TwupsMarked(c, twups[..i])
      requires twups[i] in objs && (!Marked(c, twups[i]) || objs[twups[i]].uvs == {})
      ensures var rest := twups[..i] + twups[i + 1..]; TwupsBlack(objs, c, rest) && TwupsMarked(c, rest[..i])
                                                       && rest[i..] == twups[i + 1..]
    {
      var rest := twups[..i] + twups[i + 1..];
      assert rest[..i] == twups[..i];
      assert forall th :: th in rest ==> th in twups;
      assert forall th :: th in twups ==> th == twups[i] || th in rest;
    }

    lemma DroppedThread(extra: set<Ref>, before: Colors, listed: seq<Ref>, th: Ref, i: nat)
      requires Mk(extra, {}) && Marks(objs, before, color)
        && UvsDone(objs, color, if th in objs then objs[th].uvs else {})
      requires i < |listed| && listed[i] == th && th in objs && objs[th].kind.Thread? && |twups| >= i
        && twups[i..] == listed[i + 1..]
      requires TwupsBlack(objs, before, listed) && TwupsBlack(objs, before, twups) && TwupsMarked(before, twups[..i])
      requires OpenOk(objs, color, Members(listed[i..]))
      ensures OpenOk(objs, color, Members(twups[i..])) && TwupsBlack(objs, color, twups)
        && TwupsMarked(color, twups[..i])
    {
      assert Typed(objs);
      hide Tri, OpenOk, Typed, Mk, UvsDone, Marks;
      TwupsKept(objs, before, color, twups);
      assert TwupsMarked(color, twups[..i]) by { StillMarked(objs, before, color); }
      assert Members(listed[i..]) <= Members(listed[i + 1..]) + {th};
      assert forall o :: o in listed[i..] ==> o in listed;
      OpenRetire(objs, color, Members(listed[i..]), Members(listed[i + 1..]), th);
    }

    lemma TwupsStart()
      requires TwupsAll(objs, twups)
      ensures TwupsBlack(objs, color, twups)
    {
    }

    lemma NowSwap(again: seq<Ref>)
      requires Mk(Members(again), {}) && gray == [] && NoDup(again)
      ensures Tri(objs, color, white, fixed, alive, again, {}, {})
    {
      SwapGray(objs, color, white, fixed, alive, again);
    }

    lemma StrongRoots()
      requires Roots() <= objs.Keys && Roots() <= alive
      ensures Strong() <= objs.Keys && Strong() <= alive
    {
      assert Strong() <= Roots();
    }

    lemma Separated(due: seq<Ref>)
      requires Mk({}, {}) && gray == [] && ListsOk() && due == Whites(finobj, color)
      ensures Tri(objs, color, white, fixed, alive + ReachSet(objs, Members(due)), gray, {}, {})
      ensures Members(due) <= objs.Keys && Members(due) <= ReachSet(objs, Members(due))
      ensures Partition(objs.Keys, fixed, allgc, Others(finobj, color), tobefnz + due)
      ensures FinOk(fin, Others(finobj, color), tobefnz + due)
    {
      WhitesOthers(finobj, color);
      forall o | o in due ensures o in objs { InOneList(objs.Keys, fixed, allgc, finobj, tobefnz, o); }
      GrowAlive(objs, color, white, fixed, alive, gray, {}, Members(due));
      hide Whites, Others, Tri, ReachSet;
      assert multiset(tobefnz + due) == multiset(tobefnz) + multiset(due);
      assert Members(finobj) + Members(tobefnz) == Members(Others(finobj, color)) + Members(tobefnz + due);
    }

    lemma RootsParts()
      requires RootsOk()
      ensures {main} + Strong() <= objs.Keys && {main} + Strong() <= alive
      ensures Members(tobefnz) <= objs.Keys && Members(tobefnz) <= alive
      ensures forall v :: v in {main} + Strong() ==> v in Roots()
      ensures Kinds(objs) && FinKinds(objs, finobj, tobefnz)
      ensures main in objs && objs[main].kind.Thread? && running in objs && objs[running].kind.Thread?
    {
      assert {main} + Strong() <= Roots() && Members(tobefnz) <= Roots();
    }

    lemma KindsSeparated(f0: seq<Ref>, t0: seq<Ref>, c: Colors)
      requires FinKinds(objs, f0, t0) && finobj == Others(f0, c) && tobefnz == t0 + Whites(f0, c)
      requires main in objs && objs[main].kind.Thread? && running in objs && objs[running].kind.Thread?
      ensures Kinds(objs)
    {
      WhitesOthers(f0, c);
      hide Whites, Others;
    }

    // A change of the graph that keeps the kinds.
    lemma KindsKept(o0: Graph, o1: Graph)
      requires Kinds(o0) && main in o1 && running in o1 && Members(finobj) + Members(tobefnz) <= o0.Keys
      requires forall p :: p in o0 && p in o1 && (p == main || p == running || ValueKind(o0[p].kind)) ==>
                 o1[p].kind == o0[p].kind
      ensures Kinds(o1)
    {
    }

    lemma DueIn(listed: seq<Ref>, due: seq<Ref>, before: set<Ref>)
      requires Members(listed) <= objs.Keys && Members(listed) <= before && Members(due) <= objs.Keys
      requires tobefnz == listed + due && before + Members(due) <= alive
      ensures Members(tobefnz) <= objs.Keys && Members(tobefnz) <= alive
    {
    }

    lemma FinMarked(listed: seq<Ref>, strong: Colors)
      requires Partition(objs.Keys, fixed, allgc, finobj, tobefnz) && finobj == Others(listed, strong)
        && Grows(strong, color)
      requires Mk({}, {})
      ensures forall o :: o in finobj ==> Marked(color, o)
    {
      WhitesOthers(listed, strong);
      forall o | o in finobj ensures Marked(color, o) {
        InOneList(objs.Keys, fixed, allgc, finobj, tobefnz, o);
        assert o in strong;
      }
    }

    lemma StrongGrew(c0: Colors, c1: Colors)
      requires Grows(c0, color) && (forall v :: v in {main} + Strong() ==> Marked(c0, v))
      requires c1 == color && (forall v :: v in Members(tobefnz) ==> Marked(c1, v))
      ensures forall v :: v in Roots() ==> Marked(color, v)
    {
    }

    lemma RootsMarked(before: set<Ref>)
      requires {main} + Strong() <= objs.Keys && {main} + Strong() <= before <= alive
      requires Members(tobefnz) <= objs.Keys && Members(tobefnz) <= alive
      requires Kinds(objs)
      requires forall v :: v in Roots() ==> Marked(color, v)
      ensures RootsOk()
    {
    }

    lemma ListsBack()
      requires Partition(objs.Keys, fixed, allgc, finobj, tobefnz) && FinOk(fin, finobj, tobefnz)
      ensures ListsOk()
    {
    }

    lemma GrewSet(strong: set<Ref>, c0: Colors, c1: Colors)
      requires Grows(c0, c1) && forall v :: v in strong ==> Marked(c0, v)
      ensures forall v :: v in strong ==> Marked(c1, v)
    {
    }

    lemma AllRoots(c0: Colors, c1: Colors)
      requires Grows(c0, c1) && Grows(c1, color) && forall v :: v in Strong() ==> Marked(c1, v)
      requires Marked(c0, main) && (forall o :: o in tobefnz ==> Marked(c0, o))
      ensures forall r :: r in Roots() ==> Marked(color, r)
    {
    }

    lemma AllKept(i: nat)
      requires i == |twups| && OpenOk(objs, color, Members(twups[i..])) && TwupsMarked(color, twups[..i])
      ensures OpenOk(objs, color, {}) && TwupsMarked(color, twups)
    {
      assert Members(twups[i..]) == {};
      assert twups[..i] == twups;
    }

    // `separatetobefnz`: the white objects with finalizers go, in order, to the end of the list of those due.
    method SeparateToBeFnz()
      modifies `finobj, `tobefnz
      ensures finobj == Others(old(finobj), color) && tobefnz == old(tobefnz) + Whites(old(finobj), color)
    {
      var i := 0;
      ghost var k := 0;
      ghost var l := finobj;
      while i < |finobj|
        invariant k <= |l| && i <= |finobj| && finobj[i..] == l[k..] && finobj[..i] == Others(l[..k], color)
        invariant tobefnz == old(tobefnz) + Whites(l[..k], color)
        decreases |finobj| - i
      {
        var curr := finobj[i];
        assert curr == finobj[i..][0] == l[k];
        assert finobj[i + 1..] == finobj[i..][1..] == l[k + 1..];
        SplitNext(l, k, color);
        k := k + 1;
        if IsWhite(color, curr) {
          finobj := finobj[..i] + finobj[i + 1..];
          tobefnz := tobefnz + [curr];
        } else {
          i := i + 1;
        }
      }
      assert l[..k] == l && finobj[..i] == finobj;
    }

    function Roots(): set<Ref>
      reads `main, `running, `registry, `mt, `tobefnz
    {
      {main} + Strong() + Members(tobefnz)
    }

    // The roots that the program changes without barriers.
    function Strong(): set<Ref>
      reads `running, `registry, `mt
    {
      {running, registry} + mt.Values
    }

    // The roots that change without barriers, at the start of `atomic`.
    method MarkRoots(ghost extra: set<Ref>)
      requires gcstate.Atomic? && Mk(extra, {}) && TwupsAll(objs, twups) && Roots() <= objs.Keys && Roots() <= alive
      modifies `color, `gray, `grayagain, `twups
      ensures Mk(extra, {}) && gray == [] && grayagain == old(grayagain) && twups == old(twups)
      ensures Grows(old(color), color) && forall v :: v in Strong() ==> Marked(color, v)
    {
      hide *;
      TwupsStart();
      var strong := Strong();
      StrongRoots();
      MarkSet(strong, extra, {}, {});
      StillMarked(objs, old(color), color);
      TwupsKept(objs, old(color), color, twups);
      ghost var c0 := color;
      PropagateAll(extra);
      GrowsTrans(old(color), c0, color);
      GrewSet(strong, c0, color);
    }

    // The upvalues of unmarked threads, and what they lead to.
    method RemarkAll(ghost extra: set<Ref>)
      requires gcstate.Atomic? && Mk(extra, {}) && TwupsAll(objs, twups)
      modifies `color, `gray, `grayagain, `twups
      ensures Mk(extra, {}) && gray == [] && grayagain == old(grayagain) && OpenOk(objs, color, {})
      ensures TwupsBlack(objs, color, twups) && TwupsMarked(color, twups) && Grows(old(color), color)
    {
      hide *;
      RemarkUpvals(extra);
      StillMarked(objs, old(color), color);
      ghost var c1 := color;
      PropagateAll(extra);
      GrowsTrans(old(color), c1, color);
    }

    // `atomic` up to where all that the program can reach is marked.
    method AtomicMark()
      requires Mk(Members(grayagain), {}) && NoDup(grayagain) && TwupsAll(objs, twups)
      requires Marked(color, main) && (forall o :: o in tobefnz ==> Marked(color, o)) && Roots() <= objs.Keys
        && Roots() <= alive
      modifies `color, `gray, `grayagain, `twups, `gcstate
      ensures Mk({}, {}) && gray == [] && grayagain == [] && OpenOk(objs, color, {}) && gcstate.Atomic?
      ensures TwupsBlack(objs, color, twups) && TwupsMarked(color, twups)
      ensures forall r :: r in Roots() ==> Marked(color, r)
    {
      hide *;
      gcstate := Atomic;
      var again := grayagain;
      grayagain := [];
      MarkRoots(Members(again));
      ghost var c0 := color;
      RemarkAll(Members(again));
      NowSwap(again);
      gray := again;
      MkOf({}, {});
      ghost var c1 := color;
      PropagateAll({});
      GrowsTrans(c0, c1, color);
      AllRoots(old(color), c0);
    }

    ghost predicate ListsOk()
      reads `objs, `fixed, `allgc, `finobj, `tobefnz, `fin
    {
      Partition(objs.Keys, fixed, allgc, finobj, tobefnz) && FinOk(fin, finobj, tobefnz)
    }

    // The roots are there, are live and may be kept.
    ghost predicate RootsOk()
      reads `objs, `color, `white, `alive, `main, `running, `registry, `mt, `finobj, `tobefnz
    {
      RootsIn(objs, color)
    }

    // The main and the running thread are threads, and objects with finalizers are values.
    ghost predicate Kinds(o: Graph)
      reads `main, `running, `finobj, `tobefnz
    {
      && main in o && o[main].kind.Thread? && running in o && o[running].kind.Thread?
      && FinKinds(o, finobj, tobefnz)
    }

    ghost predicate RootsIn(o: Graph, c: Colors)
      reads `white, `alive, `main, `running, `registry, `mt, `finobj, `tobefnz
    {
      && Roots() <= o.Keys && Roots() <= alive && (forall r :: r in Roots() ==> Live(c, white, r))
      && Kinds(o)
    }

    // While marking: the roots that nothing marks again are marked.
    ghost predicate MarkedRoots()
      reads `color, `main, `tobefnz
    {
      Marked(color, main) && forall o :: o in tobefnz ==> Marked(color, o)
    }

    // Objects whose finalizers are due are kept, with what they lead to: the second part of `atomic`.
    method AtomicFinalizers() returns (ghost strong: Colors)
      requires gcstate.Atomic? && Mk({}, {}) && gray == [] && grayagain == [] && OpenOk(objs, color, {}) && ListsOk()
      requires TwupsBlack(objs, color, twups) && TwupsMarked(color, twups) && RootsOk()
        && forall r :: r in Roots() ==> Marked(color, r)
      modifies `color, `gray, `grayagain, `twups, `finobj, `tobefnz, `alive
      ensures Mk({}, {}) && gray == [] && grayagain == [] && OpenOk(objs, color, {}) && ListsOk()
      ensures TwupsBlack(objs, color, twups) && TwupsMarked(color, twups)
      ensures RootsOk() && forall r :: r in Roots() ==> Marked(color, r)
      ensures strong == old(color)
      ensures finobj == Others(old(finobj), strong) && tobefnz == old(tobefnz) + Whites(old(finobj), strong)
      ensures alive == old(alive) + ReachSet(objs, Members(Whites(old(finobj), strong)))
      ensures forall o :: o in finobj ==> Marked(color, o)
    {
      hide *;
      strong := color;
      ghost var due := Whites(finobj, color);
      Separated(due);
      RootsParts();
      SeparateToBeFnz();
      alive := alive + ReachSet(objs, Members(due));
      MkOf({}, {});
      DueIn(old(tobefnz), due, old(alive));
      MarkDue();
      StrongGrew(old(color), color);
      KindsSeparated(old(finobj), old(tobefnz), strong);
      RootsMarked(old(alive));
      FinMarked(old(finobj), strong);
      ListsBack();
    }

    // `markbeingfnz`, and what it leads to.
    method MarkDue()
      requires gcstate.Atomic? && Mk({}, {}) && gray == [] && grayagain == [] && OpenOk(objs, color, {})
      requires TwupsBlack(objs, color, twups) && TwupsMarked(color, twups)
      requires Members(tobefnz) <= objs.Keys && Members(tobefnz) <= alive
      modifies `color, `gray, `grayagain, `twups
      ensures Mk({}, {}) && gray == [] && grayagain == [] && OpenOk(objs, color, {}) && Grows(old(color), color)
      ensures TwupsBlack(objs, color, twups) && TwupsMarked(color, twups)
      ensures forall v :: v in Members(tobefnz) ==> Marked(color, v)
    {
      hide *;
      MarkSet(Members(tobefnz), {}, {}, {});
      StillMarked(objs, old(color), color);
      TwupsKept(objs, old(color), color, twups);
      ghost var c1 := color;
      PropagateAll({});
      GrowsTrans(old(color), c1, color);
      GrewSet(Members(tobefnz), c1, color);
    }

    // What holds between two steps while marking.
    ghost predicate MarkInv()
      reads `objs, `color, `white, `fixed, `alive, `gray, `grayagain, `twups, `main, `running, `registry, `mt, `finobj,
        `tobefnz
    {
      MarkInvHot({})
    }

    // The same while the objects in `hot` are being written.
    ghost predicate MarkInvHot(hot: set<Ref>)
      reads `objs, `color, `white, `fixed, `alive, `gray, `grayagain, `twups, `main, `running, `registry, `mt, `finobj,
        `tobefnz
    {
      && Mk(Members(grayagain), hot) && NoDup(grayagain) && ThreadsGray(objs, color) && TwupsAll(objs, twups)
      && RootsOk() && MarkedRoots()
    }

    // What holds between two steps while `pending` is still to be swept.
    ghost predicate SweepInv(pending: set<Ref>)
      reads `objs, `color, `white, `fixed, `alive, `twups, `main, `running, `registry, `mt, `finobj, `tobefnz
    {
      && Sweep(objs, color, white, fixed, alive, pending) && TwupsLive(objs, color, white, twups) && RootsOk()
      && AllLive(finobj, color, white)
    }

    /** `atomic`. `strong` holds the colours when the objects with finalizers are separated: what can be reached is not
        white then, so no finalizer of a reachable object comes due. In the end the unmarked objects are dead. */
    method AtomicStep() returns (ghost strong: Colors)
      requires MarkInv() && ListsOk()
      modifies `color, `gray, `grayagain, `twups, `gcstate, `finobj, `tobefnz, `alive, `white
      ensures SweepInv(objs.Keys - fixed) && ListsOk() && gray == [] && grayagain == [] && gcstate.Atomic?
      ensures white == !old(white)
      ensures finobj == Others(old(finobj), strong) && tobefnz == old(tobefnz) + Whites(old(finobj), strong)
      ensures alive == old(alive) + ReachSet(objs, Members(Whites(old(finobj), strong)))
      ensures forall o :: Reachable(objs, old(Roots()), o) ==> Marked(strong, o)
    {
      hide *;
      MarkInvParts();
      RootsParts();
      AtomicMark();
      NoneLost();
      RootsMarked(alive);
      strong := AtomicFinalizers();
      RootsParts();
      FlipAll();
      white := !white;
      SweepBack(alive, objs.Keys - fixed);
    }

    lemma FlipAll()
      requires Mk({}, {}) && gray == [] && OpenOk(objs, color, {}) && TwupsBlack(objs, color, twups)
        && TwupsMarked(color, twups)
      requires (forall r :: r in Roots() ==> Marked(color, r)) && (forall o :: o in finobj ==> Marked(color, o))
      ensures AllLive(finobj, color, !white)
      ensures Sweep(objs, color, !white, fixed, alive, objs.Keys - fixed) && TwupsLive(objs, color, !white, twups)
      ensures forall r :: r in Roots() ==> Live(color, !white, r)
    {
      Flip(objs, color, white, fixed, alive);
      FlipTwups(objs, color, white, fixed, alive, twups);
    }

    lemma SweepBack(before: set<Ref>, pending: set<Ref>)
      requires Sweep(objs, color, white, fixed, alive, pending) && TwupsLive(objs, color, white, twups)
      requires {main} + Strong() <= objs.Keys && {main} + Strong() <= before <= alive
      requires Members(tobefnz) <= objs.Keys && Members(tobefnz) <= alive
      requires Kinds(objs)
      requires (forall v :: v in Roots() ==> Live(color, white, v)) && AllLive(finobj, color, white)
      ensures SweepInv(pending)
    {
    }

    lemma MarkInvParts()
      requires MarkInv()
      ensures Mk(Members(grayagain), {}) && NoDup(grayagain) && TwupsAll(objs, twups) && RootsOk()
      ensures Marked(color, main) && (forall o :: o in tobefnz ==> Marked(color, o)) && Roots() <= objs.Keys
        && Roots() <= alive
    {
    }

    lemma NoneLost()
      requires Mk({}, {}) && gray == [] && OpenOk(objs, color, {}) && forall r :: r in Roots() ==> Marked(color, r)
      ensures forall o :: Reachable(objs, Roots(), o) ==> Marked(color, o)
    {
      UnmarkedUnreachable(objs, color, white, fixed, alive, Roots());
    }

    // ----- sweeping -----

    /** Closes an upvalue of a thread that is being freed. A marked upvalue turns black, and white if its value is
        white: what a barrier does while sweeping. */
    method CloseFreed(u: Ref, ghost pending: set<Ref>)
      requires Sweep(objs, color, white, fixed, alive, pending) && u in objs && objs[u].kind.Open?
      modifies `objs, `color
      ensures Sweep(objs, color, white, fixed, alive, pending)
      ensures old(objs[u].kind.th in objs) && objs == Closed(old(objs), u)
      ensures !Live(old(color), white, old(objs)[u].kind.th) ==> Kept(old(objs), old(color), objs, color, white)
    {
      hide *;
      DeadUpvalues(objs, color, white, fixed, alive, pending, u);
      var th, slot := objs[u].kind.th, objs[u].kind.slot;
      var c := color[u];
      if !c.White? {
        c := Black;
        if slot in objs[th].fields && color[objs[th].fields[slot]].White? { c := White(white); }
      }
      CloseSweep(objs, color, color[u := c], white, fixed, alive, pending, u, c);
      objs := Closed(objs, u);
      color := color[u := c];
    }

    // `luaE_freethread`: the upvalues that outlive the thread take their values with them.
    method CloseThread(th: Ref, ghost pending: set<Ref>)
      requires Sweep(objs, color, white, fixed, alive, pending)
      requires th in objs && objs[th].kind.Thread? && Dead(color, white, th)
      modifies `objs, `color
      ensures Sweep(objs, color, white, fixed, alive, pending) && Kept(old(objs), old(color), objs, color, white)
      ensures objs.Keys == old(objs).Keys && objs[th].kind.Thread? && objs[th].uvs == {} && Dead(color, white, th)
    {
      hide *;
      KeptRefl(objs, color, white);
      while objs[th].uvs != {}
        invariant Sweep(objs, color, white, fixed, alive, pending) && Kept(old(objs), old(color), objs, color, white)
        invariant objs.Keys == old(objs).Keys && objs[th].kind.Thread? && Dead(color, white, th)
        decreases objs[th].uvs
      {
        var u :| u in objs[th].uvs;
        ghost var o1, c1 := objs, color;
        UpvalueOf(pending, th, u);
        CloseFreed(u, pending);
        KeptTrans(old(objs), old(color), o1, c1, objs, color, white);
        OneLess(pending, o1, c1, th, u);
      }
    }

    lemma UpvalueOf(pending: set<Ref>, th: Ref, u: Ref)
      requires Sweep(objs, color, white, fixed, alive, pending) && Dead(color, white, th)
      requires th in objs && objs[th].kind.Thread? && u in objs[th].uvs
      ensures u in objs && objs[u].kind.Open? && objs[u].kind.th == th && !Live(color, white, th)
    {
      ThreadUpvalue(objs, th, u);
    }

    lemma OneLess(pending: set<Ref>, o1: Graph, c1: Colors, th: Ref, u: Ref)
      requires th in o1 && o1[th].kind.Thread? && u in o1[th].uvs && u in o1 && o1[u].kind.Open? && o1[u].kind.th == th
      requires objs == Closed(o1, u) && Kept(o1, c1, objs, color, white)
        && Sweep(objs, color, white, fixed, alive, pending)
      requires Dead(c1, white, th)
      ensures objs.Keys == o1.Keys && th in objs && objs[th].kind.Thread? && objs[th].uvs < o1[th].uvs
        && Dead(color, white, th)
    {
      assert u !in objs[th].uvs && u in o1[th].uvs;
      assert color.Keys == objs.Keys;
      assert !Live(color, white, th);
    }

    // `freeobj`
    method FreeObj(o: Ref, ghost pending: set<Ref>)
      requires Sweep(objs, color, white, fixed, alive, pending) && o in objs && Dead(color, white, o)
      modifies `objs, `color
      ensures Sweep(objs, color, white, fixed, alive, pending) && Kept(old(objs), old(color), objs, color, white)
      ensures objs.Keys == old(objs).Keys - {o}
    {
      hide *;
      KeptRefl(objs, color, white);
      if objs[o].kind.Open? { DeadUpvalues(objs, color, white, fixed, alive, pending, o); }
      if objs[o].kind.Thread? { CloseThread(o, pending); }
      Remove(o, pending);
      FreeSweep(objs, color, white, fixed, alive, pending, o);
      KeptTrans(old(objs), old(color), objs, color, Freed(objs, o), color - {o}, white);
      objs := Freed(objs, o);
      color := color - {o};
    }

    lemma Remove(o: Ref, pending: set<Ref>)
      requires Sweep(objs, color, white, fixed, alive, pending) && o in objs && Dead(color, white, o)
      requires objs[o].kind.Open? ==> objs[o].kind.th in objs
      requires objs[o].kind.Thread? ==> objs[o].uvs == {}
      ensures Freed(objs, o).Keys == objs.Keys - {o} && !Live(color, white, o)
    {
      FreedShape(objs, o);
    }

    /** A list being swept has been swept up to `i`; `others` are the members of the other lists, `rest` those still to
        be swept. */
    ghost predicate Sweeping(l: seq<Ref>, i: nat, others: multiset<Ref>, rest: set<Ref>)
      reads `objs, `color, `white, `fixed, `alive
    {
      && i <= |l| && Sweep(objs, color, white, fixed, alive, Members(l[i..]) + rest)
      && multiset(l) + others == multiset(objs.Keys) && multiset(fixed) <= others
    }

    // The body of the loop of `sweeplist`.
    method SweepOne(l: seq<Ref>, i: nat, ghost others: multiset<Ref>, ghost rest: set<Ref>)
      returns (l': seq<Ref>, i': nat)
      requires Sweeping(l, i, others, rest) && i < |l|
      modifies `objs, `color
      ensures Sweeping(l', i', others, rest) && Kept(old(objs), old(color), objs, color, white)
      ensures |l'| - i' == |l| - i - 1 && i' >= i && (i' == i ==> |l'| < |l|) && l'[..i] == l[..i]
      ensures AllLive(l, old(color), white) ==> l' == l
    {
      hide *;
      var curr := l[i];
      Current(l, i, others, rest);
      NotAllLive(l, i);
      if Dead(color, white, curr) {
        FreeObj(curr, Members(l[i..]) + rest);
        SweptDead(l, i, others, rest, old(objs));
        l', i' := l[..i] + l[i + 1..], i;
      } else {
        SweptLive(l, i, others, rest);
        color := color[curr := White(white)];
        SweepingBack(l, i + 1, others, rest);
        l', i' := l, i + 1;
      }
    }

    lemma NotAllLive(l: seq<Ref>, i: nat)
      requires i < |l|
      ensures Dead(color, white, l[i]) ==> !AllLive(l, color, white)
    {
      assert l[i] in l;
    }

    lemma Current(l: seq<Ref>, i: nat, others: multiset<Ref>, rest: set<Ref>)
      requires Sweeping(l, i, others, rest) && i < |l|
      ensures l[i] in objs && l[i] !in fixed && l[i] in color
        && Sweep(objs, color, white, fixed, alive, Members(l[i..]) + rest)
      ensures multiset(l) + others == multiset(objs.Keys) && multiset(fixed) <= others
    {
      var curr := l[i];
      assert curr in multiset(l);
      assert multiset(objs.Keys)[curr] <= 1;
      assert multiset(fixed)[curr] <= others[curr];
    }

    lemma SweepingBack(l: seq<Ref>, i: nat, others: multiset<Ref>, rest: set<Ref>)
      requires i <= |l| && Sweep(objs, color, white, fixed, alive, Members(l[i..]) + rest)
      requires multiset(l) + others == multiset(objs.Keys) && multiset(fixed) <= others
      ensures Sweeping(l, i, others, rest)
    {
    }

    lemma SweptDead(l: seq<Ref>, i: nat, others: multiset<Ref>, rest: set<Ref>, before: Graph)
      requires i < |l| && l[i] in before && objs.Keys == before.Keys - {l[i]}
      requires Sweep(objs, color, white, fixed, alive, Members(l[i..]) + rest)
      requires multiset(l) + others == multiset(before.Keys) && multiset(fixed) <= others
      ensures Sweeping(l[..i] + l[i + 1..], i, others, rest)
    {
      var l' := l[..i] + l[i + 1..];
      assert l'[i..] == l[i + 1..];
      Removed(l, i);
      assert multiset(objs.Keys) == multiset(before.Keys) - multiset{l[i]};
      GoneSweep(objs, color, white, fixed, alive, Members(l[i..]) + rest, Members(l'[i..]) + rest, l[i]);
    }

    lemma SweptLive(l: seq<Ref>, i: nat, others: multiset<Ref>, rest: set<Ref>)
      requires Sweeping(l, i, others, rest) && i < |l| && !Dead(color, white, l[i])
      ensures Kept(objs, color, objs, color[l[i] := White(white)], white)
      ensures Sweep(objs, color[l[i] := White(white)], white, fixed, alive, Members(l[i + 1..]) + rest)
      ensures multiset(l) + others == multiset(objs.Keys) && multiset(fixed) <= others
    {
      Current(l, i, others, rest);
      WhitenSweep(objs, color, white, fixed, alive, Members(l[i..]) + rest, Members(l[i + 1..]) + rest, l[i]);
    }

    // `sweeplist`: at most `countin` members of the list.
    method SweepList(l: seq<Ref>, i: nat, countin: nat, ghost others: multiset<Ref>, ghost rest: set<Ref>)
      returns (l': seq<Ref>, at: Cursor)
      requires Sweeping(l, i, others, rest)
      modifies `objs, `color
      ensures Sweeping(l', if at.At? then at.i else |l'|, others, rest)
        && Kept(old(objs), old(color), objs, color, white)
      ensures at.At? ==> at.i < |l'| && (countin > 0 ==> |l'| - at.i < |l| - i)
      ensures AllLive(l, old(color), white) ==> l' == l
    {
      hide *;
      KeptRefl(objs, color, white);
      SweepingAll(l, i, others, rest);
      l' := l;
      var j: nat := i;
      var n := 0;
      SweepingIn(l, i, others, rest);
      while j < |l'| && n < countin
        invariant Sweeping(l', j, others, rest) && Kept(old(objs), old(color), objs, color, white) && j <= |l'|
        invariant AllLive(l, old(color), white) ==> l' == l && AllLive(l, color, white)
        invariant i <= |l| && |l'| - j == |l| - i - n
        decreases |l'| - j
      {
        ghost var o1, c1 := objs, color;
        l', j := SweepOne(l', j, others, rest);
        KeptTrans(old(objs), old(color), o1, c1, objs, color, white);
        SweepingIn(l', j, others, rest);
        StillLive(l, others, old(objs), old(color));
        n := n + 1;
      }
      at := if j == |l'| then NoCursor else At(j);
    }

    lemma SweepingAll(l: seq<Ref>, i: nat, others: multiset<Ref>, rest: set<Ref>)
      requires Sweeping(l, i, others, rest)
      ensures multiset(l) + others == multiset(objs.Keys)
    {
    }

    lemma StillLive(l: seq<Ref>, others: multiset<Ref>, o0: Graph, c0: Colors)
      requires multiset(l) + others == multiset(o0.Keys) && Kept(o0, c0, objs, color, white)
      ensures AllLive(l, c0, white) ==> AllLive(l, color, white)
    {
      forall o | o in l ensures o in o0 {
        assert o in multiset(l) + others;
      }
    }

    lemma SweepingIn(l: seq<Ref>, i: nat, others: multiset<Ref>, rest: set<Ref>)
      requires Sweeping(l, i, others, rest)
      ensures i <= |l|
    {
    }

    // `sweeptolive`: up to the first live member of the list.
    method SweepToLive(l: seq<Ref>, i: nat, ghost others: multiset<Ref>, ghost rest: set<Ref>)
      returns (l': seq<Ref>, at: Cursor)
      requires Sweeping(l, i, others, rest)
      modifies `objs, `color
      ensures Sweeping(l', if at.At? then at.i else |l'|, others, rest)
        && Kept(old(objs), old(color), objs, color, white)
      ensures at.At? ==> i < at.i < |l'|
      ensures i <= |l| && i <= |l'| && l'[..i] == l[..i]
    {
      hide *;
      KeptRefl(objs, color, white);
      l' := l;
      var j: nat := i;
      SweepingIn(l, i, others, rest);
      while j == i && j < |l'|
        invariant Sweeping(l', j, others, rest) && Kept(old(objs), old(color), objs, color, white) && i <= j <= |l'|
        invariant i <= |l| && l'[..i] == l[..i]
        decreases |l'| - j
      {
        ghost var o1, c1 := objs, color;
        l', j := SweepOne(l', j, others, rest);
        KeptTrans(old(objs), old(color), o1, c1, objs, color, white);
        SweepingIn(l', j, others, rest);
      }
      at := if j == |l'| then NoCursor else At(j);
    }

    // ----- single steps -----

    ghost predicate CursorOk()
      reads `gcstate, `sweepgc, `allgc, `finobj, `tobefnz
    {
      CursorIn(gcstate, sweepgc, allgc, finobj, tobefnz)
    }

    // What is still to be swept.
    ghost function Pending(): set<Ref>
      reads `gcstate, `sweepgc, `allgc, `finobj, `tobefnz
    {
      StillPending(gcstate, sweepgc, allgc, finobj, tobefnz)
    }

    // `keepinvariant`, between two steps
    predicate KeepInvariant()
      reads `gcstate
    {
      gcstate.Propagate? || gcstate.EnterAtomic?
    }

    /** What holds between any two steps: every object is in one list, and the colours are as the phase has them. Before
        a cycle starts (after its predecessor ended) everything that is not fixed has the current white. */
    ghost predicate Valid()
      reads this
    {
      ValidHot({})
    }

    // The same between a write and its barrier.
    ghost predicate ValidHot(hot: set<Ref>)
      reads this
    {
      && ListsOk() && Below(objs, next) && !gcstate.Atomic?
      && (KeepInvariant() ==> MarkInvHot(hot))
      && (!KeepInvariant() ==> SweepInv(Pending()) && CursorOk())
    }

    // The objects the program can reach are there, and look the same.
    ghost predicate Intact(before: Graph, roots: set<Ref>)
      reads `objs
    {
      forall o :: Reachable(before, roots, o) ==> o in before && o in objs && Seen(objs, o) == Seen(before, o)
    }

    lemma BothClosed()
      requires Valid()
      ensures AliveClosed(objs, alive) && LiveClosed(objs, color, white) && color.Keys == objs.Keys
    {
      hide ListsOk, Below, CursorOk, Succ;
      if KeepInvariant() { NoneDead(objs, color, white, fixed, alive); }
    }

    lemma RootsLive()
      requires Valid()
      ensures Roots() <= objs.Keys && Roots() <= alive && forall o :: o in Roots() ==> Live(color, white, o)
    {
      hide Below, CursorOk, Succ, Reachable;
      if KeepInvariant() { NoneDead(objs, color, white, fixed, alive); }
      RootsParts();
    }

    // Safety: whatever the phase, what the program can reach is there.
    lemma Accessible()
      requires Valid()
      ensures forall o :: Reachable(objs, Roots(), o) ==> o in objs && o in alive && Live(color, white, o)
    {
      hide Valid, Reachable, Succ, Roots, Live;
      BothClosed();
      RootsLive();
      var s := set o | o in objs && o in alive && Live(color, white, o);
      ReachableClosed(objs, Roots(), s);
    }

    // The roots that are marked when a cycle starts.
    function FirstRoots(): set<Ref>
      reads `main, `registry, `mt, `tobefnz
    {
      {main, registry} + mt.Values + Members(tobefnz)
    }

    // `restartcollection`: this cycle may keep what can be reached now.
    method Restart()
      requires Valid() && gcstate.Pause?
      modifies `color, `gray, `grayagain, `gcstate, `alive
      ensures Valid() && gcstate.Propagate? && alive == ReachSet(objs, Roots())
    {
      hide *;
      PauseParts();
      alive := ReachSet(objs, Roots());
      gray, grayagain := [], [];
      StartMk();
      MarkSet(FirstRoots(), {}, {}, {});
      gcstate := Propagate;
      StillMarked(objs, old(color), color);
      ThreadsKept(objs, old(color), color);
      Started();
    }

    lemma PauseParts()
      requires Valid() && gcstate.Pause?
      ensures ListsOk() && Below(objs, next) && Sweep(objs, color, white, fixed, alive, {}) && Roots() <= objs.Keys
      ensures TwupsAll(objs, twups) && ThreadsGray(objs, color)
      ensures Tri(objs, color, white, fixed, ReachSet(objs, Roots()), [], {}, {}) && Roots() <= ReachSet(objs, Roots())
      ensures Kinds(objs)
    {
      hide *;
      Idle();
      StartTri(objs, color, white, fixed, alive, Roots());
      TwupsWhole(objs, color, white, fixed, alive, twups);
    }

    lemma Idle()
      requires Valid() && gcstate.Pause?
      ensures ListsOk() && Below(objs, next) && Sweep(objs, color, white, fixed, alive, {}) && Roots() <= objs.Keys
      ensures TwupsLive(objs, color, white, twups)
      ensures Kinds(objs)
    {
    }

    lemma StartMk()
      requires Roots() <= objs.Keys && Roots() <= alive && gray == []
      requires Tri(objs, color, white, fixed, alive, [], {}, {})
      ensures Mk({}, {})
      ensures FirstRoots() <= objs.Keys && FirstRoots() <= alive
    {
      assert FirstRoots() <= Roots();
    }

    lemma Started()
      requires ListsOk() && Below(objs, next) && Mk({}, {}) && grayagain == [] && ThreadsGray(objs, color)
        && TwupsAll(objs, twups)
      requires Roots() <= objs.Keys && Roots() <= alive && gcstate.Propagate?
      requires Kinds(objs)
      requires forall v :: v in FirstRoots() ==> Marked(color, v)
      ensures Valid()
    {
      MkRoots({});
      assert Members(grayagain) == {};
    }

    // While marking nothing is dead, and so no root.
    lemma MkRoots(extra: set<Ref>)
      requires Mk(extra, {}) && Roots() <= objs.Keys && Roots() <= alive
      requires Kinds(objs)
      ensures RootsOk()
    {
    }

    // The propagate phase.
    method PropagateStep()
      requires Valid() && gcstate.Propagate?
      modifies `color, `gray, `grayagain, `twups, `gcstate
      ensures Valid() && KeepInvariant() && twups == old(twups)
        && gcstate == if old(gray) == [] then EnterAtomic else Propagate
      ensures gcstate.Propagate? ==> Unvisited(objs, color, grayagain) < Unvisited(objs, old(color), old(grayagain))
    {
      hide *;
      MarkParts();
      if gray == [] {
        gcstate := EnterAtomic;
        Unmoved();
      } else {
        TwupsStart();
        PropagateMark(Members(grayagain));
        Propagated(old(color));
      }
    }

    lemma MarkParts()
      requires Valid() && KeepInvariant()
      ensures ListsOk() && Below(objs, next) && MarkInv() && RootsOk() && MarkedRoots()
      ensures Mk(Members(grayagain), {}) && NoDup(grayagain) && ThreadsGray(objs, color) && TwupsAll(objs, twups)
      ensures Roots() <= objs.Keys && Roots() <= alive
      ensures Kinds(objs)
    {
    }

    lemma Unmoved()
      requires ListsOk() && Below(objs, next) && MarkInv() && KeepInvariant() && gcstate.EnterAtomic?
      ensures Valid() && KeepInvariant()
    {
    }

    lemma Propagated(c0: Colors)
      requires ListsOk() && Below(objs, next) && Mk(Members(grayagain), {}) && NoDup(grayagain) && gcstate.Propagate?
      requires ThreadsGray(objs, color) && TwupsAll(objs, twups) && Roots() <= objs.Keys && Roots() <= alive
      requires Kinds(objs)
      requires Grows(c0, color) && Marked(c0, main) && forall o :: o in tobefnz ==> Marked(c0, o)
      ensures Valid() && KeepInvariant()
    {
      MkRoots(Members(grayagain));
    }

    // The other invariants follow a sweep.
    lemma KeptInv(o0: Graph, c0: Colors, pending: set<Ref>)
      requires Sweep(objs, color, white, fixed, alive, pending) && Kept(o0, c0, objs, color, white)
      requires TwupsLive(o0, c0, white, twups) && RootsIn(o0, c0) && AllLive(finobj, c0, white)
        && Members(finobj) <= o0.Keys
      requires Below(o0, next)
      ensures SweepInv(pending) && Below(objs, next)
    {
      KeptTwups(o0, c0, objs, color, white, twups);
      KeptRoots(o0, c0);
      hide Sweep, TwupsLive, Kinds, Seen, Live;
    }

    lemma KeptRoots(o0: Graph, c0: Colors)
      requires Kept(o0, c0, objs, color, white) && RootsIn(o0, c0) && AllLive(finobj, c0, white)
        && Members(finobj) <= o0.Keys
      ensures RootsIn(objs, color) && AllLive(finobj, color, white)
    {
      assert forall p :: p in tobefnz ==> p in Roots();
      forall p | p in o0 && Live(c0, white, p) && (p == main || p == running || ValueKind(o0[p].kind))
        ensures p in objs && objs[p].kind == o0[p].kind && Live(color, white, p)
      {
        assert Seen(objs, p) == Seen(o0, p);
      }
    }

    // `entersweep`, when everything that is not fixed is still to be swept.
    method EnterSweep()
      requires SweepInv(objs.Keys - fixed) && ListsOk() && Below(objs, next)
      modifies `objs, `color, `allgc, `gcstate, `sweepgc
      ensures Valid() && gcstate.SwpAllGc? && Kept(old(objs), old(color), objs, color, white)
    {
      hide *;
      gcstate := SwpAllGc;
      ghost var others := multiset(finobj) + multiset(tobefnz) + multiset(fixed);
      ghost var rest := Members(finobj) + Members(tobefnz);
      BeforeSweep(others, rest);
      allgc, sweepgc := SweepToLive(allgc, 0, others, rest);
      AllGcSwept(others, rest);
      KeptInv(old(objs), old(color), Pending());
      NowValid();
    }

    lemma BeforeSweep(others: multiset<Ref>, rest: set<Ref>)
      requires SweepInv(objs.Keys - fixed) && ListsOk() && Below(objs, next)
      requires others == multiset(finobj) + multiset(tobefnz) + multiset(fixed)
        && rest == Members(finobj) + Members(tobefnz)
      ensures Sweeping(allgc, 0, others, rest) && FinOk(fin, finobj, tobefnz)
      ensures TwupsLive(objs, color, white, twups) && RootsIn(objs, color) && AllLive(finobj, color, white)
        && Members(finobj) <= objs.Keys
    {
      assert allgc[0..] == allgc;
      assert multiset(allgc) + others == multiset(objs.Keys);
      forall o ensures o in objs.Keys - fixed <==> o in Members(allgc) + rest {
        InOneList(objs.Keys, fixed, allgc, finobj, tobefnz, o);
      }
      assert objs.Keys - fixed == Members(allgc[0..]) + rest;
    }

    lemma AllGcSwept(others: multiset<Ref>, rest: set<Ref>)
      requires Sweeping(allgc, if sweepgc.At? then sweepgc.i else |allgc|, others, rest) && FinOk(fin, finobj, tobefnz)
        && gcstate.SwpAllGc?
      requires others == multiset(finobj) + multiset(tobefnz) + multiset(fixed)
        && rest == Members(finobj) + Members(tobefnz)
      requires sweepgc.At? ==> sweepgc.i < |allgc|
      ensures ListsOk() && CursorOk() && Sweep(objs, color, white, fixed, alive, Pending())
    {
      assert Partition(objs.Keys, fixed, allgc, finobj, tobefnz);
      var i := if sweepgc.At? then sweepgc.i else |allgc|;
      assert Members(allgc[i..]) == From(allgc, sweepgc);
    }

    lemma NowValid()
      requires ListsOk() && Below(objs, next) && CursorOk() && SweepInv(Pending()) && !gcstate.Propagate?
        && !gcstate.EnterAtomic? && !gcstate.Atomic?
      ensures Valid()
    {
    }

    // The step that ends the marking: `atomic` and `entersweep`.
    method FinishMarking() returns (ghost strong: Colors)
      requires Valid() && KeepInvariant()
      modifies `objs, `color, `white, `gray, `grayagain, `twups, `allgc, `finobj, `tobefnz, `gcstate, `sweepgc, `alive
      ensures Valid() && gcstate.SwpAllGc? && white == !old(white)
      ensures finobj == Others(old(finobj), strong) && tobefnz == old(tobefnz) + Whites(old(finobj), strong)
      ensures alive == old(alive) + ReachSet(old(objs), Members(Whites(old(finobj), strong)))
      ensures forall o :: Reachable(old(objs), old(Roots()), o) ==> Marked(strong, o)
      ensures Intact(old(objs), old(Roots())) && objs.Keys <= old(objs).Keys && old(Roots()) <= Roots()
      ensures old(finobj) == [] ==> finobj == [] && tobefnz == old(tobefnz) && alive == old(alive)
    {
      hide *;
      MarkParts();
      RootsShape();
      strong := AtomicStep();
      DueRoots(old(tobefnz), old(Roots()));
      ReachLive(old(Roots()));
      ghost var c1 := color;
      EnterSweep();
      KeptIntact(old(objs), c1, old(Roots()));
      KeptKeys(old(objs), c1);
      NothingDue(old(finobj), strong);
    }

    // Without finalizers nothing is resurrected.
    lemma NothingDue(l: seq<Ref>, c: Colors)
      ensures l == [] ==> Others(l, c) == [] && Whites(l, c) == [] && ReachSet(objs, Members([])) == {}
      ensures l == [] ==> forall o0: Graph :: ReachSet(o0, Members(Whites(l, c))) == {}
    {
      if l == [] {
        forall o0: Graph ensures ReachSet(o0, Members(Whites(l, c))) == {} {
          forall o | o in ReachSet(o0, {}) ensures false {
            ReachableClosed(o0, {}, {});
          }
          assert Members(Whites(l, c)) == {};
        }
      }
    }

    lemma RootsShape()
      ensures Roots() == {main} + Strong() + Members(tobefnz)
    {
    }

    lemma DueRoots(listed: seq<Ref>, roots: set<Ref>)
      requires listed <= tobefnz && roots == {main} + Strong() + Members(listed)
      ensures roots <= Roots()
    {
    }

    // What can be reached is live.
    lemma ReachLive(roots: set<Ref>)
      requires SweepInv(objs.Keys - fixed) && roots <= Roots()
      ensures forall o :: Reachable(objs, roots, o) ==> o in objs && Live(color, white, o)
    {
      var s := set o | o in objs && Live(color, white, o);
      assert color.Keys == objs.Keys && LiveClosed(objs, color, white);
      hide Reachable, Sweep, TwupsLive;
      forall o, v | o in s && o in objs && v in Succ(objs, o) ensures v in s {}
      assert roots <= s;
      ReachableClosed(objs, roots, s);
    }

    lemma KeptIntact(o0: Graph, c0: Colors, roots: set<Ref>)
      requires Kept(o0, c0, objs, color, white) && forall o :: Reachable(o0, roots, o) ==> o in o0 && Live(c0, white, o)
      ensures Intact(o0, roots)
    {
    }

    // The list of the sweep phase.
    function SweptList(): seq<Ref>
      reads `gcstate, `allgc, `finobj, `tobefnz
    {
      match gcstate
      case SwpAllGc => allgc
      case SwpFinObj => finobj
      case _ => tobefnz
    }

    predicate InSweep()
      reads `gcstate
    {
      gcstate.SwpAllGc? || gcstate.SwpFinObj? || gcstate.SwpToBeFnz?
    }

    /** `sweepstep`: up to 100 members of the list of the phase, or on to the next phase. Only objects without
        finalizers are freed, since those with finalizers are all live. */
    method SweepStep()
      requires Valid() && InSweep()
      modifies `objs, `color, `allgc, `gcstate, `sweepgc
      ensures Valid() && Intact(old(objs), old(Roots())) && objs.Keys <= old(objs).Keys
      ensures old(sweepgc).At? ==> SweepWork() < old(SweepWork())
      ensures gcstate == if old(sweepgc).At? then old(gcstate) else
        if old(gcstate).SwpAllGc? then SwpFinObj else if old(gcstate).SwpFinObj? then SwpToBeFnz else SwpEnd
    {
      hide *;
      if sweepgc.At? { SweepSome(); } else { NextSweep(); }
    }

    method SweepSome()
      requires Valid() && InSweep() && sweepgc.At?
      modifies `objs, `color, `allgc, `sweepgc
      ensures Valid() && Intact(old(objs), old(Roots())) && objs.Keys <= old(objs).Keys
      ensures SweepWork() < old(SweepWork())
    {
      hide *;
      NowReached();
      var l := SweptList();
      CursorNow();
      ghost var others, rest := BeginSweep();
      var l' := Advance(l, others, rest);
      SweptPhase(old(allgc), l, l', others, rest, old(objs), old(color));
      LessWork(l', old(allgc), others, rest, l);
    }

    // A part of the list of the phase is swept.
    method Advance(l: seq<Ref>, ghost others: multiset<Ref>, ghost rest: set<Ref>) returns (l': seq<Ref>)
      requires sweepgc.At? && Sweeping(l, sweepgc.i, others, rest) && sweepgc.i <= |l|
      requires !gcstate.SwpAllGc? ==> AllLive(l, color, white)
      modifies `objs, `color, `allgc, `sweepgc
      ensures Sweeping(l', if sweepgc.At? then sweepgc.i else |l'|, others, rest)
        && Kept(old(objs), old(color), objs, color, white)
      ensures sweepgc.At? ==> sweepgc.i < |l'| && |l'| - sweepgc.i < |l| - old(sweepgc).i
      ensures if gcstate.SwpAllGc? then allgc == l' else allgc == old(allgc) && l == l'
    {
      hide *;
      var at;
      l', at := SweepList(l, sweepgc.i, 100, others, rest);
      if gcstate.SwpAllGc? { allgc := l'; }
      sweepgc := at;
    }

    lemma CursorNow()
      requires Valid() && InSweep() && sweepgc.At?
      ensures sweepgc.i <= |SweptList()| && SweepWork() == |SweptList()| - sweepgc.i + 1
    {
    }

    lemma LessWork(l': seq<Ref>, a: seq<Ref>, others: multiset<Ref>, rest: set<Ref>, l: seq<Ref>)
      requires PhaseLists(gcstate, a, finobj, tobefnz, fixed, l, others, rest) && (sweepgc.At? ==> sweepgc.i < |l'|)
      requires if gcstate.SwpAllGc? then allgc == l' else allgc == a && l == l'
      ensures SweepWork() == if sweepgc.At? then |l'| - sweepgc.i + 1 else 0
    {
    }

    // How much of the list of the phase is left to sweep.
    function SweepWork(): nat
      reads `gcstate, `sweepgc, `allgc, `finobj, `tobefnz
    {
      if sweepgc.At? && sweepgc.i <= |SweptList()| then |SweptList()| - sweepgc.i + 1 else 0
    }

    lemma KeptKeys(o0: Graph, c0: Colors)
      requires Kept(o0, c0, objs, color, white)
      ensures objs.Keys <= o0.Keys
    {
    }

    lemma SweptPhase(a: seq<Ref>, l: seq<Ref>, l': seq<Ref>, others: multiset<Ref>, rest: set<Ref>, o0: Graph,
                     c0: Colors)
      requires PhaseLists(gcstate, a, finobj, tobefnz, fixed, l, others, rest) && FinOk(fin, finobj, tobefnz)
      requires if gcstate.SwpAllGc? then allgc == l' else allgc == a && l == l'
      requires Sweeping(l', if sweepgc.At? then sweepgc.i else |l'|, others, rest) && (sweepgc.At? ==> sweepgc.i < |l'|)
      requires Kept(o0, c0, objs, color, white) && TwupsLive(o0, c0, white, twups) && RootsIn(o0, c0)
      requires AllLive(finobj, c0, white) && Members(finobj) <= o0.Keys && Below(o0, next) && AllReached(o0, c0)
      ensures Valid() && Intact(o0, Roots()) && objs.Keys <= o0.Keys
    {
      hide *;
      KeptKeys(o0, c0);
      EndSweep(a, l, l', others, rest);
      SweptValid(o0, c0);
    }

    lemma SweptValid(o0: Graph, c0: Colors)
      requires ListsOk() && CursorOk() && Sweep(objs, color, white, fixed, alive, Pending())
        && Kept(o0, c0, objs, color, white)
      requires TwupsLive(o0, c0, white, twups) && RootsIn(o0, c0) && AllLive(finobj, c0, white)
        && Members(finobj) <= o0.Keys
      requires Below(o0, next) && !gcstate.Propagate? && !gcstate.EnterAtomic? && !gcstate.Atomic?
      requires AllReached(o0, c0)
      ensures Valid() && Intact(o0, Roots())
    {
      hide *;
      KeptInv(o0, c0, Pending());
      NowValid();
      ReachedIntact(o0, c0);
    }

    // What could be reached was live.
    ghost predicate AllReached(o0: Graph, c0: Colors)
      reads `white, `main, `running, `registry, `mt, `tobefnz
    {
      forall o :: Reachable(o0, Roots(), o) ==> o in o0 && Live(c0, white, o)
    }

    lemma NowReached()
      requires Valid()
      ensures AllReached(objs, color)
    {
      Accessible();
    }

    lemma ReachedIntact(o0: Graph, c0: Colors)
      requires AllReached(o0, c0) && Kept(o0, c0, objs, color, white)
      ensures Intact(o0, Roots())
    {
      KeptIntact(o0, c0, Roots());
    }

    method NextSweep()
      requires Valid() && InSweep() && sweepgc.NoCursor?
      modifies `gcstate, `sweepgc
      ensures Valid() && Intact(objs, old(Roots()))
      ensures gcstate == if old(gcstate).SwpAllGc? then SwpFinObj else if old(gcstate).SwpFinObj? then SwpToBeFnz
        else SwpEnd
    {
      hide *;
      Accessible();
      NextPhase();
      gcstate, sweepgc :=
        if gcstate.SwpAllGc? then SwpFinObj else if gcstate.SwpFinObj? then SwpToBeFnz else SwpEnd,
        if gcstate.SwpToBeFnz? then NoCursor else At(0);
      Advanced();
      NowValid();
      Same();
    }

    lemma BeginSweep() returns (others: multiset<Ref>, rest: set<Ref>)
      requires Valid() && InSweep() && sweepgc.At?
      ensures PhaseLists(gcstate, allgc, finobj, tobefnz, fixed, SweptList(), others, rest)
      ensures Sweeping(SweptList(), sweepgc.i, others, rest) && FinOk(fin, finobj, tobefnz) && Below(objs, next)
      ensures TwupsLive(objs, color, white, twups) && RootsIn(objs, color) && AllLive(finobj, color, white)
        && Members(finobj) <= objs.Keys
      ensures !gcstate.SwpAllGc? ==> AllLive(SweptList(), color, white)
    {
      if gcstate.SwpAllGc? {
        others, rest := multiset(finobj) + multiset(tobefnz) + multiset(fixed), Members(finobj) + Members(tobefnz);
      } else if gcstate.SwpFinObj? {
        others, rest := multiset(allgc) + multiset(tobefnz) + multiset(fixed), Members(tobefnz);
      } else {
        others, rest := multiset(allgc) + multiset(finobj) + multiset(fixed), {};
      }
      forall o | o in finobj ensures o in objs { InOneList(objs.Keys, fixed, allgc, finobj, tobefnz, o); }
      assert Members(SweptList()[sweepgc.i..]) == From(SweptList(), sweepgc);
    }

    lemma EndSweep(a: seq<Ref>, l: seq<Ref>, l': seq<Ref>, others: multiset<Ref>, rest: set<Ref>)
      requires PhaseLists(gcstate, a, finobj, tobefnz, fixed, l, others, rest) && FinOk(fin, finobj, tobefnz)
      requires if gcstate.SwpAllGc? then allgc == l' else allgc == a && l == l'
      requires Sweeping(l', if sweepgc.At? then sweepgc.i else |l'|, others, rest) && (sweepgc.At? ==> sweepgc.i < |l'|)
      ensures ListsOk() && CursorOk() && Sweep(objs, color, white, fixed, alive, Pending())
      ensures !gcstate.Propagate? && !gcstate.EnterAtomic? && !gcstate.Atomic?
    {
      assert Partition(objs.Keys, fixed, allgc, finobj, tobefnz);
      var i := if sweepgc.At? then sweepgc.i else |l'|;
      assert Members(l'[i..]) == From(l', sweepgc);
    }

    lemma NextPhase()
      requires Valid() && InSweep() && sweepgc.NoCursor?
      ensures ListsOk() && Below(objs, next)
      ensures gcstate.SwpAllGc? ==> SweepInv(Members(finobj) + Members(tobefnz))
      ensures gcstate.SwpFinObj? ==> SweepInv(Members(tobefnz))
      ensures gcstate.SwpToBeFnz? ==> SweepInv({})
      ensures gcstate.SwpAllGc? || gcstate.SwpFinObj? || gcstate.SwpToBeFnz?
    {
      if gcstate.SwpAllGc? {
        assert Pending() == Members(finobj) + Members(tobefnz);
      } else if gcstate.SwpFinObj? {
        assert Pending() == Members(tobefnz);
      } else {
        assert Pending() == {};
      }
    }

    lemma Advanced()
      requires (gcstate.SwpFinObj? || gcstate.SwpToBeFnz? || gcstate.SwpEnd?)
        && sweepgc == if gcstate.SwpEnd? then NoCursor else At(0)
      requires gcstate.SwpFinObj? ==> SweepInv(Members(finobj) + Members(tobefnz))
      requires gcstate.SwpToBeFnz? ==> SweepInv(Members(tobefnz))
      requires gcstate.SwpEnd? ==> SweepInv({})
      ensures SweepInv(Pending()) && CursorOk()
    {
      assert finobj[0..] == finobj && tobefnz[0..] == tobefnz;
      if gcstate.SwpFinObj? {
        assert Pending() == Members(finobj) + Members(tobefnz);
      } else if gcstate.SwpToBeFnz? {
        assert Pending() == Members(tobefnz);
      }
    }

    lemma Same()
      requires forall o :: Reachable(objs, Roots(), o) ==> o in objs
      ensures Intact(objs, Roots())
    {
    }

    // `entersweep` from `luaC_fullgc`: a marking is given up, and everything is swept back to white.
    method GiveUpMarking()
      requires Valid() && KeepInvariant()
      modifies `objs, `color, `allgc, `gcstate, `sweepgc, `alive
      ensures Valid() && gcstate.SwpAllGc? && Intact(old(objs), old(Roots()))
      ensures objs.Keys <= old(objs).Keys
    {
      hide *;
      Accessible();
      MarkParts();
      GiveUpNow();
      alive := objs.Keys;
      GaveUp();
      EnterSweep();
      KeptIntact(old(objs), old(color), Roots());
      KeptKeys(old(objs), old(color));
    }

    // The rest of the marking is left to the atomic step.
    method SkipPropagation()
      requires Valid() && gcstate.Propagate?
      modifies `gcstate
      ensures Valid() && gcstate.EnterAtomic?
    {
      hide ListsOk, Below, MarkInvHot;
      gcstate := EnterAtomic;
    }

    lemma GiveUpNow()
      requires Valid() && KeepInvariant()
      ensures Sweep(objs, color, white, fixed, objs.Keys, objs.Keys - fixed) && TwupsLive(objs, color, white, twups)
      ensures AllLive(finobj, color, white) && (forall r :: r in Roots() ==> Live(color, white, r))
    {
      MarkParts();
      GiveUp(objs, color, white, fixed, alive, twups);
      forall o | o in finobj ensures o in objs { InOneList(objs.Keys, fixed, allgc, finobj, tobefnz, o); }
    }

    lemma GaveUp()
      requires Sweep(objs, color, white, fixed, objs.Keys, objs.Keys - fixed) && TwupsLive(objs, color, white, twups)
      requires AllLive(finobj, color, white) && (forall r :: r in Roots() ==> Live(color, white, r))
      requires Roots() <= objs.Keys && alive == objs.Keys && Kinds(objs)
      ensures SweepInv(objs.Keys - fixed)
    {
    }
  }
}
