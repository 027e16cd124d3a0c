// The colour invariant of a marking collector.

module Marking {
  import opened Heap
  import opened Sequences

  datatype Color = White(w: bool) | Gray | Black

  type Colors = map<Ref, Color>

  predicate Marked(color: Colors, o: Ref) {
    o in color && !color[o].White?
  }

  predicate Dead(color: Colors, white: bool, o: Ref) {
    o in color && color[o] == White(!white)
  }

  ghost predicate NoDead(color: Colors, white: bool) {
    forall o :: o in color ==> color[o] != White(!white)
  }

  // A black object refers to no white one, unless it is being traversed right now.
  ghost predicate BlackOk(objs: Graph, color: Colors, hot: set<Ref>) {
    forall o, v :: o in objs && o in color && color[o].Black? && o !in hot && v in Succ(objs, o) ==> Marked(color, v)
  }

  // A gray object waits in a list; open upvalues and fixed objects are gray without waiting.
  ghost predicate GrayOk(objs: Graph, color: Colors, gray: seq<Ref>, extra: set<Ref>, fixed: set<Ref>) {
    forall o :: o in objs && o in color && color[o].Gray? ==>
      o in gray || o in extra || o in fixed || objs[o].kind.Open?
  }

  // What waits is gray, of a kind that can wait, and waits once.
  ghost predicate WaitOk(objs: Graph, color: Colors, gray: seq<Ref>, extra: set<Ref>) {
    && NoDup(gray)
    && (forall o :: o in gray || o in extra ==> o in objs && o in color && color[o].Gray? && Listable(objs[o].kind))
    && (forall o :: o in gray ==> o !in extra)
  }

  ghost predicate OpenNotBlack(objs: Graph, color: Colors) {
    forall o :: o in objs && o in color && objs[o].kind.Open? ==> !color[o].Black?
  }

  ghost predicate NoDangling(objs: Graph) {
    forall o, v :: o in objs && v in Succ(objs, o) ==> v in objs
  }

  // `alive` bounds what this cycle may keep: it is closed, and everything marked is in it.
  ghost predicate AliveClosed(objs: Graph, alive: set<Ref>) {
    forall o, v :: o in alive && o in objs && v in Succ(objs, o) ==> v in alive
  }

  ghost predicate MarkedAlive(color: Colors, fixed: set<Ref>, alive: set<Ref>) {
    forall o :: Marked(color, o) && o !in fixed ==> o in alive
  }

  ghost predicate FixedOk(objs: Graph, color: Colors, fixed: set<Ref>) {
    forall o :: o in fixed ==> o in objs && objs[o].kind.Leaf? && o in color && color[o].Gray?
  }

  // The graph while marking.
  ghost predicate GraphOk(objs: Graph, color: Colors, white: bool, fixed: set<Ref>, alive: set<Ref>) {
    && Typed(objs) && color.Keys == objs.Keys
    && NoDead(color, white) && NoDangling(objs)
    && AliveClosed(objs, alive) && MarkedAlive(color, fixed, alive) && FixedOk(objs, color, fixed)
    && OpenNotBlack(objs, color)
  }

  // The tri-colour invariant: `extra` waits in another list, `hot` is being traversed.
  ghost predicate Tri(objs: Graph, color: Colors, white: bool, fixed: set<Ref>, alive: set<Ref>,
                      gray: seq<Ref>, extra: set<Ref>, hot: set<Ref>)
  {
    && GraphOk(objs, color, white, fixed, alive)
    && BlackOk(objs, color, hot)
    && GrayOk(objs, color, gray, extra, fixed)
    && WaitOk(objs, color, gray, extra)
  }

  // Marking only turns current whites gray or black, and what can wait only gray.
  predicate MarkStep(objs: Graph, o: Ref, c: Color, c': Color) {
    c' == c || (c.White? && (c'.Gray? || (c'.Black? && !(o in objs && Listable(objs[o].kind)))))
  }

  ghost predicate Marks(objs: Graph, color: Colors, color': Colors) {
    && color'.Keys == color.Keys
    && forall o :: o in color ==> MarkStep(objs, o, color[o], color'[o])
  }

  lemma MarksTrans(objs: Graph, c0: Colors, c1: Colors, c2: Colors)
    requires Marks(objs, c0, c1) && Marks(objs, c1, c2)
    ensures Marks(objs, c0, c2)
  {
    forall o | o in c0 ensures MarkStep(objs, o, c0[o], c2[o]) {
      assert MarkStep(objs, o, c0[o], c1[o]);
      assert MarkStep(objs, o, c1[o], c2[o]);
    }
  }

  // A white object turned black, its references still to be marked.
  lemma Blacken(objs: Graph, color: Colors, white: bool, fixed: set<Ref>, alive: set<Ref>, gray: seq<Ref>,
                extra: set<Ref>, hot: set<Ref>, o: Ref)
    requires Tri(objs, color, white, fixed, alive, gray, extra, hot) && o in alive
    requires o in objs && color[o].White? && !objs[o].kind.Open? && !Listable(objs[o].kind)
    ensures Tri(objs, color[o := Black], white, fixed, alive, gray, extra, hot + {o})
      && Marks(objs, color, color[o := Black])
  {
    hide Typed, NoDangling, AliveClosed, Succ;
    var color' := color[o := Black];
    assert forall v :: Marked(color, v) ==> Marked(color', v);
  }

  // An object that waits to be traversed.
  lemma Enlist(objs: Graph, color: Colors, white: bool, fixed: set<Ref>, alive: set<Ref>, gray: seq<Ref>,
               extra: set<Ref>, hot: set<Ref>, o: Ref)
    requires Tri(objs, color, white, fixed, alive, gray, extra, hot) && o in alive
    requires o in objs && color[o].White? && Listable(objs[o].kind)
    ensures Tri(objs, color[o := Gray], white, fixed, alive, [o] + gray, extra, hot)
      && Marks(objs, color, color[o := Gray])
  {
    hide Typed, NoDangling, AliveClosed, Succ;
    var color' := color[o := Gray];
    assert forall v :: Marked(color, v) ==> Marked(color', v);
  }

  // An open upvalue turns gray and waits nowhere.
  lemma GrayOpen(objs: Graph, color: Colors, white: bool, fixed: set<Ref>, alive: set<Ref>, gray: seq<Ref>,
                 extra: set<Ref>, hot: set<Ref>, o: Ref)
    requires Tri(objs, color, white, fixed, alive, gray, extra, hot) && o in alive
    requires o in objs && color[o].White? && objs[o].kind.Open?
    ensures Tri(objs, color[o := Gray], white, fixed, alive, gray, extra, hot) && Marks(objs, color, color[o := Gray])
  {
    hide Typed, NoDangling, AliveClosed, Succ;
    var color' := color[o := Gray];
    assert forall v :: Marked(color, v) ==> Marked(color', v);
  }

  // The traversal of `o` is over.
  lemma Cool(objs: Graph, color: Colors, white: bool, fixed: set<Ref>, alive: set<Ref>, gray: seq<Ref>,
             extra: set<Ref>, hot: set<Ref>, o: Ref)
    requires Tri(objs, color, white, fixed, alive, gray, extra, hot + {o})
    requires o in objs && forall v :: v in Succ(objs, o) ==> Marked(color, v)
    ensures Tri(objs, color, white, fixed, alive, gray, extra, hot)
  {
    hide Typed, NoDangling, AliveClosed, Succ;
  }

  // The first object of the gray list is taken out, black, to be traversed.
  lemma TakeGray(objs: Graph, color: Colors, white: bool, fixed: set<Ref>, alive: set<Ref>, gray: seq<Ref>,
                 extra: set<Ref>)
    requires Tri(objs, color, white, fixed, alive, gray, extra, {}) && gray != []
    ensures Tri(objs, color[gray[0] := Black], white, fixed, alive, gray[1..], extra, {gray[0]})
  {
    hide Typed, NoDangling, AliveClosed, Succ;
    var o := gray[0];
    var color' := color[o := Black];
    assert o in gray;
    assert forall v :: Marked(color, v) <==> Marked(color', v);
    assert forall p :: p in gray <==> p == o || p in gray[1..];
    assert o !in gray[1..];
    assert forall p :: p in gray[1..] ==> p in gray;
  }

  // ----- open upvalues -----

  /** The value of a marked open upvalue is marked, unless its thread is still to be traversed. It is what the
      atomic step establishes for threads that are not marked, and keeps from then on. */
  ghost predicate OpenOk(objs: Graph, color: Colors, hot: set<Ref>) {
    forall o, v :: o in objs && objs[o].kind.Open? && Marked(color, o) && o !in hot && v in Succ(objs, o) ==>
      Marked(color, v) || objs[o].kind.th in hot || (objs[o].kind.th in color && color[objs[o].kind.th].Gray?)
  }

  // Marking an object that is no open upvalue.
  lemma OpenKept(objs: Graph, color: Colors, color': Colors, hot: set<Ref>, hot': set<Ref>)
    requires OpenOk(objs, color, hot) && Marks(objs, color, color') && hot <= hot'
    requires forall o :: o in objs && objs[o].kind.Open? && Marked(color', o) ==> Marked(color, o) || o in hot'
    ensures OpenOk(objs, color', hot')
  {
    hide Succ;
    assert forall v :: Marked(color, v) ==> Marked(color', v);
  }

  // The traversal of a thread or upvalue is over.
  lemma OpenCool(objs: Graph, color: Colors, hot: set<Ref>, o: Ref)
    requires OpenOk(objs, color, hot + {o}) && Typed(objs) && o in objs
    requires forall v :: v in Succ(objs, o) ==> Marked(color, v)
    ensures OpenOk(objs, color, hot)
  {
    forall u, v | u in objs && objs[u].kind.Open? && Marked(color, u) && u !in hot && v in Succ(objs, u)
      ensures Marked(color, v) || objs[u].kind.th in hot || (objs[u].kind.th in color && color[objs[u].kind.th].Gray?)
    {
      assert TypedObj(objs, u);
      if objs[u].kind.th == o { assert v in Succ(objs, o); }
    }
  }

  // ----- steps of reallymarkobject -----

  // No open upvalue gets marked.
  ghost predicate OpensSame(objs: Graph, color: Colors, color': Colors) {
    forall u :: u in objs && objs[u].kind.Open? && Marked(color', u) ==> Marked(color, u)
  }

  // The colour of an object that is not an open upvalue changes.
  lemma MarkedOther(objs: Graph, color: Colors, color': Colors, hot: set<Ref>, o: Ref)
    requires o in color && color[o].White? && (color' == color[o := Black] || color' == color[o := Gray])
    requires o in objs && !objs[o].kind.Open? && (color'[o].Black? ==> !Listable(objs[o].kind))
    ensures OpenOk(objs, color, hot) ==> OpenOk(objs, color', hot)
    ensures OpensSame(objs, color, color')
  {
    if OpenOk(objs, color, hot) {
      assert Marks(objs, color, color');
      OpenKept(objs, color, color', hot, hot);
    }
  }

  // The colour of an upvalue changes while its value is still to be marked.
  lemma MarkedHot(objs: Graph, color: Colors, color': Colors, hot: set<Ref>, o: Ref)
    requires o in color && color[o].White? && (color' == color[o := Black] || color' == color[o := Gray])
    requires o in objs && !Listable(objs[o].kind)
    ensures OpenOk(objs, color, hot) ==> OpenOk(objs, color', hot + {o})
  {
    if OpenOk(objs, color, hot) {
      assert Marks(objs, color, color');
      OpenKept(objs, color, color', hot, hot + {o});
    }
  }

  lemma LeafCool(objs: Graph, color: Colors, white: bool, fixed: set<Ref>, alive: set<Ref>, gray: seq<Ref>,
                 extra: set<Ref>, hot: set<Ref>, o: Ref)
    requires Tri(objs, color, white, fixed, alive, gray, extra, hot + {o}) && o in objs && objs[o].kind.Leaf?
    ensures Tri(objs, color, white, fixed, alive, gray, extra, hot)
  {
    assert TypedObj(objs, o);
    assert Succ(objs, o) == {};
    Cool(objs, color, white, fixed, alive, gray, extra, hot, o);
  }

  lemma TriHot(objs: Graph, color: Colors, white: bool, fixed: set<Ref>, alive: set<Ref>, gray: seq<Ref>,
               extra: set<Ref>, hot: set<Ref>, o: Ref)
    requires Tri(objs, color, white, fixed, alive, gray, extra, hot)
    ensures Tri(objs, color, white, fixed, alive, gray, extra, hot + {o})
  {
    hide GraphOk, GrayOk, WaitOk, Succ;
  }

  // Userdata without values never waits: it is white or black.
  lemma UdataColor(objs: Graph, color: Colors, white: bool, fixed: set<Ref>, alive: set<Ref>, gray: seq<Ref>,
                   extra: set<Ref>, hot: set<Ref>, o: Ref)
    requires Tri(objs, color, white, fixed, alive, gray, extra, hot) && o in objs && objs[o].kind.Udata?
    ensures o in color && !color[o].Gray?
  {
    hide Typed, NoDangling, AliveClosed, Succ;
  }

  lemma UdataDone(objs: Graph, c0: Colors, c1: Colors, white: bool, fixed: set<Ref>, alive: set<Ref>, gray: seq<Ref>,
                  extra: set<Ref>, hot: set<Ref>, wide: set<Ref>, o: Ref)
    requires Tri(objs, c1, white, fixed, alive, gray, extra, hot) && o in objs && objs[o].kind.Udata? && o in alive
    requires o in c1 && !c1[o].Gray? && Marks(objs, c0, c1) && o in c0 && c0[o].White?
    requires forall v :: v in Succ(objs, o) ==> Marked(c1, v)
    ensures Tri(objs, c1[o := Black], white, fixed, alive, gray, extra, hot) && Marks(objs, c0, c1[o := Black])
    ensures OpenOk(objs, c1, wide) ==> OpenOk(objs, c1[o := Black], wide)
    ensures OpensSame(objs, c0, c1) ==> OpensSame(objs, c0, c1[o := Black])
  {
    hide Tri, OpenOk;
    if c1[o].White? {
      Blacken(objs, c1, white, fixed, alive, gray, extra, hot, o);
      Cool(objs, c1[o := Black], white, fixed, alive, gray, extra, hot, o);
      MarkedOther(objs, c1, c1[o := Black], wide, o);
    } else {
      assert c1[o := Black] == c1;
    }
  }

  // ----- propagation -----

  // What is still to be turned black.
  function NonBlack(objs: Graph, color: Colors): set<Ref> {
    set o | o in objs && o in color && !color[o].Black?
  }

  lemma MarksNonBlack(objs: Graph, color: Colors, color': Colors)
    requires Marks(objs, color, color')
    ensures NonBlack(objs, color') <= NonBlack(objs, color)
  {
    forall o | o in NonBlack(objs, color') ensures o in NonBlack(objs, color) {
      assert MarkStep(objs, o, color[o], color'[o]);
    }
  }

  // A thread met while the program still runs goes from one list to the other.
  lemma MoveGray(objs: Graph, color: Colors, white: bool, fixed: set<Ref>, alive: set<Ref>, gray: seq<Ref>,
                 extra: set<Ref>)
    requires Tri(objs, color, white, fixed, alive, gray, extra, {}) && gray != []
    ensures Tri(objs, color[gray[0] := Gray], white, fixed, alive, gray[1..], extra + {gray[0]}, {})
    ensures color[gray[0] := Gray] == color
  {
    hide Typed, NoDangling, AliveClosed, Succ;
    var o := gray[0];
    assert o in gray;
    assert color[o := Gray] == color;
    assert forall p :: p in gray <==> p == o || p in gray[1..];
    assert forall p :: p in gray[1..] ==> p in gray;
  }

  // The other list becomes the list to traverse.
  lemma SwapGray(objs: Graph, color: Colors, white: bool, fixed: set<Ref>, alive: set<Ref>, gray: seq<Ref>)
    requires Tri(objs, color, white, fixed, alive, [], Members(gray), {}) && NoDup(gray)
    ensures Tri(objs, color, white, fixed, alive, gray, {}, {})
  {
    hide Typed, NoDangling, AliveClosed, Succ;
  }

  lemma ListedAlive(objs: Graph, color: Colors, white: bool, fixed: set<Ref>, alive: set<Ref>, gray: seq<Ref>,
                    extra: set<Ref>,
                    hot: set<Ref>)
    requires Tri(objs, color, white, fixed, alive, gray, extra, hot) && gray != []
    ensures gray[0] in objs && gray[0] in alive && gray[0] in color && color[gray[0]].Gray?
      && Listable(objs[gray[0]].kind)
  {
    hide Typed, NoDangling, AliveClosed, Succ;
    assert gray[0] in gray;
  }

  // Taking out a gray object to be traversed.
  lemma OpenTake(objs: Graph, color: Colors, hot: set<Ref>, o: Ref)
    requires OpenOk(objs, color, hot) && o in color && color[o].Gray?
    ensures OpenOk(objs, color[o := Black], hot + {o})
  {
    hide Succ;
    var color' := color[o := Black];
    forall u, v | u in objs && objs[u].kind.Open? && Marked(color', u) && u !in hot + {o} && v in Succ(objs, u)
      ensures Marked(color', v) || objs[u].kind.th in hot + {o}
        || (objs[u].kind.th in color' && color'[objs[u].kind.th].Gray?)
    {
      assert Marked(color, u);
      assert Marked(color, v) ==> Marked(color', v);
    }
  }

  // ----- the list of threads with open upvalues -----

  // Traversed threads with open upvalues are in the list.
  ghost predicate TwupsBlack(objs: Graph, color: Colors, twups: seq<Ref>) {
    && NoDup(twups)
    && (forall th :: th in twups ==> th in objs && objs[th].kind.Thread?)
    && (forall th :: th in objs && objs[th].kind.Thread? && th in color && color[th].Black? && objs[th].uvs != {} ==>
          th in twups)
  }

  ghost predicate TwupsMarked(color: Colors, twups: seq<Ref>) {
    forall th :: th in twups ==> Marked(color, th)
  }

  lemma TwupsKept(objs: Graph, color: Colors, color': Colors, twups: seq<Ref>)
    requires Marks(objs, color, color')
    ensures TwupsBlack(objs, color, twups) ==> TwupsBlack(objs, color', twups)
    ensures TwupsMarked(color, twups) ==> TwupsMarked(color', twups)
  {
    forall th | th in color ensures Marked(color, th) ==> Marked(color', th) {
      assert MarkStep(objs, th, color[th], color'[th]);
    }
    forall th | th in objs && objs[th].kind.Thread? && th in color && color'[th].Black? ensures color[th].Black? {
      assert MarkStep(objs, th, color[th], color'[th]);
    }
  }

  lemma TwupsTraversed(objs: Graph, color: Colors, color': Colors, twups: seq<Ref>, o: Ref)
    requires TwupsBlack(objs, color, twups) && o in objs && o in color && color[o].Gray?
      && Marks(objs, color[o := Black], color')
    ensures objs[o].kind.Thread? && objs[o].uvs != {} && o !in twups ==> TwupsBlack(objs, color', [o] + twups)
    ensures !objs[o].kind.Thread? || objs[o].uvs == {} || o in twups ==> TwupsBlack(objs, color', twups)
    ensures TwupsMarked(color, twups) ==> TwupsMarked(color', [o] + twups) && TwupsMarked(color', twups)
    ensures Grows(color, color') && NonBlack(objs, color') < NonBlack(objs, color)
    ensures TwupsAll(objs, twups) && objs[o].kind.Thread? && objs[o].uvs != {} ==> o in twups
  {
    var c := color[o := Black];
    forall p | p in c ensures MarkStep(objs, p, c[p], color'[p]) {}
    MarksNonBlack(objs, c, color');
    assert NonBlack(objs, c) < NonBlack(objs, color) by {
      assert o in NonBlack(objs, color) && o !in NonBlack(objs, c);
    }
    hide NonBlack;
    assert forall p :: Marked(color, p) ==> Marked(c, p);
    TwupsKept(objs, c, color', twups);
  }

  // What is marked stays marked.
  ghost predicate Grows(color: Colors, color': Colors) {
    color'.Keys == color.Keys && forall p :: Marked(color, p) ==> Marked(color', p)
  }

  lemma GrowsTrans(c0: Colors, c1: Colors, c2: Colors)
    requires Grows(c0, c1) && Grows(c1, c2)
    ensures Grows(c0, c2)
  {
  }

  lemma StillMarked(objs: Graph, color: Colors, color': Colors)
    requires Marks(objs, color, color')
    ensures color'.Keys == color.Keys && (forall v :: Marked(color, v) ==> Marked(color', v)) && Grows(color, color')
  {
    forall v | Marked(color, v) ensures Marked(color', v) {
      assert MarkStep(objs, v, color[v], color'[v]);
    }
  }

  lemma MarksRefl(objs: Graph, color: Colors)
    ensures Marks(objs, color, color) && OpensSame(objs, color, color)
  {
  }

  // While the program runs no thread is black: stacks are written without barriers.
  ghost predicate ThreadsGray(objs: Graph, color: Colors) {
    forall th :: th in objs && objs[th].kind.Thread? && th in color ==> !color[th].Black?
  }

  lemma ThreadsKept(objs: Graph, color: Colors, color': Colors)
    requires Marks(objs, color, color')
    ensures ThreadsGray(objs, color) ==> ThreadsGray(objs, color')
  {
    forall th | th in color && th in objs && objs[th].kind.Thread? ensures color'[th].Black? ==> color[th].Black? {
      assert MarkStep(objs, th, color[th], color'[th]);
    }
  }

  lemma ThreadsTraversed(objs: Graph, color: Colors, color': Colors, o: Ref)
    requires o in objs && !objs[o].kind.Thread? && o in color && Marks(objs, color[o := Black], color')
    ensures ThreadsGray(objs, color) ==> ThreadsGray(objs, color')
  {
    ThreadsKept(objs, color[o := Black], color');
  }

  // The values of the marked upvalues in `us` are marked.
  ghost predicate UvsDone(objs: Graph, color: Colors, us: set<Ref>) {
    forall u, v :: u in us && u in objs && Marked(color, u) && v in Succ(objs, u) ==> Marked(color, v)
  }

  lemma UvsNone(objs: Graph, color: Colors)
    ensures UvsDone(objs, color, {})
  {
  }

  lemma UvsFewer(objs: Graph, color: Colors, us: set<Ref>, us': set<Ref>)
    requires UvsDone(objs, color, us) && us' <= us
    ensures UvsDone(objs, color, us')
  {
  }

  lemma UvsMore(objs: Graph, color: Colors, color': Colors, us: set<Ref>, u: Ref)
    requires UvsDone(objs, color, us) && Marks(objs, color, color') && OpensSame(objs, color, color')
    requires forall p :: p in us + {u} && p in objs ==> objs[p].kind.Open?
    requires u in objs && Marked(color, u) ==> forall v :: v in Succ(objs, u) ==> Marked(color', v)
    ensures UvsDone(objs, color', us + {u})
  {
    hide Succ;
    StillMarked(objs, color, color');
  }

  // Every thread with open upvalues is in the list: what holds until the atomic step.
  ghost predicate TwupsAll(objs: Graph, twups: seq<Ref>) {
    && NoDup(twups)
    && (forall th :: th in twups ==> th in objs && objs[th].kind.Thread?)
    && (forall th :: th in objs && objs[th].kind.Thread? && objs[th].uvs != {} ==> th in twups)
  }

  lemma OpenWaiting(objs: Graph, color: Colors, twups: seq<Ref>)
    requires Typed(objs) && TwupsAll(objs, twups)
    ensures OpenOk(objs, color, Members(twups))
  {
    hide Succ;
    forall o | o in objs && objs[o].kind.Open? ensures objs[o].kind.th in Members(twups) {
      assert TypedObj(objs, o);
      assert o in objs[objs[o].kind.th].uvs;
    }
  }

  // A thread leaves the list of those whose upvalues are still to be looked at.
  lemma OpenRetire(objs: Graph, color: Colors, wide: set<Ref>, wide': set<Ref>, th: Ref)
    requires OpenOk(objs, color, wide) && Typed(objs) && wide <= wide' + {th} && th in objs && objs[th].kind.Thread?
    requires (th in color && color[th].Gray?) || UvsDone(objs, color, objs[th].uvs)
    requires forall o :: o in wide ==> o in objs && objs[o].kind.Thread?
    ensures OpenOk(objs, color, wide')
  {
    hide Succ;
    forall o, v | o in objs && objs[o].kind.Open? && Marked(color, o) && o !in wide' && v in Succ(objs, o)
      ensures Marked(color, v) || objs[o].kind.th in wide' || (objs[o].kind.th in color && color[objs[o].kind.th].Gray?)
    {
      assert TypedObj(objs, o);
      assert o in objs[objs[o].kind.th].uvs;
    }
  }

  // The upvalues of a traversed thread have marked values.
  lemma BlackThread(objs: Graph, color: Colors, th: Ref)
    requires BlackOk(objs, color, {}) && Typed(objs) && th in objs && objs[th].kind.Thread? && th in color
      && color[th].Black?
    ensures UvsDone(objs, color, objs[th].uvs)
  {
    assert TypedObj(objs, th);
    forall u, v | u in objs[th].uvs && u in objs && v in Succ(objs, u) ensures Marked(color, v) {
      assert TypedObj(objs, u);
      assert v in Succ(objs, th);
    }
  }

  // ----- the end of the atomic step -----

  // What the sweep finds when the whites are exchanged.
  ghost predicate AllMarked(objs: Graph, color: Colors, fixed: set<Ref>) {
    forall th :: th in objs && objs[th].kind.Thread? && th in color ==> !color[th].Gray?
  }

  lemma NoGrayThread(objs: Graph, color: Colors, white: bool, fixed: set<Ref>, alive: set<Ref>)
    requires Tri(objs, color, white, fixed, alive, [], {}, {})
    ensures AllMarked(objs, color, fixed)
  {
    hide Typed, NoDangling, AliveClosed, Succ;
  }

  // With nothing waiting, what is marked refers only to what is marked.
  lemma MarkedClosed(objs: Graph, color: Colors, white: bool, fixed: set<Ref>, alive: set<Ref>, o: Ref, v: Ref)
    requires Tri(objs, color, white, fixed, alive, [], {}, {}) && OpenOk(objs, color, {})
    requires o in objs && Marked(color, o) && v in Succ(objs, o)
    ensures v in objs && Marked(color, v)
  {
    assert TypedObj(objs, o);
    if color[o].Gray? && objs[o].kind.Open? {
      var th := objs[o].kind.th;
      NoGrayThread(objs, color, white, fixed, alive);
      assert TypedObj(objs, th);
    }
  }

  // ----- separating objects with finalizers -----

  predicate IsWhite(color: Colors, o: Ref) {
    o in color && color[o].White?
  }

  // The white ones in their order.
  function Whites(l: seq<Ref>, color: Colors): seq<Ref> {
    if l == [] then [] else
      Whites(l[..|l| - 1], color) + if IsWhite(color, l[|l| - 1]) then [l[|l| - 1]] else []
  }

  function Others(l: seq<Ref>, color: Colors): seq<Ref> {
    if l == [] then [] else
      Others(l[..|l| - 1], color) + if IsWhite(color, l[|l| - 1]) then [] else [l[|l| - 1]]
  }

  lemma WhitesOthers(l: seq<Ref>, color: Colors)
    ensures multiset(Whites(l, color)) + multiset(Others(l, color)) == multiset(l)
    ensures forall o :: o in Whites(l, color) <==> o in l && IsWhite(color, o)
    ensures forall o :: o in Others(l, color) <==> o in l && !IsWhite(color, o)
  {
    hide *;
    WhitesCounted(l, color);
    WhitesMembers(l, color);
  }

  lemma {:induction false} WhitesCounted(l: seq<Ref>, color: Colors)
    ensures multiset(Whites(l, color)) + multiset(Others(l, color)) == multiset(l)
  {
    if l != [] {
      WhitesCounted(l[..|l| - 1], color);
      assert l == l[..|l| - 1] + [l[|l| - 1]];
    }
  }

  lemma {:induction false} WhitesMembers(l: seq<Ref>, color: Colors)
    ensures forall o :: o in Whites(l, color) <==> o in l && IsWhite(color, o)
    ensures forall o :: o in Others(l, color) <==> o in l && !IsWhite(color, o)
  {
    hide IsWhite;
    if l != [] {
      var s, x := l[..|l| - 1], l[|l| - 1];
      WhitesMembers(s, color);
      assert l == s + [x];
      assert forall o :: o in l <==> o in s || o == x;
    }
  }

  lemma SplitNext(l: seq<Ref>, k: nat, color: Colors)
    requires k < |l|
    ensures Whites(l[..k + 1], color) == Whites(l[..k], color) + if IsWhite(color, l[k]) then [l[k]] else []
    ensures Others(l[..k + 1], color) == Others(l[..k], color) + if IsWhite(color, l[k]) then [] else [l[k]]
  {
    assert l[..k + 1][..k] == l[..k];
  }

  // More may be kept: what can be reached from some objects.
  lemma GrowAlive(objs: Graph, color: Colors, white: bool, fixed: set<Ref>, alive: set<Ref>, gray: seq<Ref>,
                  extra: set<Ref>,
                  from: set<Ref>)
    requires Tri(objs, color, white, fixed, alive, gray, extra, {}) && from <= objs.Keys
    ensures Tri(objs, color, white, fixed, alive + ReachSet(objs, from), gray, extra, {})
      && from <= ReachSet(objs, from)
  {
    var s := ReachSet(objs, from);
    forall o, v | o in s && v in Succ(objs, o) ensures v in s { SuccReachable(objs, from, o, v); }
    forall r | r in from ensures r in s { RootReachable(objs, from, r); }
    hide Succ, Typed, Reachable, ReachSet;
  }

  // What nothing marked leads to cannot be reached from marked roots.
  lemma UnmarkedUnreachable(objs: Graph, color: Colors, white: bool, fixed: set<Ref>, alive: set<Ref>, roots: set<Ref>)
    requires Tri(objs, color, white, fixed, alive, [], {}, {}) && OpenOk(objs, color, {})
    requires forall r :: r in roots ==> Marked(color, r)
    ensures forall o :: Reachable(objs, roots, o) ==> Marked(color, o)
  {
    var s := set o | o in color && Marked(color, o);
    forall o, v | o in s && o in objs && v in Succ(objs, o) ensures v in s {
      MarkedClosed(objs, color, white, fixed, alive, o, v);
    }
    hide Tri, OpenOk, Reachable, Succ;
    ReachableClosed(objs, roots, s);
  }

  // A black object that was written goes back to wait.
  lemma ReturnGray(objs: Graph, color: Colors, white: bool, fixed: set<Ref>, alive: set<Ref>, gray: seq<Ref>,
                   extra: set<Ref>, o: Ref)
    requires Tri(objs, color, white, fixed, alive, gray, extra, {o}) && o in objs && Listable(objs[o].kind)
      && o in color && color[o].Black?
    ensures Tri(objs, color[o := Gray], white, fixed, alive, gray, extra + {o}, {}) && Grows(color, color[o := Gray])
      && o !in extra
  {
    hide BlackOk, GrayOk, WaitOk, GraphOk, Grows, Succ;
    ReturnGraph(objs, color, white, fixed, alive, o);
    ReturnBlack(objs, color, color[o := Gray], o);
    ReturnLists(objs, color, gray, extra, fixed, o);
  }

  lemma ReturnGraph(objs: Graph, color: Colors, white: bool, fixed: set<Ref>, alive: set<Ref>, o: Ref)
    requires GraphOk(objs, color, white, fixed, alive) && o in objs && o in color && color[o].Black?
    ensures GraphOk(objs, color[o := Gray], white, fixed, alive) && Grows(color, color[o := Gray])
    ensures forall p :: p in color[o := Gray] && color[o := Gray][p].Black? ==> p in color && color[p].Black? && p != o
  {
    hide Typed, NoDangling, AliveClosed, Succ;
  }

  lemma ReturnLists(objs: Graph, color: Colors, gray: seq<Ref>, extra: set<Ref>, fixed: set<Ref>, o: Ref)
    requires GrayOk(objs, color, gray, extra, fixed) && WaitOk(objs, color, gray, extra)
    requires o in objs && Listable(objs[o].kind) && o in color && color[o].Black?
    ensures GrayOk(objs, color[o := Gray], gray, extra + {o}, fixed)
      && WaitOk(objs, color[o := Gray], gray, extra + {o}) && o !in extra
  {
    assert o !in gray && o !in extra;
  }

  lemma ReturnBlack(objs: Graph, color: Colors, color': Colors, o: Ref)
    requires BlackOk(objs, color, {o}) && Grows(color, color')
      && forall p :: p in color' && color'[p].Black? ==> p in color && color[p].Black? && p != o
    ensures BlackOk(objs, color', {})
  {
    hide Succ;
  }

  // What the propagate phase has still to visit.
  function Unvisited(objs: Graph, color: Colors, again: seq<Ref>): set<Ref> {
    NonBlack(objs, color) - Members(again)
  }

  lemma VisitedThread(objs: Graph, color: Colors, color': Colors, again: seq<Ref>, o: Ref)
    requires Marks(objs, color, color') && o in objs && o in color && color[o].Gray? && o !in again
    ensures Unvisited(objs, color', [o] + again) < Unvisited(objs, color, again)
  {
    MarksNonBlack(objs, color, color');
    assert o in Unvisited(objs, color, again) && o !in Unvisited(objs, color', [o] + again);
  }

  lemma VisitedBlack(objs: Graph, color: Colors, color': Colors, again: seq<Ref>, o: Ref)
    requires o in objs && o in color && color[o].Gray? && Marks(objs, color[o := Black], color') && o !in again
    ensures Unvisited(objs, color', again) < Unvisited(objs, color, again)
  {
    MarksNonBlack(objs, color[o := Black], color');
    assert o in Unvisited(objs, color, again) && o !in Unvisited(objs, color', again);
  }
}
