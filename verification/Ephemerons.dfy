// Ephemeron tables in the atomic step: a value is kept for its key only.

module Ephemerons {
  import opened Heap
  import opened Shades
  import opened Sequences

  datatype Node = Empty | Entry(key: Opt, val: Opt)

  // Strings refer to nothing, ephemeron tables have weak keys, and everything else has strong references.
  datatype Obj = Str | Strong(refs: set<Ref>) | Eph(meta: Opt, arr: seq<Opt>, nodes: seq<Node>)

  type Graph = map<Ref, Obj>

  predicate OptMarked(color: Colors, x: Opt) {
    x.None? || Marked(color, x.r)
  }

  // A key that is never cleared: not collectable, or a string.
  predicate StrongKey(objs: Graph, x: Opt) {
    x.None? || (x.r in objs && objs[x.r].Str?)
  }

  // ----- what a table keeps -----

  // What a visited table keeps whatever its weak keys are.
  predicate NodeBase(objs: Graph, color: Colors, n: Node) {
    n.Entry? && StrongKey(objs, n.key) ==> OptMarked(color, n.key) && OptMarked(color, n.val)
  }

  predicate Base(objs: Graph, color: Colors, h: Ref)
    requires h in objs && objs[h].Eph?
  {
    && OptMarked(color, objs[h].meta)
    && (forall i :: 0 <= i < |objs[h].arr| ==> OptMarked(color, objs[h].arr[i]))
    && (forall i :: 0 <= i < |objs[h].nodes| ==> NodeBase(objs, color, objs[h].nodes[i]))
  }

  predicate NodeVal(color: Colors, n: Node) {
    n.Entry? ==> OptMarked(color, n.val)
  }

  // Every value is marked.
  predicate AllVals(objs: Graph, color: Colors, h: Ref)
    requires h in objs && objs[h].Eph?
  {
    forall i :: 0 <= i < |objs[h].nodes| ==> NodeVal(color, objs[h].nodes[i])
  }

  predicate NodeKey(color: Colors, n: Node) {
    n.Entry? && OptMarked(color, n.key) ==> OptMarked(color, n.val)
  }

  // Every value with a marked key is marked.
  predicate KeyOk(objs: Graph, color: Colors, h: Ref)
    requires h in objs && objs[h].Eph?
  {
    forall i :: 0 <= i < |objs[h].nodes| ==> NodeKey(color, objs[h].nodes[i])
  }

  // ----- the invariant -----

  ghost predicate OptIn(objs: Graph, x: Opt) {
    x.Some? ==> x.r in objs
  }

  ghost predicate Refs(objs: Graph, o: Ref)
    requires o in objs
  {
    match objs[o]
    case Str => true
    case Strong(refs) => refs <= objs.Keys
    case Eph(meta, arr, nodes) =>
      && OptIn(objs, meta) && (forall i :: 0 <= i < |arr| ==> OptIn(objs, arr[i]))
      && (forall i :: 0 <= i < |nodes| && nodes[i].Entry? ==> OptIn(objs, nodes[i].key) && OptIn(objs, nodes[i].val))
  }

  ghost predicate Graphical(objs: Graph) {
    forall o :: o in objs ==> Refs(objs, o)
  }

  // Black objects were visited, unless they are being visited right now.
  ghost predicate BlackOk(objs: Graph, color: Colors, hot: set<Ref>) {
    forall o :: o in objs && o in color && color[o].Black? && o !in hot ==>
      match objs[o]
      case Str => true
      case Strong(refs) => forall v :: v in refs ==> Marked(color, v)
      case Eph(_, _, _) => Base(objs, color, o) && AllVals(objs, color, o)
  }

  // The objects of a gray list.
  ghost predicate Listed(objs: Graph, color: Colors, l: seq<Ref>) {
    NoDup(l) && forall o :: o in l ==> o in objs && o in color && color[o].Gray? && !objs[o].Str?
  }

  ghost predicate Tables(objs: Graph, l: seq<Ref>) {
    forall o :: o in l ==> o in objs && objs[o].Eph?
  }

  ghost predicate Disjoint(a: seq<Ref>, b: seq<Ref>) {
    forall o :: o in a ==> o !in b
  }

  /** The gray lists: objects to be visited; visited tables with a white key for a white value; visited tables with
      white keys but no white value; and the tables of the second kind still to be looked at in this round. */
  ghost predicate ListsOk(objs: Graph, color: Colors, gray: seq<Ref>, eph: seq<Ref>, weak: seq<Ref>, next: seq<Ref>) {
    && Listed(objs, color, gray) && Listed(objs, color, eph) && Listed(objs, color, weak) && Listed(objs, color, next)
    && Tables(objs, eph) && Tables(objs, weak) && Tables(objs, next)
    && Disjoint(gray, eph) && Disjoint(gray, weak) && Disjoint(gray, next)
    && Disjoint(eph, weak) && Disjoint(eph, next) && Disjoint(weak, next)
    && (forall o :: o in objs && o in color && color[o].Gray? ==> o in gray || o in eph || o in weak || o in next)
  }

  ghost predicate VisitedOk(objs: Graph, color: Colors, eph: seq<Ref>, weak: seq<Ref>, next: seq<Ref>) {
    && (forall h :: h in eph || h in weak || h in next ==> h in objs && objs[h].Eph? && Base(objs, color, h))
    && (forall h :: h in weak ==> h in objs && objs[h].Eph? && AllVals(objs, color, h))
  }

  ghost predicate Inv(objs: Graph, color: Colors, gray: seq<Ref>, eph: seq<Ref>, weak: seq<Ref>, next: seq<Ref>,
                      hot: set<Ref>) {
    && Graphical(objs) && color.Keys == objs.Keys && BlackOk(objs, color, hot)
    && ListsOk(objs, color, gray, eph, weak, next) && VisitedOk(objs, color, eph, weak, next)
  }

  // ----- the least set -----

  ghost predicate NodeClosed(objs: Graph, s: iset<Ref>, n: Node) {
    n.Entry? ==>
      && (StrongKey(objs, n.key) && n.key.Some? ==> n.key.r in s)
      && (n.val.Some? && (StrongKey(objs, n.key) || n.key.r in s) ==> n.val.r in s)
  }

  // `s` contains what its strong members refer to, and the values of its ephemeron tables for keys in `s`.
  ghost predicate Closed(objs: Graph, s: iset<Ref>) {
    forall o :: o in s && o in objs ==>
      match objs[o]
      case Str => true
      case Strong(refs) => forall v :: v in refs ==> v in s
      case Eph(meta, arr, nodes) =>
        && (meta.Some? ==> meta.r in s)
        && (forall i :: 0 <= i < |arr| && arr[i].Some? ==> arr[i].r in s)
        && (forall i :: 0 <= i < |nodes| ==> NodeClosed(objs, s, nodes[i]))
  }

  /** What a member of a set brings with it, entry by entry: a key that is not collectable or a string keeps its value,
      a string is kept itself, and any other key keeps its value if it is in the set. */
  ghost predicate Keeps(objs: Graph, s: iset<Ref>, o: Ref)
    requires o in objs
  {
    && (objs[o].Strong? ==> forall v :: v in objs[o].refs ==> v in s)
    && (objs[o].Eph? ==>
      && (forall v :: objs[o].meta == Some(v) ==> v in s)
      && (forall v :: Some(v) in objs[o].arr ==> v in s)
      && (forall v :: Entry(None, Some(v)) in objs[o].nodes ==> v in s)
      && (forall k, x :: Entry(Some(k), x) in objs[o].nodes && k in objs && objs[k].Str? ==> k in s)
      && (forall k, v :: Entry(Some(k), Some(v)) in objs[o].nodes && k in s ==> v in s))
  }

  lemma NodesKeep(objs: Graph, s: iset<Ref>, nodes: seq<Node>)
    ensures (forall i :: 0 <= i < |nodes| ==> NodeClosed(objs, s, nodes[i])) <==>
      && (forall v :: Entry(None, Some(v)) in nodes ==> v in s)
      && (forall k, x :: Entry(Some(k), x) in nodes && k in objs && objs[k].Str? ==> k in s)
      && (forall k, v :: Entry(Some(k), Some(v)) in nodes && k in s ==> v in s)
  {
    if forall i :: 0 <= i < |nodes| ==> NodeClosed(objs, s, nodes[i]) {
      forall n | n in nodes ensures NodeClosed(objs, s, n) {}
    } else {
      var i :| 0 <= i < |nodes| && !NodeClosed(objs, s, nodes[i]);
      var n := nodes[i];
      assert n in nodes && n.Entry?;
      assert n.key.Some? ==> n == Entry(Some(n.key.r), n.val);
      assert n.val.Some? ==> n == Entry(n.key, Some(n.val.r));
    }
  }

  lemma ArrayKeeps(s: iset<Ref>, arr: seq<Opt>)
    ensures (forall i :: 0 <= i < |arr| && arr[i].Some? ==> arr[i].r in s) <==> forall v :: Some(v) in arr ==> v in s
  {
    if forall v :: Some(v) in arr ==> v in s {
      forall i | 0 <= i < |arr| && arr[i].Some? ensures arr[i].r in s { assert Some(arr[i].r) in arr; }
    }
  }

  // The least set is the least that has all this.
  lemma ClosedMeans(objs: Graph, s: iset<Ref>)
    ensures Closed(objs, s) <==> forall o :: o in s && o in objs ==> Keeps(objs, s, o)
  {
    hide NodeClosed;
    forall o | o in s && o in objs && objs[o].Eph? ensures Keeps(objs, s, o) <==>
      && (objs[o].meta.Some? ==> objs[o].meta.r in s)
      && (forall i :: 0 <= i < |objs[o].arr| && objs[o].arr[i].Some? ==> objs[o].arr[i].r in s)
      && (forall i :: 0 <= i < |objs[o].nodes| ==> NodeClosed(objs, s, objs[o].nodes[i])) {
      NodesKeep(objs, s, objs[o].nodes);
      ArrayKeeps(s, objs[o].arr);
    }
  }

  // Nothing was marked that is not in every closed set containing what was marked before.
  ghost predicate Within(objs: Graph, c0: Colors, c1: Colors) {
    && c1.Keys == c0.Keys && (forall o :: Marked(c0, o) ==> Marked(c1, o))
    && forall s: iset<Ref> :: Closed(objs, s) && (forall o :: Marked(c0, o) ==> o in s) ==>
         forall o :: Marked(c1, o) ==> o in s
  }

  lemma WithinRefl(objs: Graph, c: Colors)
    ensures Within(objs, c, c)
  {
  }

  lemma WithinTrans(objs: Graph, c0: Colors, c1: Colors, c2: Colors)
    requires Within(objs, c0, c1) && Within(objs, c1, c2)
    ensures Within(objs, c0, c2)
  {
    hide Closed;
  }

  // Marking one object that every closed set must contain.
  lemma WithinOne(objs: Graph, c0: Colors, c1: Colors, v: Ref)
    requires v in c0 && c1.Keys == c0.Keys && (forall o :: o in c0 && o != v ==> c1[o] == c0[o]) && Marked(c1, v)
    requires forall s: iset<Ref> :: Closed(objs, s) && (forall o :: Marked(c0, o) ==> o in s) ==> v in s
    ensures Within(objs, c0, c1)
  {
    hide Closed;
    forall o | Marked(c0, o) ensures Marked(c1, o) {}
    forall o | Marked(c1, o) ensures o == v || Marked(c0, o) {}
  }

  // A change of colour that marks nothing.
  lemma WithinSame(objs: Graph, c0: Colors, c1: Colors)
    requires c1.Keys == c0.Keys && forall o :: Marked(c1, o) == Marked(c0, o)
    ensures Within(objs, c0, c1)
  {
    hide Closed;
  }

  // ----- marking -----

  lemma BaseGrows(objs: Graph, c0: Colors, c1: Colors, h: Ref)
    requires h in objs && objs[h].Eph? && Grows(c0, c1)
    ensures Base(objs, c0, h) ==> Base(objs, c1, h)
    ensures AllVals(objs, c0, h) ==> AllVals(objs, c1, h)
  {
    if Base(objs, c0, h) {
      forall i | 0 <= i < |objs[h].nodes| ensures NodeBase(objs, c1, objs[h].nodes[i]) {
        assert NodeBase(objs, c0, objs[h].nodes[i]);
      }
    }
    if AllVals(objs, c0, h) {
      forall i | 0 <= i < |objs[h].nodes| ensures NodeVal(c1, objs[h].nodes[i]) {
        assert NodeVal(c0, objs[h].nodes[i]);
      }
    }
  }

  lemma VisitedGrows(objs: Graph, c0: Colors, c1: Colors, eph: seq<Ref>, weak: seq<Ref>, next: seq<Ref>)
    requires VisitedOk(objs, c0, eph, weak, next) && Grows(c0, c1)
    ensures VisitedOk(objs, c1, eph, weak, next)
  {
    hide Base, AllVals, Grows;
    forall h | h in eph || h in weak || h in next
      ensures h in objs && objs[h].Eph? && Base(objs, c1, h) && (h in weak ==> AllVals(objs, c1, h)) {
      BaseGrows(objs, c0, c1, h);
    }
  }

  lemma BlackGrows(objs: Graph, c0: Colors, c1: Colors, hot: set<Ref>, hot': set<Ref>)
    requires BlackOk(objs, c0, hot) && Grows(c0, c1) && c0.Keys == objs.Keys
    requires forall o :: o in objs && o in c1 && c1[o].Black? && o !in hot' && !objs[o].Str? ==>
               c0[o].Black? && o !in hot
    ensures BlackOk(objs, c1, hot')
  {
    hide Base, AllVals;
    forall o | o in objs && c1[o].Black? && o !in hot' && objs[o].Eph?
      ensures Base(objs, c1, o) && AllVals(objs, c1, o) {
      BaseGrows(objs, c0, c1, o);
    }
  }

  // `reallymarkobject` on a string.
  lemma MarkStr(objs: Graph, color: Colors, gray: seq<Ref>, eph: seq<Ref>, weak: seq<Ref>, next: seq<Ref>,
                hot: set<Ref>, v: Ref)
    requires Inv(objs, color, gray, eph, weak, next, hot) && v in objs && objs[v].Str? && color[v].White?
    ensures Inv(objs, color[v := Black], gray, eph, weak, next, hot)
  {
    var c1 := color[v := Black];
    assert Grows(color, c1);
    BlackGrows(objs, color, c1, hot, hot);
    VisitedGrows(objs, color, c1, eph, weak, next);
    hide Graphical, BlackOk, VisitedOk, NoDup, Grows;
    assert ListsOk(objs, c1, gray, eph, weak, next);
  }

  // `reallymarkobject` on anything else that has references.
  lemma MarkOther(objs: Graph, color: Colors, gray: seq<Ref>, eph: seq<Ref>, weak: seq<Ref>, next: seq<Ref>,
                  hot: set<Ref>, v: Ref)
    requires Inv(objs, color, gray, eph, weak, next, hot) && v in objs && !objs[v].Str? && color[v].White?
    ensures Inv(objs, color[v := Gray], [v] + gray, eph, weak, next, hot)
  {
    var c1 := color[v := Gray];
    assert Grows(color, c1);
    BlackGrows(objs, color, c1, hot, hot);
    VisitedGrows(objs, color, c1, eph, weak, next);
    hide Graphical, BlackOk, VisitedOk, Grows;
    assert ListsOk(objs, c1, [v] + gray, eph, weak, next);
  }

  // Nothing but strings was marked.
  ghost predicate Quiet(objs: Graph, c0: Colors, c1: Colors) {
    forall o :: Marked(c1, o) && o in objs && !objs[o].Str? ==> Marked(c0, o)
  }

  // What is white or waits to be visited.
  function Todo(color: Colors, gray: seq<Ref>): set<Ref> {
    set o | o in color && (color[o].White? || o in gray)
  }

  function Whites(color: Colors): set<Ref> {
    set o | o in color && color[o].White?
  }

  /** What any part of the traversal does to the marks: only what must be marked is, what is to do gets less, and unless
      `marked` says so nothing was marked but strings. */
  ghost predicate Effect(objs: Graph, c0: Colors, g0: seq<Ref>, c1: Colors, g1: seq<Ref>, marked: bool) {
    && Within(objs, c0, c1) && Todo(c1, g1) <= Todo(c0, g0) && Whites(c1) <= Whites(c0)
    && (marked ==> Whites(c1) < Whites(c0))
    && (!marked ==> g1 == g0 && Quiet(objs, c0, c1))
  }

  // What marking from a table does: it also leaves alone what was visited or waits already.
  ghost predicate Step(objs: Graph, c0: Colors, g0: seq<Ref>, c1: Colors, g1: seq<Ref>, marked: bool) {
    && Effect(objs, c0, g0, c1, g1, marked)
    && (forall o :: o in c0 && c0[o].Black? ==> o in c1 && c1[o].Black?)
    && (forall o :: o in g0 ==> o in g1) && (forall o :: o in g1 && o !in g0 ==> o in c0 && c0[o].White?)
  }

  lemma EffectTrans(objs: Graph, c0: Colors, g0: seq<Ref>, c1: Colors, g1: seq<Ref>, c2: Colors, g2: seq<Ref>, m: bool,
                    m': bool)
    requires Effect(objs, c0, g0, c1, g1, m) && Effect(objs, c1, g1, c2, g2, m')
    ensures Effect(objs, c0, g0, c2, g2, m || m')
  {
    WithinTrans(objs, c0, c1, c2);
    WhitesLess(c0, c1, c2);
    hide Within, Todo, Whites;
  }

  lemma StepRefl(objs: Graph, c: Colors, g: seq<Ref>)
    ensures Step(objs, c, g, c, g, false)
  {
    WithinRefl(objs, c);
    hide Within;
  }

  lemma StepTrans(objs: Graph, c0: Colors, g0: seq<Ref>, c1: Colors, g1: seq<Ref>, c2: Colors, g2: seq<Ref>, m: bool,
                  m': bool)
    requires Step(objs, c0, g0, c1, g1, m) && Step(objs, c1, g1, c2, g2, m')
    ensures Step(objs, c0, g0, c2, g2, m || m')
  {
    EffectTrans(objs, c0, g0, c1, g1, c2, g2, m, m');
    assert forall o :: o in g2 && o !in g0 ==>
             o in c0 && c0[o].White? by { GrayFrom(objs, c0, g0, c1, g1, c2, g2, m, m'); }
    hide Effect;
  }

  lemma WhitesLess(c0: Colors, c1: Colors, c2: Colors)
    ensures Whites(c1) <= Whites(c0) && Whites(c2) <= Whites(c1) ==> Whites(c2) <= Whites(c0)
    ensures Whites(c1) < Whites(c0) && Whites(c2) <= Whites(c1) ==> Whites(c2) < Whites(c0)
    ensures Whites(c1) <= Whites(c0) && Whites(c2) < Whites(c1) ==> Whites(c2) < Whites(c0)
  {
  }

  lemma GrayFrom(objs: Graph, c0: Colors, g0: seq<Ref>, c1: Colors, g1: seq<Ref>, c2: Colors, g2: seq<Ref>, m: bool,
                 m': bool)
    requires Step(objs, c0, g0, c1, g1, m) && Step(objs, c1, g1, c2, g2, m')
    ensures forall o :: o in g2 && o !in g0 ==> o in c0 && c0[o].White?
  {
    hide Within;
    forall o | o in g2 && o !in g0 ensures o in c0 && c0[o].White? {
      if o !in g1 {
        assert o in Whites(c1);
        assert o in Whites(c0);
      }
    }
  }

  // Every closed set that contains what is marked contains `v`.
  ghost predicate Forced(objs: Graph, color: Colors, v: Ref) {
    forall s: iset<Ref> :: Closed(objs, s) && (forall o :: Marked(color, o) ==> o in s) ==> v in s
  }

  lemma MarkStep(objs: Graph, c0: Colors, g0: seq<Ref>, v: Ref, str: bool)
    requires v in c0 && c0[v].White? && Forced(objs, c0, v) && v in objs && str == objs[v].Str?
    ensures Step(objs, c0, g0, c0[v := if str then Black else Gray], if str then g0 else [v] + g0, true)
    ensures str ==> Step(objs, c0, g0, c0[v := Black], g0, false)
  {
    var c1 := c0[v := if str then Black else Gray];
    WithinOne(objs, c0, c1, v);
    hide Within, Closed;
    assert v in Whites(c0) && v !in Whites(c1);
  }

  // A table that was visited goes to one of the lists, or stays black.
  lemma Relink(objs: Graph, color: Colors, gray: seq<Ref>, eph: seq<Ref>, weak: seq<Ref>, next: seq<Ref>, h: Ref)
    requires Inv(objs, color, gray, eph, weak, next, {h}) && h in objs && objs[h].Eph? && color[h].Black?
      && Base(objs, color, h)
    ensures Inv(objs, color[h := Gray], gray, [h] + eph, weak, next, {})
    ensures AllVals(objs, color, h) ==> Inv(objs, color[h := Gray], gray, eph, [h] + weak, next, {})
    ensures AllVals(objs, color, h) ==> Inv(objs, color, gray, eph, weak, next, {})
  {
    var c1 := color[h := Gray];
    assert Grows(color, c1);
    BlackGrows(objs, color, c1, {h}, {});
    VisitedGrows(objs, color, c1, eph, weak, next);
    BaseGrows(objs, color, c1, h);
    RelinkLists(objs, color, gray, eph, weak, next, h);
    hide Graphical, Base, AllVals, Grows, ListsOk;
    assert VisitedOk(objs, c1, [h] + eph, weak, next);
    if AllVals(objs, color, h) {
      assert VisitedOk(objs, c1, eph, [h] + weak, next);
      assert BlackOk(objs, color, {});
    }
  }

  lemma RelinkLists(objs: Graph, color: Colors, gray: seq<Ref>, eph: seq<Ref>, weak: seq<Ref>, next: seq<Ref>, h: Ref)
    requires ListsOk(objs, color, gray, eph, weak, next) && h in objs && objs[h].Eph? && h in color && color[h].Black?
    ensures ListsOk(objs, color[h := Gray], gray, [h] + eph, weak, next)
    ensures ListsOk(objs, color[h := Gray], gray, eph, [h] + weak, next)
  {
  }

  // The first gray object is taken out, black, to be visited.
  lemma Take(objs: Graph, color: Colors, gray: seq<Ref>, eph: seq<Ref>, weak: seq<Ref>, next: seq<Ref>)
    requires Inv(objs, color, gray, eph, weak, next, {}) && gray != []
    ensures gray[0] in objs && gray[0] in color && color[gray[0]].Gray? && !objs[gray[0]].Str?
    ensures Inv(objs, color[gray[0] := Black], gray[1..], eph, weak, next, {gray[0]})
    ensures Todo(color[gray[0] := Black], gray[1..]) < Todo(color, gray)
    ensures Within(objs, color, color[gray[0] := Black]) && Whites(color[gray[0] := Black]) == Whites(color)
  {
    var o := gray[0];
    assert o in gray;
    var c1 := color[o := Black];
    assert Grows(color, c1);
    BlackGrows(objs, color, c1, {}, {o});
    VisitedGrows(objs, color, c1, eph, weak, next);
    WithinSame(objs, color, c1);
    TakeLists(objs, color, gray, eph, weak, next);
    TakeTodo(color, gray);
    hide Graphical, BlackOk, ListsOk, VisitedOk, Within, Todo, Grows, Tables;
  }

  lemma TakeTodo(color: Colors, gray: seq<Ref>)
    requires gray != [] && gray[0] in color && color[gray[0]].Gray? && NoDup(gray)
    ensures Todo(color[gray[0] := Black], gray[1..]) < Todo(color, gray)
    ensures Whites(color[gray[0] := Black]) == Whites(color)
  {
    var o := gray[0];
    assert o !in gray[1..];
    assert forall p :: p in gray[1..] ==> p in gray;
    assert o in Todo(color, gray) && o !in Todo(color[o := Black], gray[1..]);
  }

  lemma TakeLists(objs: Graph, color: Colors, gray: seq<Ref>, eph: seq<Ref>, weak: seq<Ref>, next: seq<Ref>)
    requires ListsOk(objs, color, gray, eph, weak, next) && gray != []
    ensures ListsOk(objs, color[gray[0] := Black], gray[1..], eph, weak, next)
  {
    assert gray[0] in gray && gray[0] !in gray[1..];
    assert forall p :: p in gray <==> p == gray[0] || p in gray[1..];
  }

  // The next table of a round leaves the list, black, to be traversed.
  lemma Unlink(objs: Graph, color: Colors, gray: seq<Ref>, eph: seq<Ref>, weak: seq<Ref>, next: seq<Ref>)
    requires Inv(objs, color, gray, eph, weak, next, {}) && next != []
    ensures next[0] in objs && objs[next[0]].Eph? && next[0] in color && color[next[0]].Gray?
    ensures Base(objs, color[next[0] := Black], next[0])
    ensures Inv(objs, color[next[0] := Black], gray, eph, weak, next[1..], {next[0]})
    ensures Within(objs, color, color[next[0] := Black]) && Whites(color[next[0] := Black]) == Whites(color)
  {
    var h := next[0];
    assert h in next;
    var c1 := color[h := Black];
    assert Grows(color, c1);
    BlackGrows(objs, color, c1, {}, {h});
    VisitedGrows(objs, color, c1, eph, weak, next);
    BaseGrows(objs, color, c1, h);
    WithinSame(objs, color, c1);
    UnlinkLists(objs, color, gray, eph, weak, next);
    assert forall p :: p in next[1..] ==> p in next;
    hide Graphical, BlackOk, ListsOk, Within, Grows, Base, AllVals;
    assert VisitedOk(objs, c1, eph, weak, next[1..]);
  }

  lemma UnlinkLists(objs: Graph, color: Colors, gray: seq<Ref>, eph: seq<Ref>, weak: seq<Ref>, next: seq<Ref>)
    requires ListsOk(objs, color, gray, eph, weak, next) && next != []
    ensures ListsOk(objs, color[next[0] := Black], gray, eph, weak, next[1..])
  {
    assert next[0] in next && next[0] !in next[1..];
    assert forall p :: p in next <==> p == next[0] || p in next[1..];
  }

  class State {
    const objs: Graph
    var color: Colors
    var gray: seq<Ref>
    var ephemeron: seq<Ref>
    var allweak: seq<Ref>

    constructor (objs: Graph, color: Colors, gray: seq<Ref>, ephemeron: seq<Ref>, allweak: seq<Ref>)
      ensures this.objs == objs && this.color == color && this.gray == gray && this.ephemeron == ephemeron
        && this.allweak == allweak
    {
      this.objs, this.color, this.gray, this.ephemeron, this.allweak := objs, color, gray, ephemeron, allweak;
    }

    ghost predicate Ok(next: seq<Ref>, hot: set<Ref>)
      reads `color, `gray, `ephemeron, `allweak
    {
      Inv(objs, color, gray, ephemeron, allweak, next, hot)
    }

    // `markobject`
    method Mark(v: Ref, ghost next: seq<Ref>, ghost hot: set<Ref>)
      requires Ok(next, hot) && v in objs && Forced(objs, color, v)
      modifies `color, `gray
      ensures Ok(next, hot) && Marked(color, v)
      ensures Step(objs, old(color), old(gray), color, gray, !Marked(old(color), v))
      ensures objs[v].Str? ==> Step(objs, old(color), old(gray), color, gray, false)
    {
      hide *;
      Colored(next, hot);
      StepRefl(objs, color, gray);
      IsMarked(color, v);
      if color[v].White? {
        MarkStep(objs, color, gray, v, objs[v].Str?);
        if objs[v].Str? {
          StrOk(next, hot, v);
          color := color[v := Black];
        } else {
          OtherOk(next, hot, v);
          color := color[v := Gray];
          gray := [v] + gray;
        }
        Back(next, hot);
      }
      IsMarked(color, v);
    }

    // ----- ephemeron tables -----

    // Marks an optional reference.
    method MarkOpt(x: Opt, ghost next: seq<Ref>, ghost hot: set<Ref>) returns (marked: bool)
      requires Ok(next, hot) && OptIn(objs, x) && (x.Some? ==> Forced(objs, color, x.r))
      modifies `color, `gray
      ensures Ok(next, hot) && OptMarked(color, x)
      ensures Step(objs, old(color), old(gray), color, gray, marked)
    {
      hide *;
      Optional(x);
      Colored(next, hot);
      StepRefl(objs, color, gray);
      marked := x.Some? && color[x.r].White?;
      if marked {
        IsMarked(color, x.r);
        Mark(x.r, next, hot);
      } else if x.Some? {
        IsMarked(color, x.r);
      }
      OptIs(x);
    }

    lemma Optional(x: Opt)
      requires OptIn(objs, x)
      ensures x.Some? ==> x.r in objs
    {
    }

    lemma OptIs(x: Opt)
      ensures OptMarked(color, x) <==> x.None? || Marked(color, x.r)
    {
    }

    // `iscleared` for a key: strings are marked, for they are values; other keys are cleared when they are white.
    method IsCleared(x: Opt, ghost next: seq<Ref>, ghost hot: set<Ref>) returns (cleared: bool)
      requires Ok(next, hot) && OptIn(objs, x) && (x.Some? && StrongKey(objs, x) ==> Forced(objs, color, x.r))
      modifies `color, `gray
      ensures Ok(next, hot) && cleared == !OptMarked(color, x) && (StrongKey(objs, x) ==> !cleared)
      ensures Step(objs, old(color), old(gray), color, gray, false)
    {
      hide *;
      Optional(x);
      Colored(next, hot);
      StepRefl(objs, color, gray);
      KeyKind(x);
      if x.None? {
        cleared := false;
      } else if objs[x.r].Str? {
        Mark(x.r, next, hot);
        cleared := false;
      } else {
        cleared := color[x.r].White?;
        IsMarked(color, x.r);
      }
      OptIs(x);
    }

    lemma KeyKind(x: Opt)
      requires x.Some? ==> x.r in objs
      ensures StrongKey(objs, x) <==> x.None? || objs[x.r].Str?
    {
    }

    /** One entry of the hash part: whether its key is cleared, whether key and value are both white, and whether its
        value was marked. */
    method VisitNode(n: Node, h: Ref, ghost next: seq<Ref>) returns (cleared: bool, ww: bool, marked: bool)
      requires Ok(next, {h}) && InTable(n, h) && Marked(color, h)
      modifies `color, `gray
      ensures Ok(next, {h}) && Step(objs, old(color), old(gray), color, gray, marked)
      ensures NodeBase(objs, color, n) && NodeKey(color, n) && (!ww ==> NodeVal(color, n))
    {
      hide *;
      cleared, ww, marked := false, false, false;
      StepRefl(objs, color, gray);
      NodeRefs(n, h, next);
      if n.Entry? {
        KeyForced(n, h);
        cleared := IsCleared(n.key, next, {h});
        ghost var c1, g1 := color, gray;
        Colored(next, {h});
        if cleared {
          if n.val.Some? && color[n.val.r].White? { ww := true; }
          if n.val.Some? { IsMarked(color, n.val.r); }
          OptIs(n.val);
        } else {
          ValForced(n, h, old(color), old(gray));
          marked := MarkOpt(n.val, next, {h});
          StepTrans(objs, old(color), old(gray), c1, g1, color, gray, false, marked);
          KeyStays(n.key, c1, g1, marked);
        }
      }
      NodeDone(n, cleared, ww);
    }

    // An entry of a table.
    ghost predicate InTable(n: Node, h: Ref) {
      h in objs && objs[h].Eph? && exists i :: 0 <= i < |objs[h].nodes| && objs[h].nodes[i] == n
    }

    lemma NodeRefs(n: Node, h: Ref, next: seq<Ref>)
      requires Ok(next, {h}) && InTable(n, h)
      ensures n.Entry? ==> OptIn(objs, n.key) && OptIn(objs, n.val) && (n.key.Some? ==> n.key.r in objs)
                           && (n.val.Some? ==> n.val.r in objs)
    {
      assert Refs(objs, h);
    }

    lemma KeyForced(n: Node, h: Ref)
      requires InTable(n, h) && Marked(color, h) && n.Entry?
      ensures n.key.Some? && StrongKey(objs, n.key) ==> Forced(objs, color, n.key.r)
    {
      var i :| 0 <= i < |objs[h].nodes| && objs[h].nodes[i] == n;
      forall s: iset<Ref> | Closed(objs, s) && forall o :: Marked(color, o) ==> o in s
        ensures n.key.Some? && StrongKey(objs, n.key) ==> n.key.r in s
      {
        assert h in s;
        assert NodeClosed(objs, s, objs[h].nodes[i]);
      }
    }

    lemma ValForced(n: Node, h: Ref, c0: Colors, g0: seq<Ref>)
      requires InTable(n, h) && Marked(c0, h) && n.Entry? && Step(objs, c0, g0, color, gray, false)
        && OptMarked(color, n.key)
      ensures n.val.Some? ==> Forced(objs, color, n.val.r)
    {
      var i :| 0 <= i < |objs[h].nodes| && objs[h].nodes[i] == n;
      forall s: iset<Ref> | Closed(objs, s) && forall o :: Marked(color, o) ==> o in s
        ensures n.val.Some? ==> n.val.r in s
      {
        assert Marked(color, h);
        assert NodeClosed(objs, s, objs[h].nodes[i]);
      }
    }

    lemma KeyStays(x: Opt, c1: Colors, g1: seq<Ref>, m: bool)
      requires Step(objs, c1, g1, color, gray, m) && OptMarked(c1, x)
      ensures OptMarked(color, x)
    {
    }

    lemma NodeDone(n: Node, cleared: bool, ww: bool)
      requires n.Entry? ==> (StrongKey(objs, n.key) ==> !cleared)
      requires n.Entry? && !cleared ==> OptMarked(color, n.key) && OptMarked(color, n.val)
      requires n.Entry? && cleared ==> !OptMarked(color, n.key) && (!ww ==> OptMarked(color, n.val))
      ensures NodeBase(objs, color, n) && NodeKey(color, n) && (!ww ==> NodeVal(color, n))
    {
    }

    // The array part: whether a value was marked.
    method VisitArray(h: Ref, ghost next: seq<Ref>) returns (marked: bool)
      requires Ok(next, {h}) && h in objs && objs[h].Eph? && Marked(color, h)
      modifies `color, `gray
      ensures Ok(next, {h}) && Step(objs, old(color), old(gray), color, gray, marked)
      ensures forall i :: 0 <= i < |objs[h].arr| ==> OptMarked(color, objs[h].arr[i])
    {
      hide *;
      marked := false;
      StepRefl(objs, color, gray);
      var k := 0;
      while k < |objs[h].arr|
        invariant 0 <= k <= |objs[h].arr|
        invariant Ok(next, {h}) && Step(objs, old(color), old(gray), color, gray, marked)
        invariant forall i :: 0 <= i < k ==> OptMarked(color, objs[h].arr[i])
      {
        ghost var c1, g1 := color, gray;
        ArrayForced(h, k, next, old(color), old(gray), marked);
        var m := MarkOpt(objs[h].arr[k], next, {h});
        StepTrans(objs, old(color), old(gray), c1, g1, color, gray, marked, m);
        ArrayGrows(h, k, c1, g1, m);
        marked := marked || m;
        k := k + 1;
      }
    }

    lemma ArrayForced(h: Ref, k: nat, next: seq<Ref>, c0: Colors, g0: seq<Ref>, m: bool)
      requires Ok(next, {h}) && h in objs && objs[h].Eph? && Marked(c0, h) && k < |objs[h].arr|
        && Step(objs, c0, g0, color, gray, m)
      ensures OptIn(objs, objs[h].arr[k]) && (objs[h].arr[k].Some? ==> Forced(objs, color, objs[h].arr[k].r))
    {
      assert Refs(objs, h) && Marked(color, h);
    }

    lemma ArrayGrows(h: Ref, k: nat, c1: Colors, g1: seq<Ref>, m: bool)
      requires h in objs && objs[h].Eph? && k <= |objs[h].arr| && Step(objs, c1, g1, color, gray, m)
      requires forall i :: 0 <= i < k ==> OptMarked(c1, objs[h].arr[i])
      ensures forall i :: 0 <= i < k ==> OptMarked(color, objs[h].arr[i])
    {
    }

    // The index of the entry visited at step `i`, in either direction.
    function Index(n: nat, i: nat, inv: bool): (k: nat)
      requires i < n
      ensures k < n
    {
      if inv then n - 1 - i else i
    }

    // What holds of the entries visited so far.
    ghost predicate Done(h: Ref, c: Colors, k: nat, inv: bool, marked: bool, ww: bool)
      requires h in objs && objs[h].Eph? && k <= |objs[h].nodes|
    {
      forall i :: 0 <= i < k ==> NodeDoneAt(c, objs[h].nodes[Index(|objs[h].nodes|, i, inv)], marked, ww)
    }

    ghost predicate NodeDoneAt(c: Colors, n: Node, marked: bool, ww: bool) {
      NodeBase(objs, c, n) && (!marked ==> NodeKey(c, n)) && (!ww ==> NodeVal(c, n))
    }

    lemma DoneGrows(h: Ref, c0: Colors, g0: seq<Ref>, k: nat, inv: bool, marked: bool, ww: bool, m: bool, w: bool)
      requires h in objs && objs[h].Eph? && k <= |objs[h].nodes| && Done(h, c0, k, inv, marked, ww)
        && Step(objs, c0, g0, color, gray, m)
      requires color.Keys == objs.Keys
      ensures Done(h, color, k, inv, marked || m, ww || w)
    {
      forall i | 0 <= i < k
        ensures NodeDoneAt(color, objs[h].nodes[Index(|objs[h].nodes|, i, inv)], marked || m, ww || w) {
        var n := objs[h].nodes[Index(|objs[h].nodes|, i, inv)];
        assert NodeDoneAt(c0, n, marked, ww);
        if n.Entry? && n.key.Some? && !StrongKey(objs, n.key) && !(marked || m) && Marked(color, n.key.r)
          && n.key.r in objs {
          assert Marked(c0, n.key.r);
        }
      }
    }

    // The hash part, in the direction that `inv` says.
    method VisitNodes(h: Ref, inv: bool, ghost next: seq<Ref>) returns (hasclears: bool, hasww: bool, marked: bool)
      requires Ok(next, {h}) && h in objs && objs[h].Eph? && Marked(color, h)
      modifies `color, `gray
      ensures Ok(next, {h}) && Step(objs, old(color), old(gray), color, gray, marked)
      ensures Done(h, color, |objs[h].nodes|, inv, marked, hasww)
    {
      hide *;
      hasclears, hasww, marked := false, false, false;
      StepRefl(objs, color, gray);
      var k: nat := 0;
      NoneDone(h, inv);
      while k < |objs[h].nodes|
        invariant k <= |objs[h].nodes|
        invariant Ok(next, {h}) && Step(objs, old(color), old(gray), color, gray, marked)
          && Done(h, color, k, inv, marked, hasww)
      {
        ghost var c1, g1 := color, gray;
        IndexIn(|objs[h].nodes|, k, inv);
        var n := objs[h].nodes[Index(|objs[h].nodes|, k, inv)];
        InIt(h, k, inv, old(color), old(gray), marked);
        var c, w, m := VisitNode(n, h, next);
        StepTrans(objs, old(color), old(gray), c1, g1, color, gray, marked, m);
        Colored(next, {h});
        DoneGrows(h, c1, g1, k, inv, marked, hasww, m, w);
        OneMore(h, k, inv, marked || m, hasww || w);
        hasclears, hasww, marked := hasclears || c, hasww || w, marked || m;
        k := k + 1;
      }
    }

    lemma NoneDone(h: Ref, inv: bool)
      requires h in objs && objs[h].Eph?
      ensures Done(h, color, 0, inv, false, false)
    {
    }

    lemma IndexIn(n: nat, i: nat, inv: bool)
      requires i < n
      ensures Index(n, i, inv) < n
    {
    }

    lemma InIt(h: Ref, k: nat, inv: bool, c0: Colors, g0: seq<Ref>, m: bool)
      requires h in objs && objs[h].Eph? && k < |objs[h].nodes| && Marked(c0, h) && Step(objs, c0, g0, color, gray, m)
      ensures InTable(objs[h].nodes[Index(|objs[h].nodes|, k, inv)], h) && Marked(color, h)
    {
    }

    lemma OneMore(h: Ref, k: nat, inv: bool, marked: bool, ww: bool)
      requires h in objs && objs[h].Eph? && k < |objs[h].nodes| && Done(h, color, k, inv, marked, ww)
      requires var n := objs[h].nodes[Index(|objs[h].nodes|, k, inv)]; NodeBase(objs, color, n) && NodeKey(color, n)
      requires var n := objs[h].nodes[Index(|objs[h].nodes|, k, inv)]; !ww ==> NodeVal(color, n)
      ensures Done(h, color, k + 1, inv, marked, ww)
    {
    }

    // `linkgclist` for the table being traversed.
    lemma LinkOk(next: seq<Ref>, h: Ref)
      requires Ok(next, {h}) && h in objs && objs[h].Eph? && h in color && color[h].Black? && Base(objs, color, h)
      ensures Inv(objs, color[h := Gray], gray, [h] + ephemeron, allweak, next, {})
      ensures AllVals(objs, color, h) ==> Inv(objs, color[h := Gray], gray, ephemeron, [h] + allweak, next, {})
      ensures AllVals(objs, color, h) ==> Inv(objs, color, gray, ephemeron, allweak, next, {})
    {
      Relink(objs, color, gray, ephemeron, allweak, next, h);
    }

    /** `traverseephemeron` in the atomic phase; the metatable is marked already. A table with a white key for a white
        value has to be looked at again; one with white keys only will have to be cleared. */
    method TraverseEphemeron(h: Ref, inv: bool, ghost next: seq<Ref>) returns (marked: bool)
      requires Ok(next, {h}) && h in objs && objs[h].Eph? && h in color && color[h].Black?
        && OptMarked(color, objs[h].meta)
      modifies `color, `gray, `ephemeron, `allweak
      ensures Ok(next, {}) && Effect(objs, old(color), old(gray), color, gray, marked)
      ensures !marked ==> KeyOk(objs, color, h)
      ensures ephemeron == old(ephemeron) || ephemeron == [h] + old(ephemeron)
    {
      hide *;
      IsMarked(color, h);
      marked := VisitArray(h, next);
      ghost var c1, g1 := color, gray;
      AfterArray(h, old(color), old(gray), marked);
      var hasclears, hasww, m := VisitNodes(h, inv, next);
      StepTrans(objs, old(color), old(gray), c1, g1, color, gray, marked, m);
      Visited(h, inv, old(color), old(gray), c1, g1, marked, m, hasww);
      marked := marked || m;
      LinkOk(next, h);
      if hasww {
        EffectGray(old(color), old(gray), h, marked);
        color := color[h := Gray];
        ephemeron := [h] + ephemeron;
      } else if hasclears {
        EffectGray(old(color), old(gray), h, marked);
        color := color[h := Gray];
        allweak := [h] + allweak;
      } else {
        StepEffect(old(color), old(gray), marked);
      }
      Back(next, {});
    }

    lemma AfterArray(h: Ref, c0: Colors, g0: seq<Ref>, m: bool)
      requires Step(objs, c0, g0, color, gray, m) && h in c0 && c0[h].Black?
      ensures Marked(color, h) && h in color && color[h].Black?
    {
    }

    lemma Visited(h: Ref, inv: bool, c0: Colors, g0: seq<Ref>, c1: Colors, g1: seq<Ref>, m: bool, m': bool, ww: bool)
      requires h in objs && objs[h].Eph? && OptMarked(c0, objs[h].meta) && Step(objs, c0, g0, c1, g1, m) && h in c1
        && c1[h].Black?
      requires Step(objs, c1, g1, color, gray, m') && Done(h, color, |objs[h].nodes|, inv, m', ww)
      requires forall i :: 0 <= i < |objs[h].arr| ==> OptMarked(c1, objs[h].arr[i])
      ensures Base(objs, color, h) && (!ww ==> AllVals(objs, color, h)) && h in color && color[h].Black?
      ensures !m' ==> KeyOk(objs, color, h)
      ensures !m' ==> KeyOk(objs, color[h := Gray], h)
    {
      var n := |objs[h].nodes|;
      forall i | 0 <= i < n ensures NodeDoneAt(color, objs[h].nodes[i], m', ww) {
        var j := if inv then n - 1 - i else i;
        assert Index(n, j, inv) == i;
      }
      assert Grows(color, color[h := Gray]) && Grows(color[h := Gray], color);
      forall i | 0 <= i < n && NodeKey(color, objs[h].nodes[i]) ensures NodeKey(color[h := Gray], objs[h].nodes[i]) {}
    }

    lemma EffectGray(c0: Colors, g0: seq<Ref>, h: Ref, m: bool)
      requires Step(objs, c0, g0, color, gray, m) && h in c0 && c0[h].Black? && h in color && color[h].Black?
      ensures Effect(objs, c0, g0, color[h := Gray], gray, m)
    {
      WithinSame(objs, color, color[h := Gray]);
      WithinTrans(objs, c0, color, color[h := Gray]);
      hide Within;
      assert Whites(color[h := Gray]) == Whites(color);
      assert Todo(color[h := Gray], gray) == Todo(color, gray);
    }

    lemma StepEffect(c0: Colors, g0: seq<Ref>, m: bool)
      requires Step(objs, c0, g0, color, gray, m)
      ensures Effect(objs, c0, g0, color, gray, m)
    {
    }

    // ----- propagation -----

    lemma HeadIn(next: seq<Ref>)
      requires Ok(next, {}) && gray != []
      ensures gray[0] in objs && gray[0] in color && color[gray[0]].Gray? && !objs[gray[0]].Str?
      ensures Inv(objs, color[gray[0] := Black], gray[1..], ephemeron, allweak, next, {gray[0]})
      ensures Todo(color[gray[0] := Black], gray[1..]) < Todo(color, gray)
      ensures Within(objs, color, color[gray[0] := Black]) && Whites(color[gray[0] := Black]) == Whites(color)
    {
      Take(objs, color, gray, ephemeron, allweak, next);
    }

    /** `propagatemark`: one gray object is visited. */
    method PropagateMark(ghost next: seq<Ref>)
      requires Ok(next, {}) && gray != []
      modifies `color, `gray, `ephemeron, `allweak
      ensures Ok(next, {}) && Within(objs, old(color), color) && Whites(color) <= Whites(old(color))
      ensures Todo(color, gray) < Todo(old(color), old(gray))
    {
      hide *;
      HeadIn(next);
      var o := gray[0];
      gray := gray[1..];
      color := color[o := Black];
      Back(next, {o});
      IsMarked(color, o);
      ghost var c1, g1 := color, gray;
      if objs[o].Strong? {
        ghost var m := VisitStrong(o, next);
        EffectParts(c1, g1, m);
      } else {
        TableMeta(o, next);
        var m := MarkOpt(objs[o].meta, next, {o});
        ghost var c2, g2 := color, gray;
        AfterArray(o, c1, g1, m);
        StepEffect(c1, g1, m);
        var m' := TraverseEphemeron(o, false, next);
        EffectTrans(objs, c1, g1, c2, g2, color, gray, m, m');
        EffectParts(c1, g1, m || m');
      }
      WithinTrans(objs, old(color), c1, color);
    }

    lemma EffectParts(c1: Colors, g1: seq<Ref>, m: bool)
      requires Effect(objs, c1, g1, color, gray, m)
      ensures Within(objs, c1, color) && Todo(color, gray) <= Todo(c1, g1) && Whites(color) <= Whites(c1)
    {
    }

    lemma TableMeta(h: Ref, next: seq<Ref>)
      requires Ok(next, {h}) && h in objs && objs[h].Eph? && Marked(color, h)
      ensures OptIn(objs, objs[h].meta) && (objs[h].meta.Some? ==> Forced(objs, color, objs[h].meta.r))
    {
      assert Refs(objs, h);
    }

    // An object with strong references.
    method VisitStrong(o: Ref, ghost next: seq<Ref>) returns (ghost m: bool)
      requires Ok(next, {o}) && o in objs && objs[o].Strong? && Marked(color, o)
      modifies `color, `gray
      ensures Ok(next, {}) && Effect(objs, old(color), old(gray), color, gray, m)
    {
      hide *;
      var todo := objs[o].refs;
      m := false;
      StepRefl(objs, color, gray);
      while todo != {}
        invariant Ok(next, {o}) && Step(objs, old(color), old(gray), color, gray, m) && todo <= objs[o].refs
        invariant forall v :: v in objs[o].refs && v !in todo ==> Marked(color, v)
        decreases todo
      {
        var v :| v in todo;
        RefForced(o, v, next, old(color), old(gray), m);
        ghost var c1, g1 := color, gray;
        ghost var w := !Marked(color, v);
        Mark(v, next, {o});
        StepTrans(objs, old(color), old(gray), c1, g1, color, gray, m, w);
        RefsGrow(o, todo, c1, g1, w);
        m := m || w;
        todo := todo - {v};
      }
      StrongDone(o, next);
      StepEffect(old(color), old(gray), m);
    }

    lemma RefForced(o: Ref, v: Ref, next: seq<Ref>, c0: Colors, g0: seq<Ref>, m: bool)
      requires Ok(next, {o}) && o in objs && objs[o].Strong? && v in objs[o].refs && Marked(c0, o)
        && Step(objs, c0, g0, color, gray, m)
      ensures v in objs && Forced(objs, color, v)
    {
      assert Refs(objs, o) && Marked(color, o);
    }

    lemma RefsGrow(o: Ref, todo: set<Ref>, c1: Colors, g1: seq<Ref>, m: bool)
      requires o in objs && objs[o].Strong? && Step(objs, c1, g1, color, gray, m)
      requires forall v :: v in objs[o].refs && v !in todo ==> Marked(c1, v)
      ensures forall v :: v in objs[o].refs && v !in todo ==> Marked(color, v)
    {
    }

    lemma StrongDone(o: Ref, next: seq<Ref>)
      requires Ok(next, {o}) && o in objs && objs[o].Strong? && forall v :: v in objs[o].refs ==> Marked(color, v)
      ensures Ok(next, {})
    {
      hide Base, AllVals;
    }

    method PropagateAll(ghost next: seq<Ref>)
      requires Ok(next, {})
      modifies `color, `gray, `ephemeron, `allweak
      ensures Ok(next, {}) && gray == [] && Within(objs, old(color), color) && Whites(color) <= Whites(old(color))
    {
      hide *;
      WithinRefl(objs, color);
      while gray != []
        invariant Ok(next, {}) && Within(objs, old(color), color) && Whites(color) <= Whites(old(color))
        decreases Todo(color, gray)
      {
        ghost var c1 := color;
        PropagateMark(next);
        WithinTrans(objs, old(color), c1, color);
      }
    }

    // ----- convergence -----

    /** One round over the tables with white keys for white values. Unless something was marked, all of them are in
        order now and nothing waits to be visited. */
    method Round(inv: bool) returns (changed: bool)
      requires Ok([], {}) && gray == []
      modifies `color, `gray, `ephemeron, `allweak
      ensures Ok([], {}) && gray == [] && Within(objs, old(color), color)
      ensures Whites(color) <= Whites(old(color)) && (changed ==> Whites(color) < Whites(old(color)))
      ensures !changed ==> AllInOrder(ephemeron, color)
    {
      hide *;
      WithinRefl(objs, color);
      var next := ephemeron;
      StartRound();
      ephemeron := [];
      changed := false;
      Back(next, {});
      NoneInOrder();
      while next != []
        invariant Ok(next, {}) && gray == [] && Within(objs, old(color), color) && Whites(color) <= Whites(old(color))
        invariant changed ==> Whites(color) < Whites(old(color))
        invariant !changed ==> AllInOrder(ephemeron, color)
        decreases |next|
      {
        NextTable(next);
        var h := next[0];
        next := next[1..];
        ghost var c0 := color;
        color := color[h := Black];
        Back(next, {h});
        ghost var c1, g1, e1 := color, gray, ephemeron;
        var marked := TraverseEphemeron(h, inv, next);
        EffectParts(c1, g1, marked);
        ghost var c2 := color;
        WithinTrans(objs, old(color), c0, c1);
        WithinTrans(objs, old(color), c1, c2);
        StillInOrder(h, e1, c1, g1, marked, next);
        EffectWhites(c0, c1, g1, marked, old(color));
        if marked {
          PropagateAll(next);
          WithinTrans(objs, old(color), c2, color);
          WhitesLess(old(color), c2, color);
          changed := true;
        }
      }
    }

    // Every value of the tables in `l` whose key is marked is marked.
    ghost predicate AllInOrder(l: seq<Ref>, c: Colors) {
      forall h :: h in l ==> h in objs && objs[h].Eph? && KeyOk(objs, c, h)
    }

    lemma StartRound()
      requires Ok([], {})
      ensures Inv(objs, color, gray, [], allweak, ephemeron, {})
    {
    }

    lemma NoneInOrder()
      ensures AllInOrder([], color)
    {
    }

    lemma NextTable(next: seq<Ref>)
      requires Ok(next, {}) && next != []
      ensures next[0] in objs && objs[next[0]].Eph? && next[0] in color
        && OptMarked(color[next[0] := Black], objs[next[0]].meta)
      ensures Inv(objs, color[next[0] := Black], gray, ephemeron, allweak, next[1..], {next[0]})
      ensures Within(objs, color, color[next[0] := Black]) && Whites(color[next[0] := Black]) == Whites(color)
      ensures AllInOrder(ephemeron, color) ==> AllInOrder(ephemeron, color[next[0] := Black])
    {
      Unlink(objs, color, gray, ephemeron, allweak, next);
      var c1 := color[next[0] := Black];
      forall t | t in ephemeron && t in objs && objs[t].Eph? && KeyOk(objs, color, t) ensures KeyOk(objs, c1, t) {
        forall i | 0 <= i < |objs[t].nodes| ensures NodeKey(c1, objs[t].nodes[i]) {
          assert NodeKey(color, objs[t].nodes[i]);
        }
      }
    }

    lemma StillInOrder(h: Ref, e1: seq<Ref>, c1: Colors, g1: seq<Ref>, marked: bool, next: seq<Ref>)
      requires Ok(next, {}) && Effect(objs, c1, g1, color, gray, marked) && (ephemeron == e1 || ephemeron == [h] + e1)
      requires h in objs && objs[h].Eph? && (!marked ==> KeyOk(objs, color, h))
      ensures !marked && AllInOrder(e1, c1) ==> AllInOrder(ephemeron, color)
    {
      if !marked && AllInOrder(e1, c1) {
        forall t | t in e1 ensures t in objs && objs[t].Eph? && KeyOk(objs, color, t) {
          assert t in ephemeron && Refs(objs, t);
          forall i | 0 <= i < |objs[t].nodes| ensures NodeKey(color, objs[t].nodes[i]) {
            assert NodeKey(c1, objs[t].nodes[i]) && NodeBase(objs, color, objs[t].nodes[i]);
          }
        }
      }
    }

    lemma EffectWhites(c0: Colors, c1: Colors, g1: seq<Ref>, marked: bool, start: Colors)
      requires Whites(c0) <= Whites(start) && Whites(c1) == Whites(c0) && Effect(objs, c1, g1, color, gray, marked)
      ensures Whites(color) <= Whites(start) && (marked || Whites(c0) < Whites(start) ==> Whites(color) < Whites(start))
      ensures !marked ==> gray == g1
    {
      hide Within, Whites, Todo;
    }

    /** `convergeephemerons`. It ends, since every round that changes anything marks a white object. In the end the
        marked objects are exactly the least set that contains those marked before and is closed under strong references
        and under the values of ephemeron tables whose keys it contains. */
    method ConvergeEphemerons()
      requires Ok([], {}) && gray == []
      modifies `color, `gray, `ephemeron, `allweak
      ensures Ok([], {}) && gray == [] && Within(objs, old(color), color)
      ensures forall h :: h in objs && objs[h].Eph? && Marked(color, h) ==> KeyOk(objs, color, h)
      ensures Closed(objs, iset o | o in color && Marked(color, o))
    {
      hide *;
      WithinRefl(objs, color);
      var dir := false;
      var changed := true;
      while changed
        invariant Ok([], {}) && gray == [] && Within(objs, old(color), color)
        invariant !changed ==> AllInOrder(ephemeron, color)
        decreases Whites(color), changed
      {
        ghost var c1 := color;
        changed := Round(dir);
        WithinTrans(objs, old(color), c1, color);
        dir := !dir;
      }
      Converged();
      MarkedClosed();
    }

    lemma Converged()
      requires Ok([], {}) && gray == [] && AllInOrder(ephemeron, color)
      ensures forall h :: h in objs && objs[h].Eph? && Marked(color, h) ==>
                KeyOk(objs, color, h) && Base(objs, color, h)
    {
      forall h | h in objs && objs[h].Eph? && Marked(color, h) ensures KeyOk(objs, color, h) && Base(objs, color, h) {
        if AllVals(objs, color, h) { ValsKey(h); }
      }
    }

    lemma ValsKey(h: Ref)
      requires h in objs && objs[h].Eph? && AllVals(objs, color, h)
      ensures KeyOk(objs, color, h)
    {
      forall i | 0 <= i < |objs[h].nodes| ensures NodeKey(color, objs[h].nodes[i]) {
        assert NodeVal(color, objs[h].nodes[i]);
      }
    }

    lemma MarkedClosed()
      requires Ok([], {}) && gray == []
      requires forall h :: h in objs && objs[h].Eph? && Marked(color, h) ==>
                 KeyOk(objs, color, h) && Base(objs, color, h)
      ensures Closed(objs, iset o | o in color && Marked(color, o))
    {
      var s := iset o | o in color && Marked(color, o);
      forall o | o in s && o in objs && objs[o].Strong? ensures forall v :: v in objs[o].refs ==> v in s {
        assert color[o].Black?;
      }
      forall o, i | o in s && o in objs && objs[o].Eph? && 0 <= i < |objs[o].nodes|
        ensures NodeClosed(objs, s, objs[o].nodes[i]) {
        assert NodeKey(color, objs[o].nodes[i]) && NodeBase(objs, color, objs[o].nodes[i]);
      }
    }

    // ----- the invariant as a whole -----

    lemma IsMarked(c: Colors, v: Ref)
      ensures Marked(c, v) <==> v in c && !c[v].White?
    {
    }

    lemma Colored(next: seq<Ref>, hot: set<Ref>)
      requires Ok(next, hot)
      ensures color.Keys == objs.Keys
    {
    }

    lemma StrOk(next: seq<Ref>, hot: set<Ref>, v: Ref)
      requires Ok(next, hot) && v in objs && objs[v].Str? && v in color && color[v].White?
      ensures Inv(objs, color[v := Black], gray, ephemeron, allweak, next, hot)
    {
      MarkStr(objs, color, gray, ephemeron, allweak, next, hot, v);
    }

    lemma OtherOk(next: seq<Ref>, hot: set<Ref>, v: Ref)
      requires Ok(next, hot) && v in objs && !objs[v].Str? && v in color && color[v].White?
      ensures Inv(objs, color[v := Gray], [v] + gray, ephemeron, allweak, next, hot)
    {
      MarkOther(objs, color, gray, ephemeron, allweak, next, hot, v);
    }

    lemma Back(next: seq<Ref>, hot: set<Ref>)
      requires Inv(objs, color, gray, ephemeron, allweak, next, hot)
      ensures Ok(next, hot)
    {
    }
  }
}
