// The colours during the marking of a young collection.

module YoungMarking {
  import opened Heap
  import opened Shades
  import opened Ages
  import opened Sequences

  // What has been visited: black and waiting nowhere, or put back to wait for the next collection.
  predicate Visited(color: Colors, gray: seq<Ref>, wait: set<Ref>, done: seq<Ref>, o: Ref) {
    o in done || (o in color && color[o].Black? && o !in gray && o !in wait)
  }

  ghost predicate AllMarked(objs: Graph, color: Colors, o: Ref)
    requires o in objs
  {
    forall v :: v in Succ(objs, o) ==> Marked(color, v)
  }

  // All that a visited object refers to is marked, unless its visit is going on.
  ghost predicate RefsMarked(objs: Graph, color: Colors, gray: seq<Ref>, wait: set<Ref>, done: seq<Ref>,
                             hot: set<Ref>) {
    forall o :: o in objs && Visited(color, gray, wait, done, o) && o !in hot ==> AllMarked(objs, color, o)
  }

  // What was not visited before must have all it refers to marked now.
  lemma RefsChange(objs: Graph, c0: Colors, g0: seq<Ref>, w0: set<Ref>, d0: seq<Ref>, h0: set<Ref>,
                   c1: Colors, g1: seq<Ref>, w1: set<Ref>, d1: seq<Ref>, h1: set<Ref>)
    requires RefsMarked(objs, c0, g0, w0, d0, h0) && Grows(c0, c1)
    requires forall o :: o in objs && Visited(c1, g1, w1, d1, o) && o !in h1 ==>
      (Visited(c0, g0, w0, d0, o) && o !in h0) || AllMarked(objs, c1, o)
    ensures RefsMarked(objs, c1, g1, w1, d1, h1)
  {
    hide Visited, Succ;
    forall o | o in objs && AllMarked(objs, c0, o) ensures AllMarked(objs, c1, o) {}
  }

  /** What must be seen again whatever its colour: touched objects and old threads. `wait` holds the objects that this
      collection has still to look at, `done` those that the next one will. */
  ghost predicate WatchOk(k: Kind, a: Age, inGray: bool, inWait: bool, inDone: bool, isHot: bool) {
    && (a.Touched1? ==> k.Box? && (inGray || inWait || inDone || isHot))
    && (a.Touched2? ==> k.Box? && (inGray || inWait || isHot))
    && (k.Thread? && IsOld(a) ==> inGray || inWait || inDone || isHot)
    && (inDone ==> a.Touched1? || (k.Thread? && IsOld(a)))
  }

  // The colour of an object, by its age and its lists.
  ghost predicate TintOk(k: Kind, c: Color, a: Age, inGray: bool, inWait: bool, inDone: bool, isFixed: bool) {
    && (isFixed ==> k.Leaf? && c.Gray? && a.Old? && !inGray && !inWait && !inDone)
    && (inGray || inWait || inDone || IsOld(a) ==> !c.White?)
    && (inGray ==> Listable(k)) && (inDone ==> c.Gray?)
    && (c.Gray? && !isFixed ==> inGray || inWait || inDone)
    && !(inGray && inWait) && !(inGray && inDone) && !(inWait && inDone)
  }

  ghost predicate Tints(objs: Graph, color: Colors, age: AgeMap, gray: seq<Ref>, wait: set<Ref>, done: seq<Ref>,
                        fixed: set<Ref>, hot: set<Ref>) {
    && color.Keys == objs.Keys && age.Keys == objs.Keys && NoDup(gray) && NoDup(done)
    && (forall o :: o in gray || o in wait || o in done ==> o in objs)
    && (forall o :: o in objs ==>
        && TintOk(objs[o].kind, color[o], age[o], o in gray, o in wait, o in done, o in fixed)
        && WatchOk(objs[o].kind, age[o], o in gray, o in wait, o in done, o in hot))
  }

  ghost predicate Mid(objs: Graph, color: Colors, age: AgeMap, gray: seq<Ref>, wait: set<Ref>, done: seq<Ref>,
                      fixed: set<Ref>, hot: set<Ref>) {
    && GraphOk(objs) && Tints(objs, color, age, gray, wait, done, fixed, hot)
    && RefsMarked(objs, color, gray, wait, done, hot)
  }

  // Black objects that became old in the last collection: they are marked first.
  ghost function BlackOld1(objs: Graph, color: Colors, age: AgeMap): set<Ref> {
    set o | o in objs && o in color && o in age && color[o].Black? && age[o].Old1?
  }

  // The invariant between two collections is all that the marking needs to start.
  lemma StartMid(objs: Graph, color: Colors, age: AgeMap, gray: seq<Ref>, again: seq<Ref>, fixed: set<Ref>)
    requires Valid(objs, color, age, gray, again, fixed)
    ensures Mid(objs, color, age, gray, Members(again) + BlackOld1(objs, color, age), [], fixed, {})
  {
    var wait := Members(again) + BlackOld1(objs, color, age);
    hide GraphOk, Succ;
    forall o | o in objs
      ensures TintOk(objs[o].kind, color[o], age[o], o in gray, o in wait, false, o in fixed)
      ensures WatchOk(objs[o].kind, age[o], o in gray, o in wait, false, false)
    {
      assert ShadeOk(objs[o].kind, color[o], age[o], o in gray, o in again, o in fixed);
    }
    forall o | o in objs && Visited(color, gray, wait, [], o) ensures AllMarked(objs, color, o) {
      forall v | v in Succ(objs, o) ensures Marked(color, v) { StartRefs(objs, color, age, gray, again, fixed, o, v); }
    }
  }

  lemma StartRefs(objs: Graph, color: Colors, age: AgeMap, gray: seq<Ref>, again: seq<Ref>, fixed: set<Ref>, o: Ref,
                  v: Ref)
    requires Valid(objs, color, age, gray, again, fixed)
    requires o in objs && v in Succ(objs, o)
      && Visited(color, gray, Members(again) + BlackOld1(objs, color, age), [], o)
    ensures Marked(color, v)
  {
    assert v in objs;
    assert ShadeOk(objs[o].kind, color[o], age[o], o in gray, o in again, o in fixed);
    assert ShadeOk(objs[v].kind, color[v], age[v], v in gray, v in again, v in fixed);
    hide GraphOk, Succ, NoDup;
    assert RefOk(objs[o].kind, color[o], age[o], color[v], age[v]);
    assert o !in again && o !in BlackOld1(objs, color, age);
  }

  // ----- steps -----

  // Marking keeps the invariant.
  lemma MidMark(objs: Graph, c0: Colors, age: AgeMap, g0: seq<Ref>, wait: set<Ref>, done: seq<Ref>, fixed: set<Ref>,
                hot: set<Ref>,
                c1: Colors, g1: seq<Ref>)
    requires Mid(objs, c0, age, g0, wait, done, fixed, hot) && MarkRel(objs, c0, g0, c1, g1, hot)
    ensures Mid(objs, c1, age, g1, wait, done, fixed, hot)
  {
    hide GraphOk, Succ, NoDup, Tints, RefsMarked, Visited;
    MarkRelGrows(objs, c0, g0, c1, g1, hot);
    MarkTints(objs, c0, age, g0, wait, done, fixed, hot, c1, g1);
    MarkVisits(objs, c0, age, g0, wait, done, fixed, hot, c1, g1);
    RefsChange(objs, c0, g0, wait, done, hot, c1, g1, wait, done, hot);
  }

  lemma MarkTints(objs: Graph, c0: Colors, age: AgeMap, g0: seq<Ref>, wait: set<Ref>, done: seq<Ref>, fixed: set<Ref>,
                  hot: set<Ref>,
                  c1: Colors, g1: seq<Ref>)
    requires Tints(objs, c0, age, g0, wait, done, fixed, hot) && MarkRel(objs, c0, g0, c1, g1, hot)
    ensures Tints(objs, c1, age, g1, wait, done, fixed, hot)
  {
    GraysMarked(objs, c0, age, g0, wait, done, fixed, hot);
    hide Succ, NoDup;
    forall o | o in objs
      ensures TintOk(objs[o].kind, c1[o], age[o], o in g1, o in wait, o in done, o in fixed)
      ensures WatchOk(objs[o].kind, age[o], o in g1, o in wait, o in done, o in hot)
    {
      assert TintOk(objs[o].kind, c0[o], age[o], o in g0, o in wait, o in done, o in fixed);
      assert WatchOk(objs[o].kind, age[o], o in g0, o in wait, o in done, o in hot);
    }
  }

  lemma GraysMarked(objs: Graph, c0: Colors, age: AgeMap, g0: seq<Ref>, wait: set<Ref>, done: seq<Ref>, fixed: set<Ref>,
                    hot: set<Ref>)
    requires Tints(objs, c0, age, g0, wait, done, fixed, hot)
    ensures forall o :: o in g0 ==> Marked(c0, o) && o in objs && Listable(objs[o].kind)
  {
    hide NoDup;
    forall o | o in g0 ensures Marked(c0, o) && o in objs && Listable(objs[o].kind) {
      assert TintOk(objs[o].kind, c0[o], age[o], o in g0, o in wait, o in done, o in fixed);
    }
  }

  lemma MarkVisits(objs: Graph, c0: Colors, age: AgeMap, g0: seq<Ref>, wait: set<Ref>, done: seq<Ref>, fixed: set<Ref>,
                   hot: set<Ref>,
                   c1: Colors, g1: seq<Ref>)
    requires Tints(objs, c0, age, g0, wait, done, fixed, hot) && MarkRel(objs, c0, g0, c1, g1, hot)
    ensures forall o :: o in objs && Visited(c1, g1, wait, done, o) && o !in hot ==>
      (Visited(c0, g0, wait, done, o) && o !in hot) || AllMarked(objs, c1, o)
  {
    hide NoDup, Succ, WatchOk;
    forall o | o in objs && Visited(c1, g1, wait, done, o) && o !in hot && !Visited(c0, g0, wait, done, o)
      ensures AllMarked(objs, c1, o) {
      assert TintOk(objs[o].kind, c0[o], age[o], o in g0, o in wait, o in done, o in fixed);
      forall v | v in Succ(objs, o) ensures Marked(c1, v) {}
    }
  }

  // An object that became old in the last collection waits to be visited.
  lemma MidOld1Link(objs: Graph, color: Colors, age: AgeMap, gray: seq<Ref>, wait: set<Ref>, done: seq<Ref>,
                    fixed: set<Ref>, o: Ref)
    requires Mid(objs, color, age, gray, wait, done, fixed, {}) && o in objs && o in wait && Listable(objs[o].kind)
      && age[o].Old1?
    ensures Mid(objs, color[o := Gray], age[o := Old], [o] + gray, wait - {o}, done, fixed, {})
  {
    hide GraphOk, Succ, RefsMarked, AllMarked;
    assert TintOk(objs[o].kind, color[o], age[o], o in gray, o in wait, o in done, o in fixed);
    LinkTints(objs, color, age, gray, wait, done, fixed, o);
    RefsChange(objs, color, gray, wait, done, {}, color[o := Gray], [o] + gray, wait - {o}, done, {});
  }

  lemma LinkTints(objs: Graph, color: Colors, age: AgeMap, gray: seq<Ref>, wait: set<Ref>, done: seq<Ref>,
                  fixed: set<Ref>, o: Ref)
    requires Tints(objs, color, age, gray, wait, done, fixed, {}) && o in objs && o in wait && Listable(objs[o].kind)
      && age[o].Old1?
    ensures Tints(objs, color[o := Gray], age[o := Old], [o] + gray, wait - {o}, done, fixed, {})
  {
    assert TintOk(objs[o].kind, color[o], age[o], o in gray, o in wait, o in done, o in fixed);
    forall p | p in objs
      ensures TintOk(objs[p].kind, if p == o then Gray else color[p], if p == o then Old else age[p], p in [o] + gray,
                     p in wait - {o}, p in done, p in fixed)
      ensures WatchOk(objs[p].kind, if p == o then Old else age[p], p in [o] + gray, p in wait - {o}, p in done, false)
    {
      assert TintOk(objs[p].kind, color[p], age[p], p in gray, p in wait, p in done, p in fixed);
      assert WatchOk(objs[p].kind, age[p], p in gray, p in wait, p in done, false);
    }
  }

  // One that does not wait is visited at once: what it refers to is marked already.
  lemma MidOld1Done(objs: Graph, color: Colors, age: AgeMap, gray: seq<Ref>, wait: set<Ref>, done: seq<Ref>,
                    fixed: set<Ref>, o: Ref)
    requires Mid(objs, color, age, gray, wait, done, fixed, {}) && o in objs && o in wait && !Listable(objs[o].kind)
      && age[o].Old1?
    requires color[o].Black? && AllMarked(objs, color, o)
    ensures Mid(objs, color, age[o := Old], gray, wait - {o}, done, fixed, {})
  {
    hide GraphOk, Succ, RefsMarked, AllMarked;
    DoneTints(objs, color, age, gray, wait, done, fixed, o);
    RefsChange(objs, color, gray, wait, done, {}, color, gray, wait - {o}, done, {});
  }

  lemma DoneTints(objs: Graph, color: Colors, age: AgeMap, gray: seq<Ref>, wait: set<Ref>, done: seq<Ref>,
                  fixed: set<Ref>, o: Ref)
    requires Tints(objs, color, age, gray, wait, done, fixed, {}) && o in objs && age[o].Old1?
    requires o in wait ==> !Listable(objs[o].kind) && color[o].Black?
    ensures Tints(objs, color, age[o := Old], gray, wait - {o}, done, fixed, {})
  {
    hide NoDup;
    forall p | p in objs
      ensures TintOk(objs[p].kind, color[p], if p == o then Old else age[p], p in gray, p in wait - {o}, p in done,
                     p in fixed)
      ensures WatchOk(objs[p].kind, if p == o then Old else age[p], p in gray, p in wait - {o}, p in done, false)
    {
      assert TintOk(objs[p].kind, color[p], age[p], p in gray, p in wait, p in done, p in fixed);
      assert WatchOk(objs[p].kind, age[p], p in gray, p in wait, p in done, false);
    }
  }

  // A gray one waits already.
  lemma MidOld1Gray(objs: Graph, color: Colors, age: AgeMap, gray: seq<Ref>, wait: set<Ref>, done: seq<Ref>,
                    fixed: set<Ref>, o: Ref)
    requires Mid(objs, color, age, gray, wait, done, fixed, {}) && o in objs && age[o].Old1?
    ensures Mid(objs, color, age[o := Old], gray, wait, done, fixed, {})
  {
    hide GraphOk, Succ, RefsMarked, NoDup;
    forall p | p in objs
      ensures TintOk(objs[p].kind, color[p], if p == o then Old else age[p], p in gray, p in wait, p in done,
                     p in fixed)
      ensures WatchOk(objs[p].kind, if p == o then Old else age[p], p in gray, p in wait, p in done, false)
    {
      assert TintOk(objs[p].kind, color[p], age[p], p in gray, p in wait, p in done, p in fixed);
      assert WatchOk(objs[p].kind, age[p], p in gray, p in wait, p in done, false);
    }
  }

  // The list kept from the last collection becomes the list to visit.
  lemma MidSwap(objs: Graph, color: Colors, age: AgeMap, again: seq<Ref>, done: seq<Ref>, fixed: set<Ref>)
    requires Mid(objs, color, age, [], Members(again), done, fixed, {}) && NoDup(again)
    requires forall o :: o in again && o in objs ==> Listable(objs[o].kind)
    ensures Mid(objs, color, age, again, {}, done, fixed, {})
  {
    hide GraphOk, Succ, NoDup, RefsMarked, AllMarked;
    forall p | p in objs
      ensures TintOk(objs[p].kind, color[p], age[p], p in again, false, p in done, p in fixed)
      ensures WatchOk(objs[p].kind, age[p], p in again, false, p in done, false)
    {
      assert TintOk(objs[p].kind, color[p], age[p], false, p in Members(again), p in done, p in fixed);
      assert WatchOk(objs[p].kind, age[p], false, p in Members(again), p in done, false);
    }
    RefsChange(objs, color, [], Members(again), done, {}, color, again, {}, done, {});
  }

  // ----- visiting -----

  // The first gray object is taken out, black, to be visited.
  lemma MidTake(objs: Graph, color: Colors, age: AgeMap, gray: seq<Ref>, wait: set<Ref>, done: seq<Ref>,
                fixed: set<Ref>)
    requires Mid(objs, color, age, gray, wait, done, fixed, {}) && gray != []
    ensures gray[0] in objs && Listable(objs[gray[0]].kind) && Marked(color, gray[0])
    ensures Mid(objs, color[gray[0] := Black], age, gray[1..], wait, done, fixed, {gray[0]})
  {
    hide GraphOk, Succ, RefsMarked, AllMarked;
    var o := gray[0];
    assert o in gray && o !in gray[1..];
    assert forall p :: p in gray <==> p == o || p in gray[1..];
    GraysMarked(objs, color, age, gray, wait, done, fixed, {});
    TakeTints(objs, color, age, gray, wait, done, fixed);
    RefsChange(objs, color, gray, wait, done, {}, color[o := Black], gray[1..], wait, done, {o});
  }

  lemma TakeTints(objs: Graph, color: Colors, age: AgeMap, gray: seq<Ref>, wait: set<Ref>, done: seq<Ref>,
                  fixed: set<Ref>)
    requires Tints(objs, color, age, gray, wait, done, fixed, {}) && gray != []
    ensures Tints(objs, color[gray[0] := Black], age, gray[1..], wait, done, fixed, {gray[0]})
  {
    var o := gray[0];
    assert o in gray && o !in gray[1..];
    assert forall p :: p in gray <==> p == o || p in gray[1..];
    forall p | p in objs
      ensures TintOk(objs[p].kind, if p == o then Black else color[p], age[p], p in gray[1..], p in wait, p in done,
                     p in fixed)
      ensures WatchOk(objs[p].kind, age[p], p in gray[1..], p in wait, p in done, p in {o})
    {
      assert TintOk(objs[p].kind, color[p], age[p], p in gray, p in wait, p in done, p in fixed);
      assert WatchOk(objs[p].kind, age[p], p in gray, p in wait, p in done, false);
    }
  }

  /** An object that the next collection has to look at is put back, gray: an old thread before, a touched object after
      what it refers to is marked. */
  lemma MidAgain(objs: Graph, color: Colors, age: AgeMap, gray: seq<Ref>, wait: set<Ref>, done: seq<Ref>,
                 fixed: set<Ref>, o: Ref)
    requires Mid(objs, color, age, gray, wait, done, fixed, {o}) && o in objs && color[o].Black? && o !in gray
      && o !in wait
    requires age[o].Touched1? || (objs[o].kind.Thread? && IsOld(age[o]))
    ensures Mid(objs, color[o := Gray], age, gray, wait, [o] + done, fixed, {o})
    ensures AllMarked(objs, color, o) ==> Mid(objs, color[o := Gray], age, gray, wait, [o] + done, fixed, {})
  {
    hide GraphOk, Succ, RefsMarked, AllMarked;
    AgainTints(objs, color, age, gray, wait, done, fixed, o);
    RefsChange(objs, color, gray, wait, done, {o}, color[o := Gray], gray, wait, [o] + done, {o});
    if AllMarked(objs, color, o) {
      AllMarkedGrows(objs, color, color[o := Gray], o);
      RefsChange(objs, color, gray, wait, done, {o}, color[o := Gray], gray, wait, [o] + done, {});
    }
  }

  lemma AllMarkedGrows(objs: Graph, c0: Colors, c1: Colors, o: Ref)
    requires o in objs && AllMarked(objs, c0, o) && Grows(c0, c1)
    ensures AllMarked(objs, c1, o)
  {
  }

  lemma AgainTints(objs: Graph, color: Colors, age: AgeMap, gray: seq<Ref>, wait: set<Ref>, done: seq<Ref>,
                   fixed: set<Ref>, o: Ref)
    requires Tints(objs, color, age, gray, wait, done, fixed, {o}) && o in objs && color[o].Black? && o !in gray
      && o !in wait
    requires age[o].Touched1? || (objs[o].kind.Thread? && IsOld(age[o]))
    ensures Tints(objs, color[o := Gray], age, gray, wait, [o] + done, fixed, {o})
    ensures Tints(objs, color[o := Gray], age, gray, wait, [o] + done, fixed, {})
  {
    assert TintOk(objs[o].kind, color[o], age[o], o in gray, o in wait, o in done, o in fixed);
    forall p | p in objs
      ensures TintOk(objs[p].kind, if p == o then Gray else color[p], age[p], p in gray, p in wait, p in [o] + done,
                     p in fixed)
      ensures WatchOk(objs[p].kind, age[p], p in gray, p in wait, p in [o] + done, false)
    {
      assert TintOk(objs[p].kind, color[p], age[p], p in gray, p in wait, p in done, p in fixed);
      assert WatchOk(objs[p].kind, age[p], p in gray, p in wait, p in done, p in {o});
    }
  }

  // The visit is over, and the object waits no more.
  lemma MidDone(objs: Graph, color: Colors, age: AgeMap, gray: seq<Ref>, wait: set<Ref>, done: seq<Ref>,
                fixed: set<Ref>, o: Ref, a: Age)
    requires Mid(objs, color, age, gray, wait, done, fixed, {o}) && o in objs && AllMarked(objs, color, o)
    requires !age[o].Touched1? && (a == age[o] || (age[o].Touched2? && a.Old?)) && !a.Touched2?
    requires objs[o].kind.Thread? && IsOld(age[o]) ==> o in done
    ensures Mid(objs, color, age[o := a], gray, wait, done, fixed, {})
  {
    hide GraphOk, Succ, RefsMarked, AllMarked;
    forall p | p in objs
      ensures TintOk(objs[p].kind, color[p], if p == o then a else age[p], p in gray, p in wait, p in done, p in fixed)
      ensures WatchOk(objs[p].kind, if p == o then a else age[p], p in gray, p in wait, p in done, false)
    {
      assert TintOk(objs[p].kind, color[p], age[p], p in gray, p in wait, p in done, p in fixed);
      assert WatchOk(objs[p].kind, age[p], p in gray, p in wait, p in done, p in {o});
    }
    RefsChange(objs, color, gray, wait, done, {o}, color, gray, wait, done, {});
  }

  // ----- the end of the marking -----

  // With nothing left to visit, marked objects refer only to marked ones.
  lemma MidClosed(objs: Graph, color: Colors, age: AgeMap, done: seq<Ref>, fixed: set<Ref>, o: Ref)
    requires Mid(objs, color, age, [], {}, done, fixed, {}) && o in objs && Marked(color, o)
    ensures AllMarked(objs, color, o)
  {
    assert TintOk(objs[o].kind, color[o], age[o], false, false, o in done, o in fixed);
    assert TypedObj(objs, o);
  }

  // What is to be visited yet: white, or in the gray list.
  function Todo(color: Colors, gray: seq<Ref>): set<Ref> {
    set o | o in color && (color[o].White? || o in gray)
  }

  lemma TodoTake(color: Colors, gray: seq<Ref>)
    requires gray != [] && gray[0] in color && NoDup(gray)
    ensures Todo(color[gray[0] := Black], gray[1..]) < Todo(color, gray)
  {
    var o := gray[0];
    assert o in gray && o !in gray[1..];
    assert o in Todo(color, gray) && o !in Todo(color[o := Black], gray[1..]);
  }

  lemma TodoMark(objs: Graph, c0: Colors, g0: seq<Ref>, c1: Colors, g1: seq<Ref>, hot: set<Ref>)
    requires MarkRel(objs, c0, g0, c1, g1, hot)
    ensures Todo(c1, g1) <= Todo(c0, g0)
  {
    hide NoDup, Succ;
  }

  // ----- the objects that became old in the last collection -----

  // Marking leaves old objects as they are.
  lemma BlackOld1Mark(objs: Graph, c0: Colors, g0: seq<Ref>, c1: Colors, g1: seq<Ref>, age: AgeMap)
    requires MarkRel(objs, c0, g0, c1, g1, {}) && c0.Keys == objs.Keys
      && forall o :: o in objs && o in age && IsOld(age[o]) ==> Marked(c0, o)
    ensures BlackOld1(objs, c1, age) == BlackOld1(objs, c0, age)
  {
    MarkRelGrows(objs, c0, g0, c1, g1, {});
    hide Succ, NoDup;
  }

  lemma OldMarked(objs: Graph, color: Colors, age: AgeMap, gray: seq<Ref>, wait: set<Ref>, done: seq<Ref>,
                  fixed: set<Ref>, hot: set<Ref>)
    requires Mid(objs, color, age, gray, wait, done, fixed, hot)
    ensures forall o :: o in objs && o in age && IsOld(age[o]) ==> Marked(color, o)
    ensures color.Keys == objs.Keys && age.Keys == objs.Keys && GraphOk(objs)
  {
    forall o | o in objs && IsOld(age[o]) ensures Marked(color, o) {
      assert TintOk(objs[o].kind, color[o], age[o], o in gray, o in wait, o in done, o in fixed);
    }
  }

  lemma BlackOld1Less(objs: Graph, color: Colors, age: AgeMap, o: Ref, c: Color)
    requires o in objs && o in color && o in age && age[o].Old1? && (c == color[o] || c.Gray?)
    ensures BlackOld1(objs, color[o := c], age[o := Old]) == BlackOld1(objs, color, age) - {o}
    ensures o in BlackOld1(objs, color, age) <==> color[o].Black?
  {
  }

  // What an old object of a kind that does not wait refers to may be marked or not yet; of others it is all marked.
  lemma GraysUnfixed(objs: Graph, color: Colors, age: AgeMap, gray: seq<Ref>, wait: set<Ref>, done: seq<Ref>,
                     fixed: set<Ref>)
    requires Mid(objs, color, age, gray, wait, done, fixed, {})
    ensures NoDup(gray) && NoDup(done) && forall o :: o in gray ==> o in objs && o in color && o !in wait && o !in done
  {
    hide NoDup;
    forall o | o in gray ensures o in objs && o in color && o !in wait && o !in done {
      assert TintOk(objs[o].kind, color[o], age[o], o in gray, o in wait, o in done, o in fixed);
    }
  }

  // ----- what is marked -----

  ghost predicate AllReachable(objs: Graph, roots: set<Ref>, s: set<Ref>) {
    forall o :: o in s ==> Reachable(objs, roots, o)
  }

  /** Marking from `from` on: nothing is unmarked, and all that is marked can be reached from `from` and from what was
      marked before. */
  ghost predicate Spreads(objs: Graph, c0: Colors, c1: Colors, from: set<Ref>) {
    Grows(c0, c1) && AllReachable(objs, NonWhite(c0) + from, NonWhite(c1))
  }

  lemma ReachTwice(objs: Graph, a: set<Ref>, b: set<Ref>, s: set<Ref>)
    requires AllReachable(objs, a, b) && AllReachable(objs, b, s)
    ensures AllReachable(objs, a, s)
  {
    var r := iset o | Reachable(objs, a, o);
    forall o, v | o in r && o in objs && v in Succ(objs, o) ensures v in r { SuccReachable(objs, a, o, v); }
    ReachableInside(objs, b, r);
  }

  lemma RootsReachable(objs: Graph, roots: set<Ref>, s: set<Ref>)
    requires s <= roots
    ensures AllReachable(objs, roots, s)
  {
    forall o | o in s ensures Reachable(objs, roots, o) { RootReachable(objs, roots, o); }
  }

  lemma SpreadsRefl(objs: Graph, c: Colors, from: set<Ref>)
    ensures Spreads(objs, c, c, from)
  {
    RootsReachable(objs, NonWhite(c) + from, NonWhite(c));
  }

  lemma SpreadsOne(objs: Graph, c: Colors, o: Ref, x: Color)
    requires o in c && !x.White?
    ensures Spreads(objs, c, c[o := x], {o})
  {
    RootsReachable(objs, NonWhite(c) + {o}, NonWhite(c[o := x]));
  }

  // A marked object gets another colour, which is not white either.
  lemma SpreadsShade(objs: Graph, c: Colors, o: Ref, x: Color)
    requires Marked(c, o) && !x.White?
    ensures Spreads(objs, c, c[o := x], {})
  {
    RootsReachable(objs, NonWhite(c) + {}, NonWhite(c[o := x]));
  }

  lemma SpreadsMore(objs: Graph, c0: Colors, c1: Colors, from: set<Ref>, from': set<Ref>)
    requires Spreads(objs, c0, c1, from) && from <= from'
    ensures Spreads(objs, c0, c1, from')
  {
    RootsReachable(objs, NonWhite(c0) + from', NonWhite(c0) + from);
    ReachTwice(objs, NonWhite(c0) + from', NonWhite(c0) + from, NonWhite(c1));
  }

  lemma SpreadsTrans(objs: Graph, c0: Colors, c1: Colors, c2: Colors, from: set<Ref>)
    requires Spreads(objs, c0, c1, from) && Spreads(objs, c1, c2, from)
    ensures Spreads(objs, c0, c2, from)
  {
    RootsReachable(objs, NonWhite(c0) + from, from);
    assert AllReachable(objs, NonWhite(c0) + from, NonWhite(c1) + from);
    ReachTwice(objs, NonWhite(c0) + from, NonWhite(c1) + from, NonWhite(c2));
    hide Reachable;
  }

  // What a marked object refers to is no new start.
  lemma SpreadsOn(objs: Graph, c0: Colors, c1: Colors, from: set<Ref>, o: Ref)
    requires Spreads(objs, c0, c1, from) && Marked(c0, o) && o in objs && from <= Succ(objs, o)
    ensures Spreads(objs, c0, c1, {})
  {
    var b := NonWhite(c0) + {};
    RootReachable(objs, b, o);
    forall v | v in from ensures Reachable(objs, b, v) { SuccReachable(objs, b, o, v); }
    RootsReachable(objs, b, NonWhite(c0));
    assert AllReachable(objs, b, NonWhite(c0) + from);
    ReachTwice(objs, b, NonWhite(c0) + from, NonWhite(c1));
    hide Reachable;
  }

  /** What is marked in the end: if it contains the roots and all that its members refer to, exactly what can be reached
      from the roots and from what was marked before. */
  lemma SpreadsAll(objs: Graph, c0: Colors, c1: Colors, roots: set<Ref>)
    requires Spreads(objs, c0, c1, roots) && roots <= NonWhite(c1)
    requires forall o, v :: o in NonWhite(c1) && o in objs && v in Succ(objs, o) ==> v in NonWhite(c1)
    ensures forall o :: o in NonWhite(c1) <==> Reachable(objs, roots + NonWhite(c0), o)
  {
    var s := NonWhite(c1);
    assert NonWhite(c0) + roots == roots + NonWhite(c0);
    forall o | o in NonWhite(c0) ensures o in s { assert Marked(c0, o) && Marked(c1, o); }
    ReachableClosed(objs, roots + NonWhite(c0), s);
  }
}
