// What a young collection makes of the objects it marked.

module YoungSweep {
  import opened Heap
  import opened Mutation
  import opened Shades
  import opened Ages
  import opened YoungMarking
  import opened Sequences

  // `nextage`
  function NextAge(a: Age): Age {
    match a
    case New => Survival
    case Survival => Old1
    case Old0 => Old1
    case Old1 => Old
    case _ => a
  }

  // Ages change in the marking only for objects that it visits once more.
  predicate AgeStep(a0: Age, a1: Age) {
    a1 == a0 || ((a0.Old1? || a0.Touched2?) && a1.Old?)
  }

  ghost predicate AgeRel(a0: AgeMap, a1: AgeMap) {
    a1.Keys == a0.Keys && forall o :: o in a0 ==> AgeStep(a0[o], a1[o])
  }

  lemma AgeRelTrans(a0: AgeMap, a1: AgeMap, a2: AgeMap)
    requires AgeRel(a0, a1) && AgeRel(a1, a2)
    ensures AgeRel(a0, a2)
  {
    forall o | o in a0 ensures AgeStep(a0[o], a2[o]) {
      assert AgeStep(a0[o], a1[o]) && AgeStep(a1[o], a2[o]);
    }
  }

  // The marked members of a list, in their order.
  function Kept(l: seq<Ref>, k: set<Ref>): seq<Ref> {
    if l == [] then [] else Kept(l[..|l| - 1], k) + if l[|l| - 1] in k then [l[|l| - 1]] else []
  }

  lemma {:induction false} KeptIn(l: seq<Ref>, k: set<Ref>)
    ensures forall o :: o in Kept(l, k) <==> o in l && o in k
  {
    if l != [] {
      KeptIn(l[..|l| - 1], k);
      assert l == l[..|l| - 1] + [l[|l| - 1]];
    }
  }

  lemma {:induction false} KeptCount(l: seq<Ref>, k: set<Ref>, o: Ref)
    ensures multiset(Kept(l, k))[o] == if o in k then multiset(l)[o] else 0
  {
    if l != [] {
      KeptCount(l[..|l| - 1], k, o);
      assert l == l[..|l| - 1] + [l[|l| - 1]];
    }
  }

  // ----- the state after the collection -----

  function FinalAge(a: Age, swept: bool, again: bool): Age {
    if again && a.Touched1? then Touched2 else if swept then NextAge(a) else a
  }

  function FinalColor(c: Color, a: Age, swept: bool, again: bool): Color {
    if again && a.Touched1? then Black else if swept && a.New? then White else c
  }

  /** What the end of the marking says of an object that is kept: its age before and after the marking, its colour and
      whether it is in a segment that is swept. */
  ghost predicate KeptOk(k: Kind, c0: Color, a0: Age, c1: Color, a1: Age, swept: bool, again: bool, isFixed: bool) {
    && !c1.White? && AgeStep(a0, a1) && !a1.Old1? && !a1.Touched2?
    && TintOk(k, c1, a1, false, false, again, isFixed) && WatchOk(k, a1, false, false, again, false)
    && (a1.New? || a1.Survival? || a1.Old0? ==> swept)
    && (a0.Old? && !k.Thread? && !isFixed ==> c0.Black?) && ((a0.Old1? && !k.Thread?) || a0.Touched2? ==> c0.Black?)
  }

  lemma FinalShade(k: Kind, c0: Color, a0: Age, c1: Color, a1: Age, swept: bool, again: bool, isFixed: bool)
    requires KeptOk(k, c0, a0, c1, a1, swept, again, isFixed)
    ensures ShadeOk(k, FinalColor(c1, a1, swept, again), FinalAge(a1, swept, again), false, again, isFixed)
  {
  }

  // What a collection makes of the age of an object that it does not free.
  function Older(a: Age): Age {
    if a.New? then Survival else if a.Survival? || a.Old0? then Old1 else if a.Touched1? then Touched2 else Old
  }

  lemma FinalOlder(k: Kind, c0: Color, a0: Age, c1: Color, a1: Age, swept: bool, again: bool, isFixed: bool)
    requires KeptOk(k, c0, a0, c1, a1, swept, again, isFixed)
    ensures FinalAge(a1, swept, again) == Older(a0) && (FinalColor(c1, a1, swept, again).White? <==> a0.New?)
  {
  }

  lemma FinalRef(k: Kind, c0: Color, a0: Age, c1: Color, a1: Age, swept: bool, again: bool, isFixed: bool,
                 vk: Kind, vc0: Color, va0: Age, vc1: Color, va1: Age, vswept: bool, vagain: bool, vfixed: bool)
    requires KeptOk(k, c0, a0, c1, a1, swept, again, isFixed) && KeptOk(vk, vc0, va0, vc1, va1, vswept, vagain, vfixed)
    requires RefOk(k, c0, a0, vc0, va0) && !isFixed
    ensures RefOk(k, FinalColor(c1, a1, swept, again), FinalAge(a1, swept, again), FinalColor(vc1, va1, vswept, vagain),
                  FinalAge(va1, vswept, vagain))
  {
  }

  // A state that a collection left: the marked objects, their colours and ages.
  ghost predicate Final(objs: Graph, c1: Colors, a1: AgeMap, k: set<Ref>, swept: set<Ref>, done: seq<Ref>,
                        objs': Graph, c2: Colors, a2: AgeMap) {
    && objs'.Keys == k && c2.Keys == k && a2.Keys == k && k <= objs.Keys && k <= c1.Keys && k <= a1.Keys
    && (forall o :: o in k ==> objs'[o] == objs[o])
    && (forall o :: o in k ==> c2[o] == FinalColor(c1[o], a1[o], o in swept, o in done))
    && (forall o :: o in k ==> a2[o] == FinalAge(a1[o], o in swept, o in done))
  }

  ghost predicate AllKept(objs: Graph, c0: Colors, a0: AgeMap, c1: Colors, a1: AgeMap, k: set<Ref>, swept: set<Ref>,
                          done: seq<Ref>, fixed: set<Ref>) {
    forall o :: o in k ==>
      && o in objs && o in c0 && o in a0 && o in c1 && o in a1
      && KeptOk(objs[o].kind, c0[o], a0[o], c1[o], a1[o], o in swept, o in done, o in fixed)
  }

  lemma FinalGraph(objs: Graph, objs': Graph, k: set<Ref>)
    requires GraphOk(objs) && objs'.Keys == k <= objs.Keys && (forall o :: o in k ==> objs'[o] == objs[o])
    requires forall o, v :: o in k && v in Succ(objs, o) ==> v in k
    ensures GraphOk(objs') && forall o :: o in k ==> Succ(objs', o) == Succ(objs, o)
  {
    forall o | o in k ensures TypedObj(objs', o) && Succ(objs', o) == Succ(objs, o) { assert TypedObj(objs, o); }
  }

  lemma FinalValid(objs: Graph, c0: Colors, a0: AgeMap, gray0: seq<Ref>, again0: seq<Ref>, c1: Colors, a1: AgeMap,
                   k: set<Ref>, swept: set<Ref>,
                   done: seq<Ref>, fixed: set<Ref>, objs': Graph, c2: Colors, a2: AgeMap)
    requires Valid(objs, c0, a0, gray0, again0, fixed) && Final(objs, c1, a1, k, swept, done, objs', c2, a2)
    requires AllKept(objs, c0, a0, c1, a1, k, swept, done, fixed)
      && (forall o, v :: o in k && v in Succ(objs, o) ==> v in k)
    requires NoDup(done) && (forall o :: o in done ==> o in k) && fixed <= k
    ensures Valid(objs', c2, a2, [], done, fixed)
  {
    FinalGraph(objs, objs', k);
    hide GraphOk, Succ, NoDup, KeptOk, RefOk, ShadeOk, FinalAge, FinalColor;
    assert ShadesOk(objs', c2, a2, [], done, fixed) by {
      forall o | o in objs' ensures ShadeOk(objs'[o].kind, c2[o], a2[o], false, o in done, o in fixed) {
        FinalShade(objs[o].kind, c0[o], a0[o], c1[o], a1[o], o in swept, o in done, o in fixed);
      }
    }
    assert RefsOk(objs', c2, a2) by { FinalRefs(objs, c0, a0, gray0, again0, c1, a1, k, swept, done, fixed, objs', c2,
                                                a2); }
    assert GraysOk(objs', [], done) by { NoneTwice(); }
  }

  lemma NoneTwice()
    ensures NoDup([])
  {
  }

  lemma FinalRefs(objs: Graph, c0: Colors, a0: AgeMap, gray0: seq<Ref>, again0: seq<Ref>, c1: Colors, a1: AgeMap,
                  k: set<Ref>, swept: set<Ref>,
                  done: seq<Ref>, fixed: set<Ref>, objs': Graph, c2: Colors, a2: AgeMap)
    requires Valid(objs, c0, a0, gray0, again0, fixed) && Final(objs, c1, a1, k, swept, done, objs', c2, a2)
    requires AllKept(objs, c0, a0, c1, a1, k, swept, done, fixed)
      && (forall o, v :: o in k && v in Succ(objs, o) ==> v in k)
    requires forall o :: o in k ==> Succ(objs', o) == Succ(objs, o)
    ensures RefsOk(objs', c2, a2)
  {
    FixedLeaf(objs, c0, a0, gray0, again0, fixed);
    hide GraphOk, Succ, NoDup, KeptOk, RefOk, ShadeOk, FinalAge, FinalColor;
    forall o, v | o in objs' && v in Succ(objs', o) && o in c2 && o in a2 && v in c2 && v in a2
      ensures RefOk(objs'[o].kind, c2[o], a2[o], c2[v], a2[v])
    {
      assert v in Succ(objs, o) && RefOk(objs[o].kind, c0[o], a0[o], c0[v], a0[v]);
      FinalRef(objs[o].kind, c0[o], a0[o], c1[o], a1[o], o in swept, o in done, o in fixed,
               objs[v].kind, c0[v], a0[v], c1[v], a1[v], v in swept, v in done, v in fixed);
    }
  }

  lemma FixedLeaf(objs: Graph, c0: Colors, a0: AgeMap, gray0: seq<Ref>, again0: seq<Ref>, fixed: set<Ref>)
    requires Valid(objs, c0, a0, gray0, again0, fixed)
    ensures forall o :: o in fixed && o in objs ==> Succ(objs, o) == {}
  {
    forall o | o in fixed && o in objs ensures Succ(objs, o) == {} {
      assert ShadeOk(objs[o].kind, c0[o], a0[o], o in gray0, o in again0, true);
      assert TypedObj(objs, o);
    }
  }

  // The marking gives all that is needed of the objects that are kept.
  lemma KeptAll(objs: Graph, c0: Colors, a0: AgeMap, gray0: seq<Ref>, again0: seq<Ref>, c1: Colors, a1: AgeMap,
                k: set<Ref>,
                swept: set<Ref>, done: seq<Ref>, fixed: set<Ref>)
    requires ShadesOk(objs, c0, a0, gray0, again0, fixed) && Tints(objs, c1, a1, [], {}, done, fixed, {})
      && AgeRel(a0, a1)
    requires forall o :: o in a1 ==> !a1[o].Old1?
    requires k == (set o | o in objs && Marked(c1, o)) && fixed <= objs.Keys
    requires forall o :: o in objs && o in a0 && (a0[o].New? || a0[o].Survival? || a0[o].Old0?) ==> o in swept
    ensures AllKept(objs, c0, a0, c1, a1, k, swept, done, fixed)
    ensures (forall o :: o in done ==> o in k) && fixed <= k
    ensures forall o :: o in objs && o !in k ==> o in swept
  {
    forall o | o in objs
      ensures o in c0 && o in a0 && o in c1 && o in a1
      ensures o in k ==> KeptOk(objs[o].kind, c0[o], a0[o], c1[o], a1[o], o in swept, o in done, o in fixed)
      ensures (o in fixed || o in done ==> o in k) && (o !in k ==> o in swept)
    {
      assert ShadeOk(objs[o].kind, c0[o], a0[o], o in gray0, o in again0, o in fixed);
      assert TintOk(objs[o].kind, c1[o], a1[o], false, false, o in done, o in fixed);
      assert WatchOk(objs[o].kind, a1[o], false, false, o in done, false);
      assert AgeStep(a0[o], a1[o]);
    }
  }

  lemma KeptClosed(objs: Graph, c1: Colors, a1: AgeMap, k: set<Ref>, done: seq<Ref>, fixed: set<Ref>)
    requires Mid(objs, c1, a1, [], {}, done, fixed, {}) && k == (set o | o in objs && Marked(c1, o))
    ensures forall o, v :: o in k && v in Succ(objs, o) ==> v in k
  {
    forall o, v | o in k && v in Succ(objs, o) ensures v in k {
      MidClosed(objs, c1, a1, done, fixed, o);
      assert v in objs;
    }
  }

  // ----- sweeping a list -----

  // A state in which the objects in `done` were swept: `k` are those that were not white.
  ghost predicate SweptUpTo(o0: Graph, c0: Colors, a0: AgeMap, k: set<Ref>, done: set<Ref>, objs: Graph, color: Colors,
                            age: AgeMap) {
    && c0.Keys == o0.Keys && a0.Keys == o0.Keys && objs.Keys == o0.Keys - (done - k) && color.Keys == objs.Keys
    && age.Keys == objs.Keys
    && (forall o :: o in objs ==> objs[o] == o0[o])
    && (forall o :: o in objs ==> color[o] == if o in done && a0[o].New? then White else c0[o])
    && (forall o :: o in objs ==> age[o] == if o in done then NextAge(a0[o]) else a0[o])
  }

  lemma SweptNone(objs: Graph, color: Colors, age: AgeMap, k: set<Ref>)
    requires color.Keys == objs.Keys && age.Keys == objs.Keys
    ensures SweptUpTo(objs, color, age, k, {}, objs, color, age)
  {
  }

  lemma SweptFreed(o0: Graph, c0: Colors, a0: AgeMap, k: set<Ref>, done: set<Ref>, objs: Graph, color: Colors,
                   age: AgeMap, o: Ref)
    requires SweptUpTo(o0, c0, a0, k, done, objs, color, age) && o in o0 && o !in k
    ensures SweptUpTo(o0, c0, a0, k, done + {o}, objs - {o}, color - {o}, age - {o})
  {
  }

  lemma SweptAged(o0: Graph, c0: Colors, a0: AgeMap, k: set<Ref>, done: set<Ref>, objs: Graph, color: Colors,
                  age: AgeMap, o: Ref)
    requires SweptUpTo(o0, c0, a0, k, done, objs, color, age) && o in objs && o in k && o !in done
    ensures SweptUpTo(o0, c0, a0, k, done + {o}, objs, color[o := if age[o].New? then White else color[o]],
                      age[o := NextAge(age[o])])
  {
  }

  // Before an object is swept it is as it was.
  lemma SweptNext(o0: Graph, c0: Colors, a0: AgeMap, k: set<Ref>, done: set<Ref>, objs: Graph, color: Colors,
                  age: AgeMap, o: Ref)
    requires SweptUpTo(o0, c0, a0, k, done, objs, color, age) && o in o0 && o !in done
    ensures o in objs && o in color && o in age && color[o] == c0[o] && age[o] == a0[o]
  {
  }

  // Two lists, one after the other.
  lemma SweptTwice(o0: Graph, c0: Colors, a0: AgeMap, k: set<Ref>, d1: set<Ref>, o1: Graph, c1: Colors, a1: AgeMap,
                   k1: set<Ref>,
                   d2: set<Ref>, o2: Graph, c2: Colors, a2: AgeMap)
    requires SweptUpTo(o0, c0, a0, k, d1, o1, c1, a1) && SweptUpTo(o1, c1, a1, k1, d2, o2, c2, a2) && d1 !! d2
      && d2 <= o1.Keys
    requires forall o :: o in d2 ==> (o in k1 <==> o in k)
    ensures SweptUpTo(o0, c0, a0, k, d1 + d2, o2, c2, a2)
  {
  }

  lemma FirstDropped(a: AgeMap, l: seq<Ref>, first: Opt, o: Ref)
    requires FirstOk(a, l, first) && o !in l
    ensures FirstOk(a - {o}, l, first)
  {
  }

  lemma FirstAppended(a: AgeMap, a': AgeMap, l: seq<Ref>, first: Opt, o: Ref)
    requires FirstOk(a, l, first) && o !in l && o in a'
      && forall p :: p in l ==> (p in a <==> p in a') && (p in a ==> a'[p] == a[p])
    ensures FirstOk(a', l + [o], if a'[o].Old1? && first.None? then Some(o) else first)
  {
  }

  lemma KeptNext(l: seq<Ref>, i: int, k: set<Ref>)
    requires 0 <= i < |l|
    ensures Kept(l[..i + 1], k) == Kept(l[..i], k) + if l[i] in k then [l[i]] else []
    ensures forall o :: o in Kept(l[..i], k) ==> o in l[..i]
    ensures Members(l[..i + 1]) == Members(l[..i]) + {l[i]}
  {
    assert l[..i + 1][..i] == l[..i];
    assert l[..i + 1] == l[..i] + [l[i]];
    KeptIn(l[..i], k);
  }

  lemma {:induction false} KeptWhole(l: seq<Ref>, k: set<Ref>)
    requires forall o :: o in l ==> o in k
    ensures Kept(l, k) == l
  {
    if l != [] { KeptWhole(l[..|l| - 1], k); }
  }

  // ----- correcting the gray list -----

  // What `correctgraylist` makes of a member of the list, and whether it stays in it.
  function CorrectColor(k: Kind, c: Color, a: Age): Color {
    if c.White? then c else if a.Touched1? then Black else if k.Thread? then c else Black
  }

  function CorrectAge(k: Kind, c: Color, a: Age): Age {
    if c.White? then a else if a.Touched1? then Touched2 else if k.Thread? then a else if a.Touched2? then Old else a
  }

  predicate Remains(k: Kind, c: Color, a: Age) {
    !c.White? && (a.Touched1? || k.Thread?)
  }

  function RemainSet(objs: Graph, color: Colors, age: AgeMap): set<Ref> {
    set o | o in objs && o in color && o in age && Remains(objs[o].kind, color[o], age[o])
  }

  ghost predicate CorrectedUpTo(objs: Graph, c0: Colors, a0: AgeMap, done: set<Ref>, color: Colors, age: AgeMap) {
    && c0.Keys == objs.Keys && a0.Keys == objs.Keys && color.Keys == objs.Keys && age.Keys == objs.Keys
    && (forall o :: o in objs ==> color[o] == if o in done then CorrectColor(objs[o].kind, c0[o], a0[o]) else c0[o])
    && (forall o :: o in objs ==> age[o] == if o in done then CorrectAge(objs[o].kind, c0[o], a0[o]) else a0[o])
  }

  lemma CorrectedNone(objs: Graph, c: Colors, a: AgeMap)
    requires c.Keys == objs.Keys && a.Keys == objs.Keys
    ensures CorrectedUpTo(objs, c, a, {}, c, a)
  {
  }

  lemma CorrectedMore(objs: Graph, c0: Colors, a0: AgeMap, done: set<Ref>, color: Colors, age: AgeMap, o: Ref)
    requires CorrectedUpTo(objs, c0, a0, done, color, age) && o in objs && o !in done
    ensures o in color && o in age && o in c0 && o in a0 && color[o] == c0[o] && age[o] == a0[o]
    ensures CorrectedUpTo(objs, c0, a0, done + {o},
                          color[o := CorrectColor(objs[o].kind, color[o], age[o])],
                            age[o := CorrectAge(objs[o].kind, color[o], age[o])])
    ensures o in RemainSet(objs, c0, a0) <==> Remains(objs[o].kind, color[o], age[o])
  {
  }

  // Sweep and correction together make the final state.
  lemma SweptFinal(o0: Graph, c1: Colors, a1: AgeMap, k: set<Ref>, swept: set<Ref>, objs: Graph, cm: Colors, am: AgeMap,
                   done: seq<Ref>,
                   c2: Colors, a2: AgeMap)
    requires SweptUpTo(o0, c1, a1, k, swept, objs, cm, am) && CorrectedUpTo(objs, cm, am, Members(done), c2, a2)
    requires k <= o0.Keys && forall o :: o in o0 && o !in k ==> o in swept
    requires forall o :: o in done ==> o in objs && Remains(objs[o].kind, cm[o], am[o])
    ensures Final(o0, c1, a1, k, swept, done, objs, c2, a2)
  {
    assert objs.Keys == k;
    forall o | o in k
      ensures c2[o] == FinalColor(c1[o], a1[o], o in swept, o in done)
        && a2[o] == FinalAge(a1[o], o in swept, o in done) {
      assert o in objs;
    }
  }

  // ----- the lists after the collection -----

  lemma {:induction false} KeptSame(l: seq<Ref>, k: set<Ref>, k': set<Ref>)
    requires forall o :: o in l ==> (o in k <==> o in k')
    ensures Kept(l, k) == Kept(l, k')
  {
    if l != [] { KeptSame(l[..|l| - 1], k, k'); }
  }

  lemma FinalSegments(objs: Graph, a0: AgeMap, a1: AgeMap, k: set<Ref>, nursery: seq<Ref>, survival: seq<Ref>,
                      old1: seq<Ref>, rest: seq<Ref>,
                      fixed: set<Ref>, done: seq<Ref>, objs': Graph, c1: Colors, c2: Colors, a2: AgeMap)
    requires SegmentsOk(objs, a0, nursery, survival, old1, rest, fixed) && AgeRel(a0, a1)
    requires Final(objs, c1, a1, k, Members(nursery) + Members(survival), done, objs', c2, a2)
    requires forall o :: o in objs && o !in k ==> o in nursery || o in survival
    requires forall o :: o in a1 ==> !a1[o].Old1?
    ensures SegmentsOk(objs', a2, [], Kept(nursery, k), Kept(survival, k), old1 + rest, fixed)
  {
    FinalCounts(objs, a0, k, nursery, survival, old1, rest, fixed);
    KeptIn(nursery, k);
    KeptIn(survival, k);
    FinalAges(objs, a0, a1, k, nursery, survival, old1, rest, fixed, done, objs', c1, c2, a2);
    hide Kept, FinalAge, NextAge, AgeRel, FinalColor;
    assert multiset([]) + multiset(Kept(nursery, k)) == multiset(Kept(nursery, k));
  }

  lemma FinalAges(objs: Graph, a0: AgeMap, a1: AgeMap, k: set<Ref>, nursery: seq<Ref>, survival: seq<Ref>,
                  old1: seq<Ref>, rest: seq<Ref>,
                  fixed: set<Ref>, done: seq<Ref>, objs': Graph, c1: Colors, c2: Colors, a2: AgeMap)
    requires SegmentsOk(objs, a0, nursery, survival, old1, rest, fixed) && AgeRel(a0, a1)
    requires Final(objs, c1, a1, k, Members(nursery) + Members(survival), done, objs', c2, a2)
    requires forall o :: o in a1 ==> !a1[o].Old1?
    ensures forall o :: o in objs' ==> !a2[o].New? && !a2[o].Old0? && (a2[o].Survival? ==> o in nursery)
    ensures forall o :: o in objs' && a2[o].Old1? ==> o in nursery || o in survival
  {
    forall o | o in objs'
      ensures !a2[o].New? && !a2[o].Old0? && (a2[o].Survival? ==> o in nursery)
        && (a2[o].Old1? ==> o in nursery || o in survival)
    {
      assert AgeStep(a0[o], a1[o]);
      assert a2[o] == FinalAge(a1[o], o in Members(nursery) + Members(survival), o in done);
    }
  }

  // Every object is counted once.
  lemma SegmentsCount(objs: Graph, a0: AgeMap, nursery: seq<Ref>, survival: seq<Ref>, old1: seq<Ref>, rest: seq<Ref>,
                      fixed: set<Ref>, o: Ref)
    requires SegmentsOk(objs, a0, nursery, survival, old1, rest, fixed)
    ensures multiset(nursery)[o] + multiset(survival)[o] + multiset(old1)[o] + multiset(rest)[o] + multiset(fixed)[o]
      == if o in objs then 1 else 0
  {
    var total := multiset(nursery) + multiset(survival) + multiset(old1) + multiset(rest) + multiset(fixed);
    assert total[o] == multiset(objs.Keys)[o];
  }

  lemma FinalCount(objs: Graph, a0: AgeMap, k: set<Ref>, nursery: seq<Ref>, survival: seq<Ref>, old1: seq<Ref>,
                   rest: seq<Ref>, fixed: set<Ref>,
                   o: Ref)
    requires SegmentsOk(objs, a0, nursery, survival, old1, rest, fixed) && k <= objs.Keys
    requires o in objs && o !in k ==> o in nursery || o in survival
    ensures multiset(Kept(nursery, k))[o] + multiset(Kept(survival, k))[o] + multiset(old1)[o] + multiset(rest)[o]
      + multiset(fixed)[o]
      == if o in k then 1 else 0
  {
    hide SegmentsOk, Kept;
    SegmentsCount(objs, a0, nursery, survival, old1, rest, fixed, o);
    KeptCount(nursery, k, o);
    KeptCount(survival, k, o);
    assert o in nursery <==> multiset(nursery)[o] > 0;
    assert o in survival <==> multiset(survival)[o] > 0;
  }

  lemma FinalCounts(objs: Graph, a0: AgeMap, k: set<Ref>, nursery: seq<Ref>, survival: seq<Ref>, old1: seq<Ref>,
                    rest: seq<Ref>, fixed: set<Ref>)
    requires SegmentsOk(objs, a0, nursery, survival, old1, rest, fixed) && k <= objs.Keys
    requires forall o :: o in objs && o !in k ==> o in nursery || o in survival
    ensures multiset(Kept(nursery, k)) + multiset(Kept(survival, k)) + multiset(old1 + rest) + multiset(fixed)
      == multiset(k)
  {
    hide SegmentsOk, Kept;
    assert multiset(old1 + rest) == multiset(old1) + multiset(rest);
    forall o
      ensures multiset(Kept(nursery, k))[o] + multiset(Kept(survival, k))[o] + multiset(old1)[o] + multiset(rest)[o]
        + multiset(fixed)[o] == multiset(k)[o]
    {
      FinalCount(objs, a0, k, nursery, survival, old1, rest, fixed, o);
    }
  }

  // The first object old for one cycle, over both lists that were swept.
  lemma FirstBoth(a: AgeMap, n: seq<Ref>, s: seq<Ref>, f: Opt, f': Opt)
    requires FirstOk(a, n, f) && (if f.Some? then f' == f else FirstOk(a, s, f')) && forall o :: o in n ==> o !in s
    ensures FirstOk(a, n + s, f')
  {
  }

  lemma FirstSameAges(a: AgeMap, a': AgeMap, l: seq<Ref>, f: Opt)
    requires FirstOk(a, l, f) && forall o :: o in l && o in a' ==> o in a && (a'[o].Old1? ==> a[o].Old1?)
    ensures FirstOk(a', l, f)
  {
  }

  // ----- a collection as a whole -----

  /** The marking of a collection: the objects, their colours and ages before and after it, the gray lists before it,
      the objects marked, the list for the next collection, and the segments. */
  datatype Run = Run(objs: Graph, c0: Colors, a0: AgeMap, gray0: seq<Ref>, again0: seq<Ref>, c1: Colors, a1: AgeMap,
                     k: set<Ref>, done: seq<Ref>,
                     nursery: seq<Ref>, survival: seq<Ref>, old1: seq<Ref>, rest: seq<Ref>)

  ghost function SweptSet(r: Run): set<Ref> {
    Members(r.nursery) + Members(r.survival)
  }

  ghost predicate RunOk(r: Run, fixed: set<Ref>) {
    && Valid(r.objs, r.c0, r.a0, r.gray0, r.again0, fixed)
    && SegmentsOk(r.objs, r.a0, r.nursery, r.survival, r.old1, r.rest, fixed)
    && AgeRel(r.a0, r.a1) && (forall o :: o in r.a1 ==> !r.a1[o].Old1?)
    && r.k <= r.objs.Keys && r.c1.Keys == r.objs.Keys && r.a1.Keys == r.objs.Keys
    && AllKept(r.objs, r.c0, r.a0, r.c1, r.a1, r.k, SweptSet(r), r.done, fixed)
    && (forall o, v :: o in r.k && v in Succ(r.objs, o) ==> v in r.k)
    && NoDup(r.done) && (forall o :: o in r.done ==> o in r.k) && fixed <= r.k
    && (forall o :: o in r.objs && o !in r.k ==> o in SweptSet(r))
    && (forall o :: o in r.done ==> o in r.objs && o in r.a1 && (r.a1[o].Touched1? || r.objs[o].kind.Thread?))
  }

  // All members of the list for the next collection remain in it.
  lemma RunRemains(r: Run, fixed: set<Ref>, objs: Graph, cm: Colors, am: AgeMap)
    requires RunOk(r, fixed) && SweptUpTo(r.objs, r.c1, r.a1, r.k, SweptSet(r), objs, cm, am)
    ensures forall o :: o in r.done ==> o in objs && o in cm && o in am && Remains(objs[o].kind, cm[o], am[o])
    ensures cm.Keys == objs.Keys && am.Keys == objs.Keys
  {
    hide Valid, SegmentsOk, Succ;
    forall o | o in r.done ensures o in objs && o in cm && o in am && Remains(objs[o].kind, cm[o], am[o]) {
      assert o in r.k && KeptOk(r.objs[o].kind, r.c0[o], r.a0[o], r.c1[o], r.a1[o], o in SweptSet(r), true, o in fixed);
    }
  }

  lemma RunFinal(r: Run, fixed: set<Ref>, objs: Graph, cm: Colors, am: AgeMap, c2: Colors, a2: AgeMap)
    requires RunOk(r, fixed) && SweptUpTo(r.objs, r.c1, r.a1, r.k, SweptSet(r), objs, cm, am)
    requires CorrectedUpTo(objs, cm, am, Members(r.done), c2, a2)
    ensures Valid(objs, c2, a2, [], r.done, fixed)
    ensures SegmentsOk(objs, a2, [], Kept(r.nursery, r.k), Kept(r.survival, r.k), r.old1 + r.rest, fixed)
    ensures Final(r.objs, r.c1, r.a1, r.k, SweptSet(r), r.done, objs, c2, a2)
  {
    hide Valid, SegmentsOk, Succ, AllKept, AgeRel, SweptUpTo, CorrectedUpTo, Final, NoDup;
    RunRemains(r, fixed, objs, cm, am);
    SweptFinal(r.objs, r.c1, r.a1, r.k, SweptSet(r), objs, cm, am, r.done, c2, a2);
    FinalValid(r.objs, r.c0, r.a0, r.gray0, r.again0, r.c1, r.a1, r.k, SweptSet(r), r.done, fixed, objs, c2, a2);
    FinalSegments(r.objs, r.a0, r.a1, r.k, r.nursery, r.survival, r.old1, r.rest, fixed, r.done, objs, r.c1, c2, a2);
  }

  // The corrections make no object old for one cycle.
  lemma RunFirst(r: Run, fixed: set<Ref>, objs: Graph, cm: Colors, am: AgeMap, c2: Colors, a2: AgeMap, l: seq<Ref>,
                 f: Opt)
    requires CorrectedUpTo(objs, cm, am, Members(r.done), c2, a2) && FirstOk(am, l, f)
    ensures FirstOk(a2, l, f)
  {
    hide FirstOk;
    assert forall o :: o in l && o in a2 ==> o in am && (a2[o].Old1? ==> am[o].Old1?);
    FirstSameAges(am, a2, l, f);
  }

  // Marked roots stay, and an old object stays old.
  lemma RunOld(r: Run, fixed: set<Ref>, objs: Graph, c2: Colors, a2: AgeMap, o: Ref)
    requires AgeRel(r.a0, r.a1) && Final(r.objs, r.c1, r.a1, r.k, SweptSet(r), r.done, objs, c2, a2)
    requires o in r.k && o in r.a0 && IsOld(r.a0[o])
    ensures o in a2 && IsOld(a2[o])
  {
    assert AgeStep(r.a0[o], r.a1[o]);
  }

  // Every object kept is one collection older, and white only if it was new.
  lemma RunOlder(r: Run, fixed: set<Ref>, objs: Graph, c2: Colors, a2: AgeMap)
    requires RunOk(r, fixed) && Final(r.objs, r.c1, r.a1, r.k, SweptSet(r), r.done, objs, c2, a2)
    ensures objs.Keys == r.k
    ensures forall o :: o in objs ==> o in a2 && o in r.a0 && a2[o] == Older(r.a0[o])
    ensures forall o :: o in objs ==> (Marked(c2, o) <==> !r.a0[o].New?)
  {
    hide Valid, SegmentsOk, Succ, FinalAge, FinalColor, Older, KeptOk, NoDup, AgeRel;
    forall o | o in objs
      ensures o in a2 && o in r.a0 && a2[o] == Older(r.a0[o]) && (Marked(c2, o) <==> !r.a0[o].New?) {
      FinalOlder(r.objs[o].kind, r.c0[o], r.a0[o], r.c1[o], r.a1[o], o in SweptSet(r), o in r.done, o in fixed);
    }
  }

  lemma RunReachable(r: Run, fixed: set<Ref>, objs: Graph, c2: Colors, a2: AgeMap, roots: set<Ref>)
    requires RunOk(r, fixed) && Final(r.objs, r.c1, r.a1, r.k, SweptSet(r), r.done, objs, c2, a2) && roots <= r.k
    ensures objs.Keys <= r.objs.Keys && (forall o :: o in objs ==> objs[o] == r.objs[o])
    ensures forall o :: Reachable(r.objs, roots, o) ==> o in objs
  {
    hide Valid, SegmentsOk, Reachable, Succ, AllKept;
    ReachableClosed(r.objs, roots, r.k);
  }

  // ----- entering the generational mode -----

  // A marking is over: what is marked refers only to what is marked, and so are the roots.
  ghost predicate AfterMarking(objs: Graph, color: Colors, l: seq<Ref>, fixed: set<Ref>, main: Ref, registry: Ref,
                               next: Ref) {
    && GraphOk(objs) && color.Keys == objs.Keys && multiset(l) + multiset(fixed) == multiset(objs.Keys)
    && Below(objs, next)
    && (forall o, v :: o in objs && Marked(color, o) && v in Succ(objs, o) ==> Marked(color, v))
    && (forall o :: o in fixed ==> o in objs && objs[o].kind.Leaf? && color[o].Gray?)
    && main in objs && objs[main].kind.Thread? && Marked(color, main) && registry in objs && Marked(color, registry)
  }

  // What `sweep2old` made of the objects in `done`: `k` are those that were not white.
  ghost predicate OldUpTo(o0: Graph, c0: Colors, k: set<Ref>, done: set<Ref>, objs: Graph, color: Colors, age: AgeMap,
                          again: seq<Ref>) {
    && c0.Keys == o0.Keys && objs.Keys == o0.Keys - (done - k) && color.Keys == objs.Keys && NoDup(again)
    && (forall o :: o in objs ==> objs[o] == o0[o])
    && (forall o :: o in objs ==> color[o] == if o in done then (if objs[o].kind.Thread? then Gray else Black)
       else c0[o])
    && (forall o :: o in done && o in k ==> o in age && age[o].Old?)
    && (forall o :: o in again <==> o in done && o in k && o in o0 && o0[o].kind.Thread?)
    && (forall o :: o in age ==> o in done)
  }

  lemma OldNone(objs: Graph, color: Colors, k: set<Ref>)
    requires color.Keys == objs.Keys
    ensures OldUpTo(objs, color, k, {}, objs, color, map[], [])
  {
  }

  lemma OldFreed(o0: Graph, c0: Colors, k: set<Ref>, done: set<Ref>, objs: Graph, color: Colors, age: AgeMap,
                 again: seq<Ref>, o: Ref)
    requires OldUpTo(o0, c0, k, done, objs, color, age, again) && o in o0 && o !in k && o !in done
    ensures OldUpTo(o0, c0, k, done + {o}, objs - {o}, color - {o}, age, again)
  {
  }

  lemma OldAged(o0: Graph, c0: Colors, k: set<Ref>, done: set<Ref>, objs: Graph, color: Colors, age: AgeMap,
                again: seq<Ref>, o: Ref)
    requires OldUpTo(o0, c0, k, done, objs, color, age, again) && o in objs && o in k && o !in done
    ensures objs[o].kind.Thread? ==> OldUpTo(o0, c0, k, done + {o}, objs, color[o := Gray], age[o := Old], [o] + again)
    ensures !objs[o].kind.Thread? ==> OldUpTo(o0, c0, k, done + {o}, objs, color[o := Black], age[o := Old], again)
  {
  }

  // The fixed objects are old too; then the invariant holds.
  lemma OldValid(o0: Graph, c0: Colors, k: set<Ref>, l: seq<Ref>, objs: Graph, color: Colors, age: AgeMap,
                 again: seq<Ref>, fixed: set<Ref>,
                 age': AgeMap, main: Ref, registry: Ref, next: Ref)
    requires OldUpTo(o0, c0, k, Members(l), objs, color, age, again)
      && AfterMarking(o0, c0, l, fixed, main, registry, next)
    requires k == (set o | o in c0 && !c0[o].White?) && (forall o :: o in l ==> o !in fixed)
      && Members(l) + fixed == o0.Keys
    requires age'.Keys == objs.Keys && forall o :: o in objs ==> age'[o].Old?
    ensures Valid(objs, color, age', [], again, fixed) && objs.Keys == k
  {
    MarkedAfter(o0, c0, k, l, objs, color, age, again, fixed, main, registry, next);
    OldShades(o0, c0, k, l, objs, color, age, again, fixed, age');
    OldGrays(o0, c0, k, l, objs, color, age, again);
    hide OldUpTo, AfterMarking, GraphOk, Succ, ShadesOk, GraysOk;
  }

  lemma MarkedAfter(o0: Graph, c0: Colors, k: set<Ref>, l: seq<Ref>, objs: Graph, color: Colors, age: AgeMap,
                    again: seq<Ref>, fixed: set<Ref>,
                  main: Ref, registry: Ref, next: Ref)
    requires OldUpTo(o0, c0, k, Members(l), objs, color, age, again)
      && AfterMarking(o0, c0, l, fixed, main, registry, next)
    requires k == (set o | o in c0 && !c0[o].White?) && (forall o :: o in l ==> o !in fixed)
      && Members(l) + fixed == o0.Keys
    ensures objs.Keys == color.Keys == k && fixed <= k && GraphOk(objs)
  {
    assert objs.Keys == k;
    assert forall o :: o in k <==> o in o0 && Marked(c0, o);
    FinalGraph(o0, objs, k);
  }

  lemma OldGrays(o0: Graph, c0: Colors, k: set<Ref>, l: seq<Ref>, objs: Graph, color: Colors, age: AgeMap,
                 again: seq<Ref>)
    requires OldUpTo(o0, c0, k, Members(l), objs, color, age, again) && objs.Keys == k
    ensures GraysOk(objs, [], again)
  {
  }

  lemma OldSame(o0: Graph, c0: Colors, k: set<Ref>, done: set<Ref>, objs: Graph, color: Colors, age: AgeMap,
                again: seq<Ref>)
    requires OldUpTo(o0, c0, k, done, objs, color, age, again)
    ensures objs.Keys == o0.Keys - (done - k) && color.Keys == objs.Keys && forall o :: o in objs ==> objs[o] == o0[o]
  {
  }

  lemma OldShades(o0: Graph, c0: Colors, k: set<Ref>, l: seq<Ref>, objs: Graph, color: Colors, age: AgeMap,
                  again: seq<Ref>, fixed: set<Ref>, age': AgeMap)
    requires OldUpTo(o0, c0, k, Members(l), objs, color, age, again) && objs.Keys == k && Members(l) + fixed == o0.Keys
    requires (forall o :: o in l ==> o !in fixed) && age'.Keys == objs.Keys && forall o :: o in objs ==> age'[o].Old?
    requires forall o :: o in fixed ==> o in o0 && o0[o].kind.Leaf? && o in c0 && c0[o].Gray?
    ensures ShadesOk(objs, color, age', [], again, fixed)
  {
    forall o | o in objs ensures ShadeOk(objs[o].kind, color[o], age'[o], false, o in again, o in fixed) {
      assert o in Members(l) || o in fixed;
    }
  }

  lemma OldSegments(objs: Graph, k: set<Ref>, l: seq<Ref>, fixed: set<Ref>, objs': Graph, age: AgeMap)
    requires multiset(l) + multiset(fixed) == multiset(objs.Keys) && objs'.Keys == k && fixed <= k <= objs.Keys
      && age.Keys == k
    requires forall o :: o in k ==> age[o].Old?
    ensures SegmentsOk(objs', age, [], [], [], Kept(l, k), fixed) && FirstOk(age, [], None)
  {
    var after := multiset(Kept(l, k)) + multiset(fixed);
    forall o ensures after[o] == multiset(k)[o] {
      KeptCount(l, k, o);
      assert (multiset(l) + multiset(fixed))[o] == multiset(objs.Keys)[o];
    }
    assert after == multiset(k);
    var none: seq<Ref> := [];
    assert multiset(none) + multiset(none) + multiset(none) + multiset(Kept(l, k)) + multiset(fixed)
      == multiset(objs'.Keys);
  }

  lemma AfterParts(objs: Graph, color: Colors, l: seq<Ref>, fixed: set<Ref>, main: Ref, registry: Ref, next: Ref)
    requires AfterMarking(objs, color, l, fixed, main, registry, next)
    ensures color.Keys == objs.Keys && Below(objs, next) && main in objs && registry in objs && objs[main].kind.Thread?
    ensures multiset(l) + multiset(fixed) == multiset(objs.Keys) && Marked(color, main) && Marked(color, registry)
    ensures forall o :: o in fixed ==> o in objs && Marked(color, o)
  {
  }
}
