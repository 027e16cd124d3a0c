// Objects of the generational mode: colours, ages, and what they say between two young collections.

module Ages {
  import opened Heap
  import opened Mutation
  import opened Shades
  import opened Sequences

  datatype Age = New | Survival | Old0 | Old1 | Old | Touched1 | Touched2

  type AgeMap = map<Ref, Age>

  // `isold`
  predicate IsOld(a: Age) {
    !a.New? && !a.Survival?
  }

  // Upvalues are closed, and no reference dangles.
  ghost predicate GraphOk(objs: Graph) {
    && Typed(objs) && (forall o :: o in objs ==> !objs[o].kind.Open? && objs[o].uvs == {})
    && (forall o, v :: o in objs && v in Succ(objs, o) ==> v in objs)
  }

  // ----- between two young collections -----

  // The colour that an object of each age has, and the list that it waits in.
  ghost predicate ShadeOk(k: Kind, c: Color, a: Age, inGray: bool, inAgain: bool, isFixed: bool) {
    && (isFixed ==> k.Leaf? && c.Gray? && a.Old? && !inGray && !inAgain)
    && (inGray ==> c.Gray? && Listable(k) && (a.New? || a.Survival? || a.Old0?))
    && (inAgain ==> a.Touched1? || a.Touched2? || (k.Thread? && (a.Old? || a.Old1?)))
    && (c.Gray? && !isFixed ==> inGray || inAgain)
    && (c.Black? ==> !inGray && (inAgain ==> a.Touched2?))
    && (IsOld(a) ==> !c.White?)
    && (a.New? || a.Survival? || a.Old0? ==> c.White? || inGray || (c.Black? && !Listable(k)))
    && (a.Touched1? ==> c.Gray? && k.Box? && inAgain)
    && (a.Touched2? ==> c.Black? && k.Box? && inAgain)
    && (a.Old? && k.Thread? ==> c.Gray? && inAgain)
  }

  ghost predicate ShadesOk(objs: Graph, color: Colors, age: AgeMap, gray: seq<Ref>, again: seq<Ref>, fixed: set<Ref>) {
    forall o :: o in objs ==> o in color && o in age
                              && ShadeOk(objs[o].kind, color[o], age[o], o in gray, o in again, o in fixed)
  }

  /** What a black object may refer to, by its age: an old object that will not be visited refers to old objects only,
      one that the next collection visits to none created since the last, and any other to none that is white. Threads
      are written without barriers. */
  ghost predicate RefOk(k: Kind, c: Color, a: Age, vc: Color, va: Age) {
    c.Black? && !k.Thread? ==>
      && (a.Old? ==> IsOld(va))
      && (a.Old1? || a.Touched2? ==> !va.New?)
      && (a.New? || a.Survival? || a.Old0? ==> !vc.White?)
  }

  ghost predicate RefsOk(objs: Graph, color: Colors, age: AgeMap) {
    forall o, v :: o in objs && v in Succ(objs, o) && o in color && o in age && v in color && v in age ==>
      RefOk(objs[o].kind, color[o], age[o], color[v], age[v])
  }

  ghost predicate GraysOk(objs: Graph, gray: seq<Ref>, again: seq<Ref>) {
    && NoDup(gray) && NoDup(again) && (forall o :: o in gray ==> o !in again)
    && (forall o :: o in gray || o in again ==> o in objs)
  }

  /** The list of all objects in its segments: created since the last collection, survivors of one, objects that became
      old in the last one, and the rest. */
  ghost predicate SegmentsOk(objs: Graph, age: AgeMap, nursery: seq<Ref>, survival: seq<Ref>, old1: seq<Ref>,
                             rest: seq<Ref>, fixed: set<Ref>) {
    && multiset(nursery) + multiset(survival) + multiset(old1) + multiset(rest) + multiset(fixed) == multiset(objs.Keys)
    && age.Keys == objs.Keys
    && (forall o :: o in objs ==>
        && (age[o].New? ==> o in nursery)
        && (age[o].Survival? ==> o in survival)
        && (age[o].Old0? ==> o in nursery || o in survival)
        && (age[o].Old1? ==> o in survival || o in old1))
  }

  // `firstold1` is at or before the first object that is old for one cycle.

  ghost predicate FirstOk(age: AgeMap, l: seq<Ref>, first: Opt) {
    && (first.None? ==> forall o :: o in l && o in age ==> !age[o].Old1?)
    && (first.Some? ==> first.r in l && forall i, j :: 0 <= i < j < |l| && l[j] == first.r && l[i] in age ==>
                      !age[l[i]].Old1?)
  }

  ghost predicate Valid(objs: Graph, color: Colors, age: AgeMap, gray: seq<Ref>, again: seq<Ref>, fixed: set<Ref>) {
    && GraphOk(objs) && color.Keys == objs.Keys && age.Keys == objs.Keys && fixed <= objs.Keys
    && ShadesOk(objs, color, age, gray, again, fixed) && RefsOk(objs, color, age) && GraysOk(objs, gray, again)
  }

  // ----- stores -----

  /** The store `o.k := v` that no barrier sees, since `v` is not white, though `v` is too young for `o`. */
  predicate Escapes(color: Colors, age: AgeMap, o: Ref, v: Ref)
    requires o in color && o in age && v in color && v in age
  {
    color[o].Black? && !color[v].White?
    && ((age[o].Old? && !IsOld(age[v])) || ((age[o].Old1? || age[o].Touched2?) && age[v].New?))
  }

  lemma PutGraph(objs: Graph, o: Ref, k: nat, v: Ref)
    requires GraphOk(objs) && o in objs && v in objs && Storable(objs, o, k, v)
    ensures GraphOk(Put(objs, o, k, v)) && Put(objs, o, k, v).Keys == objs.Keys
    ensures forall p :: p in objs ==> Put(objs, o, k, v)[p].kind == objs[p].kind
    ensures forall p :: p in objs && p != o ==> Succ(Put(objs, o, k, v), p) == Succ(objs, p)
    ensures Succ(Put(objs, o, k, v), o) <= Succ(objs, o) + {v} && v in Succ(Put(objs, o, k, v), o)
  {
    PutTyped(objs, o, k, v);
    var objs' := Put(objs, o, k, v);
    assert objs'[o].fields.Values <= objs[o].fields.Values + {v};
    assert k in objs'[o].fields;
    hide Typed;
  }

  // A store that needs no barrier keeps the invariant exactly when nothing escapes by it.
  lemma PlainStore(objs: Graph, color: Colors, age: AgeMap, gray: seq<Ref>, again: seq<Ref>, fixed: set<Ref>, o: Ref,
                   k: nat, v: Ref)
    requires Valid(objs, color, age, gray, again, fixed) && o in objs && v in objs && Storable(objs, o, k, v)
    requires objs[o].kind.Thread? || !(color[o].Black? && color[v].White?)
    ensures Valid(Put(objs, o, k, v), color, age, gray, again, fixed) <==>
              objs[o].kind.Thread? || !Escapes(color, age, o, v)
  {
    PutGraph(objs, o, k, v);
    hide GraphOk, Put, Succ, ShadeOk;
    var objs' := Put(objs, o, k, v);
    assert ShadesOk(objs', color, age, gray, again, fixed);
    assert GraysOk(objs', gray, again);
    if objs[o].kind.Thread? || !Escapes(color, age, o, v) {
      assert RefsOk(objs', color, age);
    } else {
      assert !RefOk(objs'[o].kind, color[o], age[o], color[v], age[v]);
    }
  }

  // ----- what marking does -----

  /** White objects were turned gray and put in the gray list, or black when they do not wait; all that the new black
      ones refer to is marked, but for those in `hot`, which are being visited. */
  ghost predicate MarkRel(objs: Graph, c0: Colors, g0: seq<Ref>, c1: Colors, g1: seq<Ref>, hot: set<Ref>) {
    && c1.Keys == c0.Keys
    && (forall o :: o in c0 && c1[o] != c0[o] ==>
        c0[o].White? && o in objs && if Listable(objs[o].kind) then c1[o].Gray? && o in g1 else c1[o].Black?)
    && (forall o :: o in g0 ==> o in g1)
    && (forall o :: o in g1 && o !in g0 ==>
          o in c0 && c0[o].White? && c1[o].Gray? && o in objs && Listable(objs[o].kind))
    && (NoDup(g0) && (forall o :: o in g0 ==> Marked(c0, o)) ==> NoDup(g1))
    && (forall o, v :: o in c0 && c0[o].White? && c1[o].Black? && o !in hot && o in objs && v in Succ(objs, o) ==>
          Marked(c1, v))
  }

  lemma MarkRelRefl(objs: Graph, c: Colors, g: seq<Ref>, hot: set<Ref>)
    ensures MarkRel(objs, c, g, c, g, hot)
  {
  }

  lemma MarkRelGrows(objs: Graph, c0: Colors, g0: seq<Ref>, c1: Colors, g1: seq<Ref>, hot: set<Ref>)
    requires MarkRel(objs, c0, g0, c1, g1, hot)
    ensures c1.Keys == c0.Keys && forall o :: Marked(c0, o) ==> Marked(c1, o) && c1[o] == c0[o]
  {
  }

  lemma MarkRelTrans(objs: Graph, c0: Colors, g0: seq<Ref>, c1: Colors, g1: seq<Ref>, c2: Colors, g2: seq<Ref>,
                     hot: set<Ref>)
    requires MarkRel(objs, c0, g0, c1, g1, hot) && MarkRel(objs, c1, g1, c2, g2, hot)
    ensures MarkRel(objs, c0, g0, c2, g2, hot)
  {
    MarkRelGrows(objs, c0, g0, c1, g1, hot);
    MarkRelGrows(objs, c1, g1, c2, g2, hot);
    hide Succ, NoDup;
    assert (forall o :: o in g0 ==> Marked(c0, o)) ==> forall o :: o in g1 ==> Marked(c1, o);
    forall o, v | o in c0 && c0[o].White? && c2[o].Black? && o !in hot && o in objs && v in Succ(objs, o)
      ensures Marked(c2, v) {
      if !c1[o].White? { assert Marked(c1, v); }
    }
  }

  // A white object that waits.
  lemma MarkRelLink(objs: Graph, c: Colors, g: seq<Ref>, o: Ref, hot: set<Ref>)
    requires o in objs && Listable(objs[o].kind) && o in c && c[o].White?
    ensures MarkRel(objs, c, g, c[o := Gray], [o] + g, hot)
  {
    if NoDup(g) && forall p :: p in g ==> Marked(c, p) { assert o !in g; }
  }

  // A white object that is visited at once.
  lemma MarkRelBlack(objs: Graph, c: Colors, g: seq<Ref>, o: Ref, hot: set<Ref>)
    requires o in objs && !Listable(objs[o].kind) && o in c && c[o].White?
    ensures MarkRel(objs, c, g, c[o := Black], g, hot + {o})
  {
  }

  // The visit is over.
  lemma MarkRelCool(objs: Graph, c0: Colors, g0: seq<Ref>, c1: Colors, g1: seq<Ref>, hot: set<Ref>, o: Ref)
    requires MarkRel(objs, c0, g0, c1, g1, hot + {o}) && o in objs && forall v :: v in Succ(objs, o) ==> Marked(c1, v)
    ensures MarkRel(objs, c0, g0, c1, g1, hot)
  {
    hide Succ;
  }

  // ----- barriers -----

  /** `luaC_barrier_` after a store: what is marked from `v` on, and `v` old if `o` is. */
  lemma ForwardStore(objs: Graph, c0: Colors, age: AgeMap, g0: seq<Ref>, again: seq<Ref>, fixed: set<Ref>, o: Ref,
                     k: nat, v: Ref,
                     c1: Colors, g1: seq<Ref>)
    requires Valid(objs, c0, age, g0, again, fixed) && o in objs && v in objs && Storable(objs, o, k, v)
      && !objs[o].kind.Thread?
    requires c0[o].Black? && c0[v].White? && MarkRel(Put(objs, o, k, v), c0, g0, c1, g1, {}) && Marked(c1, v)
    ensures Valid(Put(objs, o, k, v), c1, if IsOld(age[o]) then age[v := Old0] else age, g1, again, fixed)
  {
    PutGraph(objs, o, k, v);
    var objs' := Put(objs, o, k, v);
    var age' := if IsOld(age[o]) then age[v := Old0] else age;
    assert ShadeOk(objs[v].kind, c0[v], age[v], v in g0, v in again, v in fixed);
    ForwardShades(objs, objs', c0, age, g0, again, fixed, c1, g1, v, age');
    ForwardRefs(objs, objs', c0, age, g0, c1, g1, o, v, age', again, fixed);
    ForwardGrays(objs, objs', c0, age, g0, again, fixed, c1, g1);
  }

  lemma ForwardShades(objs: Graph, objs': Graph, c0: Colors, age: AgeMap, g0: seq<Ref>, again: seq<Ref>,
                      fixed: set<Ref>,
                      c1: Colors, g1: seq<Ref>, v: Ref, age': AgeMap)
    requires ShadesOk(objs, c0, age, g0, again, fixed) && objs'.Keys == objs.Keys
      && forall p :: p in objs ==> objs'[p].kind == objs[p].kind
    requires MarkRel(objs', c0, g0, c1, g1, {}) && v in objs && c0[v].White? && Marked(c1, v)
    requires age' == age || age' == age[v := Old0]
    ensures ShadesOk(objs', c1, age', g1, again, fixed)
  {
    hide NoDup, Succ;
    forall p | p in objs'
      ensures p in c1 && p in age' && ShadeOk(objs'[p].kind, c1[p], age'[p], p in g1, p in again, p in fixed) {
      assert ShadeOk(objs[p].kind, c0[p], age[p], p in g0, p in again, p in fixed);
    }
  }

  lemma MarkAt(objs: Graph, c0: Colors, g0: seq<Ref>, c1: Colors, g1: seq<Ref>, o: Ref)
    requires MarkRel(objs, c0, g0, c1, g1, {}) && o in c0
    ensures o in c1 && (c1[o] == c0[o] || (c0[o].White? && !c1[o].White?))
    ensures forall w :: o in objs && c0[o].White? && c1[o].Black? && w in Succ(objs, o) ==> Marked(c1, w)
  {
    hide Succ, NoDup;
  }

  lemma ShadeAt(objs: Graph, color: Colors, age: AgeMap, gray: seq<Ref>, again: seq<Ref>, fixed: set<Ref>, o: Ref)
    requires ShadesOk(objs, color, age, gray, again, fixed) && o in objs
    ensures o in color && o in age && ShadeOk(objs[o].kind, color[o], age[o], o in gray, o in again, o in fixed)
  {
    hide ShadeOk;
  }

  lemma RefAt(objs: Graph, color: Colors, age: AgeMap, o: Ref, v: Ref)
    requires RefsOk(objs, color, age) && o in objs && v in Succ(objs, o) && o in color && o in age && v in color
      && v in age
    ensures RefOk(objs[o].kind, color[o], age[o], color[v], age[v])
  {
    hide RefOk;
  }

  lemma ForwardRefs(objs: Graph, objs': Graph, c0: Colors, age: AgeMap, g0: seq<Ref>, c1: Colors, g1: seq<Ref>, o: Ref,
                    v: Ref, age': AgeMap,
                    again: seq<Ref>, fixed: set<Ref>)
    requires RefsOk(objs, c0, age) && objs'.Keys == objs.Keys
      && (forall p :: p in objs ==> objs'[p].kind == objs[p].kind)
    requires forall p :: p in objs && p != o ==> Succ(objs', p) == Succ(objs, p)
    requires o in objs && Succ(objs', o) <= Succ(objs, o) + {v} && c0.Keys == objs.Keys && age.Keys == objs.Keys
    requires MarkRel(objs', c0, g0, c1, g1, {}) && v in objs && c0[v].White? && Marked(c1, v) && c0[o].Black?
    requires age' == if IsOld(age[o]) then age[v := Old0] else age
    requires ShadesOk(objs, c0, age, g0, again, fixed)
    ensures RefsOk(objs', c1, age')
  {
    hide NoDup, Succ, MarkRel, ShadesOk;
    forall p, w | p in objs' && w in Succ(objs', p) && p in c1 && p in age' && w in c1 && w in age'
      ensures RefOk(objs'[p].kind, c1[p], age'[p], c1[w], age'[w])
    {
      MarkAt(objs', c0, g0, c1, g1, p);
      MarkAt(objs', c0, g0, c1, g1, w);
      ShadeAt(objs, c0, age, g0, again, fixed, p);
      ShadeAt(objs, c0, age, g0, again, fixed, v);
      if w in Succ(objs, p) {
        RefAt(objs, c0, age, p, w);
      }
      if c1[p].Black? && c0[p].White? { assert Marked(c1, w); }
    }
  }

  lemma ForwardGrays(objs: Graph, objs': Graph, c0: Colors, age: AgeMap, g0: seq<Ref>, again: seq<Ref>, fixed: set<Ref>,
                     c1: Colors, g1: seq<Ref>)
    requires GraysOk(objs, g0, again) && ShadesOk(objs, c0, age, g0, again, fixed) && objs'.Keys == objs.Keys
    requires MarkRel(objs', c0, g0, c1, g1, {})
    ensures GraysOk(objs', g1, again)
  {
    hide Succ, NoDup;
    forall o | o in g0 || o in again ensures Marked(c0, o) {
      assert ShadeOk(objs[o].kind, c0[o], age[o], o in g0, o in again, o in fixed);
    }
  }

  /** `luaC_barrierback_` after a store: the object is touched, and waits to be visited again. */
  lemma BackStore(objs: Graph, color: Colors, age: AgeMap, gray: seq<Ref>, again: seq<Ref>, fixed: set<Ref>, o: Ref,
                  k: nat, v: Ref)
    requires Valid(objs, color, age, gray, again, fixed) && o in objs && v in objs && Storable(objs, o, k, v)
      && objs[o].kind.Box?
    requires color[o].Black?
    ensures IsOld(age[o]) && !age[o].Touched1? && (age[o].Touched2? <==> o in again)
    ensures Valid(Put(objs, o, k, v), color[o := Gray], age[o := Touched1], gray,
                  if age[o].Touched2? then again else [o] + again, fixed)
  {
    assert ShadeOk(objs[o].kind, color[o], age[o], o in gray, o in again, o in fixed);
    PutGraph(objs, o, k, v);
    var objs' := Put(objs, o, k, v);
    BackShades(objs, objs', color, age, gray, again, fixed, o);
    BackRefs(objs, objs', color, age, o, v);
    BackGrays(objs, objs', color, age, gray, again, fixed, o);
    hide *;
  }

  lemma BackShades(objs: Graph, objs': Graph, color: Colors, age: AgeMap, gray: seq<Ref>, again: seq<Ref>,
                   fixed: set<Ref>, o: Ref)
    requires ShadesOk(objs, color, age, gray, again, fixed) && objs'.Keys == objs.Keys
      && (forall p :: p in objs ==> objs'[p].kind == objs[p].kind)
    requires o in objs && objs[o].kind.Box? && o in color && color[o].Black? && o in age
    ensures ShadesOk(objs', color[o := Gray], age[o := Touched1], gray, if age[o].Touched2? then again else [o] + again,
                     fixed)
  {
    var again' := if age[o].Touched2? then again else [o] + again;
    forall p | p in objs' ensures p in color && p in age
      && ShadeOk(objs'[p].kind, if p == o then Gray else color[p], if p == o then Touched1 else age[p], p in gray,
         p in again', p in fixed)
    {
      assert ShadeOk(objs[p].kind, color[p], age[p], p in gray, p in again, p in fixed);
    }
  }

  lemma BackRefs(objs: Graph, objs': Graph, color: Colors, age: AgeMap, o: Ref, v: Ref)
    requires RefsOk(objs, color, age) && objs'.Keys == objs.Keys
      && (forall p :: p in objs ==> objs'[p].kind == objs[p].kind)
    requires forall p :: p in objs && p != o ==> Succ(objs', p) == Succ(objs, p)
    requires o in color && color[o].Black? && o in age && IsOld(age[o]) && o in objs
    ensures RefsOk(objs', color[o := Gray], age[o := Touched1])
  {
    hide Succ;
    forall p, w | p in objs' && w in Succ(objs', p) && p in color && p in age && w in color && w in age && p != o
      ensures RefOk(objs'[p].kind, color[p], age[p], if w == o then Gray else color[w],
                    if w == o then Touched1 else age[w])
    {
      assert RefOk(objs[p].kind, color[p], age[p], color[w], age[w]);
    }
  }

  lemma BackGrays(objs: Graph, objs': Graph, color: Colors, age: AgeMap, gray: seq<Ref>, again: seq<Ref>,
                  fixed: set<Ref>, o: Ref)
    requires GraysOk(objs, gray, again) && ShadesOk(objs, color, age, gray, again, fixed) && objs'.Keys == objs.Keys
    requires o in objs && o in color && color[o].Black? && o in age
    ensures GraysOk(objs', gray, if age[o].Touched2? then again else [o] + again)
  {
    assert ShadeOk(objs[o].kind, color[o], age[o], o in gray, o in again, o in fixed);
  }

  // ----- segments and stores -----

  // A younger object marked old, or an old object touched, stays in its segment.
  lemma SegmentsAge(objs: Graph, age: AgeMap, age': AgeMap, nursery: seq<Ref>, survival: seq<Ref>, old1: seq<Ref>,
                    rest: seq<Ref>,
                    fixed: set<Ref>, first: Opt, o: Ref)
    requires SegmentsOk(objs, age, nursery, survival, old1, rest, fixed) && FirstOk(age, survival + old1, first)
      && o in age
    requires age' == age[o := Touched1] || (!IsOld(age[o]) && age' == age[o := Old0])
    ensures SegmentsOk(objs, age', nursery, survival, old1, rest, fixed) && FirstOk(age', survival + old1, first)
  {
  }

  lemma SegmentsKeys(objs: Graph, objs': Graph, age: AgeMap, nursery: seq<Ref>, survival: seq<Ref>, old1: seq<Ref>,
                     rest: seq<Ref>, fixed: set<Ref>)
    requires SegmentsOk(objs, age, nursery, survival, old1, rest, fixed) && objs'.Keys == objs.Keys
    ensures SegmentsOk(objs', age, nursery, survival, old1, rest, fixed)
  {
  }

  lemma PutBelow(objs: Graph, o: Ref, k: nat, v: Ref, next: Ref)
    requires Below(objs, next) && o in objs && v in objs
    ensures Below(Put(objs, o, k, v), next)
  {
    assert Put(objs, o, k, v)[o].fields.Values <= objs[o].fields.Values + {v};
  }

  lemma DropGraph(objs: Graph, o: Ref, k: nat)
    requires GraphOk(objs) && o in objs
    ensures GraphOk(Drop(objs, o, k)) && Drop(objs, o, k).Keys == objs.Keys
    ensures forall p :: p in objs ==> Drop(objs, o, k)[p].kind == objs[p].kind
                                      && Succ(Drop(objs, o, k), p) <= Succ(objs, p)
    ensures forall n :: Below(objs, n) ==> Below(Drop(objs, o, k), n)
  {
    DropTyped(objs, o, k);
    var objs' := Drop(objs, o, k);
    assert objs'[o].fields.Values <= objs[o].fields.Values;
    hide Typed;
  }

  // Fewer references.
  lemma DropValid(objs: Graph, color: Colors, age: AgeMap, gray: seq<Ref>, again: seq<Ref>, fixed: set<Ref>, o: Ref,
                  k: nat)
    requires Valid(objs, color, age, gray, again, fixed) && o in objs
    ensures Valid(Drop(objs, o, k), color, age, gray, again, fixed)
  {
    DropGraph(objs, o, k);
    hide Succ, GraphOk, ShadeOk, RefOk, Drop;
  }

  lemma NewGraph(objs: Graph, n: Ref, kind: Kind)
    requires GraphOk(objs) && Below(objs, n) && !kind.Open?
    ensures n !in objs && Below(Blank(objs, n, kind), n + 1) && GraphOk(Blank(objs, n, kind))
      && Blank(objs, n, kind).Keys == objs.Keys + {n}
    ensures forall p :: p in objs ==> Blank(objs, n, kind)[p] == objs[p]
                                      && Succ(Blank(objs, n, kind), p) == Succ(objs, p)
    ensures Succ(Blank(objs, n, kind), n) == {} && forall p :: p in objs ==> n !in Succ(objs, p)
  {
    BlankEffect(objs, n, kind, n);
    BlankSucc(objs, n, kind);
    hide Typed, Succ, Effect;
  }

  // A new object is young and white.
  lemma NewValid(objs: Graph, color: Colors, age: AgeMap, gray: seq<Ref>, again: seq<Ref>, fixed: set<Ref>, n: Ref,
                 kind: Kind)
    requires Valid(objs, color, age, gray, again, fixed) && Below(objs, n) && !kind.Open?
    ensures Valid(Blank(objs, n, kind), color[n := White], age[n := New], gray, again, fixed)
  {
    hide Succ, Typed, RefOk, Blank, Below, ShadeOk, ShadesOk, RefsOk, GraysOk;
    NewGraph(objs, n, kind);
    var objs' := Blank(objs, n, kind);
    assert forall p :: p in objs ==> objs'[p].kind == objs[p].kind;
    NewShades(objs, objs', color, age, gray, again, fixed, n);
    NewRefs(objs, objs', color, age, n);
    NewGrays(objs, objs', gray, again);
  }

  lemma NewShades(objs: Graph, objs': Graph, color: Colors, age: AgeMap, gray: seq<Ref>, again: seq<Ref>,
                  fixed: set<Ref>, n: Ref)
    requires ShadesOk(objs, color, age, gray, again, fixed) && GraysOk(objs, gray, again) && fixed <= objs.Keys
    requires n !in objs && objs'.Keys == objs.Keys + {n} && (forall p :: p in objs ==> objs'[p].kind == objs[p].kind)
    ensures ShadesOk(objs', color[n := White], age[n := New], gray, again, fixed)
  {
    forall p | p in objs'
      ensures p == n || (p in color && p in age)
      ensures ShadeOk(objs'[p].kind, if p == n then White else color[p], if p == n then New else age[p], p in gray,
                      p in again, p in fixed)
    {
      if p != n { assert ShadeOk(objs[p].kind, color[p], age[p], p in gray, p in again, p in fixed); }
    }
  }

  lemma NewRefs(objs: Graph, objs': Graph, color: Colors, age: AgeMap, n: Ref)
    requires RefsOk(objs, color, age) && n !in objs && objs'.Keys == objs.Keys + {n}
    requires forall p :: p in objs ==> objs'[p].kind == objs[p].kind && Succ(objs', p) == Succ(objs, p)
                                       && n !in Succ(objs, p)
    requires Succ(objs', n) == {}
    ensures RefsOk(objs', color[n := White], age[n := New])
  {
    hide Succ, RefOk;
  }

  lemma NewGrays(objs: Graph, objs': Graph, gray: seq<Ref>, again: seq<Ref>)
    requires GraysOk(objs, gray, again) && objs.Keys <= objs'.Keys
    ensures GraysOk(objs', gray, again)
  {
  }

  lemma NewSegments(objs: Graph, age: AgeMap, nursery: seq<Ref>, survival: seq<Ref>, old1: seq<Ref>, rest: seq<Ref>,
                    fixed: set<Ref>,
                    first: Opt, n: Ref, kind: Kind)
    requires SegmentsOk(objs, age, nursery, survival, old1, rest, fixed) && FirstOk(age, survival + old1, first)
      && n !in objs
    ensures SegmentsOk(Blank(objs, n, kind), age[n := New], [n] + nursery, survival, old1, rest, fixed)
    ensures FirstOk(age[n := New], survival + old1, first)
  {
    var objs' := Blank(objs, n, kind);
    assert multiset(objs'.Keys) == multiset(objs.Keys) + multiset{n};
    assert multiset([n] + nursery) == multiset{n} + multiset(nursery);
  }
}
