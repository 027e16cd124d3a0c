// The generational mode: barriers and young collections.

module Generations {
  import opened Heap
  import opened Mutation
  import opened Shades
  import opened Ages
  import opened YoungMarking
  import opened YoungSweep
  import opened Sequences

  class GenState {
    var objs: Graph
    var color: Colors
    var age: AgeMap
    var gray: seq<Ref>
    var grayagain: seq<Ref>
    var nursery: seq<Ref>         // created since the last collection
    var survival: seq<Ref>        // survived one collection
    var old1: seq<Ref>            // became old in the last collection
    var reallyold: seq<Ref>
    var firstold1: Opt
    var main: Ref
    var running: Ref
    var registry: Ref
    var mt: map<nat, Ref>
    var next: Ref
    var fixed: set<Ref>

    /** `atomic2gen`, after a marking that left the colours `color` on the objects of `list` and on the fixed ones: what
        is white is freed, and all that stays is old. Threads are watched from now on. */
    constructor (graph: Graph, color: Colors, list: seq<Ref>, fixed: set<Ref>, main: Ref, registry: Ref, next: Ref)
      requires AfterMarking(graph, color, list, fixed, main, registry, next)
      ensures this.fixed == fixed
      ensures Ok() && this.main == main && this.running == main && this.registry == registry && this.mt == map[]
        && this.next == next
      ensures objs.Keys == NonWhite(color) && (forall o :: o in objs ==> objs[o] == graph[o])
      ensures forall o :: o in objs ==> o in this.age && this.age[o].Old?
    {
      hide *;
      this.objs, this.color, this.age := graph, color, map[];
      this.gray, this.grayagain, this.nursery, this.survival, this.old1, this.firstold1 := [], [], [], [], [], None;
      this.reallyold := list;
      this.main, this.running, this.registry, this.mt, this.next, this.fixed := main, main, registry, map[], next,
        fixed;
      new;
      Sweep2Old();
    }

    // `sweep2old`
    method Sweep2Old()
      requires AfterMarking(objs, color, reallyold, fixed, main, registry, next)
      requires age == map[] && gray == [] && grayagain == [] && nursery == [] && survival == [] && old1 == []
        && firstold1 == None
      requires running == main && mt == map[]
      modifies `objs, `color, `age, `grayagain, `reallyold
      ensures Ok()
      ensures objs.Keys == NonWhite(old(color)) && (forall o :: o in objs ==> objs[o] == old(objs)[o])
      ensures forall o :: o in objs ==> o in age && age[o].Old?
    {
      hide *;
      var l := reallyold;
      ghost var k := NonWhite(color);
      AfterParts(objs, color, l, fixed, main, registry, next);
      ListApart(l);
      var kept: seq<Ref> := [];
      var i := 0;
      NoneOld(l, k);
      while i < |l|
        invariant 0 <= i <= |l| && OldUpTo(old(objs), old(color), k, Members(l[..i]), objs, color, age, grayagain)
          && kept == Kept(l[..i], k)
      {
        var curr := l[i];
        Apart(l, i, k, old(color));
        KeptNext(l, i, k);
        NotOldYet(l, i, k, old(objs), old(color));
        if color[curr].White? {
          OldFreed(old(objs), old(color), k, Members(l[..i]), objs, color, age, grayagain, curr);
          objs := objs - {curr};
          color := color - {curr};
        } else {
          OldAged(old(objs), old(color), k, Members(l[..i]), objs, color, age, grayagain, curr);
          age := age[curr := Old];
          if objs[curr].kind.Thread? {
            grayagain := [curr] + grayagain;
            color := color[curr := Gray];
          } else {
            color := color[curr := Black];
          }
          kept := kept + [curr];
        }
        i := i + 1;
      }
      assert l[..i] == l;
      ghost var a1 := age;
      reallyold := kept;
      age := map o | o in objs :: Old;
      AllOld(old(objs), old(color), k, l, a1);
    }

    function Roots(): set<Ref>
      reads `main, `running, `registry, `mt
    {
      {main} + Changing()
    }

    // The roots that change without barriers.
    function Changing(): set<Ref>
      reads `running, `registry, `mt
    {
      {running, registry} + mt.Values
    }

    ghost predicate RootsOk()
      reads `objs, `age, `main, `running, `registry, `mt
    {
      && Roots() <= objs.Keys && objs[main].kind.Thread? && main in age && IsOld(age[main])
      && objs[running].kind.Thread?
    }

    // Colours, ages and references, as they are between two collections.
    ghost predicate Settled()
      reads `objs, `color, `age, `gray, `grayagain, `fixed
    {
      Valid(objs, color, age, gray, grayagain, fixed)
    }

    // The segments of the list of all objects.
    ghost predicate Segments()
      reads `objs, `age, `nursery, `survival, `old1, `reallyold, `firstold1, `fixed
    {
      SegmentsOk(objs, age, nursery, survival, old1, reallyold, fixed) && FirstOk(age, survival + old1, firstold1)
    }

    ghost predicate Ok()
      reads this
    {
      Settled() && Segments() && RootsOk() && Below(objs, next)
    }

    // ----- marking -----

    ghost predicate Colored()
      reads `objs, `color
    {
      GraphOk(objs) && color.Keys == objs.Keys
    }

    lemma Target(o: Ref, v: Ref)
      requires Colored() && o in objs && v in Succ(objs, o)
      ensures v in objs
      ensures objs[o].kind.Cell? || objs[o].kind.Udata? ==> Rank(objs[v].kind) < Rank(objs[o].kind)
    {
      if objs[o].kind.Cell? || objs[o].kind.Udata? { RankDrops(objs, o, v); }
    }

    method MarkObject(o: Ref, ghost hot: set<Ref>)
      requires Colored() && o in objs
      modifies `color, `gray
      ensures Colored() && MarkRel(objs, old(color), old(gray), color, gray, hot) && Marked(color, o)
      ensures Spreads(objs, old(color), color, {o})
      decreases Rank(objs[o].kind), 1
    {
      hide *;
      InColor(o);
      MarkRelRefl(objs, color, gray, hot);
      SpreadsRefl(objs, color, {o});
      if color[o].White? { ReallyMark(o, hot); }
      InColor(o);
    }

    lemma InColor(o: Ref)
      requires Colored() && o in objs
      ensures o in color && (Marked(color, o) <==> !color[o].White?)
    {
    }

    // `reallymarkobject` on a white object
    method ReallyMark(o: Ref, ghost hot: set<Ref>)
      requires Colored() && o in objs && o in color && color[o].White?
      modifies `color, `gray
      ensures Colored() && MarkRel(objs, old(color), old(gray), color, gray, hot) && Marked(color, o)
      ensures Spreads(objs, old(color), color, {o})
      decreases Rank(objs[o].kind), 0
    {
      hide *;
      ghost var c0, g0 := color, gray;
      Kinds(o);
      if objs[o].kind.Box? || objs[o].kind.Thread? {
        MarkRelLink(objs, color, gray, o, hot);
        SpreadsOne(objs, color, o, Gray);
        gray := [o] + gray;
        color := color[o := Gray];
        Recolored(c0, o, Gray);
      } else {
        MarkRelBlack(objs, color, gray, o, hot);
        SpreadsOne(objs, color, o, Black);
        color := color[o := Black];
        Recolored(c0, o, Black);
        ghost var c1, g1 := color, gray;
        MarkRelRefl(objs, color, gray, hot + {o});
        if objs[o].kind.Cell? || objs[o].kind.Udata? {
          Single(o);
          if 0 in objs[o].fields {
            Target(o, objs[o].fields[0]);
            MarkObject(objs[o].fields[0], hot + {o});
            MarkedOn(c0, c1, o, {objs[o].fields[0]});
          }
        } else {
          Childless(o);
        }
        MarkRelTrans(objs, c0, g0, c1, g1, color, gray, hot + {o});
        MarkRelGrows(objs, c1, g1, color, gray, hot + {o});
        MarkRelCool(objs, c0, g0, color, gray, hot, o);
      }
    }

    lemma MarkedOn(c0: Colors, c1: Colors, o: Ref, from: set<Ref>)
      requires Spreads(objs, c0, c1, {o}) && Spreads(objs, c1, color, from) && Marked(c1, o) && o in objs
        && from <= Succ(objs, o)
      ensures Spreads(objs, c0, color, {o})
    {
      SpreadsOn(objs, c1, color, from, o);
      SpreadsMore(objs, c1, color, {}, {o});
      SpreadsTrans(objs, c0, c1, color, {o});
    }

    lemma Recolored(c0: Colors, o: Ref, c: Color)
      requires GraphOk(objs) && o in objs && c0.Keys == objs.Keys && color == c0[o := c] && !c.White?
      ensures Colored() && Marked(color, o)
    {
    }

    lemma Kinds(o: Ref)
      requires Colored() && o in objs
      ensures GraphOk(objs) && color.Keys == objs.Keys
        && (Listable(objs[o].kind) <==> objs[o].kind.Box? || objs[o].kind.Thread?)
    {
    }

    lemma Single(o: Ref)
      requires Colored() && o in objs && (objs[o].kind.Cell? || objs[o].kind.Udata?)
      ensures forall v :: v in Succ(objs, o) ==> 0 in objs[o].fields && v == objs[o].fields[0]
      ensures 0 in objs[o].fields ==> objs[o].fields[0] in Succ(objs, o)
    {
      assert TypedObj(objs, o);
    }

    lemma Childless(o: Ref)
      requires Colored() && o in objs && !objs[o].kind.Cell? && !objs[o].kind.Udata? && !objs[o].kind.Box?
        && !objs[o].kind.Thread?
      ensures Succ(objs, o) == {}
    {
      assert TypedObj(objs, o);
    }

    method MarkSet(s: set<Ref>, ghost hot: set<Ref>)
      requires Colored() && s <= objs.Keys
      modifies `color, `gray
      ensures Colored() && MarkRel(objs, old(color), old(gray), color, gray, hot)
      ensures forall v :: v in s ==> Marked(color, v)
      ensures Spreads(objs, old(color), color, s)
    {
      hide *;
      var todo := s;
      MarkRelRefl(objs, color, gray, hot);
      SpreadsRefl(objs, color, s);
      while todo != {}
        invariant Colored() && MarkRel(objs, old(color), old(gray), color, gray, hot) && todo <= s
        invariant forall v :: v in s && v !in todo ==> Marked(color, v)
        invariant Spreads(objs, old(color), color, s)
        decreases todo
      {
        var v :| v in todo;
        ghost var c1, g1 := color, gray;
        MarkObject(v, hot);
        MarkRelTrans(objs, old(color), old(gray), c1, g1, color, gray, hot);
        MarkRelGrows(objs, c1, g1, color, gray, hot);
        SpreadsMore(objs, c1, color, {v}, s);
        SpreadsTrans(objs, old(color), c1, color, s);
        todo := todo - {v};
      }
    }

    // ----- the marking of a young collection -----

    ghost predicate MidNow(wait: set<Ref>, hot: set<Ref>)
      reads `objs, `color, `age, `gray, `grayagain, `fixed
    {
      MidWith(wait, grayagain, hot)
    }

    ghost predicate MidWith(wait: set<Ref>, done: seq<Ref>, hot: set<Ref>)
      reads `objs, `color, `age, `gray, `fixed
    {
      Mid(objs, color, age, gray, wait, done, fixed, hot)
    }

    lemma MidParts(wait: set<Ref>, done: seq<Ref>, hot: set<Ref>)
      requires MidWith(wait, done, hot)
      ensures Colored() && age.Keys == objs.Keys
        && forall o :: o in objs && o in age && IsOld(age[o]) ==> Marked(color, o)
    {
      OldMarked(objs, color, age, gray, wait, done, fixed, hot);
    }

    lemma Marks(wait: set<Ref>, done: seq<Ref>, hot: set<Ref>, c0: Colors, g0: seq<Ref>)
      requires Mid(objs, c0, age, g0, wait, done, fixed, hot) && MarkRel(objs, c0, g0, color, gray, hot)
      ensures MidWith(wait, done, hot)
    {
      MidMark(objs, c0, age, g0, wait, done, fixed, hot, color, gray);
    }

    lemma Unfold(wait: set<Ref>, done: seq<Ref>, hot: set<Ref>)
      ensures MidWith(wait, done, hot) <==> Mid(objs, color, age, gray, wait, done, fixed, hot)
    {
    }

    /** The body of `markold`: an object that was old for one cycle is old from now on; a black one is marked again, so
        that what it refers to is visited once more. */
    method MarkOldOne(p: Ref, ghost again: set<Ref>)
      requires MidWith(again + BlackOld1(objs, color, age), [], {}) && p in objs && again !! BlackOld1(objs, color, age)
      modifies `color, `gray, `age
      ensures MidWith(again + BlackOld1(objs, color, age), [], {}) && again !! BlackOld1(objs, color, age)
      ensures AgeRel(old(age), age) && p in age && !age[p].Old1?
        && forall o :: o in age && o != p ==> o in old(age) && age[o] == old(age)[o]
      ensures Spreads(objs, old(color), color, {})
    {
      hide *;
      MidParts(again + BlackOld1(objs, color, age), [], {});
      SpreadsRefl(objs, color, {});
      InAge(p);
      if age[p].Old1? {
        Ageing(p);
        if color[p].Black? {
          MarkAgain(p, again);
        } else {
          StaysGray(p, again);
          age := age[p := Old];
          Unfold(again + BlackOld1(objs, color, age), [], {});
        }
      } else {
        SameAges(p);
      }
    }

    lemma InAge(p: Ref)
      requires Colored() && age.Keys == objs.Keys && p in objs
      ensures p in age && p in color
    {
    }

    lemma SameAges(p: Ref)
      ensures AgeRel(age, age)
    {
    }

    lemma Ageing(p: Ref)
      requires p in age && age[p].Old1?
      ensures AgeRel(age, age[p := Old])
    {
    }

    lemma StaysGray(p: Ref, again: set<Ref>)
      requires MidWith(again + BlackOld1(objs, color, age), [], {}) && p in objs && p in age && age[p].Old1?
      requires p in color && !color[p].Black? && again !! BlackOld1(objs, color, age)
      ensures Mid(objs, color, age[p := Old], gray, again + BlackOld1(objs, color, age[p := Old]), [], fixed, {})
      ensures again !! BlackOld1(objs, color, age[p := Old])
    {
      BlackOld1Less(objs, color, age, p, color[p]);
      assert color[p := color[p]] == color;
      MidOld1Gray(objs, color, age, gray, again + BlackOld1(objs, color, age), [], fixed, p);
      assert BlackOld1(objs, color, age[p := Old]) == BlackOld1(objs, color, age);
    }

    // `reallymarkobject` on a black object
    method MarkAgain(p: Ref, ghost again: set<Ref>)
      requires MidWith(again + BlackOld1(objs, color, age), [], {}) && p in objs && again !! BlackOld1(objs, color, age)
      requires p in age && age[p].Old1? && p in color && color[p].Black?
      modifies `color, `gray, `age
      ensures MidWith(again + BlackOld1(objs, color, age), [], {}) && again !! BlackOld1(objs, color, age)
      ensures age == old(age)[p := Old] && Spreads(objs, old(color), color, {})
    {
      hide *;
      BlackMarked(p);
      MidParts(again + BlackOld1(objs, color, age), [], {});
      Kinds(p);
      Unfold(again + BlackOld1(objs, color, age), [], {});
      if objs[p].kind.Box? || objs[p].kind.Thread? {
        Relisted(p, again);
        SpreadsShade(objs, color, p, Gray);
        gray := [p] + gray;
        color := color[p := Gray];
        age := age[p := Old];
        Unfold(again + BlackOld1(objs, color, age), [], {});
      } else {
        ghost var c0, g0 := color, gray;
        MarkRelRefl(objs, color, gray, {});
        SpreadsRefl(objs, color, {});
        if objs[p].kind.Cell? || objs[p].kind.Udata? {
          Single(p);
          if 0 in objs[p].fields {
            Target(p, objs[p].fields[0]);
            MarkObject(objs[p].fields[0], {});
            SpreadsOn(objs, c0, color, {objs[p].fields[0]}, p);
          }
        } else {
          Childless(p);
        }
        BlackOld1Mark(objs, c0, g0, color, gray, age);
        MarkRelGrows(objs, c0, g0, color, gray, {});
        Marks(again + BlackOld1(objs, color, age), [], {}, c0, g0);
        BlackKept(c0, p);
        Revisited(p, again);
        age := age[p := Old];
        Unfold(again + BlackOld1(objs, color, age), [], {});
      }
    }

    lemma BlackMarked(p: Ref)
      requires p in color && color[p].Black?
      ensures Marked(color, p)
    {
    }

    lemma BlackKept(c0: Colors, p: Ref)
      requires p in c0 && c0[p].Black? && color.Keys == c0.Keys
        && forall o :: Marked(c0, o) ==> Marked(color, o) && color[o] == c0[o]
      ensures p in color && color[p].Black?
    {
      assert Marked(c0, p);
    }

    lemma Relisted(p: Ref, again: set<Ref>)
      requires MidWith(again + BlackOld1(objs, color, age), [], {}) && p in objs && again !! BlackOld1(objs, color, age)
      requires p in age && age[p].Old1? && p in color && color[p].Black? && Listable(objs[p].kind)
      ensures Mid(objs, color[p := Gray], age[p := Old], [p] + gray,
                  again + BlackOld1(objs, color[p := Gray], age[p := Old]), [], fixed, {})
      ensures again !! BlackOld1(objs, color[p := Gray], age[p := Old])
    {
      var wait := again + BlackOld1(objs, color, age);
      BlackOld1Less(objs, color, age, p, Gray);
      MidOld1Link(objs, color, age, gray, wait, [], fixed, p);
      assert wait - {p} == again + BlackOld1(objs, color[p := Gray], age[p := Old]);
    }

    lemma Revisited(p: Ref, again: set<Ref>)
      requires MidWith(again + BlackOld1(objs, color, age), [], {}) && p in objs && again !! BlackOld1(objs, color, age)
      requires p in age && age[p].Old1? && p in color && color[p].Black? && !Listable(objs[p].kind)
      requires forall v :: v in Succ(objs, p) ==> Marked(color, v)
      ensures Mid(objs, color, age[p := Old], gray, again + BlackOld1(objs, color, age[p := Old]), [], fixed, {})
      ensures again !! BlackOld1(objs, color, age[p := Old])
    {
      var wait := again + BlackOld1(objs, color, age);
      assert color[p := color[p]] == color;
      BlackOld1Less(objs, color, age, p, color[p]);
      MidOld1Done(objs, color, age, gray, wait, [], fixed, p);
      assert wait - {p} == again + BlackOld1(objs, color, age[p := Old]);
    }

    // `markold` over a part of the list.
    method MarkOld(l: seq<Ref>, ghost again: set<Ref>)
      requires MidWith(again + BlackOld1(objs, color, age), [], {}) && again !! BlackOld1(objs, color, age)
      requires forall o :: o in l ==> o in objs
      modifies `color, `gray, `age
      ensures MidWith(again + BlackOld1(objs, color, age), [], {})
      ensures AgeRel(old(age), age) && (forall o :: o in l ==> o in age && !age[o].Old1?)
      ensures forall o :: o in age && o !in l ==> o in old(age) && age[o] == old(age)[o]
      ensures Spreads(objs, old(color), color, {})
    {
      hide *;
      var i := 0;
      SameAges(0);
      SpreadsRefl(objs, color, {});
      while i < |l|
        invariant 0 <= i <= |l| && MidWith(again + BlackOld1(objs, color, age), [], {})
          && again !! BlackOld1(objs, color, age)
        invariant AgeRel(old(age), age) && (forall j :: 0 <= j < i ==> l[j] in age && !age[l[j]].Old1?)
        invariant forall o :: o in age && o !in l[..i] ==> o in old(age) && age[o] == old(age)[o]
        invariant Spreads(objs, old(color), color, {})
      {
        ghost var a1, c1 := age, color;
        assert l[i] in l;
        MarkOldOne(l[i], again);
        SpreadsTrans(objs, old(color), c1, color, {});
        AgeRelTrans(old(age), a1, age);
        Aged(a1, l, i);
        assert l[..i + 1] == l[..i] + [l[i]];
        i := i + 1;
      }
      assert l[..i] == l;
    }

    lemma Aged(a1: AgeMap, l: seq<Ref>, i: int)
      requires 0 <= i < |l| && AgeRel(a1, age) && (forall j :: 0 <= j < i ==> l[j] in a1 && !a1[l[j]].Old1?)
        && l[i] in age && !age[l[i]].Old1?
      ensures forall j :: 0 <= j < i + 1 ==> l[j] in age && !age[l[j]].Old1?
    {
      forall j | 0 <= j < i ensures l[j] in age && !age[l[j]].Old1? {
        assert AgeStep(a1[l[j]], age[l[j]]);
      }
    }

    // The object taken out of the gray list, black.
    ghost predicate Taken(wait: set<Ref>, o: Ref)
      reads `objs, `color, `age, `gray, `grayagain, `fixed
    {
      MidNow(wait, {o}) && o in objs && Listable(objs[o].kind) && color[o].Black? && o !in gray && o !in wait
    }

    lemma Take(wait: set<Ref>)
      requires MidNow(wait, {}) && gray != []
      ensures gray[0] in objs && gray[0] in color && Listable(objs[gray[0]].kind) && Marked(color, gray[0])
      ensures Mid(objs, color[gray[0] := Black], age, gray[1..], wait, grayagain, fixed, {gray[0]})
      ensures gray[0] !in gray[1..] && gray[0] !in wait
      ensures Todo(color[gray[0] := Black], gray[1..]) < Todo(color, gray)
      ensures forall p :: Marked(color, p) ==> Marked(color[gray[0] := Black], p)
    {
      MidTake(objs, color, age, gray, wait, grayagain, fixed);
      GraysUnfixed(objs, color, age, gray, wait, grayagain, fixed);
      assert gray[0] in gray;
      TodoTake(color, gray);
    }

    lemma IsTaken(wait: set<Ref>, o: Ref)
      requires Mid(objs, color, age, gray, wait, grayagain, fixed, {o})
      requires o in objs && Listable(objs[o].kind) && o in color && color[o].Black? && o !in gray && o !in wait
      ensures Taken(wait, o)
    {
    }

    // What an object being visited refers to.
    method MarkRefs(o: Ref, ghost wait: set<Ref>)
      requires MidNow(wait, {o}) && o in objs && o in color && !color[o].White?
      modifies `color, `gray
      ensures MidNow(wait, {o}) && AllMarked(objs, color, o) && Todo(color, gray) <= Todo(old(color), old(gray))
      ensures o in color && color[o] == old(color)[o] && (forall p :: Marked(old(color), p) ==> Marked(color, p))
      ensures o !in old(gray) ==> o !in gray
      ensures Spreads(objs, old(color), color, {})
    {
      hide *;
      Refs(o, wait);
      MarkSet(Succ(objs, o), {o});
      IsMarked(old(color), o);
      SpreadsOn(objs, old(color), color, Succ(objs, o), o);
      RefsDone(o, wait, old(color), old(gray));
    }

    lemma IsMarked(c: Colors, o: Ref)
      requires o in c && !c[o].White?
      ensures Marked(c, o)
    {
    }

    lemma Refs(o: Ref, wait: set<Ref>)
      requires MidNow(wait, {o}) && o in objs
      ensures Colored() && Succ(objs, o) <= objs.Keys && Mid(objs, color, age, gray, wait, grayagain, fixed, {o})
    {
    }

    lemma RefsDone(o: Ref, wait: set<Ref>, c0: Colors, g0: seq<Ref>)
      requires Mid(objs, c0, age, g0, wait, grayagain, fixed, {o}) && MarkRel(objs, c0, g0, color, gray, {o})
      requires o in objs && (forall v :: v in Succ(objs, o) ==> Marked(color, v)) && o in c0 && !c0[o].White?
      ensures MidNow(wait, {o}) && AllMarked(objs, color, o) && Todo(color, gray) <= Todo(c0, g0)
      ensures o in color && color[o] == c0[o] && (forall p :: Marked(c0, p) ==> Marked(color, p))
      ensures o !in g0 ==> o !in gray
    {
      MidMark(objs, c0, age, g0, wait, grayagain, fixed, {o}, color, gray);
      TodoMark(objs, c0, g0, color, gray, {o});
      MarkRelGrows(objs, c0, g0, color, gray, {o});
      assert Marked(c0, o);
    }

    /** `traversethread`: an old thread goes to the list of the next collection, for its stack is written without
        barriers. */
    method TraverseThread(o: Ref, ghost wait: set<Ref>)
      requires Taken(wait, o) && o in objs && objs[o].kind.Thread? && o in age
      modifies `color, `gray, `grayagain
      ensures MidNow(wait, {}) && Todo(color, gray) <= Todo(old(color), old(gray))
      ensures (forall p :: Marked(old(color), p) ==> Marked(color, p)) && Spreads(objs, old(color), color, {})
    {
      hide *;
      IsVisited(wait, o);
      IsMarked(color, o);
      ghost var c0 := color;
      SpreadsRefl(objs, color, {});
      if IsOld(age[o]) {
        OldAgain(wait, o);
        SpreadsShade(objs, color, o, Gray);
        grayagain := [o] + grayagain;
        color := color[o := Gray];
        GrayNow(wait, o);
      }
      ghost var c1 := color;
      MarkRefs(o, wait);
      SpreadsTrans(objs, c0, c1, color, {});
      ThreadDone(wait, o);
    }

    lemma IsVisited(wait: set<Ref>, o: Ref)
      requires Taken(wait, o)
      ensures MidNow(wait, {o}) && o in color && color[o].Black? && !color[o].White? && o !in gray && o !in wait
        && Listable(objs[o].kind)
    {
    }

    lemma OldAgain(wait: set<Ref>, o: Ref)
      requires Taken(wait, o) && o in age && IsOld(age[o]) && objs[o].kind.Thread?
      ensures Mid(objs, color[o := Gray], age, gray, wait, [o] + grayagain, fixed, {o})
      ensures Todo(color[o := Gray], gray) == Todo(color, gray)
      ensures forall p :: Marked(color, p) ==> Marked(color[o := Gray], p)
    {
      MidAgain(objs, color, age, gray, wait, grayagain, fixed, o);
      assert color.Keys == objs.Keys;
    }

    lemma GrayNow(wait: set<Ref>, o: Ref)
      requires Mid(objs, color, age, gray, wait, grayagain, fixed, {o})
      ensures MidNow(wait, {o})
    {
    }

    lemma ThreadDone(wait: set<Ref>, o: Ref)
      requires MidNow(wait, {o}) && o in objs && objs[o].kind.Thread? && AllMarked(objs, color, o) && o in age
      requires IsOld(age[o]) ==> o in grayagain
      ensures MidNow(wait, {})
    {
      assert WatchOk(objs[o].kind, age[o], o in gray, o in wait, o in grayagain, true);
      assert age[o := age[o]] == age;
      MidDone(objs, color, age, gray, wait, grayagain, fixed, o, age[o]);
    }

    /** `propagatemark` of anything else, with `genlink`: a touched object goes to the list of the next collection when
        it has been visited, and one touched in the cycle before is old again. */
    method TraverseBox(o: Ref, ghost wait: set<Ref>)
      requires Taken(wait, o) && o in objs && objs[o].kind.Box? && o in age
      modifies `color, `gray, `grayagain, `age
      ensures MidNow(wait, {}) && AgeRel(old(age), age) && Todo(color, gray) <= Todo(old(color), old(gray))
      ensures (forall p :: Marked(old(color), p) ==> Marked(color, p)) && Spreads(objs, old(color), color, {})
      ensures NoOld1(old(age)) ==> NoOld1(age)
    {
      hide *;
      IsVisited(wait, o);
      IsMarked(color, o);
      MarkRefs(o, wait);
      ghost var c1 := color;
      SameAges(o);
      if age[o].Touched1? {
        TouchedAgain(wait, o);
        IsMarked(color, o);
        SpreadsShade(objs, color, o, Gray);
        SpreadsTrans(objs, old(color), c1, color[o := Gray], {});
        grayagain := [o] + grayagain;
        color := color[o := Gray];
        NowMid(wait);
      } else if age[o].Touched2? {
        BoxDone(wait, o, Old);
        age := age[o := Old];
        NowMid(wait);
      } else {
        BoxDone(wait, o, age[o]);
      }
    }

    lemma TouchedAgain(wait: set<Ref>, o: Ref)
      requires MidNow(wait, {o}) && o in objs && o in color && color[o].Black? && o !in gray && o !in wait && o in age
        && age[o].Touched1?
      requires AllMarked(objs, color, o)
      ensures Mid(objs, color[o := Gray], age, gray, wait, [o] + grayagain, fixed, {})
      ensures Todo(color[o := Gray], gray) == Todo(color, gray)
      ensures forall p :: Marked(color, p) ==> Marked(color[o := Gray], p)
    {
      MidAgain(objs, color, age, gray, wait, grayagain, fixed, o);
    }

    lemma BoxDone(wait: set<Ref>, o: Ref, a: Age)
      requires MidNow(wait, {o}) && o in objs && objs[o].kind.Box? && AllMarked(objs, color, o) && o in age
        && !age[o].Touched1?
      requires if age[o].Touched2? then a.Old? else a == age[o]
      ensures Mid(objs, color, age[o := a], gray, wait, grayagain, fixed, {}) && AgeRel(age, age[o := a])
      ensures a == age[o] ==> MidNow(wait, {})
      ensures NoOld1(age) ==> NoOld1(age[o := a])
    {
      MidDone(objs, color, age, gray, wait, grayagain, fixed, o, a);
      if a == age[o] { assert age[o := a] == age; }
    }

    lemma NowMid(wait: set<Ref>)
      requires Mid(objs, color, age, gray, wait, grayagain, fixed, {})
      ensures MidNow(wait, {})
    {
    }

    // `propagatemark`
    method PropagateMark(ghost wait: set<Ref>)
      requires MidNow(wait, {}) && gray != []
      modifies `color, `gray, `age, `grayagain
      ensures MidNow(wait, {}) && AgeRel(old(age), age) && Todo(color, gray) < Todo(old(color), old(gray))
      ensures (forall p :: Marked(old(color), p) ==> Marked(color, p)) && Spreads(objs, old(color), color, {})
      ensures NoOld1(old(age)) ==> NoOld1(age)
    {
      hide *;
      Take(wait);
      SpreadsShade(objs, color, gray[0], Black);
      var o := gray[0];
      gray := gray[1..];
      color := color[o := Black];
      ghost var c1 := color;
      IsTaken(wait, o);
      ListedAge(wait, o);
      SameAges(o);
      if objs[o].kind.Thread? { TraverseThread(o, wait); } else { TraverseBox(o, wait); }
      SpreadsTrans(objs, old(color), c1, color, {});
    }

    lemma ListedAge(wait: set<Ref>, o: Ref)
      requires Taken(wait, o)
      ensures o in age && (!objs[o].kind.Thread? ==> objs[o].kind.Box?)
    {
    }

    method PropagateAll(ghost wait: set<Ref>)
      requires MidNow(wait, {})
      modifies `color, `gray, `age, `grayagain
      ensures MidNow(wait, {}) && gray == [] && AgeRel(old(age), age)
      ensures (forall p :: Marked(old(color), p) ==> Marked(color, p)) && Spreads(objs, old(color), color, {})
      ensures NoOld1(old(age)) ==> NoOld1(age)
    {
      hide *;
      SameAges(0);
      SpreadsRefl(objs, color, {});
      while gray != []
        invariant MidNow(wait, {}) && AgeRel(old(age), age)
        invariant (forall p :: Marked(old(color), p) ==> Marked(color, p)) && Spreads(objs, old(color), color, {})
        invariant NoOld1(old(age)) ==> NoOld1(age)
        decreases Todo(color, gray)
      {
        ghost var a1, c1 := age, color;
        PropagateMark(wait);
        SpreadsTrans(objs, old(color), c1, color, {});
        AgeRelTrans(old(age), a1, age);
      }
    }

    ghost predicate NoOld1(a: AgeMap) {
      forall o :: o in a ==> !a[o].Old1?
    }

    // All old for one cycle are in the list from `firstold1` on.
    lemma FirstCovers(l: seq<Ref>, i: int, a0: AgeMap)
      requires SegmentsOk(objs, a0, nursery, survival, old1, reallyold, fixed) && l == survival + old1
      requires 0 <= i < |l| && FirstOk(a0, l, Some(l[i])) && AgeRel(a0, age)
      requires forall o :: o in l[i..] ==> o in age && !age[o].Old1?
      ensures NoOld1(age)
    {
      forall o | o in age ensures !age[o].Old1? {
        assert AgeStep(a0[o], age[o]);
        if a0[o].Old1? {
          assert o in l;
          var j :| 0 <= j < |l| && l[j] == o;
          if j >= i { assert l[i..][j - i] == o; }
        }
      }
    }

    lemma NoneCovered()
      requires Segments() && firstold1.None?
      ensures NoOld1(age)
    {
      forall o | o in age ensures !age[o].Old1? {
        assert o in survival || o in old1 ==> o in survival + old1;
      }
    }

    lemma SegmentObjects(a: AgeMap)
      requires SegmentsOk(objs, a, nursery, survival, old1, reallyold, fixed)
      ensures forall o :: o in nursery || o in survival || o in old1 || o in reallyold ==> o in objs
      ensures NoDup(nursery) && NoDup(survival) && forall o :: o in nursery ==> o !in survival
    {
      var total := multiset(nursery) + multiset(survival) + multiset(old1) + multiset(reallyold) + multiset(fixed);
      forall o | o in nursery || o in survival || o in old1 || o in reallyold
        ensures o in objs && (o in nursery ==> o !in survival) {
        assert total[o] == multiset(objs.Keys)[o] <= 1;
        assert multiset(nursery)[o] > 0 <==> o in nursery;
        assert multiset(survival)[o] > 0 <==> o in survival;
        assert multiset(old1)[o] > 0 <==> o in old1;
        assert multiset(reallyold)[o] > 0 <==> o in reallyold;
      }
      forall l: seq<Ref>, i, j | l in {nursery, survival} && 0 <= i < j < |l| ensures l[i] != l[j] {
        assert multiset(l)[l[i]] <= multiset(objs.Keys)[l[i]] <= 1;
        if l[i] == l[j] { Twice(l, i, j); }
      }
    }

    lemma Twice(l: seq<Ref>, i: int, j: int)
      requires 0 <= i < j < |l| && l[i] == l[j]
      ensures multiset(l)[l[i]] >= 2
    {
      assert l == l[..j] + [l[j]] + l[j + 1..];
      assert l[..j][i] == l[i];
      assert l[i] in multiset(l[..j]);
    }

    // The index of an object in a list.
    method Search(l: seq<Ref>, r: Ref) returns (i: int)
      requires r in l
      ensures 0 <= i < |l| && l[i] == r
    {
      i := 0;
      while l[i] != r
        invariant 0 <= i < |l| && r in l[i..]
        decreases |l| - i
      {
        i := i + 1;
      }
    }

    // The start of `youngcollection`.
    method MarkOldPart()
      requires Ok()
      modifies `color, `gray, `age, `firstold1
      ensures MidWith(Members(grayagain), [], {}) && AgeRel(old(age), age) && NoOld1(age) && firstold1 == None
      ensures Spreads(objs, old(color), color, {})
    {
      hide *;
      SpreadsRefl(objs, color, {});
      OkParts();
      SegmentObjects(age);
      SameAges(0);
      if firstold1.Some? {
        var l := survival + old1;
        FirstIn(l);
        var i := Search(l, firstold1.r);
        ghost var a0 := age;
        LateIn(l, i);
        MarkOld(l[i..], Members(grayagain));
        FirstCovers(l, i, a0);
      } else {
        NoneCovered();
      }
      firstold1 := None;
      NoBlackOld1();
    }

    lemma OkParts()
      requires Ok()
      ensures Settled() && Segments() && RootsOk() && Below(objs, next)
      ensures SegmentsOk(objs, age, nursery, survival, old1, reallyold, fixed)
        && FirstOk(age, survival + old1, firstold1)
      ensures MidWith(Members(grayagain) + BlackOld1(objs, color, age), [], {})
        && Members(grayagain) !! BlackOld1(objs, color, age)
      ensures NoDup(grayagain) && forall o :: o in grayagain ==> o in objs && Listable(objs[o].kind)
    {
      StartMid(objs, color, age, gray, grayagain, fixed);
      forall o | o in grayagain ensures o in objs && Listable(objs[o].kind) && o !in BlackOld1(objs, color, age) {
        assert ShadeOk(objs[o].kind, color[o], age[o], o in gray, o in grayagain, o in fixed);
      }
    }

    lemma FirstIn(l: seq<Ref>)
      requires FirstOk(age, l, firstold1) && firstold1.Some?
      ensures firstold1.r in l
    {
    }

    lemma LateIn(l: seq<Ref>, i: int)
      requires l == survival + old1 && 0 <= i < |l| && FirstOk(age, l, firstold1) && firstold1 == Some(l[i])
      requires forall o :: o in survival || o in old1 ==> o in objs
      ensures forall o :: o in l[i..] ==> o in objs
      ensures FirstOk(age, l, Some(l[i]))
    {
    }

    lemma NoBlackOld1()
      requires NoOld1(age)
      ensures BlackOld1(objs, color, age) == {}
      ensures MidWith(Members(grayagain) + BlackOld1(objs, color, age), [], {}) ==> MidWith(Members(grayagain), [], {})
    {
      assert BlackOld1(objs, color, age) == {};
      assert Members(grayagain) + {} == Members(grayagain);
    }

    // `atomic`, without weak tables, open upvalues and finalizers.
    method AtomicStep()
      requires MidWith(Members(grayagain), [], {}) && NoOld1(age) && NoDup(grayagain) && RootsOk()
      requires forall o :: o in grayagain ==> o in objs && Listable(objs[o].kind)
      modifies `color, `gray, `age, `grayagain
      ensures MidNow({}, {}) && gray == [] && AgeRel(old(age), age) && NoOld1(age)
      ensures (forall r :: r in Roots() ==> Marked(color, r)) && Spreads(objs, old(color), color, Roots())
    {
      hide *;
      var again := grayagain;
      ghost var a0 := age;
      grayagain := [];
      NowWith(Members(again));
      MidParts(Members(again), [], {});
      var roots := Changing();
      RootsIn();
      Unfold(Members(again), [], {});
      ghost var c0, g0 := color, gray;
      MarkSet(roots, {});
      Marks(Members(again), [], {}, c0, g0);
      NowWith(Members(again));
      ghost var c1 := color;
      PropagateAll(Members(again));
      RootsStay(roots, c1);
      ghost var c2, a2 := color, age;
      Swap(again);
      gray := again;
      NowMid({});
      PropagateAll({});
      RootsStay(roots, c2);
      FromRoots(c0, c1, c2, roots);
      AgeRelTrans(a0, a2, age);
      MainOld(a0, roots);
    }

    lemma FromRoots(c0: Colors, c1: Colors, c2: Colors, roots: set<Ref>)
      requires roots == Changing()
      requires Spreads(objs, c0, c1, roots) && Spreads(objs, c1, c2, {}) && Spreads(objs, c2, color, {})
      ensures Spreads(objs, c0, color, Roots())
    {
      SpreadsTrans(objs, c1, c2, color, {});
      SpreadsMore(objs, c0, c1, roots, Roots());
      SpreadsMore(objs, c1, color, {}, Roots());
      SpreadsTrans(objs, c0, c1, color, Roots());
    }

    lemma NowWith(wait: set<Ref>)
      ensures grayagain == [] ==> (MidWith(wait, [], {}) <==> MidNow(wait, {}))
    {
    }

    lemma RootsIn()
      requires RootsOk()
      ensures Changing() <= objs.Keys && main in age && IsOld(age[main]) && main in objs
    {
      assert Changing() <= Roots();
    }

    lemma RootsStay(roots: set<Ref>, c1: Colors)
      requires (forall v :: v in roots ==> Marked(c1, v)) && (forall p :: Marked(c1, p) ==> Marked(color, p))
      ensures forall v :: v in roots ==> Marked(color, v)
    {
    }

    lemma Swap(again: seq<Ref>)
      requires MidNow(Members(again), {}) && gray == [] && NoDup(again)
        && forall o :: o in again ==> o in objs && Listable(objs[o].kind)
      ensures Mid(objs, color, age, again, {}, grayagain, fixed, {})
    {
      MidSwap(objs, color, age, again, grayagain, fixed);
    }

    lemma MainOld(a0: AgeMap, roots: set<Ref>)
      requires MidNow({}, {}) && AgeRel(a0, age) && main in a0 && IsOld(a0[main]) && main in objs
      requires roots == Changing() && forall v :: v in roots ==> Marked(color, v)
      ensures forall r :: r in Roots() ==> Marked(color, r)
    {
      assert AgeStep(a0[main], age[main]);
      OldMarked(objs, color, age, gray, {}, grayagain, fixed, {});
    }

    // ----- the sweep -----

    /** `sweepgen`: white objects are freed, the others advance in age; new ones turn white again, and the first one
        that is old for one cycle is noted. */
    method SweepGen(l: seq<Ref>, first: Opt) returns (l': seq<Ref>, first': Opt)
      requires color.Keys == objs.Keys && age.Keys == objs.Keys && NoDup(l) && forall o :: o in l ==> o in objs
      modifies `objs, `color, `age
      ensures SweptUpTo(old(objs), old(color), old(age), NonWhite(old(color)), Members(l), objs, color, age)
      ensures l' == Kept(l, NonWhite(old(color)))
      ensures if first.Some? then first' == first else FirstOk(age, l', first')
    {
      hide *;
      ghost var k := NonWhite(color);
      l', first' := [], first;
      var i := 0;
      NoneSwept(k, l);
      while i < |l|
        invariant 0 <= i <= |l| && SweptUpTo(old(objs), old(color), old(age), k, Members(l[..i]), objs, color, age)
          && l' == Kept(l[..i], k)
        invariant if first.Some? then first' == first else FirstOk(age, l', first')
      {
        var curr := l[i];
        Apart(l, i, k, old(color));
        SweptNext(old(objs), old(color), old(age), k, Members(l[..i]), objs, color, age, curr);
        ghost var a1 := age;
        KeptNext(l, i, k);
        if color[curr].White? {
          SweptFreed(old(objs), old(color), old(age), k, Members(l[..i]), objs, color, age, curr);
          if first.None? { FirstDropped(age, l', first', curr); }
          objs := objs - {curr};
          color := color - {curr};
          age := age - {curr};
        } else {
          SweptAged(old(objs), old(color), old(age), k, Members(l[..i]), objs, color, age, curr);
          color := color[curr := if age[curr].New? then White else color[curr]];
          age := age[curr := NextAge(age[curr])];
          if first.None? { FirstAppended(a1, age, l', first', curr); }
          if age[curr].Old1? && first'.None? { first' := Some(curr); }
          l' := l' + [curr];
        }
        i := i + 1;
      }
      assert l[..i] == l;
    }

    lemma NoneSwept(k: set<Ref>, l: seq<Ref>)
      requires color.Keys == objs.Keys && age.Keys == objs.Keys
      ensures SweptUpTo(objs, color, age, k, Members(l[..0]), objs, color, age) && Kept(l[..0], k) == []
        && FirstOk(age, [], None)
    {
      assert Members(l[..0]) == {};
      SweptNone(objs, color, age, k);
    }

    lemma Apart(l: seq<Ref>, i: int, k: set<Ref>, c0: Colors)
      requires 0 <= i < |l| && NoDup(l) && k == NonWhite(c0)
      ensures l[i] !in Members(l[..i]) && l[i] !in l[..i] && l[i] !in Kept(l[..i], k)
        && (l[i] in c0 ==> (l[i] in k <==> !c0[l[i]].White?))
    {
      KeptIn(l[..i], k);
    }

    /** `correctgraylist`: a touched object stays in the list, to be touched for one cycle more, and so do threads.
        Anything else leaves it, black if it is not white. */
    method CorrectGrayList()
      requires color.Keys == objs.Keys && age.Keys == objs.Keys && NoDup(grayagain)
        && forall o :: o in grayagain ==> o in objs
      modifies `color, `age, `grayagain
      ensures CorrectedUpTo(objs, old(color), old(age), Members(old(grayagain)), color, age)
      ensures grayagain == Kept(old(grayagain), RemainSet(objs, old(color), old(age)))
    {
      hide *;
      var l := grayagain;
      ghost var k := RemainSet(objs, color, age);
      var kept: seq<Ref> := [];
      var i := 0;
      NoneCorrected(l, k);
      while i < |l|
        invariant 0 <= i <= |l| && CorrectedUpTo(objs, old(color), old(age), Members(l[..i]), color, age)
          && kept == Kept(l[..i], k)
      {
        var curr := l[i];
        NotYet(l, i);
        CorrectedMore(objs, old(color), old(age), Members(l[..i]), color, age, curr);
        KeptNext(l, i, k);
        Corrects(curr);
        if color[curr].White? {
        } else if age[curr].Touched1? {
          color := color[curr := Black];
          age := age[curr := Touched2];
          kept := kept + [curr];
        } else if objs[curr].kind.Thread? {
          kept := kept + [curr];
        } else {
          if age[curr].Touched2? { age := age[curr := Old]; }
          color := color[curr := Black];
        }
        i := i + 1;
      }
      assert l[..i] == l;
      grayagain := kept;
    }

    lemma Corrects(o: Ref)
      requires o in objs && o in color && o in age
      ensures color[o].White? ==>
        color[o := CorrectColor(objs[o].kind, color[o], age[o])] == color
          && age[o := CorrectAge(objs[o].kind, color[o], age[o])] == age
      ensures !color[o].White? && age[o].Touched1? ==>
        color[o := CorrectColor(objs[o].kind, color[o], age[o])] == color[o := Black]
        && age[o := CorrectAge(objs[o].kind, color[o], age[o])] == age[o := Touched2]
      ensures !color[o].White? && !age[o].Touched1? && objs[o].kind.Thread? ==>
        color[o := CorrectColor(objs[o].kind, color[o], age[o])] == color
          && age[o := CorrectAge(objs[o].kind, color[o], age[o])] == age
      ensures !color[o].White? && !age[o].Touched1? && !objs[o].kind.Thread? ==>
        color[o := CorrectColor(objs[o].kind, color[o], age[o])] == color[o := Black]
        && age[o := CorrectAge(objs[o].kind, color[o], age[o])] == if age[o].Touched2? then age[o := Old] else age
      ensures Remains(objs[o].kind, color[o], age[o]) <==>
                !color[o].White? && (age[o].Touched1? || objs[o].kind.Thread?)
    {
    }

    lemma NoneCorrected(l: seq<Ref>, k: set<Ref>)
      requires color.Keys == objs.Keys && age.Keys == objs.Keys
      ensures CorrectedUpTo(objs, color, age, Members(l[..0]), color, age) && Kept(l[..0], k) == []
    {
      assert Members(l[..0]) == {};
      CorrectedNone(objs, color, age);
    }

    lemma NotYet(l: seq<Ref>, i: int)
      requires 0 <= i < |l| && NoDup(l) && (forall o :: o in l ==> o in objs)
      ensures l[i] !in Members(l[..i]) && l[i] in objs
    {
    }

    // ----- young collections -----

    // The end of the marking, with the colours and ages there were before.
    ghost predicate MarkedFrom(c0: Colors, a0: AgeMap, gray0: seq<Ref>, again0: seq<Ref>)
      reads `objs, `color, `age, `gray, `grayagain, `fixed, `nursery, `survival, `old1, `reallyold, `main, `running,
        `registry, `mt
    {
      && Valid(objs, c0, a0, gray0, again0, fixed) && SegmentsOk(objs, a0, nursery, survival, old1, reallyold, fixed)
      && MidNow({}, {}) && gray == [] && AgeRel(a0, age) && NoOld1(age)
      && (forall r :: r in Roots() ==> Marked(color, r))
    }

    method MarkAll() returns (ghost c0: Colors, ghost a0: AgeMap, ghost gray0: seq<Ref>, ghost again0: seq<Ref>)
      requires Ok()
      modifies `color, `gray, `age, `grayagain, `firstold1
      ensures c0 == old(color) && a0 == old(age) && gray0 == old(gray) && again0 == old(grayagain)
      ensures MarkedFrom(c0, a0, gray0, again0) && firstold1 == None && gray == []
      ensures Spreads(objs, c0, color, Roots())
    {
      hide *;
      c0, a0, gray0, again0 := color, age, gray, grayagain;
      OkParts();
      IsSettled();
      MarkOldPart();
      RootsAge(a0);
      ghost var a1, c1 := age, color;
      AtomicStep();
      SpreadsMore(objs, c0, c1, {}, Roots());
      SpreadsTrans(objs, c0, c1, color, Roots());
      AgeRelTrans(a0, a1, age);
      IsMarkedFrom(c0, a0, gray0, again0);
    }

    lemma IsSettled()
      requires Settled()
      ensures Valid(objs, color, age, gray, grayagain, fixed)
    {
    }

    lemma RootsAge(a0: AgeMap)
      requires Roots() <= objs.Keys && objs[main].kind.Thread? && main in a0 && IsOld(a0[main])
        && objs[running].kind.Thread? && AgeRel(a0, age)
      ensures RootsOk()
    {
      assert AgeStep(a0[main], age[main]);
    }

    lemma IsMarkedFrom(c0: Colors, a0: AgeMap, gray0: seq<Ref>, again0: seq<Ref>)
      requires Valid(objs, c0, a0, gray0, again0, fixed)
        && SegmentsOk(objs, a0, nursery, survival, old1, reallyold, fixed)
      requires MidNow({}, {}) && gray == [] && AgeRel(a0, age) && NoOld1(age)
        && (forall r :: r in Roots() ==> Marked(color, r))
      ensures MarkedFrom(c0, a0, gray0, again0)
    {
    }

    // The sweep of both young segments, after the marking.
    method SweepYoung(ghost c0: Colors, ghost a0: AgeMap, ghost gray0: seq<Ref>, ghost again0: seq<Ref>,
                      ghost k: set<Ref>)
      returns (n: seq<Ref>, s: seq<Ref>, f: Opt)
      requires MarkedFrom(c0, a0, gray0, again0) && k == NonWhite(color)
      modifies `objs, `color, `age
      ensures SweptUpTo(old(objs), old(color), old(age), k, Members(nursery) + Members(survival), objs, color, age)
      ensures n == Kept(nursery, k) && s == Kept(survival, k) && FirstOk(age, n + s, f)
    {
      hide *;
      FromParts(c0, a0, gray0, again0);
      SegmentObjects(a0);
      ghost var o1, c1, a1 := objs, color, age;
      var f1;
      n, f1 := SweepGen(nursery, None);
      ghost var o2, c2, a2 := objs, color, age;
      StillThere(o1, c1, a1, k);
      s, f := SweepGen(survival, f1);
      SurvivalSame(o1, c1, a1, k, o2, c2, a2);
      SweptTwice(o1, c1, a1, k, Members(nursery), o2, c2, a2, NonWhite(c2), Members(survival), objs, color, age);
      KeptSame(survival, NonWhite(c2), k);
      NurseryAges(o2, c2, a2, n, f1, k);
      FirstBoth(age, n, s, f1, f);
    }

    lemma FromParts(c0: Colors, a0: AgeMap, gray0: seq<Ref>, again0: seq<Ref>)
      requires MarkedFrom(c0, a0, gray0, again0)
      ensures SegmentsOk(objs, a0, nursery, survival, old1, reallyold, fixed)
      ensures color.Keys == objs.Keys && age.Keys == objs.Keys
    {
    }

    lemma StillThere(o1: Graph, c1: Colors, a1: AgeMap, k: set<Ref>)
      requires SweptUpTo(o1, c1, a1, k, Members(nursery), objs, color, age)
        && (forall o :: o in nursery ==> o !in survival)
      requires forall o :: o in survival ==> o in o1
      ensures color.Keys == objs.Keys && age.Keys == objs.Keys && forall o :: o in survival ==> o in objs
    {
    }

    lemma SurvivalSame(o1: Graph, c1: Colors, a1: AgeMap, k: set<Ref>, o2: Graph, c2: Colors, a2: AgeMap)
      requires SweptUpTo(o1, c1, a1, k, Members(nursery), o2, c2, a2) && (forall o :: o in nursery ==> o !in survival)
      requires (forall o :: o in survival ==> o in o1) && k == NonWhite(c1)
      ensures Members(nursery) !! Members(survival) && Members(survival) <= o2.Keys
      ensures forall o :: o in survival ==> (o in NonWhite(c2) <==> o in k)
      ensures forall o :: o in Members(survival) ==> (o in NonWhite(c2) <==> o in k)
    {
    }

    lemma NurseryAges(o2: Graph, c2: Colors, a2: AgeMap, n: seq<Ref>, f1: Opt, k: set<Ref>)
      requires SweptUpTo(o2, c2, a2, NonWhite(c2), Members(survival), objs, color, age) && FirstOk(a2, n, f1)
      requires n == Kept(nursery, k) && forall o :: o in nursery ==> o !in survival
      ensures FirstOk(age, n, f1) && forall o :: o in n ==> o !in Kept(survival, k)
    {
      KeptIn(nursery, k);
      KeptIn(survival, k);
      hide Kept;
      FirstSameAges(a2, age, n, f1);
    }

    /** `youngcollection`. It sweeps the two young segments only, frees nothing that can be reached, and keeps nothing
        but what can be reached from the roots and from what was not white. All that it keeps is one collection older,
        and only what was new is white again, for the next collection to free. */
    method YoungCollection()
      requires Ok()
      modifies `objs, `color, `age, `gray, `grayagain, `nursery, `survival, `old1, `reallyold, `firstold1
      ensures Ok()
      ensures objs.Keys <= old(objs).Keys && forall o :: o in objs ==> objs[o] == old(objs)[o]
      ensures forall o :: Reachable(old(objs), Roots(), o) ==> o in objs
      ensures forall o :: o in objs <==> Reachable(old(objs), Roots() + NonWhite(old(color)), o)
      ensures forall o :: o in objs ==> o in age && o in old(age) && age[o] == Older(old(age)[o])
      ensures forall o :: o in objs ==> (Marked(color, o) <==> !old(age)[o].New?)
      ensures nursery == [] && reallyold == old(old1) + old(reallyold)
      ensures Members(survival) == Members(old(nursery)) * objs.Keys
        && Members(old1) == Members(old(survival)) * objs.Keys
    {
      hide *;
      OkParts();
      MainIn();
      ghost var r := RunYoung();
      RunReachable(r, fixed, objs, color, age, Roots());
      RunOlder(r, fixed, objs, color, age);
      EndRun(r);
    }

    // Marking and sweeping.
    method RunYoung() returns (ghost r: Run)
      requires Ok()
      modifies `objs, `color, `age, `gray, `grayagain, `nursery, `survival, `old1, `reallyold, `firstold1
      ensures RunOk(r, fixed) && Roots() <= r.k && r.objs == old(objs) && r.a0 == old(age)
      ensures forall o :: o in r.k <==> Reachable(r.objs, Roots() + NonWhite(old(color)), o)
      ensures r.nursery == old(nursery) && r.survival == old(survival) && r.old1 == old(old1)
        && r.rest == old(reallyold)
      ensures Valid(objs, color, age, [], r.done, fixed) && grayagain == r.done && gray == []
      ensures Final(r.objs, r.c1, r.a1, r.k, SweptSet(r), r.done, objs, color, age)
      ensures SegmentsOk(objs, age, [], survival, old1, reallyold, fixed) && nursery == []
        && FirstOk(age, survival + old1, firstold1)
      ensures survival == Kept(r.nursery, r.k) && old1 == Kept(r.survival, r.k) && reallyold == r.old1 + r.rest
    {
      hide *;
      ghost var c0, a0, gray0, again0 := MarkAll();
      r := Run(objs, c0, a0, gray0, again0, color, age, NonWhite(color), grayagain, nursery, survival, old1, reallyold);
      StartRun(r);
      KeptIs(r);
      var n, s, f := SweepYoung(c0, a0, gray0, again0, r.k);
      SweptAll(r);
      FinishYoung(r, n, s, f);
    }

    // The end of `youngcollection`: the segments move on, and the gray list is corrected.
    method FinishYoung(ghost r: Run, n: seq<Ref>, s: seq<Ref>, f: Opt)
      requires RunOk(r, fixed) && SweptUpTo(r.objs, r.c1, r.a1, r.k, SweptSet(r), objs, color, age)
        && grayagain == r.done
      requires n == Kept(r.nursery, r.k) && s == Kept(r.survival, r.k) && FirstOk(age, n + s, f) && old1 == r.old1
        && reallyold == r.rest
      modifies `color, `age, `grayagain, `nursery, `survival, `old1, `reallyold, `firstold1
      ensures Valid(objs, color, age, [], r.done, fixed) && grayagain == r.done
      ensures Final(r.objs, r.c1, r.a1, r.k, SweptSet(r), r.done, objs, color, age)
      ensures SegmentsOk(objs, age, [], survival, old1, reallyold, fixed) && nursery == []
        && FirstOk(age, survival + old1, firstold1)
      ensures survival == n && old1 == s && reallyold == r.old1 + r.rest
    {
      hide *;
      ghost var cm, am := color, age;
      RunRemains(r, fixed, objs, cm, am);
      reallyold := old1 + reallyold;
      old1, survival, nursery, firstold1 := s, n, [], f;
      InDone(r);
      CorrectGrayList();
      RemainsIn(r, cm, am);
      KeptWhole(r.done, RemainSet(objs, cm, am));
      RunFinal(r, fixed, objs, cm, am, color, age);
      RunFirst(r, fixed, objs, cm, am, color, age, n + s, f);
    }

    lemma MainIn()
      requires RootsOk()
      ensures main in age && IsOld(age[main]) && main in objs && running in objs && objs[main].kind.Thread?
        && objs[running].kind.Thread?
    {
      assert running in Roots() && main in Roots();
    }

    lemma StartRun(r: Run)
      requires MarkedFrom(r.c0, r.a0, r.gray0, r.again0)
      requires r == Run(objs, r.c0, r.a0, r.gray0, r.again0, color, age, NonWhite(color), grayagain, nursery, survival,
                        old1, reallyold)
      ensures RunOk(r, fixed) && Roots() <= r.k
    {
      assert r.k == set o | o in objs && Marked(color, o);
      KeptClosed(objs, color, age, r.k, grayagain, fixed);
      KeptAll(objs, r.c0, r.a0, r.gray0, r.again0, color, age, r.k, SweptSet(r), grayagain, fixed);
      hide GraphOk, Succ, ShadesOk, RefsOk, GraysOk, RefsMarked, AllKept, TintOk;
      forall o | o in grayagain ensures age[o].Touched1? || objs[o].kind.Thread? {
        assert WatchOk(objs[o].kind, age[o], false, false, true, false);
      }
    }

    // What is kept.
    lemma KeptIs(r: Run)
      requires RunOk(r, fixed) && Roots() <= r.k && r.objs == objs && r.k == NonWhite(r.c1) && r.c1 == color
        && Spreads(objs, r.c0, color, Roots())
      ensures forall o :: o in r.k <==> Reachable(r.objs, Roots() + NonWhite(r.c0), o)
    {
      hide Valid, SegmentsOk, AllKept, AgeRel, Reachable, Succ, Spreads, GenState.Roots, NonWhite, NoDup;
      SpreadsAll(objs, r.c0, color, Roots());
    }

    lemma SweptAll(r: Run)
      requires SweptUpTo(r.objs, r.c1, r.a1, r.k, Members(nursery) + Members(survival), objs, color, age)
      requires nursery == r.nursery && survival == r.survival
      ensures SweptUpTo(r.objs, r.c1, r.a1, r.k, SweptSet(r), objs, color, age)
    {
    }

    lemma InDone(r: Run)
      requires RunOk(r, fixed) && grayagain == r.done && forall o :: o in r.done ==> o in objs
      ensures NoDup(grayagain) && forall o :: o in grayagain ==> o in objs
    {
    }

    lemma RemainsIn(r: Run, cm: Colors, am: AgeMap)
      requires forall o :: o in r.done ==> o in objs && o in cm && o in am && Remains(objs[o].kind, cm[o], am[o])
      ensures forall o :: o in r.done ==> o in RemainSet(objs, cm, am)
    {
    }

    lemma EndRun(r: Run)
      requires RunOk(r, fixed) && Final(r.objs, r.c1, r.a1, r.k, SweptSet(r), r.done, objs, color, age)
        && Roots() <= r.k
      requires Valid(objs, color, age, [], r.done, fixed) && gray == [] && grayagain == r.done
      requires SegmentsOk(objs, age, [], survival, old1, reallyold, fixed) && nursery == []
        && FirstOk(age, survival + old1, firstold1)
      requires survival == Kept(r.nursery, r.k) && old1 == Kept(r.survival, r.k)
      requires Below(r.objs, next) && main in r.a0 && IsOld(r.a0[main]) && main in r.objs && running in r.objs
      requires r.objs[main].kind.Thread? && r.objs[running].kind.Thread?
      ensures Ok()
      ensures Members(survival) == Members(r.nursery) * objs.Keys && Members(old1) == Members(r.survival) * objs.Keys
    {
      hide *;
      RunAges(r);
      RootsAfter(r);
      SetsAfter(r);
      BelowAfter(r);
      AllOk();
    }

    lemma RunAges(r: Run)
      requires RunOk(r, fixed)
      ensures AgeRel(r.a0, r.a1)
    {
    }

    lemma RootsAfter(r: Run)
      requires AgeRel(r.a0, r.a1) && Final(r.objs, r.c1, r.a1, r.k, SweptSet(r), r.done, objs, color, age)
        && Roots() <= r.k
      requires main in r.a0 && IsOld(r.a0[main]) && main in r.objs && running in r.objs
      requires r.objs[main].kind.Thread? && r.objs[running].kind.Thread?
      ensures RootsOk()
    {
      assert running in Roots() && main in Roots();
      RunOld(r, fixed, objs, color, age, main);
    }

    lemma SetsAfter(r: Run)
      requires Final(r.objs, r.c1, r.a1, r.k, SweptSet(r), r.done, objs, color, age)
      requires survival == Kept(r.nursery, r.k) && old1 == Kept(r.survival, r.k)
      ensures Members(survival) == Members(r.nursery) * objs.Keys && Members(old1) == Members(r.survival) * objs.Keys
    {
      KeptIn(r.nursery, r.k);
      KeptIn(r.survival, r.k);
    }

    lemma BelowAfter(r: Run)
      requires Final(r.objs, r.c1, r.a1, r.k, SweptSet(r), r.done, objs, color, age) && Below(r.objs, next)
      ensures Below(objs, next)
    {
    }

    lemma AllOk()
      requires Valid(objs, color, age, gray, grayagain, fixed) && RootsOk() && Below(objs, next)
      requires SegmentsOk(objs, age, nursery, survival, old1, reallyold, fixed)
        && FirstOk(age, survival + old1, firstold1)
      ensures Ok()
    {
    }

    // ----- the program -----

    // The program holds `o`.
    ghost predicate Held(o: Ref)
      reads `objs, `main, `running, `registry, `mt
    {
      Reachable(objs, Roots(), o)
    }

    // A store that escapes the barriers.
    ghost predicate Escaping(o: Ref, v: Ref)
      reads `color, `age
    {
      o in color && o in age && v in color && v in age && Escapes(color, age, o, v)
    }

    /** A store with its barrier. It keeps the invariant exactly when it does not escape: when no black object that is
        old, and that the next collection will not visit in time, gets a reference to a young one that is marked
        already. */
    method Store(o: Ref, k: nat, v: Ref, back: bool)
      requires Ok() && o in objs && v in objs && Storable(objs, o, k, v) && !objs[o].kind.Thread?
        && (back ==> objs[o].kind.Box?)
      modifies `objs, `color, `age, `gray, `grayagain
      ensures objs == Put(old(objs), o, k, v)
      ensures Ok() <==> !old(Escaping(o, v))
      ensures !back && old(NeedsBarrier(o, v)) ==>
        MarkRel(objs, old(color), old(gray), color, gray, {}) && Marked(color, v)
          && Spreads(objs, old(color), color, {v}) && age == old(if IsOld(age[o]) then age[v := Old0] else age)
      ensures back && old(NeedsBarrier(o, v)) ==>
        color == old(color)[o := Gray] && age == old(if IsOld(age[o]) then age[o := Touched1] else age)
      ensures !old(NeedsBarrier(o, v)) ==> unchanged(`color, `age, `gray, `grayagain)
    {
      hide *;
      BarrierIs(o, v);
      ghost var o0, c0, a0, g0, w0 := objs, color, age, gray, grayagain;
      OkSplit();
      EscapingIs(o, v);
      PutFacts(o, k, v);
      objs := Put(objs, o, k, v);
      if color[o].Black? && color[v].White? {
        IsWritten(o, v, o0, k);
        if back { BarrierBack(o, o0, k, v); } else { Barrier(o, v, o0, k); }
      } else {
        PlainStore(o0, c0, a0, g0, w0, fixed, o, k, v);
      }
      OkJoin(o0, a0);
    }

    // `isblack(o) && iswhite(v)`
    predicate NeedsBarrier(o: Ref, v: Ref)
      reads `color, `age
    {
      o in color && o in age && v in color && color[o].Black? && color[v].White?
    }

    lemma BarrierIs(o: Ref, v: Ref)
      ensures NeedsBarrier(o, v) <==> o in color && o in age && v in color && color[o].Black? && color[v].White?
    {
    }

    // What a barrier sees of the invariant after the store.
    ghost predicate Written(o: Ref, v: Ref, o0: Graph, k: nat)
      reads `objs, `color, `age, `gray, `grayagain, `nursery, `survival, `old1, `reallyold, `firstold1, `fixed
    {
      && Valid(o0, color, age, gray, grayagain, fixed) && o in o0 && v in o0 && Storable(o0, o, k, v)
      && !o0[o].kind.Thread?
      && objs == Put(o0, o, k, v) && color[o].Black? && color[v].White?
      && SegmentsOk(o0, age, nursery, survival, old1, reallyold, fixed) && FirstOk(age, survival + old1, firstold1)
    }

    /** `luaC_barrier_`: the object stored is marked, and becomes old if the object written is; what marking it marks
        besides keeps its age. */
    method Barrier(o: Ref, v: Ref, ghost o0: Graph, ghost k: nat)
      requires Written(o, v, o0, k)
      modifies `color, `gray, `age
      ensures Valid(objs, color, age, gray, grayagain, fixed)
      ensures SegmentsOk(o0, age, nursery, survival, old1, reallyold, fixed) && FirstOk(age, survival + old1, firstold1)
      ensures forall p :: p in old(age) && IsOld(old(age)[p]) ==> p in age && IsOld(age[p])
      ensures MarkRel(objs, old(color), old(gray), color, gray, {}) && Marked(color, v) && o in old(age)
      ensures Spreads(objs, old(color), color, {v})
      ensures age == if IsOld(old(age)[o]) then old(age)[v := Old0] else old(age)
    {
      hide *;
      ghost var c0, a0, g0 := color, age, gray;
      WrittenParts(o, v, o0, k);
      ReallyMark(v, {});
      ForwardStore(o0, c0, a0, g0, grayagain, fixed, o, k, v, color, gray);
      Young(o0, c0, a0, g0, grayagain, v);
      if IsOld(age[o]) {
        SegmentsAge(o0, a0, age[v := Old0], nursery, survival, old1, reallyold, fixed, firstold1, v);
        age := age[v := Old0];
      }
    }

    lemma IsWritten(o: Ref, v: Ref, o0: Graph, k: nat)
      requires Valid(o0, color, age, gray, grayagain, fixed) && o in o0 && v in o0 && Storable(o0, o, k, v)
        && !o0[o].kind.Thread?
      requires objs == Put(o0, o, k, v) && o in color && color[o].Black? && v in color && color[v].White?
      requires SegmentsOk(o0, age, nursery, survival, old1, reallyold, fixed)
        && FirstOk(age, survival + old1, firstold1)
      ensures Written(o, v, o0, k)
    {
    }

    lemma WrittenParts(o: Ref, v: Ref, o0: Graph, k: nat)
      requires Written(o, v, o0, k)
      ensures Colored() && v in objs && v in color && color[v].White? && o in age && v in age && o in color
        && color[o].Black? && o in o0 && v in o0
      ensures objs == Put(o0, o, k, v) && Storable(o0, o, k, v) && !o0[o].kind.Thread?
      ensures Valid(o0, color, age, gray, grayagain, fixed)
      ensures SegmentsOk(o0, age, nursery, survival, old1, reallyold, fixed) && FirstOk(age, survival + old1, firstold1)
    {
      PutGraph(o0, o, k, v);
    }

    /** `luaC_barrierback_`: the object written turns gray, to be visited again; an old one is touched. */
    method BarrierBack(o: Ref, ghost o0: Graph, ghost k: nat, ghost v: Ref)
      requires Written(o, v, o0, k) && o in o0 && o0[o].kind.Box?
      modifies `color, `age, `grayagain
      ensures o in old(color) && o in old(age) && color == old(color)[o := Gray]
        && age == (if IsOld(old(age)[o]) then old(age)[o := Touched1] else old(age))
        && grayagain == (if old(age)[o].Touched2? then old(grayagain) else [o] + old(grayagain))
      ensures Valid(objs, color, age, gray, grayagain, fixed)
      ensures SegmentsOk(o0, age, nursery, survival, old1, reallyold, fixed) && FirstOk(age, survival + old1, firstold1)
      ensures forall p :: p in old(age) && IsOld(old(age)[p]) ==> p in age && IsOld(age[p])
    {
      hide *;
      WrittenParts(o, v, o0, k);
      BackStore(o0, color, age, gray, grayagain, fixed, o, k, v);
      SegmentsAge(o0, age, age[o := Touched1], nursery, survival, old1, reallyold, fixed, firstold1, o);
      StillOld(o);
      if !age[o].Touched2? { grayagain := [o] + grayagain; }
      color := color[o := Gray];
      if IsOld(age[o]) { age := age[o := Touched1]; }
    }

    lemma StillOld(o: Ref)
      requires o in age
      ensures forall p :: p in age && IsOld(age[p]) ==> p in age[o := Touched1] && IsOld(age[o := Touched1][p])
    {
    }

    lemma OkSplit()
      requires Ok()
      ensures Valid(objs, color, age, gray, grayagain, fixed) && RootsOk() && Below(objs, next)
      ensures SegmentsOk(objs, age, nursery, survival, old1, reallyold, fixed)
        && FirstOk(age, survival + old1, firstold1)
      ensures color.Keys == objs.Keys && age.Keys == objs.Keys
    {
    }

    lemma EscapingIs(o: Ref, v: Ref)
      requires o in color && o in age && v in color && v in age
      ensures Escaping(o, v) <==> Escapes(color, age, o, v)
      ensures color[v].White? ==> !Escaping(o, v)
    {
    }

    lemma PutFacts(o: Ref, k: nat, v: Ref)
      requires Valid(objs, color, age, gray, grayagain, fixed) && o in objs && v in objs && Storable(objs, o, k, v)
        && Below(objs, next)
      ensures GraphOk(Put(objs, o, k, v)) && Put(objs, o, k, v).Keys == objs.Keys && Below(Put(objs, o, k, v), next)
      ensures forall p :: p in objs ==> Put(objs, o, k, v)[p].kind == objs[p].kind
    {
      PutGraph(objs, o, k, v);
      PutBelow(objs, o, k, v, next);
    }

    lemma Young(o0: Graph, c0: Colors, a0: AgeMap, g0: seq<Ref>, w0: seq<Ref>, v: Ref)
      requires Valid(o0, c0, a0, g0, w0, fixed) && v in o0 && c0[v].White?
      ensures v in a0 && !IsOld(a0[v])
      ensures forall p :: p in a0 && IsOld(a0[p]) ==> p in a0[v := Old0] && IsOld(a0[v := Old0][p])
    {
      assert ShadeOk(o0[v].kind, c0[v], a0[v], v in g0, v in w0, v in fixed);
    }

    lemma OkJoin(o0: Graph, a0: AgeMap)
      requires objs.Keys == o0.Keys && (forall p :: p in o0 ==> objs[p].kind == o0[p].kind) && Below(objs, next)
      requires SegmentsOk(o0, age, nursery, survival, old1, reallyold, fixed)
        && FirstOk(age, survival + old1, firstold1)
      requires Roots() <= o0.Keys && o0[main].kind.Thread? && main in a0 && IsOld(a0[main]) && o0[running].kind.Thread?
      requires forall p :: p in a0 && IsOld(a0[p]) ==> p in age && IsOld(age[p])
      ensures Ok() <==> Valid(objs, color, age, gray, grayagain, fixed)
    {
      SegmentsKeys(o0, objs, age, nursery, survival, old1, reallyold, fixed);
      assert main in Roots() && running in Roots();
    }

    // ----- entering the generational mode -----

    lemma ListApart(l: seq<Ref>)
      requires multiset(l) + multiset(fixed) == multiset(objs.Keys)
      ensures NoDup(l) && (forall o :: o in l ==> o in objs && o !in fixed) && Members(l) + fixed == objs.Keys
    {
      var total := multiset(l) + multiset(fixed);
      forall o ensures (o in l ==> o in objs && o !in fixed) && (o in objs <==> o in l || o in fixed) {
        assert total[o] == multiset(objs.Keys)[o] <= 1;
        assert multiset(l)[o] > 0 <==> o in l;
      }
      forall i, j | 0 <= i < j < |l| ensures l[i] != l[j] {
        assert multiset(l)[l[i]] <= multiset(objs.Keys)[l[i]] <= 1;
        if l[i] == l[j] { Twice(l, i, j); }
      }
    }

    lemma NoneOld(l: seq<Ref>, k: set<Ref>)
      requires color.Keys == objs.Keys && age == map[] && grayagain == []
      ensures OldUpTo(objs, color, k, Members(l[..0]), objs, color, age, grayagain) && Kept(l[..0], k) == []
    {
      assert Members(l[..0]) == {};
      OldNone(objs, color, k);
    }

    lemma NotOldYet(l: seq<Ref>, i: int, k: set<Ref>, o0: Graph, c0: Colors)
      requires 0 <= i < |l| && OldUpTo(o0, c0, k, Members(l[..i]), objs, color, age, grayagain) && l[i] in o0
        && l[i] !in Members(l[..i])
      ensures l[i] in objs && l[i] in color && l[i] in c0 && color[l[i]] == c0[l[i]]
    {
    }

    lemma AllOld(o0: Graph, c0: Colors, k: set<Ref>, l: seq<Ref>, a1: AgeMap)
      requires OldUpTo(o0, c0, k, Members(l), objs, color, a1, grayagain) && age == (map o | o in objs :: Old)
        && reallyold == Kept(l, k)
      requires AfterMarking(o0, c0, l, fixed, main, registry, next) && k == NonWhite(c0)
      requires (forall o :: o in l ==> o in o0 && o !in fixed) && Members(l) + fixed == o0.Keys
      requires gray == [] && nursery == [] && survival == [] && old1 == [] && firstold1 == None && running == main
        && mt == map[]
      ensures Ok() && objs.Keys == k && (forall o :: o in objs ==> objs[o] == o0[o])
      ensures forall o :: o in objs ==> o in age && age[o].Old?
    {
      hide Valid, AfterMarking, Kept, SegmentsOk, FirstOk, OldUpTo;
      AfterParts(o0, c0, l, fixed, main, registry, next);
      OldSame(o0, c0, k, Members(l), objs, color, a1, grayagain);
      OldValid(o0, c0, k, l, objs, color, a1, grayagain, fixed, age, main, registry, next);
      OldSegments(o0, k, l, fixed, objs, age);
      assert survival + old1 == [];
      assert Roots() == {main, registry};
      assert Below(objs, next);
    }

    // ----- other changes by the program -----

    /** The theorem that the ages stand for: an old object that no collection will visit refers to old objects only. */
    lemma OldToOld(o: Ref, v: Ref)
      requires Ok() && o in objs && age[o].Old? && !objs[o].kind.Thread? && v in Succ(objs, o)
      ensures v in age && IsOld(age[v])
    {
      assert ShadeOk(objs[o].kind, color[o], age[o], o in gray, o in grayagain, o in fixed);
      assert TypedObj(objs, o);
      assert RefOk(objs[o].kind, color[o], age[o], color[v], age[v]);
    }

    // Stacks are written without barriers.
    method StoreSlot(th: Ref, k: nat, v: Ref)
      requires Ok() && th in objs && objs[th].kind.Thread? && v in objs && Storable(objs, th, k, v)
      modifies `objs
      ensures Ok() && objs == Put(old(objs), th, k, v)
    {
      hide *;
      ghost var o0 := objs;
      OkSplit();
      PutFacts(th, k, v);
      PlainStore(o0, color, age, gray, grayagain, fixed, th, k, v);
      objs := Put(objs, th, k, v);
      OkJoin(o0, age);
    }

    // A reference is removed.
    method Clear(o: Ref, k: nat)
      requires Ok() && o in objs
      modifies `objs
      ensures Ok() && objs == Drop(old(objs), o, k)
    {
      hide *;
      ghost var o0 := objs;
      OkSplit();
      ValidGraph();
      DropGraph(objs, o, k);
      DropValid(objs, color, age, gray, grayagain, fixed, o, k);
      objs := Drop(objs, o, k);
      OkJoin(o0, age);
    }

    lemma ValidGraph()
      requires Valid(objs, color, age, gray, grayagain, fixed)
      ensures GraphOk(objs)
    {
    }

    // `luaC_newobj`
    method Alloc(kind: Kind) returns (n: Ref)
      requires Ok() && !kind.Open?
      modifies `objs, `color, `age, `nursery, `next
      ensures Ok() && n == old(next) && next == n + 1 && n !in old(objs) && objs == Blank(old(objs), n, kind)
      ensures color == old(color)[n := White] && age == old(age)[n := New] && nursery == [n] + old(nursery)
    {
      hide *;
      OkSplit();
      ValidGraph();
      NewGraph(objs, next, kind);
      NewValid(objs, color, age, gray, grayagain, fixed, next, kind);
      NewSegments(objs, age, nursery, survival, old1, reallyold, fixed, firstold1, next, kind);
      n := next;
      ghost var o0, a0 := objs, age;
      objs := Blank(objs, n, kind);
      color := color[n := White];
      age := age[n := New];
      nursery := [n] + nursery;
      next := n + 1;
      NewOk(o0, a0, n, kind);
    }

    lemma NewOk(o0: Graph, a0: AgeMap, n: Ref, kind: Kind)
      requires objs == Blank(o0, n, kind) && n !in o0 && age == a0[n := New] && Below(objs, next)
      requires SegmentsOk(objs, age, nursery, survival, old1, reallyold, fixed)
        && FirstOk(age, survival + old1, firstold1)
      requires Roots() <= o0.Keys && o0[main].kind.Thread? && main in a0 && IsOld(a0[main]) && o0[running].kind.Thread?
      requires Valid(objs, color, age, gray, grayagain, fixed)
      ensures Ok()
    {
      assert main in Roots() && running in Roots();
      hide Valid, SegmentsOk, FirstOk, Below;
    }

    // A new object, in a slot of the stack of the running thread.
    method NewObject(kind: Kind, slot: nat) returns (n: Ref)
      requires Ok() && ValueKind(kind)
      modifies `objs, `color, `age, `nursery, `next
      ensures Ok() && n == old(next) && n !in old(objs) && running in old(objs)
        && objs == Put(Blank(old(objs), n, kind), running, slot, n)
      ensures color == old(color)[n := White] && age == old(age)[n := New] && next == n + 1
    {
      hide *;
      assert !kind.Open? by { KindOk(kind); }
      RunningIn();
      n := Alloc(kind);
      SlotOk(old(objs), n, kind, slot);
      StoreSlot(running, slot, n);
    }

    lemma KindOk(kind: Kind)
      requires ValueKind(kind)
      ensures !kind.Open?
    {
    }

    lemma RunningIn()
      requires Ok()
      ensures running in objs && objs[running].kind.Thread?
    {
      assert running in Roots();
    }

    lemma SlotOk(o0: Graph, n: Ref, kind: Kind, slot: nat)
      requires objs == Blank(o0, n, kind) && n !in o0 && running in o0 && o0[running].kind.Thread? && ValueKind(kind)
      ensures running in objs && objs[running].kind.Thread? && n in objs && Storable(objs, running, slot, n)
    {
    }

    // The roots other than the main thread change without barriers.
    method SetMetatable(tag: nat, v: Ref)
      requires Ok() && v in objs
      modifies `mt
      ensures Ok() && mt == old(mt)[tag := v]
    {
      hide *;
      OkSplit();
      RootParts();
      assert mt[tag := v].Values <= mt.Values + {v};
      mt := mt[tag := v];
      RootsJoin();
    }

    method Resume(th: Ref)
      requires Ok() && th in objs && objs[th].kind.Thread?
      modifies `running
      ensures Ok() && running == th
    {
      hide *;
      OkSplit();
      RootParts();
      running := th;
      RootsJoin();
    }

    method SetRegistry(v: Ref)
      requires Ok() && v in objs
      modifies `registry
      ensures Ok() && registry == v
    {
      hide *;
      OkSplit();
      RootParts();
      registry := v;
      RootsJoin();
    }

    lemma RootParts()
      requires RootsOk()
      ensures main in objs && objs[main].kind.Thread? && main in age && IsOld(age[main])
      ensures running in objs && objs[running].kind.Thread? && registry in objs && mt.Values <= objs.Keys
    {
      assert main in Roots() && running in Roots() && registry in Roots() && mt.Values <= Roots();
    }

    lemma RootsJoin()
      requires Valid(objs, color, age, gray, grayagain, fixed) && Below(objs, next)
      requires SegmentsOk(objs, age, nursery, survival, old1, reallyold, fixed)
        && FirstOk(age, survival + old1, firstold1)
      requires main in objs && objs[main].kind.Thread? && main in age && IsOld(age[main])
      requires running in objs && objs[running].kind.Thread? && registry in objs && mt.Values <= objs.Keys
      ensures Ok()
    {
      hide Valid, SegmentsOk, FirstOk, Below;
    }
  }

  // ----- a store that escapes the barriers -----

  // The main thread, the registry, and an old closure in it; then what a program makes of them.
  const G0: Graph := map[0 := Obj(Thread, map[], {}), 1 := Obj(Box, map[0 := 2], {}), 2 := Obj(Box, map[], {})]
  const G1: Graph := Put(Blank(G0, 3, Box), 0, 0, 3)
  const G2: Graph := Blank(G1, 4, Cell)
  const G3: Graph := Put(G2, 3, 0, 4)
  const G4: Graph := Put(Blank(G3, 5, Box), 0, 1, 5)
  const G5: Graph := Put(G4, 4, 0, 5)
  const G6: Graph := Put(G5, 2, 0, 4)

  /** A run in which a store escapes the barriers. A new closure 3 has a new closed upvalue 4, and that a new table 5.
      `lua_upvaluejoin` makes the old closure 2 share the upvalue: the forward barrier marks the table along with it,
      but only the upvalue becomes old. Then the table itself is stored in the registry, which is old and black: the
      table is not white, so that no barrier runs, and an old object refers to a young one. */
  method EscapingRun() returns (g: GenState)
    ensures !g.Ok() && g.objs == Put(G6, 1, 1, 5) && 5 in Succ(g.objs, 1)
    ensures 1 in g.color && g.color[1].Black? && 1 in g.age && g.age[1].Old? && 5 in g.age && g.age[5].New?
  {
    hide *;
    GraphSteps();
    g := Shared();
    ghost var c0, a0, g0 := g.color, g.age, g.gray;
    SharedFacts(g);
    g.Store(2, 0, 4, false);
    MarkedAlong(g, c0, a0, g0);
    g.Store(1, 1, 5, true);
    StoredLast();
  }

  lemma StoredLast()
    ensures 1 in G6 && 5 in Succ(Put(G6, 1, 1, 5), 1)
  {
    assert 1 in Put(G6, 1, 1, 5)[1].fields;
  }

  // 1 and 2 are old and black, and what was made since is new and white.
  ghost predicate Fresh(c: Colors, a: AgeMap, n: Ref) {
    && (forall p :: 1 <= p < n ==> p in c && p in a)
    && n >= 3 && c[1].Black? && c[2].Black? && a[1].Old? && a[2].Old?
    && forall p :: 3 <= p < n ==> c[p].White? && a[p].New?
  }

  lemma FreshMore(c: Colors, a: AgeMap, n: Ref)
    requires Fresh(c, a, n)
    ensures Fresh(c[n := White], a[n := New], n + 1)
  {
  }

  lemma YoungWhite(g: GenState, o: Ref, v: Ref, n: Ref)
    requires Fresh(g.color, g.age, n) && 3 <= o < n
    ensures !g.Escaping(o, v) && !g.NeedsBarrier(o, v)
  {
  }

  lemma SharedFacts(g: GenState)
    requires g.objs == G5 && Fresh(g.color, g.age, 6)
    ensures 1 in G5 && 2 in G5 && 4 in G5 && Storable(G5, 2, 0, 4) && !G5[2].kind.Thread? && !g.Escaping(2, 4)
      && g.NeedsBarrier(2, 4)
    ensures 1 in g.color && 2 in g.color && 4 in g.color && 5 in g.color && g.color[1].Black? && g.color[4].White?
    ensures 1 in g.age && g.age[1].Old? && 2 in g.age && IsOld(g.age[2]) && 5 in g.age && g.age[5].New?
  {
  }

  // The table was marked along with the upvalue, but is as young as before.
  lemma MarkedAlong(g: GenState, c0: Colors, a0: AgeMap, g0: seq<Ref>)
    requires g.objs == G6 && 1 in c0 && 2 in c0 && 4 in c0 && 5 in c0 && c0[1].Black? && c0[4].White?
    requires MarkRel(g.objs, c0, g0, g.color, g.gray, {}) && Marked(g.color, 4)
    requires 1 in a0 && a0[1].Old? && 2 in a0 && IsOld(a0[2]) && 5 in a0 && a0[5].New?
      && g.age == if IsOld(a0[2]) then a0[4 := Old0] else a0
    ensures g.Escaping(1, 5) && !g.NeedsBarrier(1, 5)
    ensures 1 in g.objs && 5 in g.objs && Storable(g.objs, 1, 1, 5) && g.objs[1].kind.Box?
    ensures 1 in g.color && g.color[1].Black? && 1 in g.age && g.age[1].Old? && 5 in g.age && g.age[5].New?
  {
    assert 4 in g.objs && g.objs[4] == Obj(Cell, map[0 := 5], {});
    assert 0 in g.objs[4].fields && 5 in Succ(g.objs, 4);
    assert g.color[4] != c0[4] && g.color[4].Black?;
    assert Marked(g.color, 5);
  }

  // Up to the call of `lua_upvaluejoin`.
  method Shared() returns (g: GenState)
    ensures fresh(g) && g.Ok() && g.objs == G5 && Fresh(g.color, g.age, 6)
  {
    hide *;
    GraphSteps();
    ghost var colors: Colors := map[0 := Gray, 1 := Black, 2 := Black];
    StartMarked(colors);
    g := new GenState(G0, map[0 := Gray, 1 := Black, 2 := Black], [0, 1, 2], {}, 0, 1, 3);
    StartShades(g, colors);
    BoxKind();
    FreshMore(g.color, g.age, 3);
    var f := g.NewObject(Box, 0);
    FreshMore(g.color, g.age, 4);
    var u := g.Alloc(Cell);
    ClosureFacts();
    YoungWhite(g, 3, 4, 5);
    g.Store(3, 0, 4, false);
    FreshMore(g.color, g.age, 5);
    var v := g.NewObject(Box, 1);
    TableFacts();
    YoungWhite(g, 4, 5, 6);
    g.Store(4, 0, 5, false);
  }

  lemma BoxKind()
    ensures ValueKind(Box)
  {
  }

  lemma ClosureFacts()
    ensures 3 in G2 && 4 in G2 && Storable(G2, 3, 0, 4) && !G2[3].kind.Thread?
  {
  }

  lemma TableFacts()
    ensures 4 in G4 && 5 in G4 && Storable(G4, 4, 0, 5) && !G4[4].kind.Thread?
  {
  }

  lemma GraphSteps()
    ensures 0 in G0 && 0 in Blank(G0, 3, Box) && G1 == Put(Blank(G0, 3, Box), 0, 0, 3) && G2 == Blank(G1, 4, Cell)
    ensures 3 in G2 && G3 == Put(G2, 3, 0, 4) && 0 in Blank(G3, 5, Box) && G4 == Put(Blank(G3, 5, Box), 0, 1, 5)
    ensures 4 in G4 && G5 == Put(G4, 4, 0, 5) && 2 in G5 && G6 == Put(G5, 2, 0, 4)
  {
  }

  lemma StartFacts()
    ensures G0.Keys == {0, 1, 2} && Succ(G0, 0) == {} && Succ(G0, 1) == {2} && Succ(G0, 2) == {}
    ensures G0[0] == Obj(Thread, map[], {}) && G0[1].kind.Box? && G0[1].uvs == {} && G0[2] == Obj(Box, map[], {})
      && G0[1].fields.Values == {2}
  {
    assert map[0 := 2].Values == {2} by { assert 0 in map[0 := 2]; }
  }

  lemma StartGraph()
    ensures GraphOk(G0) && Below(G0, 3)
  {
    hide G0, Succ;
    StartFacts();
    assert TypedObj(G0, 0) && TypedObj(G0, 1) && TypedObj(G0, 2);
  }

  lemma StartMarked(color: Colors)
    requires color == map[0 := Gray, 1 := Black, 2 := Black]
    ensures AfterMarking(G0, color, [0, 1, 2], {}, 0, 1, 3)
  {
    hide G0, Succ, GraphOk, Below;
    StartFacts();
    StartGraph();
    assert multiset([0, 1, 2]) == multiset({0, 1, 2});
  }

  lemma StartShades(g: GenState, color: Colors)
    requires color == map[0 := Gray, 1 := Black, 2 := Black]
    requires g.Ok() && g.objs.Keys == NonWhite(color) && (forall o :: o in g.objs ==> g.objs[o] == G0[o])
      && g.fixed == {}
    requires forall o :: o in g.objs ==> o in g.age && g.age[o].Old?
    ensures g.objs == G0 && Fresh(g.color, g.age, 3)
  {
    hide G0, Succ, ShadeOk, g.Ok, Valid;
    StartFacts();
    g.OkSplit();
    assert g.objs.Keys == {0, 1, 2};
    OldBlack(g, 1);
    OldBlack(g, 2);
  }

  // An old object that is no thread and not fixed is black.
  lemma OldBlack(g: GenState, o: Ref)
    requires Valid(g.objs, g.color, g.age, g.gray, g.grayagain, g.fixed) && o in g.objs && g.objs[o].kind.Box?
      && o !in g.fixed
    requires o in g.age && g.age[o].Old?
    ensures o in g.color && g.color[o].Black?
  {
    hide GraphOk, RefsOk, GraysOk;
    ShadeAt(g.objs, g.color, g.age, g.gray, g.grayagain, g.fixed, o);
  }
}
