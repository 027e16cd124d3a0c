// What a change of the object graph does to the colour invariants, while marking and while sweeping.

module Mutation {
  import opened Heap
  import opened Marking

  // ----- the invariants outside marking -----

  predicate Live(color: Colors, white: bool, o: Ref) {
    o in color && color[o] != White(!white)
  }

  // What is live refers only to what is live.
  ghost predicate LiveClosed(objs: Graph, color: Colors, white: bool) {
    forall o, v :: o in objs && Live(color, white, o) && v in Succ(objs, o) ==> v in objs && Live(color, white, v)
  }

  ghost predicate LiveAlive(color: Colors, white: bool, fixed: set<Ref>, alive: set<Ref>) {
    forall o :: Live(color, white, o) && o !in fixed ==> o in alive
  }

  ghost predicate Swept(color: Colors, white: bool, fixed: set<Ref>, pending: set<Ref>) {
    forall o :: o in color && o !in pending && o !in fixed ==> color[o] == White(white)
  }

  // The graph while `pending` is still to be swept.
  ghost predicate Sweep(objs: Graph, color: Colors, white: bool, fixed: set<Ref>, alive: set<Ref>, pending: set<Ref>) {
    && Typed(objs) && color.Keys == objs.Keys
    && FixedOk(objs, color, fixed) && AliveClosed(objs, alive) && LiveClosed(objs, color, white)
    && LiveAlive(color, white, fixed, alive) && Swept(color, white, fixed, pending)
  }

  // While marking nothing is dead.
  lemma NoneDead(objs: Graph, color: Colors, white: bool, fixed: set<Ref>, alive: set<Ref>)
    requires GraphOk(objs, color, white, fixed, alive)
    ensures LiveClosed(objs, color, white)
  {
    hide Typed, Succ, AliveClosed;
  }

  // ----- changes that add references -----

  /** The references added by a change are to members of `vs`; they are added to `o` and, when `o` is a thread, seen
      by the open upvalues of `o`. Objects may be new. */
  ghost predicate Effect(objs: Graph, objs': Graph, o: Ref, vs: set<Ref>) {
    && objs.Keys <= objs'.Keys
    && (forall p :: p in objs ==> objs'[p].kind == objs[p].kind)
    && (forall p :: p in objs && p != o && !objs[p].kind.Open? ==> Succ(objs', p) <= Succ(objs, p))
    && (forall p, v :: p in objs && v in Succ(objs', p) ==> v in Succ(objs, p) || v in vs)
    && (forall p, v :: p in objs' && p !in objs && v in Succ(objs', p) ==> v in vs)
  }

  // New objects get the current white.
  ghost predicate Extends(objs: Graph, objs': Graph, color: Colors, color': Colors, white: bool) {
    && color'.Keys == objs'.Keys
    && (forall p :: p in objs && p in color ==> p in color' && color'[p] == color[p])
    && (forall p :: p in objs' && p !in objs ==> p in color' && color'[p] == White(white))
  }

  lemma EffectGraph(objs: Graph, objs': Graph, color: Colors, color': Colors, white: bool, fixed: set<Ref>,
                    alive: set<Ref>,
                    alive': set<Ref>, o: Ref, vs: set<Ref>)
    requires GraphOk(objs, color, white, fixed, alive) && Effect(objs, objs', o, vs)
      && Extends(objs, objs', color, color', white)
    requires Typed(objs') && alive <= alive' && alive' <= alive + (objs'.Keys - objs.Keys)
    requires forall v :: v in vs ==> v in objs' && v in alive'
    ensures GraphOk(objs', color', white, fixed, alive')
  {
    hide Typed, Succ;
    forall p, v | p in alive' && p in objs' && v in Succ(objs', p) ensures v in alive' {
      if p in objs { assert v in Succ(objs, p) || v in vs; }
    }
    forall p, v | p in objs' && v in Succ(objs', p) ensures v in objs' {
      if p in objs { assert v in Succ(objs, p) || v in vs; }
    }
    assert forall p :: Marked(color', p) ==> Marked(color, p);
  }

  lemma EffectBlack(objs: Graph, objs': Graph, color: Colors, color': Colors, white: bool, hot: set<Ref>, o: Ref,
                    vs: set<Ref>)
    requires BlackOk(objs, color, hot) && Effect(objs, objs', o, vs) && Extends(objs, objs', color, color', white)
    requires OpenNotBlack(objs, color) && color.Keys == objs.Keys
    ensures BlackOk(objs', color', hot + {o})
    ensures o in objs && !color[o].Black? ==> BlackOk(objs', color', hot)
    ensures (forall v :: v in vs ==> Marked(color', v)) ==> BlackOk(objs', color', hot)
  {
    hide Succ;
    forall p, v | p in objs' && p in color' && color'[p].Black? && p !in hot && v in Succ(objs', p)
      ensures Marked(color', v) || (p == o && v in vs)
    {
      assert p in objs && !objs[p].kind.Open?;
      if v in Succ(objs, p) { assert Marked(color, v); }
    }
  }

  lemma EffectTri(objs: Graph, objs': Graph, color: Colors, color': Colors, white: bool, fixed: set<Ref>,
                  alive: set<Ref>,
                  alive': set<Ref>, gray: seq<Ref>, extra: set<Ref>, hot: set<Ref>, o: Ref, vs: set<Ref>)
    requires Tri(objs, color, white, fixed, alive, gray, extra, hot)
    requires Effect(objs, objs', o, vs) && Extends(objs, objs', color, color', white)
    requires Typed(objs') && alive <= alive' && alive' <= alive + (objs'.Keys - objs.Keys)
    requires forall v :: v in vs ==> v in objs' && v in alive'
    ensures Tri(objs', color', white, fixed, alive', gray, extra, hot + {o})
    ensures o in objs && (!color[o].Black? || forall v :: v in vs ==> Marked(color', v)) ==>
      Tri(objs', color', white, fixed, alive', gray, extra, hot)
  {
    hide Typed, Succ, NoDangling, AliveClosed, BlackOk;
    EffectGraph(objs, objs', color, color', white, fixed, alive, alive', o, vs);
    EffectBlack(objs, objs', color, color', white, hot, o, vs);
  }

  lemma EffectLive(objs: Graph, objs': Graph, color: Colors, color': Colors, white: bool, o: Ref, vs: set<Ref>)
    requires LiveClosed(objs, color, white) && color.Keys == objs.Keys
    requires Effect(objs, objs', o, vs) && Extends(objs, objs', color, color', white)
    requires forall v :: v in vs ==> v in objs' && Live(color', white, v)
    ensures LiveClosed(objs', color', white)
  {
    hide Succ;
    forall p, v | p in objs' && Live(color', white, p) && v in Succ(objs', p)
      ensures v in objs' && Live(color', white, v) {
      if p in objs { assert v in Succ(objs, p) || v in vs; }
    }
  }

  lemma EffectSweep(objs: Graph, objs': Graph, color: Colors, color': Colors, white: bool, fixed: set<Ref>,
                    alive: set<Ref>,
                    alive': set<Ref>, pending: set<Ref>, o: Ref, vs: set<Ref>)
    requires Sweep(objs, color, white, fixed, alive, pending)
    requires Effect(objs, objs', o, vs) && Extends(objs, objs', color, color', white)
    requires Typed(objs') && alive' == alive + (objs'.Keys - objs.Keys)
    requires forall v :: v in vs ==> v in objs' && v in alive' && Live(color', white, v)
    ensures Sweep(objs', color', white, fixed, alive', pending)
  {
    EffectLive(objs, objs', color, color', white, o, vs);
    hide Typed, Succ, LiveClosed;
    forall p, v | p in alive' && p in objs' && v in Succ(objs', p) ensures v in alive' {
      if p in objs { assert v in Succ(objs, p) || v in vs; }
    }
  }

  // ----- the changes -----

  function Put(objs: Graph, o: Ref, k: nat, v: Ref): Graph
    requires o in objs
  {
    objs[o := Obj(objs[o].kind, objs[o].fields[k := v], objs[o].uvs)]
  }

  function Drop(objs: Graph, o: Ref, k: nat): Graph
    requires o in objs
  {
    objs[o := Obj(objs[o].kind, objs[o].fields - {k}, objs[o].uvs)]
  }

  // Whether `v` may be stored in slot `k` of an object of kind `kind`.
  predicate Storable(objs: Graph, o: Ref, k: nat, v: Ref)
    requires o in objs && v in objs
  {
    match objs[o].kind
    case Leaf => false
    case Open(_, _) => false
    case Cell => k == 0 && ValueKind(objs[v].kind)
    case Udata => k == 0 && objs[v].kind.Box?
    case Box => true
    case Thread => ValueKind(objs[v].kind)
  }

  // What the program reads after a store: the object stored at that place, and what it read before everywhere else.
  lemma PutReads(objs: Graph, o: Ref, k: nat, v: Ref, p: Ref, j: nat)
    requires o in objs
    ensures var g := Put(objs, o, k, v);
      && (p in g <==> p in objs)
      && (p in objs ==>
        && g[p].kind == objs[p].kind && g[p].uvs == objs[p].uvs
        && (j in g[p].fields <==> j in objs[p].fields || (p == o && j == k))
        && (j in g[p].fields ==> g[p].fields[j] == if p == o && j == k then v else objs[p].fields[j]))
  {
  }

  // After a reference is removed only that place reads differently.
  lemma DropReads(objs: Graph, o: Ref, k: nat, p: Ref, j: nat)
    requires o in objs
    ensures var g := Drop(objs, o, k);
      && (p in g <==> p in objs)
      && (p in objs ==>
        && g[p].kind == objs[p].kind && g[p].uvs == objs[p].uvs
        && (j in g[p].fields <==> j in objs[p].fields && !(p == o && j == k))
        && (j in g[p].fields ==> g[p].fields[j] == objs[p].fields[j]))
  {
  }

  /** What may be stored where is just what leaves the graph well typed. */
  lemma StorableTyped(objs: Graph, o: Ref, k: nat, v: Ref)
    requires Typed(objs) && o in objs && v in objs
    ensures Storable(objs, o, k, v) <==> Typed(Put(objs, o, k, v))
  {
    if Storable(objs, o, k, v) {
      PutTyped(objs, o, k, v);
    } else {
      var g := Put(objs, o, k, v);
      assert k in g[o].fields.Keys && v in g[o].fields.Values && g[o].fields[k] == v;
      assert !TypedObj(g, o);
    }
  }

  lemma PutTyped(objs: Graph, o: Ref, k: nat, v: Ref)
    requires Typed(objs) && o in objs && v in objs && Storable(objs, o, k, v)
    ensures Typed(Put(objs, o, k, v))
  {
    var objs' := Put(objs, o, k, v);
    forall p | p in objs' ensures TypedObj(objs', p) {
      assert TypedObj(objs, p);
      assert objs'[p].fields.Values <= objs[p].fields.Values + {v};
    }
  }

  lemma PutEffect(objs: Graph, o: Ref, k: nat, v: Ref)
    requires o in objs
    ensures Effect(objs, Put(objs, o, k, v), o, {v})
    ensures objs[o].kind.Cell? || objs[o].kind.Udata? || objs[o].kind.Box? ==> v in Succ(Put(objs, o, k, v), o)
  {
    var objs' := Put(objs, o, k, v);
    assert k in objs'[o].fields;
    assert v in objs'[o].fields.Values;
  }

  lemma DropTyped(objs: Graph, o: Ref, k: nat)
    requires Typed(objs) && o in objs
    ensures Typed(Drop(objs, o, k))
  {
    var objs' := Drop(objs, o, k);
    forall p | p in objs' ensures TypedObj(objs', p) {
      assert TypedObj(objs, p);
      assert objs'[p].fields.Values <= objs[p].fields.Values;
    }
  }

  lemma DropEffect(objs: Graph, o: Ref, k: nat)
    requires o in objs
    ensures Effect(objs, Drop(objs, o, k), o, {})
  {
    var objs' := Drop(objs, o, k);
    assert objs'[o].fields.Values <= objs[o].fields.Values;
  }

  function Blank(objs: Graph, n: Ref, kind: Kind): Graph {
    objs[n := Obj(kind, map[], {})]
  }

  // A new object is empty, and changes no other.
  lemma BlankReads(objs: Graph, n: Ref, kind: Kind, p: Ref)
    requires n !in objs
    ensures var g := Blank(objs, n, kind);
      && (p in g <==> p in objs || p == n) && (p in objs ==> g[p] == objs[p])
      && g[n].kind == kind && |g[n].fields| == 0 && |g[n].uvs| == 0
  {
  }

  // No reference in the graph leads to `n` or to an address after it.
  ghost predicate Below(objs: Graph, n: Ref) {
    && (forall o :: o in objs ==> o < n)
    && (forall o, v :: o in objs && v in objs[o].fields.Values ==> v < n)
  }

  lemma BlankEffect(objs: Graph, n: Ref, kind: Kind, o: Ref)
    requires Typed(objs) && Below(objs, n) && !kind.Open?
    ensures Typed(Blank(objs, n, kind)) && Effect(objs, Blank(objs, n, kind), o, {})
      && Below(Blank(objs, n, kind), n + 1)
  {
    BlankTyped(objs, n, kind);
    BlankSucc(objs, n, kind);
    hide Succ, Typed;
  }

  lemma BlankTyped(objs: Graph, n: Ref, kind: Kind)
    requires Typed(objs) && Below(objs, n) && !kind.Open?
    ensures Typed(Blank(objs, n, kind))
  {
    var objs' := Blank(objs, n, kind);
    assert n !in objs;
    forall p | p in objs' ensures TypedObj(objs', p) {
      if p != n { assert TypedObj(objs, p); }
    }
  }

  lemma BlankSucc(objs: Graph, n: Ref, kind: Kind)
    requires Typed(objs) && Below(objs, n) && !kind.Open?
    ensures n !in objs && Succ(Blank(objs, n, kind), n) == {}
    ensures forall p :: p in objs ==> Succ(Blank(objs, n, kind), p) == Succ(objs, p)
  {
    forall p | p in objs ensures Succ(Blank(objs, n, kind), p) == Succ(objs, p) {
      assert TypedObj(objs, p);
    }
  }

  // A new open upvalue for a slot of a thread.
  function Opened(objs: Graph, n: Ref, th: Ref, slot: nat): Graph
    requires th in objs
  {
    objs[th := Obj(objs[th].kind, objs[th].fields, objs[th].uvs + {n})][n := Obj(Open(th, slot), map[], {})]
  }

  lemma OpenedTyped(objs: Graph, n: Ref, th: Ref, slot: nat)
    requires Typed(objs) && Below(objs, n) && th in objs && objs[th].kind.Thread?
    ensures Typed(Opened(objs, n, th, slot))
  {
    var objs' := Opened(objs, n, th, slot);
    assert n !in objs;
    forall p | p in objs' ensures TypedObj(objs', p) {
      if p != n { assert TypedObj(objs, p); }
      if p in objs { assert objs'[p].fields == objs[p].fields; }
    }
  }

  lemma OpenedSucc(objs: Graph, n: Ref, th: Ref, slot: nat, p: Ref)
    requires Typed(objs) && n !in objs && th in objs && objs[th].kind.Thread? && p in objs
    ensures p != th ==> Succ(Opened(objs, n, th, slot), p) == Succ(objs, p)
    ensures Succ(Opened(objs, n, th, slot), th) == Succ(objs, th) + {n}
    ensures Succ(Opened(objs, n, th, slot), n) == if slot in objs[th].fields then {objs[th].fields[slot]} else {}
  {
    assert TypedObj(objs, p);
    if objs[p].kind.Open? { assert TypedObj(objs, objs[p].kind.th); }
  }

  lemma OpenedEffect(objs: Graph, n: Ref, th: Ref, slot: nat)
    requires Typed(objs) && Below(objs, n) && th in objs && objs[th].kind.Thread?
    ensures Below(Opened(objs, n, th, slot), n + 1)
    ensures Effect(objs, Opened(objs, n, th, slot), th,
                   {n} + if slot in objs[th].fields then {objs[th].fields[slot]} else {})
  {
    hide Succ, Typed;
    assert n !in objs;
    forall p | p in objs
      ensures Succ(Opened(objs, n, th, slot), p) == if p == th then Succ(objs, p) + {n} else Succ(objs, p) {
      OpenedSucc(objs, n, th, slot, p);
    }
    OpenedSucc(objs, n, th, slot, th);
  }
}
