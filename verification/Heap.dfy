// The object graph of the garbage collector.

module Heap {
  type Ref = nat

  /** What the collector distinguishes: strings; closed upvalues, which hold one value; open upvalues, whose
      value is in a stack slot of a thread; userdata without user values, which have only a metatable; tables,
      closures, prototypes and other userdata, which wait in a gray list; and threads, whose stacks are written
      without barriers. */
  datatype Kind = Leaf | Cell | Open(th: Ref, slot: nat) | Udata | Box | Thread

  // References by slot (an absent slot holds no object); for a thread, also its open upvalues.
  datatype Obj = Obj(kind: Kind, fields: map<nat, Ref>, uvs: set<Ref>)

  type Graph = map<Ref, Obj>

  // The objects that `o` refers to. An open upvalue refers to the value in its slot, not to its thread.
  function Succ(objs: Graph, o: Ref): set<Ref>
    requires o in objs
  {
    match objs[o].kind
    case Open(th, slot) => if th in objs && slot in objs[th].fields then {objs[th].fields[slot]} else {}
    case _ => objs[o].fields.Values + objs[o].uvs
  }

  // What an object refers to, place by place: an open upvalue to what its slot holds, anything else to what it holds
  // itself, a thread to its open upvalues too.
  lemma SuccMeans(objs: Graph, o: Ref, v: Ref)
    requires o in objs
    ensures v in Succ(objs, o) <==>
      if objs[o].kind.Open? then
        objs[o].kind.th in objs && objs[o].kind.slot in objs[objs[o].kind.th].fields
        && v == objs[objs[o].kind.th].fields[objs[o].kind.slot]
      else (exists k :: k in objs[o].fields && objs[o].fields[k] == v) || v in objs[o].uvs
  {
    if !objs[o].kind.Open? {
      assert v in objs[o].fields.Values <==> exists k :: k in objs[o].fields && objs[o].fields[k] == v;
    }
  }

  // What waits in a gray list to be visited; everything else is visited when it is marked.
  predicate Listable(k: Kind) {
    k.Box? || k.Thread?
  }

  // ----- well-typed graphs -----

  predicate ValueKind(k: Kind) {
    !k.Cell? && !k.Open?
  }

  ghost predicate TypedObj(objs: Graph, o: Ref)
    requires o in objs
  {
    var b := objs[o];
    match b.kind
    case Leaf => b.fields == map[] && b.uvs == {}
    case Cell => b.fields.Keys <= {0} && b.uvs == {}
      && (0 in b.fields && b.fields[0] in objs ==> ValueKind(objs[b.fields[0]].kind))
    case Open(th, slot) =>
      && th in objs && objs[th].kind.Thread? && o in objs[th].uvs && b.fields == map[] && b.uvs == {}
    case Udata => b.fields.Keys <= {0} && b.uvs == {}
      && (0 in b.fields && b.fields[0] in objs ==> objs[b.fields[0]].kind.Box?)
    case Box => b.uvs == {}
    case Thread =>
      && (forall v :: v in b.fields.Values && v in objs ==> ValueKind(objs[v].kind))
      && (forall u :: u in b.uvs ==> u in objs && objs[u].kind.Open? && objs[u].kind.th == o)
  }

  ghost predicate Typed(objs: Graph) {
    forall o :: o in objs ==> TypedObj(objs, o)
  }

  // How many levels `reallymarkobject` can call itself on an object.
  function Rank(k: Kind): nat {
    match k
    case Cell => 2
    case Open(_, _) => 2
    case Udata => 1
    case _ => 0
  }

  lemma RankDrops(objs: Graph, o: Ref, v: Ref)
    requires Typed(objs) && o in objs && v in Succ(objs, o) && v in objs
    requires objs[o].kind.Cell? || objs[o].kind.Open? || objs[o].kind.Udata?
    ensures Rank(objs[v].kind) < Rank(objs[o].kind)
  {
    assert TypedObj(objs, o);
    if objs[o].kind.Open? { assert TypedObj(objs, objs[o].kind.th); }
  }

  // ----- reachability -----

  // `path` goes along references.
  ghost predicate IsPath(objs: Graph, path: seq<Ref>) {
    && |path| > 0
    && (forall i :: 0 <= i < |path| - 1 ==> path[i] in objs)
    && (forall i :: 0 <= i < |path| - 1 ==> path[i + 1] in Succ(objs, path[i]))
  }

  ghost predicate PathTo(objs: Graph, roots: set<Ref>, o: Ref, path: seq<Ref>) {
    IsPath(objs, path) && path[0] in roots && path[|path| - 1] == o
  }

  ghost predicate Reachable(objs: Graph, roots: set<Ref>, o: Ref) {
    exists path :: PathTo(objs, roots, o, path)
  }

  // `s` contains what its members refer to.
  ghost predicate ClosedSet(objs: Graph, s: iset<Ref>) {
    forall o, v :: o in s && o in objs && v in Succ(objs, o) ==> v in s
  }

  lemma {:induction false} PathInside(objs: Graph, s: iset<Ref>, path: seq<Ref>)
    requires IsPath(objs, path) && ClosedSet(objs, s) && path[0] in s
    ensures path[|path| - 1] in s
    decreases |path|
  {
    if |path| > 1 {
      assert path[1] in Succ(objs, path[0]);
      var rest := path[1..];
      assert forall i :: 0 <= i < |rest| - 1 ==> rest[i] in objs && rest[i + 1] in Succ(objs, rest[i]);
      PathInside(objs, s, rest);
    }
  }

  // Everything reachable is in every closed set that contains the roots.
  lemma ReachableInside(objs: Graph, roots: set<Ref>, s: iset<Ref>)
    requires ClosedSet(objs, s) && forall r :: r in roots ==> r in s
    ensures forall o :: Reachable(objs, roots, o) ==> o in s
  {
    forall o | Reachable(objs, roots, o) ensures o in s {
      var path :| PathTo(objs, roots, o, path);
      PathInside(objs, s, path);
    }
  }

  lemma RootReachable(objs: Graph, roots: set<Ref>, r: Ref)
    requires r in roots
    ensures Reachable(objs, roots, r)
  {
    assert PathTo(objs, roots, r, [r]);
  }

  lemma SuccReachable(objs: Graph, roots: set<Ref>, o: Ref, v: Ref)
    requires Reachable(objs, roots, o) && o in objs && v in Succ(objs, o)
    ensures Reachable(objs, roots, v)
  {
    var path :| PathTo(objs, roots, o, path);
    assert PathTo(objs, roots, v, path + [v]);
  }

  lemma NotReached(objs: Graph, roots: set<Ref>, o: Ref)
    requires o !in roots && forall p :: p in objs ==> o !in Succ(objs, p)
    ensures !Reachable(objs, roots, o)
  {
    forall path ensures !PathTo(objs, roots, o, path) {
      if IsPath(objs, path) && |path| > 1 { assert path[|path| - 2 + 1] in Succ(objs, path[|path| - 2]); }
    }
  }

  // The objects that can be reached from `roots`.
  ghost function ReachSet(objs: Graph, roots: set<Ref>): set<Ref> {
    set o | o in objs && Reachable(objs, roots, o)
  }

  // Reachability needs only what live objects refer to: it stays inside a closed part of the graph.
  lemma ReachableClosed(objs: Graph, roots: set<Ref>, s: set<Ref>)
    requires forall o, v :: o in s && o in objs && v in Succ(objs, o) ==> v in s
    requires roots <= s
    ensures forall o :: Reachable(objs, roots, o) ==> o in s
  {
    ReachableInside(objs, roots, iset o | o in s);
  }
}
