// Every object is in exactly one of the collector's lists.

module Lists {
  import opened Heap
  import opened Sequences

  ghost predicate Partition(keys: set<Ref>, fixed: set<Ref>, allgc: seq<Ref>, finobj: seq<Ref>, tobefnz: seq<Ref>) {
    multiset(allgc) + multiset(finobj) + multiset(tobefnz) + multiset(fixed) == multiset(keys)
  }

  // The finalized bit marks the members of the two lists of objects with finalizers.
  ghost predicate FinOk(fin: set<Ref>, finobj: seq<Ref>, tobefnz: seq<Ref>) {
    fin == Members(finobj) + Members(tobefnz)
  }

  // The partition, object by object.
  lemma InOneList(keys: set<Ref>, fixed: set<Ref>, allgc: seq<Ref>, finobj: seq<Ref>, tobefnz: seq<Ref>, o: Ref)
    requires Partition(keys, fixed, allgc, finobj, tobefnz)
    ensures o in keys <==> o in allgc || o in finobj || o in tobefnz || o in fixed
    ensures o in allgc ==> o !in finobj && o !in tobefnz && o !in fixed
    ensures o in finobj ==> o !in tobefnz && o !in fixed
    ensures o in tobefnz ==> o !in fixed
  {
    var total := multiset(allgc) + multiset(finobj) + multiset(tobefnz) + multiset(fixed);
    assert total[o] == multiset(keys)[o] <= 1;
    assert o in allgc <==> multiset(allgc)[o] > 0;
    assert o in finobj <==> multiset(finobj)[o] > 0;
    assert o in tobefnz <==> multiset(tobefnz)[o] > 0;
  }

  lemma {:induction false} CountTwice(l: seq<Ref>, i: nat, j: nat)
    requires i < j < |l| && l[i] == l[j]
    ensures multiset(l)[l[i]] >= 2
  {
    assert l == l[..j] + [l[j]] + l[j + 1..];
    assert l[..j][i] == l[i];
    assert l[i] in multiset(l[..j]);
  }

  lemma ListsNoDup(keys: set<Ref>, fixed: set<Ref>, allgc: seq<Ref>, finobj: seq<Ref>, tobefnz: seq<Ref>)
    requires Partition(keys, fixed, allgc, finobj, tobefnz)
    ensures NoDup(allgc) && NoDup(finobj) && NoDup(tobefnz)
  {
    forall l: seq<Ref>, i, j | l in {allgc, finobj, tobefnz} && 0 <= i < j < |l| ensures l[i] != l[j] {
      assert multiset(l)[l[i]] <= multiset(keys)[l[i]] <= 1;
      if l[i] == l[j] { CountTwice(l, i, j); }
    }
  }

  // Taking an element out of a list, or putting one in.
  lemma Removed(l: seq<Ref>, i: nat)
    requires i < |l|
    ensures multiset(l[..i] + l[i + 1..]) == multiset(l) - multiset{l[i]}
      && multiset(l) == multiset(l[..i] + l[i + 1..]) + multiset{l[i]}
  {
    assert l == l[..i] + [l[i]] + l[i + 1..];
  }

  lemma Pushed(l: seq<Ref>, o: Ref)
    ensures multiset([o] + l) == multiset{o} + multiset(l)
  {
  }
}
