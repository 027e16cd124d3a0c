// Lists of addresses.

module Sequences {
  function Members(l: seq<nat>): set<nat> {
    set o | o in l
  }

  predicate NoDup(l: seq<nat>) {
    forall i, j :: 0 <= i < j < |l| ==> l[i] != l[j]
  }
}
