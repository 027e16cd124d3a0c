// Colours for collections that are atomic: there is one white.

module Shades {
  import opened Heap

  // The current white; what has the other white is freed within the collection that made it so.
  datatype Color = White | Gray | Black

  type Colors = map<Ref, Color>

  // A collectable object, or none.
  datatype Opt = None | Some(r: Ref)

  predicate Marked(color: Colors, o: Ref) {
    o in color && !color[o].White?
  }

  // What is marked stays marked.
  ghost predicate Grows(c0: Colors, c1: Colors) {
    c1.Keys == c0.Keys && forall o :: Marked(c0, o) ==> Marked(c1, o)
  }

  ghost function NonWhite(color: Colors): set<Ref> {
    set o | o in color && !color[o].White?
  }
}
