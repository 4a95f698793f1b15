/** Generic sequence facts, stated over an arbitrary element type so that
    the verifier does not reason about the elements' own structure. */
module Sequences {

  lemma ConcatAssoc<T>(x: seq<T>, y: seq<T>, z: seq<T>)
    ensures (x + y) + z == x + (y + z)
  {
  }
}
