/** What several modules share. */
module Wrappers {
  datatype Option<+T> = None | Some(value: T)

  /** The first `n` elements, or all there are. */
  function Keep<T>(s: seq<T>, n: nat): seq<T>
  {
    if n < |s| then s[..n] else s
  }

  lemma KeepIsPrefix<T>(s: seq<T>, n: nat)
    ensures s == Keep(s, n) + s[|Keep(s, n)|..]
    ensures forall x :: x in Keep(s, n) ==> x in s
  {}
}
