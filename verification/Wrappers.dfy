/** Optional values, used for the source's nil pointers and error returns. */
module Wrappers {

  datatype Option<+T> = None | Some(value: T)

  /** The error classes the controllers tell apart. */
  datatype Error = AlreadyExists | Failed

  type MaybeError = Option<Error>

  /** A name that is longer than all of these. */
  lemma {:induction false} FreshName(names: set<string>) returns (name: string)
    ensures forall n <- names :: |n| < |name|
    ensures name !in names
  {
    if names == {} {
      name := "";
    } else {
      var n :| n in names;
      var other := FreshName(names - {n});
      name := if |n| < |other| then other else n + "-";
      assert forall k <- names :: k == n || k in names - {n};
    }
  }
}
