/** Option and Result, and the "keep what succeeded" collection used by the
    batch operations of the document processor and the template filler. */
module Wrappers {

  datatype Option<+T> = None | Some(value: T)

  /** A value, or the message of the exception that was raised instead. */
  datatype Result<+T, +E> = Ok(value: T) | Err(error: E)

  /** The values of the successful results, in order: a loop that appends
      each result and skips (after logging) each one that raised. */
  function Successes<T, E>(rs: seq<Result<T, E>>): seq<T>
  {
    if rs == [] then []
    else
      var kept := Successes(rs[..|rs| - 1]);
      match rs[|rs| - 1]
      case Ok(v) => kept + [v]
      case Err(_) => kept
  }

  /** One more result of a prefix adds its value exactly when it succeeded. */
  lemma SuccessesStep<T, E>(rs: seq<Result<T, E>>, i: nat)
    requires i < |rs|
    ensures Successes(rs[..i + 1]) == Successes(rs[..i]) + (if rs[i].Ok? then [rs[i].value] else [])
  {
    assert rs[..i + 1][..i] == rs[..i];
  }

  /** The positions of the successful results, in order. */
  function SuccessIndices<T, E>(rs: seq<Result<T, E>>): seq<nat>
  {
    if rs == [] then []
    else
      var kept := SuccessIndices(rs[..|rs| - 1]);
      if rs[|rs| - 1].Ok? then kept + [|rs| - 1] else kept
  }

  /** Successes(rs) is the order-preserving subsequence of the successful
      results: every kept value sits at a strictly increasing position of an
      Ok result, and no Ok result is skipped. */
  lemma {:induction false} SuccessesAreOrderedSubsequence<T, E>(rs: seq<Result<T, E>>)
    ensures |SuccessIndices(rs)| == |Successes(rs)|
    ensures forall k :: 0 <= k < |SuccessIndices(rs)| ==>
              SuccessIndices(rs)[k] < |rs| && rs[SuccessIndices(rs)[k]].Ok? &&
              rs[SuccessIndices(rs)[k]].value == Successes(rs)[k]
    ensures forall k, l :: 0 <= k < l < |SuccessIndices(rs)| ==>
              SuccessIndices(rs)[k] < SuccessIndices(rs)[l]
    ensures forall i :: 0 <= i < |rs| && rs[i].Ok? ==> i in SuccessIndices(rs)
  {
    if rs != [] {
      var init := rs[..|rs| - 1];
      SuccessesAreOrderedSubsequence(init);
      assert forall i :: 0 <= i < |init| ==> init[i] == rs[i];
      var ix := SuccessIndices(init);
      assert forall k :: 0 <= k < |ix| ==> ix[k] < |rs| - 1;
    }
  }
}
