/** First-match search over a candidate list. */
module Search {
  import opened Wrappers

  /**
   * The index of the first candidate at or after `from` that `accept`
   * takes, or None: what a `for ... return` loop over a candidate list
   * finds.
   */
  function FirstAccepted<T>(cands: seq<T>, accept: T -> bool, from: nat): (k: Option<nat>)
    requires from <= |cands|
    decreases |cands| - from
    ensures k.Some? ==> from <= k.value < |cands| && accept(cands[k.value])
    ensures k.Some? ==> forall j :: from <= j < k.value ==> !accept(cands[j])
    ensures k.None? ==> forall j :: from <= j < |cands| ==> !accept(cands[j])
  {
    if from == |cands| then None
    else if accept(cands[from]) then Some(from)
    else FirstAccepted(cands, accept, from + 1)
  }
}
