/** A chain of `except` clauses: the first clause whose class the raised
    exception is an instance of handles it. Both exception handlers of the
    service layer are such chains. */
module Except {
  import opened Wrappers

  /** Index of the first clause that `catches` accepts, if any. */
  function FirstMatch<C>(clauses: seq<C>, catches: C -> bool): (r: Option<nat>)
    ensures r.Some? ==> r.value < |clauses| && catches(clauses[r.value])
    ensures r.Some? ==> forall j :: 0 <= j < r.value ==> !catches(clauses[j])
    ensures r.None? <==> forall j :: 0 <= j < |clauses| ==> !catches(clauses[j])
    decreases |clauses|
  {
    if |clauses| == 0 then None
    else if catches(clauses[0]) then Some(0)
    else match FirstMatch(clauses[1..], catches)
      case None => None
      case Some(k) => Some(k + 1)
  }
}
