/**
 * The closest-hit scan shared by Mesh::IntersectsRay and TraceRay: the
 * candidates are visited in order and a hit replaces the best one only at a
 * strictly smaller depth. The best depth starts out infinite: TraceRay sets
 * it so, and for Mesh::IntersectsRay, whose default Intersection
 * Intersection.h does not declare, infinity is assumed.
 */
module ClosestHit {
  import opened Wrappers

  /** depths[k] is the depth at which candidate k is hit, or None for a miss. */
  predicate IsEarliestMinimum(depths: seq<Option<real>>, k: nat)
  {
    && k < |depths|
    && depths[k].Some?
    && (forall j :: 0 <= j < |depths| && depths[j].Some? ==> depths[k].value <= depths[j].value)
    && (forall j :: 0 <= j < k && depths[j].Some? ==> depths[k].value < depths[j].value)
  }

  /**
   * The candidate the scan ends on: the last candidate replaces the best of
   * the others only when it is hit strictly closer.
   */
  function Closest(depths: seq<Option<real>>): (r: Option<nat>)
    ensures r.None? <==> forall j :: 0 <= j < |depths| ==> depths[j].None?
    ensures r.Some? ==> IsEarliestMinimum(depths, r.value)
  {
    if |depths| == 0 then None
    else
      var before := Closest(depths[..|depths| - 1]);
      var last := |depths| - 1;
      if depths[last].Some? && (before.None? || depths[last].value < depths[before.value].value) then Some(last)
      else before
  }

  /** At most one candidate is the earliest minimum. */
  lemma EarliestMinimumUnique(depths: seq<Option<real>>, k1: nat, k2: nat)
    requires IsEarliestMinimum(depths, k1) && IsEarliestMinimum(depths, k2)
    ensures k1 == k2
  {
  }

  /** One more candidate: the scan step the loops perform. */
  lemma ClosestStep(depths: seq<Option<real>>, k: nat)
    requires k < |depths|
    ensures Closest(depths[..k + 1]) ==
      var before := Closest(depths[..k]);
      if depths[k].Some? && (before.None? || depths[k].value < depths[before.value].value) then Some(k) else before
  {
    assert depths[..k + 1][..k] == depths[..k];
  }
}
