/** MaxDistanceSelectFilter: an XR select filter that admits an interactor only when it
    is within `MaxDistance` of the interactable. */
module MaxDistanceFilter {
  import opened Geometry

  /** Mathf.Clamp(x, 0, float.MaxValue), as OnValidate applies it. */
  function ClampDistance(x: real): (r: real)
    ensures 0.0 <= r <= FloatMaxValue
    ensures 0.0 <= x <= FloatMaxValue ==> r == x
    ensures x < 0.0 ==> r == 0.0
  {
    Clamp(x, 0.0, FloatMaxValue)
  }

  /** Clamping twice is clamping once. */
  lemma ClampDistanceIdempotent(x: real)
    ensures ClampDistance(ClampDistance(x)) == ClampDistance(x)
  {
  }

  class MaxDistanceSelectFilter {
    var maxDistance: real

    constructor (maxDistance: real)
      ensures this.maxDistance == maxDistance
    {
      this.maxDistance := maxDistance;
    }

    /** `canProcess`: the filter always takes part. */
    function CanProcess(): (r: bool)
      ensures r
    {
      true
    }

    /** Process: admitted iff Vector3.Distance(interactor, interactable) <= MaxDistance. */
    predicate Process(interactor: Vec3, interactable: Vec3, dist: real)
      requires IsDistance(dist, interactor, interactable)
      reads this
      ensures Process(interactor, interactable, dist) <==>
              maxDistance >= 0.0 && SqDist(interactor, interactable) <= maxDistance * maxDistance
    {
      DistanceExceeds(dist, interactor, interactable, maxDistance);
      dist <= maxDistance
    }

    /** OnValidate: clamp `maxDistance` into [0, float.MaxValue]. */
    method OnValidate()
      modifies this
      ensures maxDistance == ClampDistance(old(maxDistance))
      ensures maxDistance >= 0.0
      ensures 0.0 <= old(maxDistance) <= FloatMaxValue ==> maxDistance == old(maxDistance)
    {
      maxDistance := Clamp(maxDistance, 0.0, FloatMaxValue);
    }
  }
}
