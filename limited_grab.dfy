/** XRLimitedGrabInteractable: a grab interactable that can only be selected or hovered
    from within `grabRadius`, and that remembers whether a hand (not a socket) holds it. */
module LimitedGrab {
  import opened Geometry
  import opened Interaction

  class XRLimitedGrabInteractable {
    /** Maximum interactor distance for hover and select; 1 by default. */
    var grabRadius: real
    /** Held by a non-socket interactor. Only OnGrab and OnRelease assign it. */
    var isHeld: bool
    /** Position of the interactable's transform. */
    var position: Vec3

    constructor (position: Vec3)
      ensures grabRadius == 1.0 && !isHeld && this.position == position
    {
      grabRadius := 1.0;
      isHeld := false;
      this.position := position;
    }

    /** IsTooFar: the interactor is strictly farther than `grabRadius`, so an interactor
        exactly at the radius is in range. `dist` is Vector3.Distance to `other`. */
    predicate IsTooFar(other: Vec3, dist: real)
      requires IsDistance(dist, position, other)
      reads this
      ensures IsTooFar(other, dist) <==> grabRadius < 0.0 || SqDist(position, other) > grabRadius * grabRadius
    {
      DistanceExceeds(dist, position, other, grabRadius);
      dist > grabRadius
    }

    /** IsSelectableBy: in range, and the base XRGrabInteractable allows it. */
    predicate IsSelectableBy(other: Vec3, dist: real, baseSelectable: bool)
      requires IsDistance(dist, position, other)
      reads this
      ensures IsSelectableBy(other, dist, baseSelectable) <==>
              baseSelectable && grabRadius >= 0.0 && SqDist(position, other) <= grabRadius * grabRadius
    {
      !IsTooFar(other, dist) && baseSelectable
    }

    /** IsHoverableBy: not held, in range, and the base allows it. A held object is
        never hoverable. */
    predicate IsHoverableBy(other: Vec3, dist: real, baseHoverable: bool)
      requires IsDistance(dist, position, other)
      reads this
      ensures IsHoverableBy(other, dist, baseHoverable) <==>
              !isHeld && baseHoverable && grabRadius >= 0.0 && SqDist(position, other) <= grabRadius * grabRadius
      ensures IsHoverableBy(other, dist, baseHoverable) ==> IsSelectableBy(other, dist, true)
    {
      !isHeld && !IsTooFar(other, dist) && baseHoverable
    }

    /** OnGrab (selectEntered): a hand grab sets `isHeld`; a socket leaves it as it is. */
    method OnGrab(interactor: Interactor)
      modifies this`isHeld
      ensures isHeld == (if interactor.isSocket then old(isHeld) else true)
    {
      if !interactor.isSocket {
        isHeld := true;
      }
    }

    /** OnRelease (selectExited): a hand release clears `isHeld`; a socket leaves it. */
    method OnRelease(interactor: Interactor)
      modifies this`isHeld
      ensures isHeld == (if interactor.isSocket then old(isHeld) else false)
    {
      if !interactor.isSocket {
        isHeld := false;
      }
    }
  }
}
