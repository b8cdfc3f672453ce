/** Per-hand bookkeeping for the hand-snapping scripts
    (Assets/Scripts/Other/ControllerTracking.cs): where the controller model sat
    inside its controller before it was snapped, the pose it was snapped to, and
    whether it is currently held on a snapping point. */
module Tracking {
  import opened Geometry

  class ControllerTracking {
    var originalRelativePosition: Vec3
    var originalRelativeRotation: Rotation
    /** `closestHandPose`: null (None) until a snap chooses a pose. */
    var closestHandPose: Option<Pose>
    var isTriggered: bool

    /** A new tracking remembers the model's local pose, has no closest pose and is
        not triggered. */
    constructor (localPos: Vec3, localRot: Rotation)
      ensures originalRelativePosition == localPos && originalRelativeRotation == localRot
      ensures closestHandPose.None? && !isTriggered
    {
      originalRelativePosition := localPos;
      originalRelativeRotation := localRot;
      closestHandPose := None;
      isTriggered := false;
    }
  }
}
