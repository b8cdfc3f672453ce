/** What the three hand-snapping scripts share: the snapping points are the children
    tagged "SnappingPoint", the hand snaps to the point closest to it (the first one
    on a tie), and releasing the hand puts its model back where it was inside the
    controller. */
module Snapping {
  import opened Geometry
  import opened Tracking

  const SnappingPointTag: string := "SnappingPoint"

  /** A child transform of the interactable: its tag and its world pose. */
  datatype Child = Child(tag: string, pose: Pose)

  /** The poses of the children tagged "SnappingPoint", in child order. */
  function TaggedPoses(children: seq<Child>): (r: seq<Pose>)
    ensures |r| <= |children|
    ensures forall p :: p in r <==> exists i :: 0 <= i < |children| && children[i].tag == SnappingPointTag && children[i].pose == p
  {
    if children == [] then []
    else
      var rest := TaggedPoses(children[1..]);
      assert forall i :: 0 < i < |children| ==> children[i] == children[1..][i - 1];
      if children[0].tag == SnappingPointTag then [children[0].pose] + rest else rest
  }

  /** Collecting two lists of children one after the other collects each in turn. */
  lemma {:induction false} TaggedPosesAppend(a: seq<Child>, b: seq<Child>)
    ensures TaggedPoses(a + b) == TaggedPoses(a) + TaggedPoses(b)
  {
    if a == [] {
      assert a + b == b;
    } else {
      assert (a + b)[1..] == a[1..] + b;
      TaggedPosesAppend(a[1..], b);
    }
  }

  /** The collecting `foreach` over the children: append each tagged child's pose to
      the list. */
  method CollectSnappingPoints(points: seq<Pose>, children: seq<Child>) returns (r: seq<Pose>)
    ensures r == points + TaggedPoses(children)
  {
    r := points;
    var i := 0;
    while i < |children|
      invariant 0 <= i <= |children|
      invariant r == points + TaggedPoses(children[..i])
    {
      TaggedPosesAppend(children[..i], [children[i]]);
      assert children[..i + 1] == children[..i] + [children[i]];
      if children[i].tag == SnappingPointTag {
        r := r + [children[i].pose];
      }
      i := i + 1;
    }
    assert children[..i] == children;
  }

  /** `k` is the index GetClosestHandPose settles on: no point is closer to the hand,
      and every earlier point is strictly farther. */
  ghost predicate IsFirstClosest(points: seq<Pose>, hand: Vec3, k: nat) {
    && k < |points|
    && (forall j :: 0 <= j < |points| ==> SqDist(hand, points[k].position) <= SqDist(hand, points[j].position))
    && (forall j :: 0 <= j < k ==> SqDist(hand, points[j].position) > SqDist(hand, points[k].position))
  }

  /** The first closest point is unique: the choice does not depend on anything but
      the list and the hand position. */
  lemma FirstClosestUnique(points: seq<Pose>, hand: Vec3, k1: nat, k2: nat)
    requires IsFirstClosest(points, hand, k1) && IsFirstClosest(points, hand, k2)
    ensures k1 == k2
  {
    assert SqDist(hand, points[k1].position) == SqDist(hand, points[k2].position);
  }

  /** Comparing two distances is comparing their squares, so the argmin below may
      compare squared distances where the scripts compare Vector3.Distance. */
  lemma DistanceOrder(d1: real, d2: real, a: Vec3, b1: Vec3, b2: Vec3)
    requires IsDistance(d1, a, b1) && IsDistance(d2, a, b2)
    ensures d1 < d2 <==> SqDist(a, b1) < SqDist(a, b2)
  {
    var gap, sum := d2 - d1, d2 + d1;
    assert SqDist(a, b2) - SqDist(a, b1) == gap * sum;
    if d1 < d2 {
      ProductSign(gap, sum);
    } else {
      ProductSign(-gap, sum);
      assert (-gap) * sum == -(gap * sum);
    }
  }

  /** GetClosestHandPose: start from the first point and move to a later one only
      when it is strictly closer. The list must not be empty (the scripts index
      element 0 and only listen once a point exists). */
  method ClosestHandPose(points: seq<Pose>, hand: Vec3) returns (k: nat)
    requires |points| > 0
    ensures IsFirstClosest(points, hand, k)
  {
    k := 0;
    var closest := SqDist(hand, points[0].position);
    var i := 0;
    while i < |points|
      invariant 0 <= i <= |points| && k < |points| && k <= i
      invariant closest == SqDist(hand, points[k].position)
      invariant forall j :: 0 <= j < i ==> closest <= SqDist(hand, points[j].position)
      invariant forall j :: 0 <= j < k ==> SqDist(hand, points[j].position) > closest
    {
      var distance := SqDist(hand, points[i].position);
      if distance < closest {
        closest := distance;
        k := i;
      }
      i := i + 1;
    }
  }

  /** The controller model a script moves: its world pose (written while snapped)
      and its pose relative to the controller (written on release). */
  class HandModel {
    var position: Vec3
    var rotation: Rotation
    var localPosition: Vec3
    var localRotation: Rotation

    constructor (position: Vec3, rotation: Rotation, localPosition: Vec3, localRotation: Rotation)
      ensures this.position == position && this.rotation == rotation
      ensures this.localPosition == localPosition && this.localRotation == localRotation
    {
      this.position := position;
      this.rotation := rotation;
      this.localPosition := localPosition;
      this.localRotation := localRotation;
    }
  }

  /** The selecting interactor, identified by the transform it is parented to. */
  datatype SelectArgs = SelectArgs(parent: nat)

  /** The hand whose model and tracking a select event uses: the right one exactly
      when the interactor's parent is the right controller, the left one otherwise. */
  predicate IsRightHand(rightController: Option<nat>, args: SelectArgs) {
    rightController == Some(args.parent)
  }

  /** The start of AlignHandModel once the hand is known: store the closest snapping
      point (measured from the model's world position) and mark the hand triggered,
      which is the first thing the Align coroutine does. */
  method ChoosePose(tracking: ControllerTracking, model: HandModel, points: seq<Pose>)
    requires |points| > 0
    modifies tracking
    ensures tracking.isTriggered
    ensures exists k: nat :: IsFirstClosest(points, model.position, k) && tracking.closestHandPose == Some(points[k])
    ensures tracking.originalRelativePosition == old(tracking.originalRelativePosition)
    ensures tracking.originalRelativeRotation == old(tracking.originalRelativeRotation)
  {
    var k := ClosestHandPose(points, model.position);
    tracking.closestHandPose := Some(points[k]);
    tracking.isTriggered := true;
  }

  /** One pinning step of Align: the model's world pose becomes the chosen pose. */
  method Pin(tracking: ControllerTracking, model: HandModel)
    requires tracking.closestHandPose.Some?
    modifies model`position, model`rotation
    ensures model.position == tracking.closestHandPose.value.position
    ensures model.rotation == tracking.closestHandPose.value.rotation
  {
    model.position := tracking.closestHandPose.value.position;
    model.rotation := tracking.closestHandPose.value.rotation;
  }

  /** ResetHandModel once the hand is known: stop holding it and put the model back
      at its original pose inside the controller. */
  method Restore(tracking: ControllerTracking, model: HandModel)
    modifies tracking`isTriggered, model`localPosition, model`localRotation
    ensures !tracking.isTriggered
    ensures model.localPosition == tracking.originalRelativePosition
    ensures model.localRotation == tracking.originalRelativeRotation
  {
    tracking.isTriggered := false;
    model.localPosition := tracking.originalRelativePosition;
    model.localRotation := tracking.originalRelativeRotation;
  }
}
