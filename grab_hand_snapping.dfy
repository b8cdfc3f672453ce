/** Hand snapping on a grabbable (Assets/Scripts/GrabHandSnapping.cs): the snapping
    points are the tagged children of the object and then those of its parent, and a
    grabbing hand's model is put on the closest point once, when the grab starts.
    The controller models are inspector fields; an exception thrown by a null
    dereference ends the call and is recorded in `faulted`. */
module GrabHandSnapping {
  import opened Geometry
  import opened Tracking
  import opened Snapping

  class GrabHandSnapping {
    const rightController: Option<nat>
    const leftController: Option<nat>
    /** Whether the object carries an XRGrabInteractable. */
    const hasGrabInteractable: bool
    var rightControllerModel: HandModel?
    var leftControllerModel: HandModel?
    var rightControllerTracking: ControllerTracking?
    var leftControllerTracking: ControllerTracking?
    var snappingPoints: seq<Pose>
    var listening: bool
    var faulted: bool

    ghost predicate Valid()
      reads this, rightControllerTracking, leftControllerTracking
    {
      listening ==>
        && rightControllerTracking != null && leftControllerTracking != null
        && rightControllerTracking != leftControllerTracking
        && |snappingPoints| > 0
    }

    constructor (rightController: Option<nat>, leftController: Option<nat>, hasGrabInteractable: bool,
                 rightControllerModel: HandModel?, leftControllerModel: HandModel?)
      ensures this.rightController == rightController && this.leftController == leftController
      ensures this.hasGrabInteractable == hasGrabInteractable
      ensures this.rightControllerModel == rightControllerModel && this.leftControllerModel == leftControllerModel
      ensures rightControllerTracking == null && leftControllerTracking == null
      ensures snappingPoints == [] && !listening && !faulted && Valid()
    {
      this.rightController := rightController;
      this.leftController := leftController;
      this.hasGrabInteractable := hasGrabInteractable;
      this.rightControllerModel := rightControllerModel;
      this.leftControllerModel := leftControllerModel;
      rightControllerTracking, leftControllerTracking := null, null;
      snappingPoints := [];
      listening, faulted := false, false;
    }

    function ModelFor(args: SelectArgs): HandModel?
      reads this
    {
      if IsRightHand(rightController, args) then rightControllerModel else leftControllerModel
    }

    function TrackingFor(args: SelectArgs): ControllerTracking?
      reads this
    {
      if IsRightHand(rightController, args) then rightControllerTracking else leftControllerTracking
    }

    /** Awake: collect the object's own tagged children, then its parent's; add the
        listeners only if the interactable, a point and both controllers exist; a
        missing model throws when its tracking is created. `parentChildren` is None
        for an object without a parent: enumerating the missing parent throws once
        the object's own children are in the list. */
    method Awake(ownChildren: seq<Child>, parentChildren: Option<seq<Child>>)
      requires !listening
      modifies this`snappingPoints, this`rightControllerTracking, this`leftControllerTracking,
               this`listening, this`faulted
      ensures Valid()
      ensures parentChildren.None? ==>
                snappingPoints == TaggedPoses(ownChildren) && faulted && !listening &&
                rightControllerTracking == old(rightControllerTracking) &&
                leftControllerTracking == old(leftControllerTracking)
      ensures parentChildren.Some? ==>
                snappingPoints == TaggedPoses(ownChildren) + TaggedPoses(parentChildren.value)
      ensures listening <==>
                parentChildren.Some? &&
                hasGrabInteractable && |snappingPoints| > 0 && rightController.Some? && leftController.Some? &&
                rightControllerModel != null && leftControllerModel != null
      ensures faulted <==>
                old(faulted) || parentChildren.None? ||
                (hasGrabInteractable && |snappingPoints| > 0 && rightController.Some? && leftController.Some? &&
                 (rightControllerModel == null || leftControllerModel == null))
      ensures listening ==>
                fresh(rightControllerTracking) && fresh(leftControllerTracking) &&
                rightControllerTracking.originalRelativePosition == rightControllerModel.localPosition &&
                rightControllerTracking.originalRelativeRotation == rightControllerModel.localRotation &&
                leftControllerTracking.originalRelativePosition == leftControllerModel.localPosition &&
                leftControllerTracking.originalRelativeRotation == leftControllerModel.localRotation &&
                !rightControllerTracking.isTriggered && !leftControllerTracking.isTriggered
    {
      snappingPoints := CollectSnappingPoints([], ownChildren);
      if parentChildren.None? {
        faulted := true;
        return;
      }
      snappingPoints := CollectSnappingPoints(snappingPoints, parentChildren.value);
      if !hasGrabInteractable || |snappingPoints| == 0 || rightController.None? || leftController.None? {
        return;
      }
      if rightControllerModel == null {
        faulted := true;
        return;
      }
      rightControllerTracking := new ControllerTracking(rightControllerModel.localPosition, rightControllerModel.localRotation);
      if leftControllerModel == null {
        faulted := true;
        return;
      }
      leftControllerTracking := new ControllerTracking(leftControllerModel.localPosition, leftControllerModel.localRotation);
      listening := true;
    }

    /** AlignHandModel, run by selectEntered: the hand's model, if it has one, gets
        the closest point, is marked triggered and is put on the point; Align does
        this once and does not hold it there afterwards. */
    method AlignHandModel(args: Option<SelectArgs>)
      requires listening && Valid()
      modifies rightControllerTracking, leftControllerTracking
      modifies if args.Some? then {ModelFor(args.value)} - {null} else {}
      ensures Valid()
      ensures args.None? || ModelFor(args.value) == null ==>
                unchanged(rightControllerTracking) && unchanged(leftControllerTracking)
      ensures args.Some? && ModelFor(args.value) != null ==>
                var tracking, model := TrackingFor(args.value), ModelFor(args.value);
                tracking.isTriggered &&
                (exists k: nat :: IsFirstClosest(snappingPoints, old(model.position), k) &&
                                  tracking.closestHandPose == Some(snappingPoints[k])) &&
                model.position == tracking.closestHandPose.value.position &&
                model.rotation == tracking.closestHandPose.value.rotation &&
                tracking.originalRelativePosition == old(tracking.originalRelativePosition) &&
                tracking.originalRelativeRotation == old(tracking.originalRelativeRotation) &&
                (tracking == rightControllerTracking ==> unchanged(leftControllerTracking)) &&
                (tracking == leftControllerTracking ==> unchanged(rightControllerTracking))
    {
      if args.None? {
        return;
      }
      var model := ModelFor(args.value);
      var tracking := TrackingFor(args.value);
      if model == null {
        return;
      }
      ChoosePose(tracking, model, snappingPoints);
      Pin(tracking, model);
    }

    /** ResetHandModel, run by selectExited: the hand stops being held and its model
        returns to its original pose inside the controller. */
    method ResetHandModel(args: SelectArgs)
      requires listening && Valid()
      modifies rightControllerTracking, leftControllerTracking, rightControllerModel, leftControllerModel
      ensures Valid()
      ensures ModelFor(args) == null ==>
                unchanged(rightControllerTracking) && unchanged(leftControllerTracking) &&
                unchanged({rightControllerModel, leftControllerModel} - {null})
      ensures ModelFor(args) != null ==>
                !TrackingFor(args).isTriggered &&
                ModelFor(args).localPosition == TrackingFor(args).originalRelativePosition &&
                ModelFor(args).localRotation == TrackingFor(args).originalRelativeRotation
      ensures ModelFor(args) != null ==>
                if IsRightHand(rightController, args)
                then unchanged(leftControllerTracking) && unchanged({leftControllerModel} - {null, rightControllerModel})
                else unchanged(rightControllerTracking) && unchanged({rightControllerModel} - {null, leftControllerModel})
    {
      var model := ModelFor(args);
      var tracking := TrackingFor(args);
      if model == null {
        return;
      }
      Restore(tracking, model);
    }
  }
}
