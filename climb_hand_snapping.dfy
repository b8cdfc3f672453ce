/** Hand snapping on a climbable (Assets/Scripts/Climbing/ClimbHandSnapping.cs): the
    controller models are looked up under the controllers, the snapping points are
    the tagged children, and a grabbing hand's model is held on the closest point
    until it lets go. Transform lookups are given to Start as parameters; an
    exception thrown by a null dereference ends the call and is recorded in
    `faulted`. */
module ClimbHandSnapping {
  import opened Geometry
  import opened Tracking
  import opened Snapping

  class ClimbHandSnapping {
    /** The controller transforms, by identity (unset in the inspector: None). */
    const rightController: Option<nat>
    const leftController: Option<nat>
    /** Whether the object carries a ClimbInteractable. */
    const hasClimbInteractable: bool
    var rightControllerModel: HandModel?
    var leftControllerModel: HandModel?
    var rightControllerTracking: ControllerTracking?
    var leftControllerTracking: ControllerTracking?
    var snappingPoints: seq<Pose>
    /** Whether AlignHandModel and ResetHandModel were added as listeners. */
    var listening: bool
    var faulted: bool

    /** Once listening, both hands have their own tracking, there is a point to snap
        to, and a triggered hand knows its pose. */
    ghost predicate Valid()
      reads this, rightControllerTracking, leftControllerTracking
    {
      listening ==>
        && rightControllerTracking != null && leftControllerTracking != null
        && rightControllerTracking != leftControllerTracking
        && |snappingPoints| > 0
        && (rightControllerTracking.isTriggered ==> rightControllerTracking.closestHandPose.Some?)
        && (leftControllerTracking.isTriggered ==> leftControllerTracking.closestHandPose.Some?)
    }

    constructor (rightController: Option<nat>, leftController: Option<nat>, hasClimbInteractable: bool)
      ensures this.rightController == rightController && this.leftController == leftController
      ensures this.hasClimbInteractable == hasClimbInteractable
      ensures rightControllerModel == null && leftControllerModel == null
      ensures rightControllerTracking == null && leftControllerTracking == null
      ensures !listening && !faulted && Valid()
    {
      this.rightController := rightController;
      this.leftController := leftController;
      this.hasClimbInteractable := hasClimbInteractable;
      rightControllerModel, leftControllerModel := null, null;
      rightControllerTracking, leftControllerTracking := null, null;
      snappingPoints := [];
      listening, faulted := false, false;
    }

    /** The model and tracking of the hand a select event concerns. */
    function ModelFor(args: SelectArgs): HandModel?
      reads this
    {
      if IsRightHand(rightController, args) then rightControllerModel else leftControllerModel
    }

    function TrackingFor(args: SelectArgs): ControllerTracking?
      reads this
    {
      if IsRightHand(rightController, args) then rightControllerTracking else leftControllerTracking
    }

    /** Start. InitializeInputDevices looks the models up under both controllers
        before anything is checked, so a missing controller throws there, after the
        right model is stored when only the left controller is missing; the
        `rightModel`/`leftModel` parameters are what that lookup finds. The points are
        then collected, and the listeners are added only if the interactable and a
        point exist; a missing model throws when its tracking is created. */
    method Start(children: seq<Child>, rightModel: HandModel?, leftModel: HandModel?)
      requires !listening
      modifies this`rightControllerModel, this`leftControllerModel, this`snappingPoints
      modifies this`rightControllerTracking, this`leftControllerTracking, this`listening, this`faulted
      ensures Valid()
      ensures listening <==>
                rightController.Some? && leftController.Some? && hasClimbInteractable &&
                |TaggedPoses(children)| > 0 && rightModel != null && leftModel != null
      ensures faulted <==>
                old(faulted) || rightController.None? || leftController.None? ||
                (hasClimbInteractable && |TaggedPoses(children)| > 0 && (rightModel == null || leftModel == null))
      ensures rightController.Some? && leftController.Some? ==>
                rightControllerModel == rightModel && leftControllerModel == leftModel &&
                snappingPoints == TaggedPoses(children)
      ensures rightController.None? ==>
                rightControllerModel == old(rightControllerModel) && leftControllerModel == old(leftControllerModel) &&
                snappingPoints == old(snappingPoints)
      ensures rightController.Some? && leftController.None? ==>
                rightControllerModel == rightModel && leftControllerModel == old(leftControllerModel) &&
                snappingPoints == old(snappingPoints)
      ensures listening ==>
                fresh(rightControllerTracking) && fresh(leftControllerTracking) &&
                rightControllerTracking.originalRelativePosition == rightModel.localPosition &&
                rightControllerTracking.originalRelativeRotation == rightModel.localRotation &&
                leftControllerTracking.originalRelativePosition == leftModel.localPosition &&
                leftControllerTracking.originalRelativeRotation == leftModel.localRotation &&
                !rightControllerTracking.isTriggered && !leftControllerTracking.isTriggered
    {
      if rightController.None? {
        faulted := true;
        return;
      }
      rightControllerModel := rightModel;
      if leftController.None? {
        faulted := true;
        return;
      }
      leftControllerModel := leftModel;
      snappingPoints := CollectSnappingPoints([], children);
      if !hasClimbInteractable || |snappingPoints| == 0 {
        return;
      }
      if rightControllerModel == null {
        faulted := true;
        return;
      }
      rightControllerTracking := new ControllerTracking(rightControllerModel.localPosition, rightControllerModel.localRotation);
      if leftControllerModel == null {
        faulted := true;
        return;
      }
      leftControllerTracking := new ControllerTracking(leftControllerModel.localPosition, leftControllerModel.localRotation);
      listening := true;
    }

    /** AlignHandModel, run by selectEntered: with no interactor nothing happens;
        otherwise the hand's model, if it has one, gets the closest point and is
        marked triggered by the first step of Align. The approach frames of Align
        are not modelled; AlignStep models the frames after it. */
    method AlignHandModel(args: Option<SelectArgs>)
      requires listening && Valid()
      modifies rightControllerTracking, leftControllerTracking
      ensures Valid()
      ensures args.None? || ModelFor(args.value) == null ==>
                unchanged(rightControllerTracking) && unchanged(leftControllerTracking)
      ensures args.Some? && ModelFor(args.value) != null ==>
                var tracking := TrackingFor(args.value);
                tracking.isTriggered &&
                (exists k: nat :: IsFirstClosest(snappingPoints, ModelFor(args.value).position, k) &&
                                  tracking.closestHandPose == Some(snappingPoints[k])) &&
                tracking.originalRelativePosition == old(tracking.originalRelativePosition) &&
                tracking.originalRelativeRotation == old(tracking.originalRelativeRotation) &&
                (tracking == rightControllerTracking ==> unchanged(leftControllerTracking)) &&
                (tracking == leftControllerTracking ==> unchanged(rightControllerTracking))
    {
      if args.None? {
        return;
      }
      var model := ModelFor(args.value);
      var tracking := TrackingFor(args.value);
      if model == null {
        return;
      }
      ChoosePose(tracking, model, snappingPoints);
    }

    /** One later frame of the Align coroutine for a hand, once its model has reached
        the pose: while the hand is triggered its model is pinned to the pose. */
    method AlignStep(right: bool)
      requires listening && Valid()
      modifies if right then rightControllerModel else leftControllerModel
      ensures var tracking := if right then rightControllerTracking else leftControllerTracking;
              var model := if right then rightControllerModel else leftControllerModel;
              model != null && tracking.isTriggered ==>
                model.position == tracking.closestHandPose.value.position &&
                model.rotation == tracking.closestHandPose.value.rotation
      ensures var tracking := if right then rightControllerTracking else leftControllerTracking;
              var model := if right then rightControllerModel else leftControllerModel;
              model != null && !tracking.isTriggered ==> unchanged(model)
    {
      var tracking := if right then rightControllerTracking else leftControllerTracking;
      var model := if right then rightControllerModel else leftControllerModel;
      if model != null && tracking.isTriggered {
        Pin(tracking, model);
      }
    }

    /** ResetHandModel, run by selectExited: the hand stops being held and its model
        returns to its original pose inside the controller. */
    method ResetHandModel(args: SelectArgs)
      requires listening && Valid()
      modifies rightControllerTracking, leftControllerTracking, rightControllerModel, leftControllerModel
      ensures Valid()
      ensures ModelFor(args) == null ==>
                unchanged(rightControllerTracking) && unchanged(leftControllerTracking) &&
                unchanged({rightControllerModel, leftControllerModel} - {null})
      ensures ModelFor(args) != null ==>
                !TrackingFor(args).isTriggered &&
                ModelFor(args).localPosition == TrackingFor(args).originalRelativePosition &&
                ModelFor(args).localRotation == TrackingFor(args).originalRelativeRotation
      ensures ModelFor(args) != null ==>
                if IsRightHand(rightController, args)
                then unchanged(leftControllerTracking) && unchanged({leftControllerModel} - {null, rightControllerModel})
                else unchanged(rightControllerTracking) && unchanged({rightControllerModel} - {null, leftControllerModel})
    {
      var model := ModelFor(args);
      var tracking := TrackingFor(args);
      if model == null {
        return;
      }
      Restore(tracking, model);
    }
  }
}
