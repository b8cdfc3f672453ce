/** The first hand-snapping script (Assets/Scripts/HandSnapping.cs): the snapping
    points are an inspector list, and a grabbing hand's model is held on the closest
    point on every frame until it lets go. `isAligning` is raised on the first snap
    and never lowered. */
module HandSnapping {
  import opened Geometry
  import opened Tracking
  import opened Snapping

  class HandSnapping {
    const snappingPoints: seq<Pose>
    const rightController: Option<nat>
    const leftController: Option<nat>
    /** Whether the object carries a ClimbInteractable. */
    const hasClimbInteractable: bool
    var rightControllerModel: HandModel?
    var leftControllerModel: HandModel?
    var rightControllerTracking: ControllerTracking?
    var leftControllerTracking: ControllerTracking?
    var isAligning: bool
    var listening: bool
    var faulted: bool

    ghost predicate Valid()
      reads this, rightControllerTracking, leftControllerTracking
    {
      listening ==>
        && rightControllerTracking != null && leftControllerTracking != null
        && rightControllerTracking != leftControllerTracking
        && |snappingPoints| > 0
        && (rightControllerTracking.isTriggered ==> rightControllerTracking.closestHandPose.Some?)
        && (leftControllerTracking.isTriggered ==> leftControllerTracking.closestHandPose.Some?)
    }

    constructor (snappingPoints: seq<Pose>, rightController: Option<nat>, leftController: Option<nat>,
                 hasClimbInteractable: bool, rightControllerModel: HandModel?, leftControllerModel: HandModel?)
      ensures this.snappingPoints == snappingPoints
      ensures this.rightController == rightController && this.leftController == leftController
      ensures this.hasClimbInteractable == hasClimbInteractable
      ensures this.rightControllerModel == rightControllerModel && this.leftControllerModel == leftControllerModel
      ensures rightControllerTracking == null && leftControllerTracking == null
      ensures !isAligning && !listening && !faulted && Valid()
    {
      this.snappingPoints := snappingPoints;
      this.rightController := rightController;
      this.leftController := leftController;
      this.hasClimbInteractable := hasClimbInteractable;
      this.rightControllerModel := rightControllerModel;
      this.leftControllerModel := leftControllerModel;
      rightControllerTracking, leftControllerTracking := null, null;
      isAligning, listening, faulted := false, false, false;
    }

    function ModelFor(args: SelectArgs): HandModel?
      reads this
    {
      if IsRightHand(rightController, args) then rightControllerModel else leftControllerModel
    }

    function TrackingFor(args: SelectArgs): ControllerTracking?
      reads this
    {
      if IsRightHand(rightController, args) then rightControllerTracking else leftControllerTracking
    }

    /** Awake: add the listeners only if the interactable, a point and both
        controllers exist; a missing model throws when its tracking is created. */
    method Awake()
      requires !listening
      modifies this`rightControllerTracking, this`leftControllerTracking, this`listening, this`faulted
      ensures Valid()
      ensures listening <==>
                hasClimbInteractable && |snappingPoints| > 0 && rightController.Some? && leftController.Some? &&
                rightControllerModel != null && leftControllerModel != null
      ensures faulted <==>
                old(faulted) ||
                (hasClimbInteractable && |snappingPoints| > 0 && rightController.Some? && leftController.Some? &&
                 (rightControllerModel == null || leftControllerModel == null))
      ensures listening ==>
                fresh(rightControllerTracking) && fresh(leftControllerTracking) &&
                rightControllerTracking.originalRelativePosition == rightControllerModel.localPosition &&
                rightControllerTracking.originalRelativeRotation == rightControllerModel.localRotation &&
                leftControllerTracking.originalRelativePosition == leftControllerModel.localPosition &&
                leftControllerTracking.originalRelativeRotation == leftControllerModel.localRotation &&
                !rightControllerTracking.isTriggered && !leftControllerTracking.isTriggered
    {
      if !hasClimbInteractable || |snappingPoints| == 0 || rightController.None? || leftController.None? {
        return;
      }
      if rightControllerModel == null {
        faulted := true;
        return;
      }
      rightControllerTracking := new ControllerTracking(rightControllerModel.localPosition, rightControllerModel.localRotation);
      if leftControllerModel == null {
        faulted := true;
        return;
      }
      leftControllerTracking := new ControllerTracking(leftControllerModel.localPosition, leftControllerModel.localRotation);
      listening := true;
    }

    /** AlignHandModel, run by selectEntered: the hand's model, if it has one, gets
        the closest point, `isAligning` is raised, and the first pass of Align marks
        the hand triggered and puts the model on the point. */
    method AlignHandModel(args: Option<SelectArgs>)
      requires listening && Valid()
      modifies this`isAligning, rightControllerTracking, leftControllerTracking
      modifies if args.Some? then {ModelFor(args.value)} - {null} else {}
      ensures Valid()
      ensures args.None? || ModelFor(args.value) == null ==>
                unchanged(rightControllerTracking) && unchanged(leftControllerTracking) &&
                isAligning == old(isAligning)
      ensures args.Some? && ModelFor(args.value) != null ==>
                var tracking, model := TrackingFor(args.value), ModelFor(args.value);
                isAligning && tracking.isTriggered &&
                (exists k: nat :: IsFirstClosest(snappingPoints, old(model.position), k) &&
                                  tracking.closestHandPose == Some(snappingPoints[k])) &&
                model.position == tracking.closestHandPose.value.position &&
                model.rotation == tracking.closestHandPose.value.rotation &&
                tracking.originalRelativePosition == old(tracking.originalRelativePosition) &&
                tracking.originalRelativeRotation == old(tracking.originalRelativeRotation) &&
                (tracking == rightControllerTracking ==> unchanged(leftControllerTracking)) &&
                (tracking == leftControllerTracking ==> unchanged(rightControllerTracking))
    {
      if args.None? {
        return;
      }
      var model := ModelFor(args.value);
      var tracking := TrackingFor(args.value);
      if model == null {
        return;
      }
      ChoosePose(tracking, model, snappingPoints);
      isAligning := true;
      Pin(tracking, model);
    }

    /** One later frame of the Align coroutine for a hand: while the hand is
        triggered its model is pinned to the chosen pose. */
    method AlignStep(right: bool)
      requires listening && Valid()
      modifies if right then rightControllerModel else leftControllerModel
      ensures var tracking := if right then rightControllerTracking else leftControllerTracking;
              var model := if right then rightControllerModel else leftControllerModel;
              model != null && tracking.isTriggered ==>
                model.position == tracking.closestHandPose.value.position &&
                model.rotation == tracking.closestHandPose.value.rotation
      ensures var tracking := if right then rightControllerTracking else leftControllerTracking;
              var model := if right then rightControllerModel else leftControllerModel;
              model != null && !tracking.isTriggered ==> unchanged(model)
    {
      var tracking := if right then rightControllerTracking else leftControllerTracking;
      var model := if right then rightControllerModel else leftControllerModel;
      if model != null && tracking.isTriggered {
        Pin(tracking, model);
      }
    }

    /** ResetHandModel, run by selectExited: the hand stops being held and its model
        returns to its original pose; `isAligning` stays as it was. */
    method ResetHandModel(args: SelectArgs)
      requires listening && Valid()
      modifies rightControllerTracking, leftControllerTracking, rightControllerModel, leftControllerModel
      ensures Valid() && isAligning == old(isAligning)
      ensures ModelFor(args) == null ==>
                unchanged(rightControllerTracking) && unchanged(leftControllerTracking) &&
                unchanged({rightControllerModel, leftControllerModel} - {null})
      ensures ModelFor(args) != null ==>
                !TrackingFor(args).isTriggered &&
                ModelFor(args).localPosition == TrackingFor(args).originalRelativePosition &&
                ModelFor(args).localRotation == TrackingFor(args).originalRelativeRotation
      ensures ModelFor(args) != null ==>
                if IsRightHand(rightController, args)
                then unchanged(leftControllerTracking) && unchanged({leftControllerModel} - {null, rightControllerModel})
                else unchanged(rightControllerTracking) && unchanged({rightControllerModel} - {null, leftControllerModel})
    {
      var model := ModelFor(args);
      var tracking := TrackingFor(args);
      if model == null {
        return;
      }
      Restore(tracking, model);
    }
  }
}
