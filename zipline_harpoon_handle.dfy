/** The handle hung on a harpoon rope (Assets/Prefabs/ZipLineHarpoonHandle): a grab
    interactable that snaps each hand to its target pose, and once both hands hold it
    parents the player rig to itself and asks the rope to start the ride. */
module ZipLineHarpoonHandle {
  import opened Geometry
  import opened Interaction
  import opened Rope

  class ZiplineHandle {
    const leftHandTarget: Pose
    const rightHandTarget: Pose
    var rope: RopeBehavior?
    var slots: Slots
    /** `_playerOrigin`: the identity of the rig root, once known. */
    var playerOrigin: Option<nat>
    /** Whether the player origin is currently parented to this handle. */
    var originParented: bool
    /** Poses written to interactor transforms by SetHandPosition, by interactor. */
    var interactorPoses: map<nat, Pose>
    /** How many times RopeBehavior.StartZipLine was asked to start a ride. */
    var zipLineStarts: nat

    var position: Vec3
    var rotation: Rotation

    /** The rig is parented only once its origin is known. */
    ghost predicate Valid()
      reads this
    {
      originParented ==> playerOrigin.Some?
    }

    constructor (leftHandTarget: Pose, rightHandTarget: Pose, position: Vec3)
      ensures this.leftHandTarget == leftHandTarget && this.rightHandTarget == rightHandTarget
      ensures this.position == position && rope == null && slots == EmptySlots
      ensures playerOrigin.None? && !originParented && interactorPoses == map[] && zipLineStarts == 0
      ensures Valid()
    {
      this.leftHandTarget := leftHandTarget;
      this.rightHandTarget := rightHandTarget;
      this.position := position;
      rope := null;
      slots := EmptySlots;
      playerOrigin := None;
      originParented := false;
      interactorPoses := map[];
      zipLineStarts := 0;
      rotation := Identity;
    }

    /** ForceUpdate: the rope and the given transform's position and rotation. */
    method ForceUpdate(newRope: RopeBehavior, pivot: Pose)
      modifies this`rope, this`position, this`rotation
      ensures rope == newRope && position == pivot.position && rotation == pivot.rotation
    {
      rope := newRope;
      position := pivot.position;
      rotation := pivot.rotation;
    }

    /** SetHandPosition: move the interactor onto the hand target. */
    method SetHandPosition(interactor: Interactor, handTarget: Pose)
      modifies this`interactorPoses
      ensures interactorPoses == old(interactorPoses)[interactor.id := handTarget]
    {
      interactorPoses := interactorPoses[interactor.id := handTarget];
    }

    /** AttachPlayer: remember the rig root from the left hand the first time, parent
        it to the handle and start the ride. */
    method AttachPlayer()
      requires slots.left.Some?
      modifies this`playerOrigin, this`originParented, this`zipLineStarts
      ensures playerOrigin == if old(playerOrigin).Some? then old(playerOrigin) else Some(slots.left.value.root)
      ensures originParented && zipLineStarts == old(zipLineStarts) + 1
      ensures Valid()
    {
      if playerOrigin.None? {
        playerOrigin := Some(slots.left.value.root);
      }
      originParented := true;
      zipLineStarts := zipLineStarts + 1;
    }

    /** DetachPlayer: unparent the rig if it is known; a no-op before any attach. */
    method DetachPlayer()
      modifies this`originParented
      ensures playerOrigin.Some? ==> !originParented
      ensures playerOrigin.None? ==> originParented == old(originParented)
    {
      if playerOrigin.Some? {
        originParented := false;
      }
    }

    /** OnSelectEntered: a hand that takes its empty slot is snapped to that slot's
        target; with both slots filled the player is attached. */
    method OnSelectEntered(interactor: Interactor)
      requires Valid()
      modifies this`slots, this`interactorPoses, this`playerOrigin, this`originParented, this`zipLineStarts
      ensures Valid()
      ensures slots == AfterSelectEntered(old(slots), interactor)
      ensures slots.left != old(slots.left) ==> interactorPoses == old(interactorPoses)[interactor.id := leftHandTarget]
      ensures slots.right != old(slots.right) ==> interactorPoses == old(interactorPoses)[interactor.id := rightHandTarget]
      ensures slots == old(slots) ==> interactorPoses == old(interactorPoses)
      ensures slots.BothFilled() ==>
                originParented && zipLineStarts == old(zipLineStarts) + 1 &&
                playerOrigin == (if old(playerOrigin).Some? then old(playerOrigin) else Some(slots.left.value.root))
      ensures !slots.BothFilled() ==>
                playerOrigin == old(playerOrigin) && originParented == old(originParented) &&
                zipLineStarts == old(zipLineStarts)
    {
      if slots.left.None? && interactor.handedness == Left {
        slots := slots.(left := Some(interactor));
        SetHandPosition(interactor, leftHandTarget);
      } else if slots.right.None? && interactor.handedness == Right {
        slots := slots.(right := Some(interactor));
        SetHandPosition(interactor, rightHandTarget);
      }
      if slots.BothFilled() {
        AttachPlayer();
      }
    }

    /** OnSelectExited: free the exiting hand's slot; detach when either is empty. */
    method OnSelectExited(handedness: Handedness)
      requires Valid()
      modifies this`slots, this`originParented
      ensures Valid()
      ensures slots == AfterSelectExited(old(slots), handedness)
      ensures !slots.BothFilled() && playerOrigin.Some? ==> !originParented
      ensures slots.BothFilled() || playerOrigin.None? ==> originParented == old(originParented)
    {
      match handedness {
        case Left => slots := slots.(left := None);
        case Right => slots := slots.(right := None);
        case NoHand =>
      }
      if slots.left.None? || slots.right.None? {
        DetachPlayer();
      }
    }
  }
}
