/** The older zipline handle (Assets/Prefabs/ZipLineHandle): the same hand slots and
    ride, with the animation written inline in Update, a return right after a ride
    finishes, and ForceUpdate copying the pivot's full rotation. */
module ZipLineHandlePrefab {
  import opened Geometry
  import opened Interaction
  import opened ZipLineAnimation
  import opened Rope

  class ZipLineHandleBehavior {
    var rope: RopeBehavior?
    var slots: Slots
    var triggerAnimation: bool
    var running: bool
    var attached: bool
    var animationStartTime: real
    var animationDuration: real

    var position: Vec3
    var rotation: Rotation
    var climbProviderEnabled: bool
    /** Every displacement passed to the player's CharacterController.Move. */
    var playerMoves: seq<Vec3>
    var constraintsReleased: bool
    var destroyed: bool
    /** Whether `_characterController` holds a controller (it starts out null). */
    var hasCharacterController: bool
    /** Whether a callback threw a NullReferenceException: the Origin lookup in
        AttachPlayer, or the player's move during a ride without a controller. */
    var faulted: bool

    /** CharacterController.Move would be called on a null controller. */
    predicate MoveThrows()
      reads this
    {
      attached && !hasCharacterController
    }

    constructor (position: Vec3)
      ensures this.position == position && rope == null && slots == EmptySlots
      ensures !triggerAnimation && !running && !attached && climbProviderEnabled
      ensures playerMoves == [] && !constraintsReleased && !destroyed
      ensures !hasCharacterController && !faulted
    {
      this.position := position;
      rope := null;
      slots := EmptySlots;
      triggerAnimation, running, attached := false, false, false;
      animationStartTime, animationDuration := 0.0, 0.0;
      rotation := Identity;
      climbProviderEnabled := true;
      playerMoves := [];
      constraintsReleased, destroyed := false, false;
      hasCharacterController, faulted := false, false;
    }

    /** ForceUpdate: the rope and the pivot's position and rotation. */
    method ForceUpdate(newRope: RopeBehavior, pivot: Pose)
      modifies this`rope, this`position, this`rotation
      ensures rope == newRope && position == pivot.position && rotation == pivot.rotation
    {
      rope := newRope;
      position := pivot.position;
      rotation := pivot.rotation;
    }

    /** AttachPlayer: attached and ride requested; then the controller is taken from
        the object tagged "Origin" (`originFound`), whose CharacterController may be
        missing (`controllerFound`). Without an Origin object the lookup throws before
        climbing is disabled. */
    method AttachPlayer(originFound: bool, controllerFound: bool)
      modifies this`attached, this`triggerAnimation, this`climbProviderEnabled,
               this`hasCharacterController, this`faulted
      ensures attached && triggerAnimation
      ensures originFound ==>
                hasCharacterController == controllerFound && !climbProviderEnabled && faulted == old(faulted)
      ensures !originFound ==>
                hasCharacterController == old(hasCharacterController) &&
                climbProviderEnabled == old(climbProviderEnabled) && faulted
    {
      attached := true;
      triggerAnimation := true;
      if !originFound {
        faulted := true;
        return;
      }
      hasCharacterController := controllerFound;
      climbProviderEnabled := false;
    }

    /** DetachPlayer: detached, climbing enabled again. */
    method DetachPlayer()
      modifies this`attached, this`climbProviderEnabled
      ensures !attached && climbProviderEnabled
    {
      attached := false;
      climbProviderEnabled := true;
    }

    /** OnSelectEntered: take a slot by AfterSelectEntered; attach when both are full. */
    method OnSelectEntered(interactor: Interactor, originFound: bool, controllerFound: bool)
      modifies this`slots, this`attached, this`triggerAnimation, this`climbProviderEnabled,
               this`hasCharacterController, this`faulted
      ensures slots == AfterSelectEntered(old(slots), interactor)
      ensures slots.BothFilled() ==> attached && triggerAnimation
      ensures slots.BothFilled() && originFound ==>
                hasCharacterController == controllerFound && !climbProviderEnabled && faulted == old(faulted)
      ensures slots.BothFilled() && !originFound ==>
                hasCharacterController == old(hasCharacterController) &&
                climbProviderEnabled == old(climbProviderEnabled) && faulted
      ensures !slots.BothFilled() ==>
                attached == old(attached) && triggerAnimation == old(triggerAnimation) &&
                climbProviderEnabled == old(climbProviderEnabled) &&
                hasCharacterController == old(hasCharacterController) && faulted == old(faulted)
    {
      if slots.left.None? && interactor.handedness == Left {
        slots := slots.(left := Some(interactor));
      } else if slots.right.None? && interactor.handedness == Right {
        slots := slots.(right := Some(interactor));
      }
      if slots.BothFilled() {
        AttachPlayer(originFound, controllerFound);
      }
    }

    /** OnSelectExited: free the exiting hand's slot; detach when either is empty. */
    method OnSelectExited(handedness: Handedness)
      modifies this`slots, this`attached, this`climbProviderEnabled
      ensures slots == AfterSelectExited(old(slots), handedness)
      ensures !slots.BothFilled() ==> !attached && climbProviderEnabled
      ensures slots.BothFilled() ==> attached == old(attached) && climbProviderEnabled == old(climbProviderEnabled)
    {
      match handedness {
        case Left => slots := slots.(left := None);
        case Right => slots := slots.(right := None);
        case NoHand =>
      }
      if slots.left.None? || slots.right.None? {
        DetachPlayer();
      }
    }

    /** Update: advance a running ride by the eased curve; when its time is up, stop,
        release the constraints, destroy the component and return before looking at
        the trigger; otherwise start a requested ride if none is running. A ride
        whose move throws stops the frame there, and does so again on every later
        frame. */
    method Update(time: real, dist: real)
      requires !destroyed && rope != null
      requires IsDistance(dist, rope.GetStartPoint(), rope.GetEndPoint())
      modifies this
      ensures rope == old(rope) && slots == old(slots) && attached == old(attached)
      ensures hasCharacterController == old(hasCharacterController)
      ensures climbProviderEnabled == old(climbProviderEnabled) && rotation == old(rotation)
      ensures old(running) && MoveThrows() ==>
                faulted && running && triggerAnimation == old(triggerAnimation) &&
                position == old(position) && playerMoves == old(playerMoves) &&
                animationStartTime == old(animationStartTime) && animationDuration == old(animationDuration) &&
                constraintsReleased == old(constraintsReleased)
      ensures !(old(running) && MoveThrows()) ==>
                faulted == old(faulted) &&
                Latch(triggerAnimation, running) ==
                FrameLatch(Latch(old(triggerAnimation), old(running)),
                           time - old(animationStartTime) >= old(animationDuration), true)
      ensures old(running) && !MoveThrows() ==>
                position == HandlePosition(rope.GetStartPoint(), rope.GetEndPoint(),
                                           time - old(animationStartTime), old(animationDuration)) &&
                playerMoves == old(playerMoves) + (if attached then [Sub(position, old(position))] else [])
      ensures !old(running) ==> position == old(position) && playerMoves == old(playerMoves)
      ensures destroyed <==>
                old(running) && !MoveThrows() && time - old(animationStartTime) >= old(animationDuration)
      ensures constraintsReleased <==> old(constraintsReleased) || destroyed
      // a ride starts exactly when the trigger is consumed; otherwise its timing stays
      ensures old(triggerAnimation) && !triggerAnimation ==>
                running && animationStartTime == time && animationDuration == AnimationDuration(dist)
      ensures !(old(triggerAnimation) && !triggerAnimation) ==>
                animationStartTime == old(animationStartTime) && animationDuration == old(animationDuration)
    {
      if running {
        var currentTime := time;
        var currentDuration := TimeFraction(currentTime - animationStartTime, animationDuration);
        var newPosition := Lerp(rope.GetStartPoint(), rope.GetEndPoint(), EasePosition(currentDuration));
        if attached {
          if !hasCharacterController {
            faulted := true;
            return;
          }
          playerMoves := playerMoves + [Sub(newPosition, position)];
        }
        position := newPosition;
        if currentTime - animationStartTime >= animationDuration {
          running := false;
          constraintsReleased := true;
          destroyed := true;
          return;
        }
      }
      if triggerAnimation && !running {
        running := true;
        triggerAnimation := false;
        animationStartTime := time;
        animationDuration := dist / 5.0;
      }
    }
  }

  /** Two frames of a ride that is not over at the first: the handle ends the second
      no nearer the rope's start trigger than the first, so a ride only moves forward. */
  method RideMovesForward(h: ZipLineHandleBehavior, time1: real, time2: real, dist: real)
    returns (p1: Vec3, p2: Vec3)
    requires h.running && !h.destroyed && h.rope != null && !h.MoveThrows()
    requires IsDistance(dist, h.rope.GetStartPoint(), h.rope.GetEndPoint())
    requires time1 <= time2 && time1 - h.animationStartTime < h.animationDuration
    modifies h
    ensures h.rope == old(h.rope) && h.rope != null
    ensures p1 == old(HandlePosition(h.rope.GetStartPoint(), h.rope.GetEndPoint(),
                                     time1 - h.animationStartTime, h.animationDuration))
    ensures SqDist(h.rope.GetStartPoint(), p1) <= SqDist(h.rope.GetStartPoint(), p2)
  {
    var rope := h.rope;
    var a, b := rope.GetStartPoint(), rope.GetEndPoint();
    ghost var start, duration := h.animationStartTime, h.animationDuration;
    h.Update(time1, dist);
    assert h.running;
    assert h.rope == rope && !h.destroyed;
    assert h.animationStartTime == start && h.animationDuration == duration;
    p1 := h.position;
    h.Update(time2, dist);
    p2 := h.position;
    assert p2 == HandlePosition(a, b, time2 - start, duration);
    HandleMovesAway(a, b, time1 - start, time2 - start, duration);
  }
}
