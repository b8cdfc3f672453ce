/** The first climbing momentum manager (Assets/Scripts/ClimbingMomentumManager.cs):
    the same edge detection, hand choice, momentum and decay as the later revision,
    without the unused camera fields. */
module ClimbingMomentumLegacy {
  import opened Geometry
  import opened ClimbingMomentum

  class ClimbingMomentumManager {
    /** Whether GetComponent<ClimbProvider> found a climb provider. */
    const hasClimbProvider: bool
    var previousPhase: LocomotionState
    /** Every velocity whose frame displacement was passed to CharacterController.Move. */
    var moves: seq<Vec3>
    /** Whether Start threw on the missing climb provider. */
    var faulted: bool

    constructor (hasClimbProvider: bool)
      ensures this.hasClimbProvider == hasClimbProvider
      ensures previousPhase == Idle && moves == [] && !faulted
    {
      this.hasClimbProvider := hasClimbProvider;
      previousPhase := Idle;
      moves := [];
      faulted := false;
    }

    /** Start: record the provider's current phase; without a provider the error is
        logged and reading its phase throws. */
    method Start(phase: LocomotionState)
      modifies this`previousPhase, this`faulted
      ensures hasClimbProvider ==> previousPhase == phase && faulted == old(faulted)
      ensures !hasClimbProvider ==> previousPhase == old(previousPhase) && faulted
    {
      if !hasClimbProvider {
        faulted := true;
        return;
      }
      previousPhase := phase;
    }

    /** Update: without a provider nothing happens; otherwise a climb that has just
        ended starts the momentum run, and the phase is remembered for the next frame. */
    method Update(currentPhase: LocomotionState, rightVelocity: Vec3, leftVelocity: Vec3)
      modifies this`previousPhase, this`moves
      ensures !hasClimbProvider ==> previousPhase == old(previousPhase) && moves == old(moves)
      ensures hasClimbProvider ==> previousPhase == currentPhase
      ensures hasClimbProvider && ClimbEnded(old(previousPhase), currentPhase) ==>
                |moves| >= |old(moves)| && moves[..|old(moves)|] == old(moves) &&
                IsDecayRun(Momentum(ChooseVelocity(rightVelocity, leftVelocity)), moves[|old(moves)|..])
      ensures !ClimbEnded(old(previousPhase), currentPhase) ==> moves == old(moves)
    {
      if !hasClimbProvider {
        return;
      }
      if previousPhase != Ended && currentPhase == Ended {
        OnClimbFinished(rightVelocity, leftVelocity);
      }
      previousPhase := currentPhase;
    }

    /** ApplyMomentum: move with the velocity and decay it, frame after frame, while
        its magnitude exceeds the threshold. */
    method ApplyMomentum(velocity: Vec3)
      modifies this`moves
      ensures |moves| >= |old(moves)| && moves[..|old(moves)|] == old(moves)
      ensures IsDecayRun(velocity, moves[|old(moves)|..])
    {
      var v := velocity;
      ghost var steps: seq<Vec3> := [];
      while SqMagnitude(v) > MinVelocityThreshold * MinVelocityThreshold
        invariant moves == old(moves) + steps
        invariant v == Scale(Decay(|steps|), velocity)
        invariant forall k :: 0 <= k < |steps| ==> steps[k] == Scale(Decay(k), velocity)
        invariant forall k :: 0 <= k < |steps| ==> SqMagnitude(Scale(Decay(k), velocity)) > MinVelocityThreshold * MinVelocityThreshold
        decreases (SqMagnitude(v) * 26.0).Floor
      {
        DecayStep(velocity, |steps|);
        DecayMeasure(v);
        moves := moves + [v];
        steps := steps + [v];
        v := Scale(MomentumDecayRate, v);
      }
      assert moves[|old(moves)|..] == steps;
    }

    /** OnClimbFinished: push the player opposite to the faster hand. */
    method OnClimbFinished(rightVelocity: Vec3, leftVelocity: Vec3)
      modifies this`moves
      ensures |moves| >= |old(moves)| && moves[..|old(moves)|] == old(moves)
      ensures IsDecayRun(Momentum(ChooseVelocity(rightVelocity, leftVelocity)), moves[|old(moves)|..])
    {
      var greatestVelocity := if SqMagnitude(rightVelocity) > SqMagnitude(leftVelocity) then rightVelocity else leftVelocity;
      var momentumVelocity := Scale(ForceMultiplier, Neg(greatestVelocity));
      ApplyMomentum(momentumVelocity);
    }
  }
}
