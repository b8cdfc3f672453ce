/** The climbing momentum manager (Assets/Scripts/Climbing/ClimbingMomentumManager.cs):
    when a climb ends it reads both controllers' velocities, takes the faster hand,
    and pushes the player the opposite way at three times that speed, decaying by 2%
    a frame until the speed is at most one. Controller velocities and the climb
    provider's locomotion state are parameters of Update. */
module ClimbingMomentum {
  import opened Geometry

  /** The climb provider's LocomotionState; Idle is the enum's default. */
  datatype LocomotionState = Idle | Preparing | Moving | Ended

  /** FORCE_MULTIPLIER, MOMENTUM_DECAY_RATE and MIN_VELOCITY_THRESHOLD. */
  const ForceMultiplier: real := 3.0
  const MomentumDecayRate: real := 0.98
  const MinVelocityThreshold: real := 1.0

  /** Update calls OnClimbFinished exactly when the phase enters Ended. */
  predicate ClimbEnded(previous: LocomotionState, current: LocomotionState) {
    previous != Ended && current == Ended
  }

  /** The edge fires at most once per climb: the frame after it fired, the previous
      phase is Ended, so it cannot fire again until the phase has left Ended. */
  lemma ClimbEndedOnce(previous: LocomotionState, current: LocomotionState, next: LocomotionState)
    ensures ClimbEnded(previous, current) ==> !ClimbEnded(current, next)
    ensures ClimbEnded(current, next) ==> current != Ended
  {
  }

  /** The greater-magnitude hand velocity; on equal magnitudes the left one. The
      magnitudes are compared through their squares (see ChooseByMagnitude). */
  function ChooseVelocity(right: Vec3, left: Vec3): (r: Vec3)
    ensures r == right || r == left
    ensures SqMagnitude(r) >= SqMagnitude(right) && SqMagnitude(r) >= SqMagnitude(left)
    ensures r == right && r != left ==> SqMagnitude(right) > SqMagnitude(left)
  {
    if SqMagnitude(right) > SqMagnitude(left) then right else left
  }

  /** Comparing the square roots, as ClimbingMomentumManager does, gives the same choice. */
  lemma ChooseByMagnitude(right: Vec3, left: Vec3, rightMagnitude: real, leftMagnitude: real)
    requires IsDistance(rightMagnitude, Zero, right) && IsDistance(leftMagnitude, Zero, left)
    ensures ChooseVelocity(right, left) == if rightMagnitude > leftMagnitude then right else left
  {
    assert SqDist(Zero, right) == SqMagnitude(right);
    assert SqDist(Zero, left) == SqMagnitude(left);
    DistanceExceeds(rightMagnitude, Zero, right, leftMagnitude);
  }

  /** `-greatestVelocity * FORCE_MULTIPLIER`: opposite to the hand, three times as fast. */
  function Momentum(v: Vec3): (r: Vec3)
    ensures Add(r, Scale(ForceMultiplier, v)) == Zero
    ensures SqMagnitude(r) == ForceMultiplier * ForceMultiplier * SqMagnitude(v)
  {
    ScaleSqMagnitude(ForceMultiplier, Neg(v));
    assert SqMagnitude(Neg(v)) == SqMagnitude(v);
    Scale(ForceMultiplier, Neg(v))
  }

  /** MOMENTUM_DECAY_RATE to the n-th power: the velocity's factor after n frames. */
  function Decay(n: nat): (r: real)
    ensures 0.0 < r <= 1.0
  {
    if n == 0 then 1.0 else MomentumDecayRate * Decay(n - 1)
  }

  /** `steps` are the velocities ApplyMomentum moves the player with, one per frame,
      starting from `v`: each frame's velocity is the first one decayed n times and
      is faster than the threshold, and the velocity after the last frame is not.
      Magnitudes are compared through their squares. */
  ghost predicate IsDecayRun(v: Vec3, steps: seq<Vec3>) {
    && (forall n :: 0 <= n < |steps| ==> steps[n] == Scale(Decay(n), v))
    && (forall n :: 0 <= n < |steps| ==> SqMagnitude(Scale(Decay(n), v)) > MinVelocityThreshold * MinVelocityThreshold)
    && SqMagnitude(Scale(Decay(|steps|), v)) <= MinVelocityThreshold * MinVelocityThreshold
  }

  /** A starting velocity determines its run: the loop stops at the first frame
      whose velocity is at most the threshold, so no two runs differ. */
  lemma DecayRunUnique(v: Vec3, steps1: seq<Vec3>, steps2: seq<Vec3>)
    requires IsDecayRun(v, steps1) && IsDecayRun(v, steps2)
    ensures steps1 == steps2
  {
  }

  /** One frame of decay multiplies the squared speed by 0.98 * 0.98. */
  lemma DecayStep(v: Vec3, n: nat)
    ensures Scale(Decay(n + 1), v) == Scale(MomentumDecayRate, Scale(Decay(n), v))
    ensures SqMagnitude(Scale(Decay(n + 1), v)) == 0.9604 * SqMagnitude(Scale(Decay(n), v))
  {
    var d := Decay(n);
    assert MomentumDecayRate * (d * v.x) == (MomentumDecayRate * d) * v.x;
    assert MomentumDecayRate * (d * v.y) == (MomentumDecayRate * d) * v.y;
    assert MomentumDecayRate * (d * v.z) == (MomentumDecayRate * d) * v.z;
    ScaleSqMagnitude(MomentumDecayRate, Scale(d, v));
  }

  /** While the speed is above the threshold, a frame of decay lowers the loop's
      termination measure. */
  lemma DecayMeasure(v: Vec3)
    requires SqMagnitude(v) > MinVelocityThreshold * MinVelocityThreshold
    ensures (SqMagnitude(Scale(MomentumDecayRate, v)) * 26.0).Floor < (SqMagnitude(v) * 26.0).Floor
  {
    ScaleSqMagnitude(MomentumDecayRate, v);
    var a, b := SqMagnitude(v) * 26.0, SqMagnitude(Scale(MomentumDecayRate, v)) * 26.0;
    assert b == 0.9604 * a;
    assert b < a - 1.0;
  }

  /** The speed strictly decreases from frame to frame of a run. */
  lemma {:induction false} DecayRunDecreasing(v: Vec3, steps: seq<Vec3>, i: nat, j: nat)
    requires IsDecayRun(v, steps) && i < j < |steps|
    ensures SqMagnitude(steps[j]) < SqMagnitude(steps[i])
    decreases j - i
  {
    DecayStep(v, j - 1);
    assert SqMagnitude(steps[j]) == 0.9604 * SqMagnitude(steps[j - 1]);
    if i < j - 1 {
      DecayRunDecreasing(v, steps, i, j - 1);
    }
  }

  class ClimbingMomentumManager {
    /** Whether GetComponent<ClimbProvider> found a climb provider. */
    const hasClimbProvider: bool
    var previousPhase: LocomotionState
    /** Every velocity whose frame displacement was passed to CharacterController.Move. */
    var moves: seq<Vec3>
    /** Whether Start threw on the missing climb provider. */
    var faulted: bool

    constructor (hasClimbProvider: bool)
      ensures this.hasClimbProvider == hasClimbProvider
      ensures previousPhase == Idle && moves == [] && !faulted
    {
      this.hasClimbProvider := hasClimbProvider;
      previousPhase := Idle;
      moves := [];
      faulted := false;
    }

    /** Start: record the provider's current phase; without a provider the error is
        logged and reading its phase throws. */
    method Start(phase: LocomotionState)
      modifies this`previousPhase, this`faulted
      ensures hasClimbProvider ==> previousPhase == phase && faulted == old(faulted)
      ensures !hasClimbProvider ==> previousPhase == old(previousPhase) && faulted
    {
      if !hasClimbProvider {
        faulted := true;
        return;
      }
      previousPhase := phase;
    }

    /** Update: without a provider nothing happens; otherwise a climb that has just
        ended starts the momentum run, and the phase is remembered for the next frame. */
    method Update(currentPhase: LocomotionState, rightVelocity: Vec3, leftVelocity: Vec3)
      modifies this`previousPhase, this`moves
      ensures !hasClimbProvider ==> previousPhase == old(previousPhase) && moves == old(moves)
      ensures hasClimbProvider ==> previousPhase == currentPhase
      ensures hasClimbProvider && ClimbEnded(old(previousPhase), currentPhase) ==>
                |moves| >= |old(moves)| && moves[..|old(moves)|] == old(moves) &&
                IsDecayRun(Momentum(ChooseVelocity(rightVelocity, leftVelocity)), moves[|old(moves)|..])
      ensures !ClimbEnded(old(previousPhase), currentPhase) ==> moves == old(moves)
    {
      if !hasClimbProvider {
        return;
      }
      if previousPhase != Ended && currentPhase == Ended {
        OnClimbFinished(rightVelocity, leftVelocity);
      }
      previousPhase := currentPhase;
    }

    /** ApplyMomentum: move with the velocity and decay it, frame after frame, while
        its magnitude exceeds the threshold. */
    method ApplyMomentum(velocity: Vec3)
      modifies this`moves
      ensures |moves| >= |old(moves)| && moves[..|old(moves)|] == old(moves)
      ensures IsDecayRun(velocity, moves[|old(moves)|..])
    {
      var v := velocity;
      ghost var steps: seq<Vec3> := [];
      while SqMagnitude(v) > MinVelocityThreshold * MinVelocityThreshold
        invariant moves == old(moves) + steps
        invariant v == Scale(Decay(|steps|), velocity)
        invariant forall k :: 0 <= k < |steps| ==> steps[k] == Scale(Decay(k), velocity)
        invariant forall k :: 0 <= k < |steps| ==> SqMagnitude(Scale(Decay(k), velocity)) > MinVelocityThreshold * MinVelocityThreshold
        decreases (SqMagnitude(v) * 26.0).Floor
      {
        DecayStep(velocity, |steps|);
        DecayMeasure(v);
        moves := moves + [v];
        steps := steps + [v];
        v := Scale(MomentumDecayRate, v);
      }
      assert moves[|old(moves)|..] == steps;
    }

    /** OnClimbFinished: push the player opposite to the faster hand. */
    method OnClimbFinished(rightVelocity: Vec3, leftVelocity: Vec3)
      modifies this`moves
      ensures |moves| >= |old(moves)| && moves[..|old(moves)|] == old(moves)
      ensures IsDecayRun(Momentum(ChooseVelocity(rightVelocity, leftVelocity)), moves[|old(moves)|..])
    {
      var greatestVelocity := if SqMagnitude(rightVelocity) > SqMagnitude(leftVelocity) then rightVelocity else leftVelocity;
      var momentumVelocity := Scale(ForceMultiplier, Neg(greatestVelocity));
      ApplyMomentum(momentumVelocity);
    }
  }
}
