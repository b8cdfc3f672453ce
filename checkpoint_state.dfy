/** A checkpoint flag (Assets/Scripts/Checkpoint/CheckpointState.cs): the first
    activation turns it green and plays its particles and sound; later activations
    do nothing. */
module CheckpointState {

  /** The effects an activation triggers, in order. */
  datatype Effect = TurnedGreen | ParticlesPlayed | AudioPlayed

  const ActivationEffects: seq<Effect> := [TurnedGreen, ParticlesPlayed, AudioPlayed]

  class CheckpointState {
    var isActivated: bool
    /** Every effect triggered so far. */
    var effects: seq<Effect>

    /** The effects have run exactly once if the checkpoint is active, and never
        otherwise. */
    ghost predicate Valid()
      reads this
    {
      effects == if isActivated then ActivationEffects else []
    }

    constructor ()
      ensures !isActivated && effects == [] && Valid()
    {
      isActivated := false;
      effects := [];
    }

    /** activateCheckpoint: a no-op once active; otherwise become active and run the
        colour, particle and audio effects. */
    method ActivateCheckpoint()
      requires Valid()
      modifies this
      ensures Valid() && isActivated
      ensures old(isActivated) ==> effects == old(effects)
      ensures !old(isActivated) ==> effects == old(effects) + ActivationEffects
    {
      if isActivated {
        return;
      }
      isActivated := true;
      effects := effects + [TurnedGreen];
      effects := effects + [ParticlesPlayed];
      effects := effects + [AudioPlayed];
    }
  }
}
