/** The campfire steak (Assets/Scripts/Cooking/CookingManager.cs): once the raw steak
    lies in a pan near the fire, cooking starts, and at most once; after seven
    seconds (and a second of smoke when a smoke effect is set) the raw steak is
    swapped for the cooked one in the same place. The CookSteak coroutine is a phase
    advanced by ResumeCooking when its WaitForSeconds elapses. */
module Cooking {
  import opened Geometry

  const CookingTime: real := 7.0
  const FireTime: real := 1.0

  /** Where the CookSteak coroutine is. */
  datatype CookPhase = NotStarted | Cooking | Smoking | Cooked

  class CookingManager {
    /** Whether a smoke particle system is assigned. */
    const hasSmokeEffect: bool

    var rawSteakActive: bool
    var rawSteakPose: Pose
    /** The raw steak's parent transform, by identity. */
    var rawSteakParent: nat
    var cookedSteakActive: bool
    var cookedSteakPose: Pose
    var cookedSteakParent: Option<nat>

    /** Set by the pan and fire detectors. */
    var isSteakInPan: bool
    var panNearFire: bool

    var isCooking: bool
    var phase: CookPhase
    var soundPlaying: bool
    /** How many times the cooking sound was started. */
    var soundStarts: nat
    var smokeActive: bool
    var smokePlaying: bool
    var smokePosition: Vec3

    /** Cooking has started exactly when the coroutine exists, the sound was started
        exactly that once, there is smoke only while smoking, and a cooked steak
        replaces the raw one in its place. */
    ghost predicate Valid()
      reads this
    {
      && (isCooking <==> !phase.NotStarted?)
      && soundStarts == (if isCooking then 1 else 0)
      && (soundPlaying <==> phase.Cooking? || phase.Smoking?)
      && (phase.Smoking? ==> hasSmokeEffect)
      && (smokeActive <==> phase.Smoking?)
      && (smokePlaying <==> phase.Smoking?)
      && (phase.Cooked? ==>
            !rawSteakActive && cookedSteakActive &&
            cookedSteakPose == rawSteakPose && cookedSteakParent == Some(rawSteakParent))
    }

    constructor (hasSmokeEffect: bool, rawSteakPose: Pose, rawSteakParent: nat, cookedSteakPose: Pose)
      ensures this.hasSmokeEffect == hasSmokeEffect
      ensures this.rawSteakPose == rawSteakPose && this.rawSteakParent == rawSteakParent
      ensures this.cookedSteakPose == cookedSteakPose
      ensures rawSteakActive && cookedSteakActive && !isSteakInPan && !panNearFire
      ensures !isCooking && phase.NotStarted? && soundStarts == 0 && Valid()
    {
      this.hasSmokeEffect := hasSmokeEffect;
      this.rawSteakPose := rawSteakPose;
      this.rawSteakParent := rawSteakParent;
      this.cookedSteakPose := cookedSteakPose;
      rawSteakActive, cookedSteakActive := true, true;
      cookedSteakParent := None;
      isSteakInPan, panNearFire := false, false;
      isCooking := false;
      phase := NotStarted;
      soundPlaying, soundStarts := false, 0;
      smokeActive, smokePlaying := false, false;
      smokePosition := Zero;
    }

    /** Start: the cooked steak is hidden. */
    method Start()
      requires Valid() && !isCooking
      modifies this`cookedSteakActive
      ensures Valid() && !cookedSteakActive
    {
      cookedSteakActive := false;
    }

    /** Update: cooking starts only when it has not yet, the raw steak is active, the
        steak is in the pan, and the pan is near the fire. */
    method Update()
      requires Valid()
      modifies this`isCooking, this`phase, this`soundPlaying, this`soundStarts
      ensures Valid() && (old(isCooking) ==> isCooking)
      ensures isCooking && !old(isCooking) <==>
                !old(isCooking) && rawSteakActive && isSteakInPan && panNearFire
      ensures isCooking && !old(isCooking) ==> phase.Cooking? && soundPlaying
      ensures !(isCooking && !old(isCooking)) ==>
                phase == old(phase) && soundPlaying == old(soundPlaying) && soundStarts == old(soundStarts)
    {
      if !isCooking && rawSteakActive && isSteakInPan && panNearFire {
        StartCooking();
      }
    }

    /** StartCooking: only the first call plays the sound and starts the coroutine,
        since `isCooking` is never reset. */
    method StartCooking()
      requires Valid()
      modifies this`isCooking, this`phase, this`soundPlaying, this`soundStarts
      ensures Valid() && isCooking
      ensures old(isCooking) ==>
                phase == old(phase) && soundPlaying == old(soundPlaying) && soundStarts == old(soundStarts)
      ensures !old(isCooking) ==> phase.Cooking? && soundPlaying && soundStarts == 1
    {
      if !isCooking {
        soundPlaying := true;
        soundStarts := soundStarts + 1;
        isCooking := true;
        phase := Cooking;
      }
    }

    /** The end of a CookSteak wait. After the cooking time, with a smoke effect the
        smoke is moved onto the raw steak, shown and played for the fire time;
        without one, or after the fire time, the smoke is stopped and hidden, the raw
        steak hidden, the cooked steak shown with the raw steak's pose and parent, and
        the sound stopped. */
    method ResumeCooking()
      requires Valid() && (phase.Cooking? || phase.Smoking?)
      modifies this`phase, this`smokeActive, this`smokePlaying, this`smokePosition
      modifies this`rawSteakActive, this`cookedSteakActive, this`cookedSteakPose,
               this`cookedSteakParent, this`soundPlaying
      ensures Valid() && isCooking
      ensures old(phase).Cooking? && hasSmokeEffect ==>
                phase.Smoking? && smokePosition == rawSteakPose.position &&
                rawSteakActive == old(rawSteakActive) && cookedSteakActive == old(cookedSteakActive)
      ensures old(phase).Smoking? || !hasSmokeEffect ==> phase.Cooked? && !soundPlaying
    {
      if phase.Cooking? && hasSmokeEffect {
        smokePosition := rawSteakPose.position;
        smokeActive := true;
        smokePlaying := true;
        phase := Smoking;
        return;
      }
      smokePlaying := false;
      smokeActive := false;
      rawSteakActive := false;
      cookedSteakActive := true;
      cookedSteakPose := rawSteakPose;
      cookedSteakParent := Some(rawSteakParent);
      soundPlaying := false;
      phase := Cooked;
    }
  }
}
