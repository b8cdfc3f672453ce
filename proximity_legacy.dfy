/** The older copy of the proximity detector (Assets/Scripts/Guitare/ProximityStringDetector.cs),
    identical in behaviour: the same containment test and the same entry/exit
    calls. */
module ProximityLegacy {
  import opened Geometry
  import opened Proximity

  class ProximityStringDetector {
    const multiplier: Vec3
    /** Whether a GuitarSoundController sits on the same object. */
    const hasSoundController: bool
    var isHandInside: bool
    /** The OnHandTouch calls made so far. */
    var touches: seq<bool>
    /** Whether a call on the missing sound controller threw. */
    var faulted: bool

    constructor (multiplier: Vec3, hasSoundController: bool)
      ensures this.multiplier == multiplier && this.hasSoundController == hasSoundController
      ensures !isHandInside && touches == [] && !faulted
    {
      this.multiplier := multiplier;
      this.hasSoundController := hasSoundController;
      isHandInside := false;
      touches := [];
      faulted := false;
    }

    /** Update: nothing without a hand or a collider; otherwise the latch follows the
        containment test, and a change is reported to the sound controller (which
        throws, after the latch moved, when the controller is missing). */
    method Update(handLocal: Option<Vec3>, area: Option<BoxArea>)
      modifies this`isHandInside, this`touches, this`faulted
      ensures handLocal.None? || area.None? ==>
                isHandInside == old(isHandInside) && touches == old(touches) && faulted == old(faulted)
      ensures handLocal.Some? && area.Some? ==>
                var inside := Inside(handLocal.value, HalfExtents(area.value, multiplier));
                var t := Touch(old(isHandInside), inside);
                isHandInside == inside &&
                touches == old(touches) + (if t.Some? && hasSoundController then [t.value] else []) &&
                faulted == (old(faulted) || (t.Some? && !hasSoundController))
    {
      if handLocal.None? || area.None? {
        return;
      }
      var h := HalfExtents(area.value, multiplier);
      var p := handLocal.value;
      var inside :=
        p.x > -h.x && p.x < h.x &&
        p.y > -h.y && p.y < h.y &&
        p.z > -h.z && p.z < h.z;
      if inside && !isHandInside {
        isHandInside := true;
        OnHandTouch(true);
      } else if !inside && isHandInside {
        isHandInside := false;
        OnHandTouch(false);
      }
    }

    /** guitarSoundController.OnHandTouch. */
    method OnHandTouch(isTouching: bool)
      modifies this`touches, this`faulted
      ensures hasSoundController ==> touches == old(touches) + [isTouching] && faulted == old(faulted)
      ensures !hasSoundController ==> touches == old(touches) && faulted
    {
      if hasSoundController {
        touches := touches + [isTouching];
      } else {
        faulted := true;
      }
    }
  }
}
