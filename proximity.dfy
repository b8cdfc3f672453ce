/** The guitar strings' proximity detector (Assets/Scripts/Guitar/ProximityStringDetector.cs):
    the right hand is inside when its position, in the strings collider's local
    frame, lies strictly within the collider's half extents enlarged by a
    multiplier; the sound controller is told on each entry and each exit. The
    transform of the hand into the collider's frame is given as a parameter. */
module Proximity {
  import opened Geometry

  /** The default detectionScaleMultiplier. */
  const DefaultMultiplier: Vec3 := Vec3(1.5, 1.5, 1.5)

  /** The strings collider: its size and its transform's lossy scale. */
  datatype BoxArea = BoxArea(size: Vec3, lossyScale: Vec3)

  /** The detection half extents: size times scale, halved, times the multiplier. */
  function HalfExtents(area: BoxArea, multiplier: Vec3): (h: Vec3)
    ensures h.x == area.size.x * area.lossyScale.x / 2.0 * multiplier.x
    ensures h.y == area.size.y * area.lossyScale.y / 2.0 * multiplier.y
    ensures h.z == area.size.z * area.lossyScale.z / 2.0 * multiplier.z
  {
    Mul(Scale(0.5, Mul(area.size, area.lossyScale)), multiplier)
  }

  /** Strictly inside the box of half extents `h` centred on the origin. */
  predicate Inside(p: Vec3, h: Vec3) {
    && -h.x < p.x < h.x
    && -h.y < p.y < h.y
    && -h.z < p.z < h.z
  }

  /** The test is an open box: a point whose coordinate equals a half extent on any
      axis is outside, and the box is symmetric about the collider's centre. */
  lemma InsideFacts(p: Vec3, h: Vec3)
    ensures Abs(p.x) == h.x || Abs(p.y) == h.y || Abs(p.z) == h.z ==> !Inside(p, h)
    ensures Inside(p, h) <==> Abs(p.x) < h.x && Abs(p.y) < h.y && Abs(p.z) < h.z
    ensures Inside(p, h) <==> Inside(Neg(p), h)
  {
  }

  /** A multiplier of at least one on every axis only enlarges a box of non-negative
      size and scale: a hand inside the box with multiplier one (the collider's size
      times the lossy scale) is inside the detection zone. */
  lemma MultiplierEnlarges(p: Vec3, area: BoxArea, multiplier: Vec3)
    requires area.size.x >= 0.0 && area.size.y >= 0.0 && area.size.z >= 0.0
    requires area.lossyScale.x >= 0.0 && area.lossyScale.y >= 0.0 && area.lossyScale.z >= 0.0
    requires multiplier.x >= 1.0 && multiplier.y >= 1.0 && multiplier.z >= 1.0
    requires Inside(p, HalfExtents(area, Vec3(1.0, 1.0, 1.0)))
    ensures Inside(p, HalfExtents(area, multiplier))
  {
    var b := Scale(0.5, Mul(area.size, area.lossyScale));
    ProductSign(area.size.x, area.lossyScale.x);
    ProductSign(area.size.y, area.lossyScale.y);
    ProductSign(area.size.z, area.lossyScale.z);
    ProductSign(b.x, multiplier.x - 1.0);
    ProductSign(b.y, multiplier.y - 1.0);
    ProductSign(b.z, multiplier.z - 1.0);
    assert b.x * multiplier.x == b.x + b.x * (multiplier.x - 1.0);
    assert b.y * multiplier.y == b.y + b.y * (multiplier.y - 1.0);
    assert b.z * multiplier.z == b.z + b.z * (multiplier.z - 1.0);
  }

  /** The OnHandTouch call one frame makes, if any: `true` on entering, `false` on
      leaving, nothing when the hand stays on the same side. */
  function Touch(wasInside: bool, inside: bool): (r: Option<bool>)
    ensures r.Some? <==> inside != wasInside
    ensures r.Some? ==> r.value == inside
  {
    if inside && !wasInside then Some(true)
    else if !inside && wasInside then Some(false)
    else None
  }

  /** The OnHandTouch calls over successive frames, starting from `wasInside`. */
  function Touches(wasInside: bool, frames: seq<bool>): seq<bool>
    decreases |frames|
  {
    if frames == [] then []
    else
      var t := Touch(wasInside, frames[0]);
      (if t.Some? then [t.value] else []) + Touches(frames[0], frames[1..])
  }

  /** Entries and exits alternate: the first call reports the opposite of where the
      hand started, each call differs from the one before it, and the last call
      reports where the hand ended up. */
  lemma {:induction false} TouchesAlternate(wasInside: bool, frames: seq<bool>)
    ensures var ts := Touches(wasInside, frames);
            && (|ts| > 0 ==> ts[0] == !wasInside)
            && (forall i :: 0 < i < |ts| ==> ts[i] != ts[i - 1])
            && (|ts| > 0 ==> ts[|ts| - 1] == frames[|frames| - 1])
            && (|ts| == 0 ==> forall i :: 0 <= i < |frames| ==> frames[i] == wasInside)
    decreases |frames|
  {
    if frames != [] {
      TouchesAlternate(frames[0], frames[1..]);
      var ts := Touches(wasInside, frames);
      var t := Touch(wasInside, frames[0]);
      var rest := Touches(frames[0], frames[1..]);
      if |rest| == 0 {
        assert forall i :: 1 <= i < |frames| ==> frames[i] == frames[1..][i - 1];
      } else {
        assert rest[|rest| - 1] == frames[|frames| - 1];
      }
      if t.Some? {
        assert ts == [frames[0]] + rest;
        forall i | 0 < i < |ts|
          ensures ts[i] != ts[i - 1]
        {
          if i == 1 {
            assert ts[1] == rest[0] == !frames[0];
          } else {
            assert ts[i] == rest[i - 1] && ts[i - 1] == rest[i - 2];
          }
        }
      } else {
        assert ts == rest;
      }
    }
  }

  class ProximityStringDetector {
    const multiplier: Vec3
    /** Whether a GuitarSoundController sits on the same object. */
    const hasSoundController: bool
    var isHandInside: bool
    /** The OnHandTouch calls made so far. */
    var touches: seq<bool>
    /** Whether a call on the missing sound controller threw. */
    var faulted: bool

    constructor (multiplier: Vec3, hasSoundController: bool)
      ensures this.multiplier == multiplier && this.hasSoundController == hasSoundController
      ensures !isHandInside && touches == [] && !faulted
    {
      this.multiplier := multiplier;
      this.hasSoundController := hasSoundController;
      isHandInside := false;
      touches := [];
      faulted := false;
    }

    /** Update: nothing without a hand or a collider; otherwise the latch follows the
        containment test, and a change is reported to the sound controller (which
        throws, after the latch moved, when the controller is missing). */
    method Update(handLocal: Option<Vec3>, area: Option<BoxArea>)
      modifies this`isHandInside, this`touches, this`faulted
      ensures handLocal.None? || area.None? ==>
                isHandInside == old(isHandInside) && touches == old(touches) && faulted == old(faulted)
      ensures handLocal.Some? && area.Some? ==>
                var inside := Inside(handLocal.value, HalfExtents(area.value, multiplier));
                var t := Touch(old(isHandInside), inside);
                isHandInside == inside &&
                touches == old(touches) + (if t.Some? && hasSoundController then [t.value] else []) &&
                faulted == (old(faulted) || (t.Some? && !hasSoundController))
    {
      if handLocal.None? || area.None? {
        return;
      }
      var h := HalfExtents(area.value, multiplier);
      var p := handLocal.value;
      var inside :=
        p.x > -h.x && p.x < h.x &&
        p.y > -h.y && p.y < h.y &&
        p.z > -h.z && p.z < h.z;
      if inside && !isHandInside {
        isHandInside := true;
        OnHandTouch(true);
      } else if !inside && isHandInside {
        isHandInside := false;
        OnHandTouch(false);
      }
    }

    /** guitarSoundController.OnHandTouch. */
    method OnHandTouch(isTouching: bool)
      modifies this`touches, this`faulted
      ensures hasSoundController ==> touches == old(touches) + [isTouching] && faulted == old(faulted)
      ensures !hasSoundController ==> touches == old(touches) && faulted
    {
      if hasSoundController {
        touches := touches + [isTouching];
      } else {
        faulted := true;
      }
    }
  }
}
