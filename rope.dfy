/** The rope (namespace Prefabs.Rope, Assets/Scripts/Rope): a cylinder between two
    points, laid out lazily behind a `_validated` flag, with a capsule collider and two
    zipline trigger spheres placed a fixed fraction in from each end. */
module Rope {
  import opened Geometry

  /** The positions of the zipline start and end triggers. */
  datatype Triggers = Triggers(start: Vec3, end: Vec3)

  /** The rope endpoint the zipline starts from: `start` when it is strictly higher,
      `end` otherwise. */
  function Upper(start: Vec3, end: Vec3): (p: Vec3)
    ensures p == start || p == end
    ensures p.y >= start.y && p.y >= end.y
  {
    if start.y > end.y then start else end
  }

  /** The other endpoint. */
  function Lower(start: Vec3, end: Vec3): (p: Vec3)
    ensures p == start || p == end
    ensures p.y <= start.y && p.y <= end.y
  {
    if start.y > end.y then end else start
  }

  /** The trigger placement of UpdateInteractions: a start trigger `snap` of the way in
      from `start` and an end trigger `snap` of the way in from `end`; the zipline's
      start sphere takes whichever of the two lies next to the higher endpoint. */
  function ZipLineTriggers(start: Vec3, end: Vec3, snap: real): (r: Triggers)
    ensures r.start == Mix(Upper(start, end), Lower(start, end), snap)
    ensures r.end == Mix(Lower(start, end), Upper(start, end), snap)
  {
    var startTrigger := Mix(start, end, snap);
    var endTrigger := Mix(end, start, snap);
    if start.y > end.y then Triggers(startTrigger, endTrigger) else Triggers(endTrigger, startTrigger)
  }

  /** Which end the rope was drawn from does not matter for a sloped rope. */
  lemma TriggersIgnoreDirection(start: Vec3, end: Vec3, snap: real)
    requires start.y != end.y
    ensures ZipLineTriggers(start, end, snap) == ZipLineTriggers(end, start, snap)
  {
  }

  /** With the trigger fraction at most one half, the zipline's start trigger is never
      below its end trigger, and strictly above it on a sloped rope below one half. */
  lemma StartTriggerNotLower(start: Vec3, end: Vec3, snap: real)
    requires snap <= 0.5
    ensures ZipLineTriggers(start, end, snap).start.y >= ZipLineTriggers(start, end, snap).end.y
    ensures snap < 0.5 && start.y != end.y ==>
              ZipLineTriggers(start, end, snap).start.y > ZipLineTriggers(start, end, snap).end.y
  {
    var h, l := Upper(start, end).y, Lower(start, end).y;
    var r := ZipLineTriggers(start, end, snap);
    assert r.start.y == (1.0 - snap) * h + snap * l;
    assert r.end.y == (1.0 - snap) * l + snap * h;
    var a, b := 1.0 - 2.0 * snap, h - l;
    assert r.start.y - r.end.y == a * b;
    assert b >= 0.0;
    ProductSign(a, b);
    if snap < 0.5 && start.y != end.y {
      assert a > 0.0;
      assert b > 0.0;
    }
  }

  /** For a fraction in [0, 1], both triggers lie on the rope. */
  lemma TriggersOnRope(start: Vec3, end: Vec3, snap: real)
    requires 0.0 <= snap <= 1.0
    ensures OnSegment(ZipLineTriggers(start, end, snap).start, start, end)
    ensures OnSegment(ZipLineTriggers(start, end, snap).end, start, end)
  {
    MixOnSegment(start, end, snap);
    MixOnSegment(end, start, snap);
    assert Mix(end, start, snap) == Lerp(start, end, 1.0 - snap);
    assert OnSegment(Mix(start, end, snap), start, end);
    assert OnSegment(Mix(end, start, snap), start, end);
    if start.y > end.y {
      assert ZipLineTriggers(start, end, snap) == Triggers(Mix(start, end, snap), Mix(end, start, snap));
    } else {
      assert ZipLineTriggers(start, end, snap) == Triggers(Mix(end, start, snap), Mix(start, end, snap));
    }
  }

  lemma MixOnSegment(a: Vec3, b: Vec3, s: real)
    requires 0.0 <= s <= 1.0
    ensures Mix(a, b, s) == Lerp(a, b, s)
    ensures OnSegment(Mix(a, b, s), a, b)
  {
    assert Mix(a, b, s) == Lerp(a, b, s);
  }

  /** The rope's position is equidistant from both ends, at half the rope's length. */
  lemma MidpointHalfway(start: Vec3, end: Vec3)
    ensures SqDist(Midpoint(start, end), start) == SqDist(start, end) / 4.0
    ensures SqDist(Midpoint(start, end), end) == SqDist(start, end) / 4.0
  {
  }

  /** Assets/Scripts/Rope/RopeBehavior.cs. */
  class RopeBehavior {
    var width: real
    var snapSpherePosition: real
    var start: Vec3
    var end: Vec3
    var validated: bool

    var cylinderScale: Vec3
    var colliderRadius: real
    var colliderHeight: real
    var position: Vec3
    /** Positions and active flags of `zipLineStart` and `zipLineEnd`. */
    var zipLineStart: Vec3
    var zipLineEnd: Vec3
    var zipLineStartActive: bool
    var zipLineEndActive: bool

    /** The rope geometry agrees with `start`, `end`, `width` and `snapSpherePosition`:
        midpoint position, collider of the rope's length, half-length cylinder, and
        triggers placed by ZipLineTriggers on a sloped rope or disabled on a flat one. */
    ghost predicate LaidOut()
      reads this
    {
      && position == Midpoint(start, end)
      && IsDistance(colliderHeight, start, end)
      && colliderRadius == width
      && cylinderScale == Vec3(width, colliderHeight / 2.0, width)
      && (if Approximately(start.y, end.y) then !zipLineStartActive && !zipLineEndActive
          else Triggers(zipLineStart, zipLineEnd) == ZipLineTriggers(start, end, snapSpherePosition))
    }

    /** A validated rope is laid out. */
    ghost predicate Consistent()
      reads this
    {
      validated ==> LaidOut()
    }

    /** A rope from the prefab: default width and trigger fraction, triggers active,
        not yet laid out. */
    constructor ()
      ensures width == 0.015 && snapSpherePosition == 0.05
      ensures start == Zero && end == Zero && !validated
      ensures zipLineStartActive && zipLineEndActive
      ensures Consistent()
    {
      width := 0.015;
      snapSpherePosition := 0.05;
      start, end := Zero, Zero;
      validated := false;
      cylinderScale := Vec3(1.0, 1.0, 1.0);
      colliderRadius, colliderHeight := 0.0, 0.0;
      position := Zero;
      zipLineStart, zipLineEnd := Zero, Zero;
      zipLineStartActive, zipLineEndActive := true, true;
    }

    /** ForceUpdate: new endpoints, layout pending. */
    method ForceUpdate(newStart: Vec3, newEnd: Vec3)
      modifies this`start, this`end, this`validated
      ensures start == newStart && end == newEnd && !validated
      ensures Consistent()
    {
      start := newStart;
      end := newEnd;
      validated := false;
    }

    /** OnValidate: an inspector edit marks the layout pending. */
    method OnValidate()
      modifies this`validated
      ensures !validated && Consistent()
    {
      validated := false;
    }

    /** UpdateLineVisuals: the cylinder is `width` thick and half the rope's length
        tall (a unit cylinder is two units high). */
    method UpdateLineVisuals(dist: real)
      requires IsDistance(dist, start, end)
      modifies this`cylinderScale
      ensures cylinderScale == Vec3(width, dist / 2.0, width)
    {
      cylinderScale := Vec3(width, dist / 2.0, width);
    }

    /** UpdateCollider: a capsule of radius `width` and the rope's length. */
    method UpdateCollider(dist: real)
      requires IsDistance(dist, start, end)
      modifies this`colliderRadius, this`colliderHeight
      ensures colliderRadius == width && IsDistance(colliderHeight, start, end) && colliderHeight == dist
    {
      colliderRadius := width;
      colliderHeight := dist;
    }

    /** UpdateTransform: the rope sits at the midpoint of its ends. */
    method UpdateTransform()
      modifies this`position
      ensures position == Midpoint(start, end)
    {
      position := Scale(0.5, Add(start, end));
    }

    /** UpdateInteractions: place the triggers on a sloped rope (their active flags
        are left alone), disable both on a flat one (their positions are left alone). */
    method UpdateInteractions()
      modifies this`zipLineStart, this`zipLineEnd, this`zipLineStartActive, this`zipLineEndActive
      ensures !Approximately(start.y, end.y) ==>
                Triggers(zipLineStart, zipLineEnd) == ZipLineTriggers(start, end, snapSpherePosition) &&
                zipLineStartActive == old(zipLineStartActive) && zipLineEndActive == old(zipLineEndActive)
      ensures Approximately(start.y, end.y) ==>
                !zipLineStartActive && !zipLineEndActive &&
                zipLineStart == old(zipLineStart) && zipLineEnd == old(zipLineEnd)
    {
      if !Approximately(start.y, end.y) {
        var startTrigger := Add(Scale(1.0 - snapSpherePosition, start), Scale(snapSpherePosition, end));
        var endTrigger := Add(Scale(1.0 - snapSpherePosition, end), Scale(snapSpherePosition, start));
        zipLineStart := if start.y > end.y then startTrigger else endTrigger;
        zipLineEnd := if start.y > end.y then endTrigger else startTrigger;
      } else {
        zipLineStartActive := false;
        zipLineEndActive := false;
      }
    }

    /** UpdateAll: every part of the layout, from the current fields. */
    method UpdateAll(dist: real)
      requires IsDistance(dist, start, end)
      modifies this
      ensures LaidOut()
      ensures start == old(start) && end == old(end) && validated == old(validated)
      ensures width == old(width) && snapSpherePosition == old(snapSpherePosition)
      ensures !Approximately(start.y, end.y) ==>
                zipLineStartActive == old(zipLineStartActive) && zipLineEndActive == old(zipLineEndActive)
    {
      UpdateLineVisuals(dist);
      UpdateCollider(dist);
      UpdateTransform();
      UpdateInteractions();
    }

    /** Update: lay the rope out once per change. A validated rope is left exactly as it
        is, so a second Update without an intervening change alters nothing. */
    method Update(dist: real)
      requires IsDistance(dist, start, end)
      requires Consistent()
      modifies this
      ensures validated && LaidOut() && Consistent()
      ensures old(validated) ==> unchanged(this)
      ensures start == old(start) && end == old(end)
      ensures width == old(width) && snapSpherePosition == old(snapSpherePosition)
    {
      if validated {
        return;
      }
      UpdateAll(dist);
      validated := true;
    }

    /** GetStartPoint: the zipline start trigger's position. */
    function GetStartPoint(): (p: Vec3)
      reads this
      ensures validated && Consistent() && !Approximately(start.y, end.y) ==>
                p == Mix(Upper(start, end), Lower(start, end), snapSpherePosition)
    {
      zipLineStart
    }

    /** GetEndPoint: the zipline end trigger's position. */
    function GetEndPoint(): (p: Vec3)
      reads this
      ensures validated && Consistent() && !Approximately(start.y, end.y) ==>
                p == Mix(Lower(start, end), Upper(start, end), snapSpherePosition)
    {
      zipLineEnd
    }
  }
}
