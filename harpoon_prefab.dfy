/** The older harpoon revision (Assets/Prefabs/Harpoon): a plain grab interactable
    with its own held flag and grab radius, the same stage table and shot
    transitions, no feedback and no reload. */
module HarpoonPrefab {
  import opened Geometry
  import opened Interaction
  import opened Harpoon

  class HarpoonBehavior {
    /** `grabRadius` has no initialiser, so it is 0 unless set in the inspector. */
    const grabRadius: real
    const infiniteAmmo: bool
    const tags: Tags
    var position: Vec3

    var isHeld: bool
    var targetType: TargetType
    var stage: Stage
    var start: Vec3
    var end: Vec3

    /** Whether `_lineRenderer` currently refers to a live component, and its two
        positions. */
    var lineRenderer: bool
    var linePositions: RopeSpan
    /** How many line renderers Update has added. */
    var lineRenderersAdded: nat

    var crosshairActive: bool
    var sprite: Option<Sprite>

    var ropes: seq<RopeSpan>

    ghost function Placed(): Placement
      reads this
    {
      Placement(stage, start, end, ropes)
    }

    /** Field initialisers: stage None whatever the ammunition setting. */
    constructor (grabRadius: real, infiniteAmmo: bool, tags: Tags, position: Vec3)
      ensures this.grabRadius == grabRadius && this.infiniteAmmo == infiniteAmmo
      ensures this.tags == tags && this.position == position
      ensures stage == Ready && targetType == NoTarget && !isHeld
      ensures !lineRenderer && lineRenderersAdded == 0 && ropes == []
    {
      this.grabRadius := grabRadius;
      this.infiniteAmmo := infiniteAmmo;
      this.tags := tags;
      this.position := position;
      isHeld := false;
      targetType := NoTarget;
      stage := Ready;
      start, end := Zero, Zero;
      lineRenderer := false;
      linePositions := RopeSpan(Zero, Zero);
      lineRenderersAdded := 0;
      crosshairActive := false;
      sprite := None;
      ropes := [];
    }

    /** IsTooFar: strictly farther than the grab radius. */
    predicate IsTooFar(other: Vec3, dist: real)
      requires IsDistance(dist, position, other)
      reads this
      ensures IsTooFar(other, dist) <==> grabRadius < 0.0 || SqDist(position, other) > grabRadius * grabRadius
    {
      DistanceExceeds(dist, position, other, grabRadius);
      dist > grabRadius
    }

    /** IsSelectableBy: within the grab radius and allowed by the base class. */
    predicate IsSelectableBy(other: Vec3, dist: real, baseSelectable: bool)
      requires IsDistance(dist, position, other)
      reads this
      ensures IsSelectableBy(other, dist, baseSelectable) <==>
              baseSelectable && grabRadius >= 0.0 && SqDist(position, other) <= grabRadius * grabRadius
    {
      !IsTooFar(other, dist) && baseSelectable
    }

    /** IsHoverableBy: additionally, the harpoon is not held. */
    predicate IsHoverableBy(other: Vec3, dist: real, baseHoverable: bool)
      requires IsDistance(dist, position, other)
      reads this
      ensures IsHoverableBy(other, dist, baseHoverable) <==>
              !isHeld && baseHoverable && grabRadius >= 0.0 && SqDist(position, other) <= grabRadius * grabRadius
      ensures isHeld ==> !IsHoverableBy(other, dist, baseHoverable)
    {
      !isHeld && !IsTooFar(other, dist) && baseHoverable
    }

    /** OnGrab: any select, sockets included, marks the harpoon held. */
    method OnGrab(interactor: Interactor)
      modifies this`isHeld
      ensures isHeld
    {
      isHeld := true;
    }

    /** OnRelease: any exit marks it not held. */
    method OnRelease(interactor: Interactor)
      modifies this`isHeld
      ensures !isHeld
    {
      isHeld := false;
    }

    /** Update: the same target type as the newer revision; while the start is placed
        and a target is hit, a line renderer is added if there is none and drawn from
        the start to the hit; the crosshair shows the valid or invalid sprite and is
        active exactly when there is a target. */
    method Update(hit: Option<Hit>)
      modifies this
      ensures targetType == NextTargetType(isHeld, hit, stage, tags)
      ensures crosshairActive <==> targetType == Valid || targetType == Invalid
      ensures targetType == Valid ==> sprite == Some(ValidCrosshair)
      ensures targetType == Invalid ==> sprite == Some(InvalidCrosshair)
      ensures targetType == NoTarget ==> sprite == old(sprite)
      ensures isHeld && hit.Some? && stage == StartPlaced ==>
                lineRenderer && linePositions == RopeSpan(start, hit.value.point) &&
                lineRenderersAdded == old(lineRenderersAdded) + (if old(lineRenderer) then 0 else 1)
      ensures !(isHeld && hit.Some? && stage == StartPlaced) ==>
                lineRenderer == old(lineRenderer) && linePositions == old(linePositions) &&
                lineRenderersAdded == old(lineRenderersAdded)
      ensures Placed() == old(Placed()) && isHeld == old(isHeld) && position == old(position)
    {
      var next := NoTarget;
      if isHeld && hit.Some? {
        next := if IsValidTarget(hit.value.tag, stage, tags) then Valid else Invalid;
        if stage == StartPlaced {
          if !lineRenderer {
            lineRenderer := true;
            lineRenderersAdded := lineRenderersAdded + 1;
          }
          linePositions := RopeSpan(start, hit.value.point);
        }
      }
      targetType := next;
      match targetType {
        case Valid =>
          sprite := Some(ValidCrosshair);
        case Invalid =>
          sprite := Some(InvalidCrosshair);
        case NoTarget =>
          crosshairActive := false;
          return;
      }
      crosshairActive := true;
    }

    /** Shoot: the preview line is always destroyed first; then the placement moves as
        in the newer revision (see Shot). */
    method Shoot(hit: Option<Hit>)
      modifies this
      ensures !lineRenderer
      ensures Placed() == Shot(old(Placed()), hit, tags, infiniteAmmo)
      ensures isHeld == old(isHeld) && targetType == old(targetType) && position == old(position)
      ensures crosshairActive == old(crosshairActive) && sprite == old(sprite)
      ensures linePositions == old(linePositions) && lineRenderersAdded == old(lineRenderersAdded)
    {
      lineRenderer := false;
      if hit.None? {
        return;
      }
      if !IsValidTarget(hit.value.tag, stage, tags) {
        return;
      }
      match stage
      case Ready =>
        start := hit.value.point;
        stage := StartPlaced;
      case StartPlaced =>
        end := hit.value.point;
        stage := StageAfterRope(infiniteAmmo);
        ropes := ropes + [RopeSpan(start, end)];
      case Done =>
    }

    /** OnTriggerPressed: shoot only while held. */
    method OnTriggerPressed(hit: Option<Hit>)
      modifies this
      ensures !old(isHeld) ==> unchanged(this)
      ensures old(isHeld) ==> Placed() == Shot(old(Placed()), hit, tags, infiniteAmmo) && !lineRenderer
      ensures old(isHeld) ==>
                isHeld == old(isHeld) && targetType == old(targetType) && position == old(position) &&
                crosshairActive == old(crosshairActive) && sprite == old(sprite) &&
                linePositions == old(linePositions) && lineRenderersAdded == old(lineRenderersAdded)
    {
      if !isHeld {
        return;
      }
      Shoot(hit);
    }
  }
}
