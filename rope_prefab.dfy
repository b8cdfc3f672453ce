/** The older rope (Assets/Prefabs/Rope): the same layout, but every engine component
    is added on first use and cached, and the zipline spheres are created on the
    first sloped layout. */
module RopePrefab {
  import opened Geometry
  import opened Rope

  /** A material asset, by identity. */
  datatype Material = Material(id: nat)

  /** Assets/Prefabs/Rope/RopeBehavior.cs. */
  class RopeBehavior {
    var width: real
    var snapSpherePosition: real
    var start: Vec3
    var end: Vec3
    var ropeMaterial: Option<Material>
    var snapTriggerMaterial: Option<Material>
    var validated: bool

    /** How many of each component have been added to the rope object. */
    var lineRenderers: nat
    var rigidbodies: nat
    var colliders: nat
    var grabInteractablesAdded: nat
    /** How many times CreateZipLine ran. */
    var zipLinesCreated: nat

    var lineWidth: real
    var lineMaterial: Option<Material>
    var linePositions: Triggers
    var colliderRadius: real
    var colliderHeight: real
    var position: Vec3
    var sphereScale: real
    var zipLineStart: Vec3
    var zipLineEnd: Vec3
    var zipLineStartMaterial: Option<Material>

    /** Each cached component is created at most once. */
    ghost predicate Cached()
      reads this`lineRenderers, this`rigidbodies, this`colliders, this`zipLinesCreated
    {
      lineRenderers <= 1 && rigidbodies <= 1 && colliders <= 1 && zipLinesCreated <= 1
    }

    /** The layout UpdateAll produces: every cached component exists, the line and
        collider follow the rope, and on a sloped rope the spheres exist, are three
        widths across and are placed by ZipLineTriggers. */
    ghost predicate LaidOut()
      reads this`lineRenderers, this`rigidbodies, this`colliders, this`position
      reads this`lineWidth, this`width, this`lineMaterial, this`ropeMaterial, this`linePositions
      reads this`colliderRadius, this`colliderHeight, this`start, this`end
      reads this`zipLinesCreated, this`sphereScale, this`zipLineStart, this`zipLineEnd, this`snapSpherePosition
    {
      && lineRenderers == 1 && rigidbodies == 1 && colliders == 1
      && LineLaidOut() && ColliderLaidOut() && position == Midpoint(start, end)
      && SpheresLaidOut()
    }

    ghost predicate LineLaidOut()
      reads this`lineWidth, this`width, this`lineMaterial, this`ropeMaterial, this`linePositions,
            this`start, this`end
    {
      lineWidth == width && lineMaterial == ropeMaterial && linePositions == Triggers(start, end)
    }

    ghost predicate ColliderLaidOut()
      reads this`colliderRadius, this`colliderHeight, this`width, this`start, this`end
    {
      colliderRadius == width && IsDistance(colliderHeight, start, end)
    }

    ghost predicate SpheresLaidOut()
      reads this`start, this`end, this`zipLinesCreated, this`sphereScale, this`width,
            this`zipLineStart, this`zipLineEnd, this`snapSpherePosition
    {
      !Approximately(start.y, end.y) ==>
        zipLinesCreated == 1 && sphereScale == width * 3.0 &&
        Triggers(zipLineStart, zipLineEnd) == ZipLineTriggers(start, end, snapSpherePosition)
    }

    /** AddComponent<RopeBehavior> on a fresh object: prefab defaults, nothing built. */
    constructor ()
      ensures width == 0.015 && snapSpherePosition == 0.05 && !validated
      ensures lineRenderers == 0 && rigidbodies == 0 && colliders == 0
      ensures grabInteractablesAdded == 0 && zipLinesCreated == 0
      ensures Cached()
    {
      width := 0.015;
      snapSpherePosition := 0.05;
      start, end := Zero, Zero;
      ropeMaterial, snapTriggerMaterial := None, None;
      validated := false;
      lineRenderers, rigidbodies, colliders := 0, 0, 0;
      grabInteractablesAdded, zipLinesCreated := 0, 0;
      lineWidth := 0.0;
      lineMaterial := None;
      linePositions := Triggers(Zero, Zero);
      colliderRadius, colliderHeight := 0.0, 0.0;
      position := Zero;
      sphereScale := 1.0;
      zipLineStart, zipLineEnd := Zero, Zero;
      zipLineStartMaterial := None;
    }

    /** Create: a new rope object set up with the given ends and materials. */
    static method Create(newStart: Vec3, newEnd: Vec3, material: Material, triggerMaterial: Material)
      returns (rb: RopeBehavior)
      ensures fresh(rb)
      ensures rb.start == newStart && rb.end == newEnd
      ensures rb.ropeMaterial == Some(material) && rb.snapTriggerMaterial == Some(triggerMaterial)
      ensures !rb.validated && rb.Cached()
      ensures rb.lineRenderers == 0 && rb.grabInteractablesAdded == 0 && rb.zipLinesCreated == 0
    {
      rb := new RopeBehavior();
      rb.Setup(newStart, newEnd, material, triggerMaterial);
    }

    /** Setup: store ends and materials, layout pending. */
    method Setup(newStart: Vec3, newEnd: Vec3, newMaterial: Material, newTriggerMaterial: Material)
      modifies this`start, this`end, this`ropeMaterial, this`snapTriggerMaterial, this`validated
      ensures start == newStart && end == newEnd
      ensures ropeMaterial == Some(newMaterial) && snapTriggerMaterial == Some(newTriggerMaterial)
      ensures !validated
    {
      start := newStart;
      end := newEnd;
      ropeMaterial := Some(newMaterial);
      snapTriggerMaterial := Some(newTriggerMaterial);
      validated := false;
    }

    /** UpdateLineRenderer: add the renderer once, then draw the rope with it. */
    method UpdateLineRenderer()
      modifies this`lineRenderers, this`lineWidth, this`lineMaterial, this`linePositions
      ensures lineRenderers == if old(lineRenderers) == 0 then 1 else old(lineRenderers)
      ensures lineWidth == width && lineMaterial == ropeMaterial && linePositions == Triggers(start, end)
    {
      if lineRenderers == 0 {
        lineRenderers := 1;
      }
      lineWidth := width;
      lineMaterial := ropeMaterial;
      linePositions := Triggers(start, end);
    }

    /** UpdateRigidBody: add a frozen rigidbody once. */
    method UpdateRigidBody()
      modifies this`rigidbodies
      ensures rigidbodies == if old(rigidbodies) == 0 then 1 else old(rigidbodies)
    {
      if rigidbodies == 0 {
        rigidbodies := 1;
      }
    }

    /** UpdateCollider: add the capsule once, then size it to the rope. */
    method UpdateCollider(dist: real)
      requires IsDistance(dist, start, end)
      modifies this`colliders, this`colliderRadius, this`colliderHeight
      ensures colliders == if old(colliders) == 0 then 1 else old(colliders)
      ensures colliderRadius == width && colliderHeight == dist
      ensures ColliderLaidOut()
    {
      if colliders == 0 {
        colliders := 1;
      }
      colliderRadius := width;
      colliderHeight := dist;
    }

    /** UpdateTransform: the rope sits at the midpoint of its ends. The spheres are
        children of the rope, so once they exist the engine carries them along with
        its new position and rotation; `carried` is where they end up, which depends
        on the rotation this model leaves out. */
    method UpdateTransform(carried: Triggers)
      modifies this`position, this`zipLineStart, this`zipLineEnd
      ensures position == Midpoint(start, end)
      ensures zipLinesCreated == 0 ==> zipLineStart == old(zipLineStart) && zipLineEnd == old(zipLineEnd)
      ensures zipLinesCreated != 0 ==> Triggers(zipLineStart, zipLineEnd) == carried
    {
      position := Scale(0.5, Add(start, end));
      if zipLinesCreated != 0 {
        zipLineStart, zipLineEnd := carried.start, carried.end;
      }
    }

    /** CreateZipLine: two spheres, the start one with the trigger material. */
    method CreateZipLine()
      modifies this`zipLinesCreated, this`zipLineStartMaterial
      ensures zipLinesCreated == old(zipLinesCreated) + 1
      ensures zipLineStartMaterial == snapTriggerMaterial
    {
      zipLinesCreated := zipLinesCreated + 1;
      zipLineStartMaterial := snapTriggerMaterial;
    }

    /** UpdateInteractions: `_grabInteractable` is never assigned, so every call adds
        another grab interactable; on a sloped rope the spheres are created if missing,
        scaled and placed; a flat rope leaves them untouched. */
    method UpdateInteractions()
      requires zipLinesCreated <= 1
      modifies this`grabInteractablesAdded, this`zipLinesCreated, this`zipLineStartMaterial,
               this`sphereScale, this`zipLineStart, this`zipLineEnd
      ensures grabInteractablesAdded == old(grabInteractablesAdded) + 1
      ensures !Approximately(start.y, end.y) ==>
                zipLinesCreated == (if old(zipLinesCreated) == 0 then 1 else old(zipLinesCreated)) &&
                sphereScale == width * 3.0 &&
                Triggers(zipLineStart, zipLineEnd) == ZipLineTriggers(start, end, snapSpherePosition)
      ensures Approximately(start.y, end.y) ==>
                zipLinesCreated == old(zipLinesCreated) && sphereScale == old(sphereScale) &&
                zipLineStart == old(zipLineStart) && zipLineEnd == old(zipLineEnd)
      ensures SpheresLaidOut() && zipLinesCreated <= 1
    {
      grabInteractablesAdded := grabInteractablesAdded + 1;
      if !Approximately(start.y, end.y) {
        if zipLinesCreated == 0 {
          CreateZipLine();
        }
        sphereScale := width * 3.0;
        var startTrigger := Add(Scale(1.0 - snapSpherePosition, start), Scale(snapSpherePosition, end));
        var endTrigger := Add(Scale(1.0 - snapSpherePosition, end), Scale(snapSpherePosition, start));
        zipLineStart := if start.y > end.y then startTrigger else endTrigger;
        zipLineEnd := if start.y > end.y then endTrigger else startTrigger;
      }
    }

    /** The first four steps of UpdateAll: renderer, rigidbody, collider, transform. */
    method UpdateComponents(dist: real, carried: Triggers)
      requires IsDistance(dist, start, end) && Cached()
      modifies this`lineRenderers, this`lineWidth, this`lineMaterial, this`linePositions,
               this`rigidbodies, this`colliders, this`colliderRadius, this`colliderHeight, this`position,
               this`zipLineStart, this`zipLineEnd
      ensures lineRenderers == 1 && rigidbodies == 1 && colliders == 1
      ensures LineLaidOut() && ColliderLaidOut() && position == Midpoint(start, end)
      ensures zipLinesCreated == 0 ==> zipLineStart == old(zipLineStart) && zipLineEnd == old(zipLineEnd)
      ensures zipLinesCreated != 0 ==> Triggers(zipLineStart, zipLineEnd) == carried
    {
      UpdateLineRenderer();
      UpdateRigidBody();
      UpdateCollider(dist);
      UpdateTransform(carried);
    }

    /** UpdateAll: every component, in RopeBehavior's order. */
    method UpdateAll(dist: real, carried: Triggers)
      requires IsDistance(dist, start, end) && Cached()
      modifies this`lineRenderers, this`lineWidth, this`lineMaterial, this`linePositions,
               this`rigidbodies, this`colliders, this`colliderRadius, this`colliderHeight, this`position
      modifies this`grabInteractablesAdded, this`zipLinesCreated, this`zipLineStartMaterial,
               this`sphereScale, this`zipLineStart, this`zipLineEnd
      ensures LaidOut() && Cached()
      ensures grabInteractablesAdded == old(grabInteractablesAdded) + 1
      ensures Approximately(start.y, end.y) ==> zipLinesCreated == old(zipLinesCreated)
      ensures Approximately(start.y, end.y) && old(zipLinesCreated) != 0 ==>
                Triggers(zipLineStart, zipLineEnd) == carried
    {
      UpdateComponents(dist, carried);
      UpdateInteractions();
    }

    /** Update: lay out once per change; a validated rope is left as it is. On a flat
        rope, spheres left from an earlier sloped layout stay where the rope's move
        carried them. */
    method Update(dist: real, carried: Triggers)
      requires IsDistance(dist, start, end) && Cached()
      requires validated ==> LaidOut()
      modifies this
      ensures validated && LaidOut() && Cached()
      ensures old(validated) ==> unchanged(this)
      ensures !old(validated) ==> grabInteractablesAdded == old(grabInteractablesAdded) + 1
      ensures !old(validated) && Approximately(start.y, end.y) && old(zipLinesCreated) != 0 ==>
                Triggers(zipLineStart, zipLineEnd) == carried
      ensures start == old(start) && end == old(end)
      ensures width == old(width) && snapSpherePosition == old(snapSpherePosition)
      ensures ropeMaterial == old(ropeMaterial) && snapTriggerMaterial == old(snapTriggerMaterial)
    {
      if validated {
        return;
      }
      UpdateAll(dist, carried);
      validated := true;
    }

    /** OnValidate: an inspector edit marks the layout pending. */
    method OnValidate()
      modifies this`validated
      ensures !validated
    {
      validated := false;
    }
  }
}
