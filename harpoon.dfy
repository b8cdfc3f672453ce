/** The harpoon (namespace Prefabs.Harpoon): a limited-grab interactable that places a
    rope in two shots, a start anchor then an end anchor, and the arrow socket that
    reloads it. Raycasts are given as `Option<Hit>`; sounds, particles and haptics are
    recorded as feedback events. */
module Harpoon {
  import opened Geometry
  import opened Interaction
  import opened LimitedGrab

  /** HarpoonBehavior.Stage. `Ready` is the C# `Stage.None`: nothing placed yet. */
  datatype Stage = Ready | StartPlaced | Done

  /** HarpoonBehavior.TargetType. `NoTarget` is the C# `TargetType.None`. */
  datatype TargetType = NoTarget | Invalid | Valid

  /** A raycast hit: the tag of the collider hit and the hit point. */
  datatype Hit = Hit(tag: string, point: Vec3)

  /** The two inspector tags that mark rope anchors. */
  datatype Tags = Tags(ropeStart: string, ropeEnd: string)

  /** Feedback the harpoon emits: sounds, particles and haptic impulses. */
  datatype Feedback = ValidTargetFeedback | InvalidTargetFeedback | StartPlacedFeedback
                    | RopePlacedFeedback | ItemEquippedFeedback

  datatype Sprite = ValidCrosshair | InvalidCrosshair | NoAmmo

  /** A rope the harpoon instantiated, by the endpoints given to RopeBehavior.ForceUpdate. */
  datatype RopeSpan = RopeSpan(start: Vec3, end: Vec3)

  /** IsValidTarget: the start tag is wanted before the start is placed, the end tag
      after it, and nothing once the harpoon is spent. */
  predicate IsValidTarget(tag: string, stage: Stage, tags: Tags)
    ensures IsValidTarget(tag, stage, tags) <==>
            (stage == Ready && tag == tags.ropeStart) || (stage == StartPlaced && tag == tags.ropeEnd)
    ensures stage == Done ==> !IsValidTarget(tag, stage, tags)
  {
    match stage
    case Ready => tag == tags.ropeStart
    case StartPlaced => tag == tags.ropeEnd
    case Done => false
  }

  /** The stage Start gives: ready with infinite ammunition, spent (waiting for an
      arrow) otherwise. */
  function InitialStage(infiniteAmmo: bool): (s: Stage)
    ensures s == Done <==> !infiniteAmmo
    ensures s != StartPlaced
  {
    if infiniteAmmo then Ready else Done
  }

  /** The stage after a rope has been placed. */
  function StageAfterRope(infiniteAmmo: bool): (s: Stage)
    ensures infiniteAmmo ==> s == Ready
    ensures !infiniteAmmo ==> s == Done
  {
    if infiniteAmmo then Ready else Done
  }

  /** The target type Update computes: none unless held and the ray hits something. */
  function NextTargetType(held: bool, hit: Option<Hit>, stage: Stage, tags: Tags): (t: TargetType)
    ensures t == NoTarget <==> !held || hit.None?
    ensures t == Valid <==> held && hit.Some? && IsValidTarget(hit.value.tag, stage, tags)
    ensures stage == Done ==> t != Valid
  {
    if held && hit.Some? then
      (if IsValidTarget(hit.value.tag, stage, tags) then Valid else Invalid)
    else NoTarget
  }

  /** The crosshair sprite Update selects: the no-ammo sprite exactly when the harpoon
      has finite ammunition and is spent; otherwise valid or invalid by target type. */
  function CrosshairSprite(infiniteAmmo: bool, stage: Stage, target: TargetType): (s: Sprite)
    ensures s == NoAmmo <==> !infiniteAmmo && stage == Done
    ensures s == ValidCrosshair <==> !(!infiniteAmmo && stage == Done) && target == Valid
  {
    if !infiniteAmmo && stage == Done then NoAmmo
    else if target == Valid then ValidCrosshair
    else InvalidCrosshair
  }

  /** The crosshair scale chosen with the sprite: large for no-ammo, small otherwise. */
  function CrosshairScale(sprite: Sprite): real {
    if sprite == NoAmmo then 0.025 else 0.005
  }

  /** The part of the harpoon a shot changes: stage, anchors and the ropes placed. */
  datatype Placement = Placement(stage: Stage, start: Vec3, end: Vec3, ropes: seq<RopeSpan>)

  /** The effect of Shoot on the placement. A miss or an invalid target changes
      nothing; a valid start anchor records the start; a valid end anchor records the
      end and places exactly one rope from the recorded start to it. */
  function Shot(p: Placement, hit: Option<Hit>, tags: Tags, infiniteAmmo: bool): (r: Placement)
    ensures hit.None? || !IsValidTarget(hit.value.tag, p.stage, tags) ==> r == p
    ensures |r.ropes| == |p.ropes| + (if hit.Some? && p.stage == StartPlaced && hit.value.tag == tags.ropeEnd then 1 else 0)
    ensures r.ropes[..|p.ropes|] == p.ropes
    ensures infiniteAmmo && p.stage != Done ==> r.stage != Done
    ensures p.stage == Done ==> r == p
  {
    if hit.None? || !IsValidTarget(hit.value.tag, p.stage, tags) then p
    else match p.stage
      case Ready => p.(stage := StartPlaced, start := hit.value.point)
      case StartPlaced =>
        p.(stage := StageAfterRope(infiniteAmmo), end := hit.value.point,
           ropes := p.ropes + [RopeSpan(p.start, hit.value.point)])
      case Done => p
  }

  /** A run of shots. */
  function Shots(p: Placement, hits: seq<Option<Hit>>, tags: Tags, infiniteAmmo: bool): Placement
    decreases |hits|
  {
    if hits == [] then p else Shots(Shot(p, hits[0], tags, infiniteAmmo), hits[1..], tags, infiniteAmmo)
  }

  /** From a ready harpoon, a start-tagged hit then an end-tagged hit place exactly one
      rope between the two hit points. */
  lemma TwoShotsPlaceOneRope(p: Placement, a: Vec3, b: Vec3, tags: Tags, infiniteAmmo: bool)
    requires p.stage == Ready
    ensures Shots(p, [Some(Hit(tags.ropeStart, a)), Some(Hit(tags.ropeEnd, b))], tags, infiniteAmmo) ==
            Placement(StageAfterRope(infiniteAmmo), a, b, p.ropes + [RopeSpan(a, b)])
  {
    var hits := [Some(Hit(tags.ropeStart, a)), Some(Hit(tags.ropeEnd, b))];
    var p1 := Shot(p, hits[0], tags, infiniteAmmo);
    assert p1 == p.(stage := StartPlaced, start := a);
    var p2 := Shot(p1, hits[1], tags, infiniteAmmo);
    assert p2 == Placement(StageAfterRope(infiniteAmmo), a, b, p.ropes + [RopeSpan(a, b)]);
    assert hits[1..][1..] == [];
    assert Shots(p1, hits[1..], tags, infiniteAmmo) == Shots(p2, [], tags, infiniteAmmo);
    assert Shots(p, hits, tags, infiniteAmmo) == Shots(p1, hits[1..], tags, infiniteAmmo);
  }

  /** With infinite ammunition the harpoon never becomes spent, whatever it shoots at. */
  lemma {:induction false} InfiniteAmmoNeverDone(p: Placement, hits: seq<Option<Hit>>, tags: Tags)
    requires p.stage != Done
    ensures Shots(p, hits, tags, true).stage != Done
    decreases |hits|
  {
    if hits != [] {
      InfiniteAmmoNeverDone(Shot(p, hits[0], tags, true), hits[1..], tags);
    }
  }

  /** Without infinite ammunition and without reloads, at most one rope is placed. */
  lemma {:induction false} FiniteAmmoPlacesAtMostOneRope(p: Placement, hits: seq<Option<Hit>>, tags: Tags)
    requires p.stage != Done
    ensures |Shots(p, hits, tags, false).ropes| <= |p.ropes| + 1
    ensures Shots(p, hits, tags, false).stage == Done ==> |Shots(p, hits, tags, false).ropes| == |p.ropes| + 1
    decreases |hits|
  {
    if hits != [] {
      var q := Shot(p, hits[0], tags, false);
      if q.stage == Done {
        DoneIsAbsorbing(q, hits[1..], tags);
      } else {
        FiniteAmmoPlacesAtMostOneRope(q, hits[1..], tags);
      }
    }
  }

  /** A spent harpoon ignores every shot. */
  lemma {:induction false} DoneIsAbsorbing(p: Placement, hits: seq<Option<Hit>>, tags: Tags)
    requires p.stage == Done
    ensures Shots(p, hits, tags, false) == p
    decreases |hits|
  {
    if hits != [] {
      DoneIsAbsorbing(Shot(p, hits[0], tags, false), hits[1..], tags);
    }
  }

  /** HarpoonBehavior (Assets/Scripts/Harpoon). */
  class HarpoonBehavior {
    /** The XRLimitedGrabInteractable this behaviour extends. */
    const grab: XRLimitedGrabInteractable
    const infiniteAmmo: bool
    const tags: Tags
    const arrowSocket: ArrowSocket

    var stage: Stage
    var targetType: TargetType
    var start: Vec3
    var end: Vec3

    var ropePreviewEnabled: bool
    /** The two positions of the rope preview line. */
    var previewLine: RopeSpan
    var arrowPreviewActive: bool
    var crosshairActive: bool
    var sprite: Option<Sprite>
    var crosshairScale: real

    /** Every rope instantiated, in order. */
    var ropes: seq<RopeSpan>
    /** Every feedback played, in order. */
    var feedback: seq<Feedback>

    /** With infinite ammunition the harpoon is never spent. */
    ghost predicate AmmoInvariant()
      reads this
    {
      infiniteAmmo ==> stage != Done
    }

    ghost function Placed(): Placement
      reads this
    {
      Placement(stage, start, end, ropes)
    }

    /** Field initialisers and Awake: stage None, no target, socket wired to this harpoon. */
    constructor (grab: XRLimitedGrabInteractable, infiniteAmmo: bool, tags: Tags)
      ensures this.grab == grab && this.infiniteAmmo == infiniteAmmo && this.tags == tags
      ensures fresh(arrowSocket) && arrowSocket.harpoon == this && arrowSocket.selected.None?
      ensures arrowSocket.arrowTag == "Arrow" && arrowSocket.destroyed == []
      ensures stage == Ready && targetType == NoTarget && ropes == [] && feedback == []
      ensures AmmoInvariant()
    {
      this.grab := grab;
      this.infiniteAmmo := infiniteAmmo;
      this.tags := tags;
      stage := Ready;
      targetType := NoTarget;
      start, end := Zero, Zero;
      ropePreviewEnabled := false;
      previewLine := RopeSpan(Zero, Zero);
      arrowPreviewActive := false;
      crosshairActive := false;
      sprite := None;
      crosshairScale := 0.005;
      ropes := [];
      feedback := [];
      arrowSocket := new ArrowSocket();
      new;
      arrowSocket.harpoon := this;
    }

    /** Start: the stage is None with infinite ammunition and Done otherwise; the rope
        preview line renderer is added (enabled, as a new component is). */
    method Start()
      modifies this
      ensures stage == InitialStage(infiniteAmmo)
      ensures ropePreviewEnabled
      ensures targetType == old(targetType) && start == old(start) && end == old(end)
      ensures ropes == old(ropes) && feedback == old(feedback)
      ensures crosshairActive && sprite == old(sprite) && crosshairScale == old(crosshairScale)
      ensures previewLine == old(previewLine) && arrowPreviewActive == old(arrowPreviewActive)
      ensures AmmoInvariant()
    {
      stage := InitialStage(infiniteAmmo);
      crosshairActive := true;
      ropePreviewEnabled := true;
    }

    /** Update: recompute the target type from the raycast, play valid-target feedback
        only on a transition into Valid, preview the rope while the start is placed,
        and select and show the crosshair. */
    method Update(hit: Option<Hit>)
      requires AmmoInvariant()
      modifies this
      ensures AmmoInvariant()
      ensures targetType == NextTargetType(grab.isHeld, hit, stage, tags)
      ensures feedback == old(feedback) +
                (if targetType == Valid && old(targetType) != Valid then [ValidTargetFeedback] else [])
      ensures sprite == Some(CrosshairSprite(infiniteAmmo, stage, targetType))
      ensures crosshairScale == CrosshairScale(sprite.value)
      ensures crosshairActive <==> targetType != NoTarget
      ensures stage == StartPlaced && grab.isHeld && hit.Some? ==>
                ropePreviewEnabled && previewLine == RopeSpan(start, hit.value.point)
      ensures stage == StartPlaced && !(grab.isHeld && hit.Some?) ==> !ropePreviewEnabled
      ensures stage != StartPlaced ==> ropePreviewEnabled == old(ropePreviewEnabled) && previewLine == old(previewLine)
      ensures Placed() == old(Placed()) && arrowPreviewActive == old(arrowPreviewActive)
    {
      var next := NoTarget;
      if grab.isHeld && hit.Some? {
        next := if IsValidTarget(hit.value.tag, stage, tags) then Valid else Invalid;
        if stage == StartPlaced {
          ropePreviewEnabled := true;
          previewLine := RopeSpan(start, hit.value.point);
        }
      } else if stage == StartPlaced {
        ropePreviewEnabled := false;
      }
      if next == Valid && targetType != Valid {
        feedback := feedback + [ValidTargetFeedback];
      }
      targetType := next;
      if !infiniteAmmo && stage == Done {
        crosshairScale := 0.025;
        sprite := Some(NoAmmo);
      } else {
        crosshairScale := 0.005;
        sprite := Some(if targetType == Valid then ValidCrosshair else InvalidCrosshair);
      }
      crosshairActive := targetType != NoTarget;
    }

    /** Reload (called by the arrow socket): back to stage None, previews hidden. */
    method Reload()
      modifies this
      ensures stage == Ready && !ropePreviewEnabled && !arrowPreviewActive
      ensures start == old(start) && end == old(end) && ropes == old(ropes) && feedback == old(feedback)
      ensures targetType == old(targetType)
      ensures crosshairActive == old(crosshairActive) && sprite == old(sprite) && crosshairScale == old(crosshairScale)
      ensures previewLine == old(previewLine)
      ensures AmmoInvariant()
    {
      stage := Ready;
      ropePreviewEnabled := false;
      arrowPreviewActive := false;
    }

    /** The selectEntered listeners: the base OnGrab and this class's OnGrab (which calls
        the base again, then plays the equip sound). */
    method OnSelectEntered(interactor: Interactor)
      modifies grab`isHeld, this
      ensures grab.isHeld == (if interactor.isSocket then old(grab.isHeld) else true)
      ensures feedback == old(feedback) + [ItemEquippedFeedback]
      ensures Placed() == old(Placed()) && targetType == old(targetType)
    {
      grab.OnGrab(interactor);
      grab.OnGrab(interactor);
      feedback := feedback + [ItemEquippedFeedback];
    }

    /** The selectExited listener: the base OnRelease. */
    method OnSelectExited(interactor: Interactor)
      modifies grab`isHeld
      ensures grab.isHeld == (if interactor.isSocket then old(grab.isHeld) else false)
    {
      grab.OnRelease(interactor);
    }

    /** Shoot: see Shot. A miss or invalid target plays the invalid sound; a start hit
        plays the start feedback; an end hit plays the rope feedback, places the rope,
        destroys the socketed arrow and shows the arrow preview. */
    method Shoot(hit: Option<Hit>)
      requires AmmoInvariant()
      modifies this, arrowSocket
      ensures AmmoInvariant()
      ensures Placed() == Shot(old(Placed()), hit, tags, infiniteAmmo)
      ensures hit.None? || !IsValidTarget(hit.value.tag, old(stage), tags) ==>
                feedback == old(feedback) + [InvalidTargetFeedback] &&
                ropePreviewEnabled == old(ropePreviewEnabled) &&
                arrowPreviewActive == old(arrowPreviewActive) &&
                arrowSocket.destroyed == old(arrowSocket.destroyed)
      ensures hit.Some? && IsValidTarget(hit.value.tag, old(stage), tags) && old(stage) == Ready ==>
                feedback == old(feedback) + [StartPlacedFeedback] && !ropePreviewEnabled &&
                arrowPreviewActive == old(arrowPreviewActive) &&
                arrowSocket.destroyed == old(arrowSocket.destroyed)
      ensures hit.Some? && IsValidTarget(hit.value.tag, old(stage), tags) && old(stage) == StartPlaced ==>
                feedback == old(feedback) + [RopePlacedFeedback] && !ropePreviewEnabled &&
                arrowPreviewActive &&
                arrowSocket.destroyed == old(arrowSocket.destroyed) +
                  (if old(arrowSocket.selected).Some? then [old(arrowSocket.selected).value] else [])
      ensures targetType == old(targetType)
      ensures crosshairActive == old(crosshairActive) && sprite == old(sprite) && crosshairScale == old(crosshairScale)
      ensures previewLine == old(previewLine)
      ensures arrowSocket.selected == old(arrowSocket.selected) && arrowSocket.harpoon == old(arrowSocket.harpoon)
    {
      if hit.None? || !IsValidTarget(hit.value.tag, stage, tags) {
        feedback := feedback + [InvalidTargetFeedback];
        return;
      }
      ropePreviewEnabled := false;
      match stage
      case Ready =>
        start := hit.value.point;
        stage := StartPlaced;
        feedback := feedback + [StartPlacedFeedback];
      case StartPlaced =>
        end := hit.value.point;
        stage := StageAfterRope(infiniteAmmo);
        feedback := feedback + [RopePlacedFeedback];
        ropes := ropes + [RopeSpan(start, end)];
        arrowSocket.DestroyArrow();
        arrowPreviewActive := true;
      case Done =>
    }

    /** OnTriggerPressed: shoot only while held. */
    method OnTriggerPressed(hit: Option<Hit>)
      requires AmmoInvariant()
      modifies this, arrowSocket
      ensures AmmoInvariant()
      ensures !grab.isHeld ==> unchanged(this) && unchanged(arrowSocket)
      ensures grab.isHeld ==> Placed() == Shot(old(Placed()), hit, tags, infiniteAmmo)
      ensures grab.isHeld && (hit.None? || !IsValidTarget(hit.value.tag, old(stage), tags)) ==>
                feedback == old(feedback) + [InvalidTargetFeedback] &&
                ropePreviewEnabled == old(ropePreviewEnabled) &&
                arrowPreviewActive == old(arrowPreviewActive) &&
                arrowSocket.destroyed == old(arrowSocket.destroyed)
      ensures grab.isHeld && hit.Some? && IsValidTarget(hit.value.tag, old(stage), tags) && old(stage) == Ready ==>
                feedback == old(feedback) + [StartPlacedFeedback] && !ropePreviewEnabled &&
                arrowPreviewActive == old(arrowPreviewActive) &&
                arrowSocket.destroyed == old(arrowSocket.destroyed)
      ensures grab.isHeld && hit.Some? && IsValidTarget(hit.value.tag, old(stage), tags) && old(stage) == StartPlaced ==>
                feedback == old(feedback) + [RopePlacedFeedback] && !ropePreviewEnabled &&
                arrowPreviewActive &&
                arrowSocket.destroyed == old(arrowSocket.destroyed) +
                  (if old(arrowSocket.selected).Some? then [old(arrowSocket.selected).value] else [])
      ensures grab.isHeld ==>
                targetType == old(targetType) &&
                crosshairActive == old(crosshairActive) && sprite == old(sprite) &&
                crosshairScale == old(crosshairScale) && previewLine == old(previewLine) &&
                arrowSocket.selected == old(arrowSocket.selected) && arrowSocket.harpoon == old(arrowSocket.harpoon)
    {
      if !grab.isHeld {
        return;
      }
      Shoot(hit);
    }
  }

  /** An interactable offered to the socket: its identity and its tag. */
  datatype Interactable = Interactable(id: nat, tag: string)

  /** ArrowSocket: an XR socket that accepts only arrows and reloads the harpoon. */
  class ArrowSocket {
    var harpoon: HarpoonBehavior?
    var arrowTag: string
    /** `_selectedInteractable`: the last arrow accepted. */
    var selected: Option<nat>
    /** Interactables the base XRSocketInteractor selected, in order. */
    var baseSelections: seq<nat>
    /** Destroy requests issued by DestroyArrow, in order. */
    var destroyed: seq<nat>

    constructor ()
      ensures harpoon == null && arrowTag == "Arrow" && selected.None?
      ensures baseSelections == [] && destroyed == []
    {
      harpoon := null;
      arrowTag := "Arrow";
      selected := None;
      baseSelections := [];
      destroyed := [];
    }

    /** OnSelectEntered: an arrow is selected by the base socket, reloads the harpoon
        and replaces the remembered arrow; anything else is ignored entirely. */
    method OnSelectEntered(interactable: Interactable)
      requires harpoon != null
      modifies this, harpoon
      ensures harpoon == old(harpoon) && arrowTag == old(arrowTag) && destroyed == old(destroyed)
      ensures interactable.tag != arrowTag ==> unchanged(this) && unchanged(harpoon)
      ensures interactable.tag == arrowTag ==>
                selected == Some(interactable.id) &&
                baseSelections == old(baseSelections) + [interactable.id] &&
                harpoon.stage == Ready && harpoon.AmmoInvariant() &&
                harpoon.ropes == old(harpoon.ropes) && harpoon.start == old(harpoon.start) &&
                harpoon.end == old(harpoon.end) && harpoon.targetType == old(harpoon.targetType) &&
                harpoon.feedback == old(harpoon.feedback) &&
                !harpoon.ropePreviewEnabled && !harpoon.arrowPreviewActive &&
                harpoon.crosshairActive == old(harpoon.crosshairActive) && harpoon.sprite == old(harpoon.sprite) &&
                harpoon.crosshairScale == old(harpoon.crosshairScale) && harpoon.previewLine == old(harpoon.previewLine)
    {
      if interactable.tag == arrowTag {
        baseSelections := baseSelections + [interactable.id];
        harpoon.Reload();
        selected := Some(interactable.id);
      }
    }

    /** DestroyArrow: request destruction of the remembered arrow, if any. The arrow is
        not forgotten afterwards. */
    method DestroyArrow()
      modifies this`destroyed
      ensures destroyed == old(destroyed) + (if selected.Some? then [selected.value] else [])
    {
      if selected.Some? {
        destroyed := destroyed + [selected.value];
      }
    }
  }
}
