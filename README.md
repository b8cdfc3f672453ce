# EchoVR gameplay rules in Dafny

EchoVR is a Unity VR climbing game. Its C# behaviours hide a number of small deterministic
rule sets behind the engine's callbacks. This project models those rule sets and proves what
they promise. Each behaviour is a Dafny `class` whose fields are the component's state and
whose methods are its engine callbacks (`Start`, `Update`, `OnSelectEntered`,
`OnSelectExited`, `Shoot`, `Reload` and so on). The engine's queries are parameters of those
methods: raycast hits, `Vector3.Distance`, transforms found by tag, controller velocities and
the climb provider's locomotion state. The rule sets are:

- The **harpoon**, which places a rope in two shots. Its stage runs None → StartPlaced →
  None/Done and is checked against the start and end tags. It also has a crosshair and an
  arrow socket that reloads it. Two revisions exist (`Harpoon`, `HarpoonPrefab`).
- The **limited-grab interactable** and the **max-distance select filter**. They apply
  distance gates and keep a held flag that socket interactors do not change.
- The **rope**. It is laid out from its two ends: midpoint, collider height and the zipline
  trigger spheres, with the start sphere next to the higher end. A dirty flag caches the
  layout. Two revisions exist; the older one adds engine components lazily.
- The **zipline handle**. It has a left and a right hand slot, attaches the player when both
  are held, and runs a triggered/running animation latch along an eased curve. Three
  revisions exist.
- **Hand snapping**. It collects the snapping points tagged on the object, picks the closest
  pose (the first one wins a tie), then aligns the hand model and resets it later. Three
  revisions exist, plus the `ControllerTracking` record they share.
- **Checkpoints**: the spawn-point register, the fade-out / move / fade-in teleport
  coroutine and the one-shot activation.
- **Cooking**: the steak that can start cooking only once.
- The guitar **proximity detector**: a strict box test plus enter and exit callbacks.
- **Climbing momentum**: detecting the end of a climb, choosing the faster hand, and
  decaying the push.

Some general conventions apply throughout:

- Vectors are triples of `real`. Distances are compared through their squares.
- Where a script needs a length, it receives it as a parameter `dist`, constrained by
  `IsDistance` (`dist ≥ 0` and `dist² = SqDist`).
- A coroutine becomes a record of the phase it has reached. A `Resume…` method advances
  that record.
- A NullReferenceException on a missing reference is recorded in a `faulted` flag.
- Calls into components whose code is not modelled are appended to an event log.

## Model

| member | source | states |
|---|---|---|
| Harpoon.IsValidTarget | Assets/Scripts/Harpoon/HarpoonBehavior.cs:291-303 | a hit is valid iff its tag is the start tag while nothing is placed or the end tag while the start is placed; nothing is valid once spent |
| Harpoon.InitialStage | Assets/Scripts/Harpoon/HarpoonBehavior.cs:180-182 | Start leaves the harpoon spent exactly when ammunition is finite, and never half-placed |
| Harpoon.StageAfterRope | Assets/Scripts/Harpoon/HarpoonBehavior.cs:386-394 | after a rope the harpoon is ready again with infinite ammunition and spent otherwise |
| Harpoon.NextTargetType | Assets/Scripts/Harpoon/HarpoonBehavior.cs:215-253 | no target iff not held or the ray misses; valid iff held, hit and the tag is valid for the stage; never valid when spent |
| Harpoon.CrosshairSprite | Assets/Scripts/Harpoon/HarpoonBehavior.cs:256-271 | the no-ammo sprite iff ammunition is finite and the stage is Done; the valid sprite iff otherwise the target is valid |
| Harpoon.Shot | Assets/Scripts/Harpoon/HarpoonBehavior.cs:361-400 | a miss or invalid target changes nothing; exactly one rope is added when the end is hit from StartPlaced and earlier ropes are kept; infinite ammunition never reaches Done; a spent harpoon ignores shots |
| Harpoon.TwoShotsPlaceOneRope | Assets/Scripts/Harpoon/HarpoonBehavior.cs:380-394 | from a ready harpoon, a start hit then an end hit place one rope between the two hit points and leave the stage StageAfterRope |
| Harpoon.InfiniteAmmoNeverDone | Assets/Scripts/Harpoon/HarpoonBehavior.cs:386-394 | with infinite ammunition no sequence of shots makes the harpoon spent |
| Harpoon.FiniteAmmoPlacesAtMostOneRope | Assets/Scripts/Harpoon/HarpoonBehavior.cs:361-400 | with finite ammunition and no reload, any sequence of shots places at most one rope, and exactly one once spent |
| Harpoon.DoneIsAbsorbing | Assets/Scripts/Harpoon/HarpoonBehavior.cs:361-372 | a spent harpoon is unchanged by any sequence of shots |
| Harpoon.HarpoonBehavior.constructor | Assets/Scripts/Harpoon/HarpoonBehavior.cs:201-206 | stage None, no target, no ropes, and an arrow socket wired to this harpoon with tag "Arrow" |
| Harpoon.HarpoonBehavior.Start | Assets/Scripts/Harpoon/HarpoonBehavior.cs:180-194 | the stage becomes InitialStage, the new crosshair object is active and the rope preview is enabled; target type, anchors, ropes, feedback, crosshair sprite and scale, preview line and arrow preview are unchanged |
| Harpoon.HarpoonBehavior.Update | Assets/Scripts/Harpoon/HarpoonBehavior.cs:215-272 | the target type is NextTargetType; valid-target feedback only on entering Valid; the crosshair is shown iff there is a target; the sprite and scale follow CrosshairSprite; the preview follows the hit only in StartPlaced; placement untouched |
| Harpoon.HarpoonBehavior.Reload | Assets/Scripts/Harpoon/HarpoonBehavior.cs:278-283 | back to stage None with previews hidden, keeping anchors, ropes, feedback, target type, crosshair and preview line, and the ammunition invariant |
| Harpoon.HarpoonBehavior.OnSelectEntered | Assets/Scripts/Harpoon/HarpoonBehavior.cs:333-337 | a non-socket grab sets the held flag (a socket leaves it) and the equip feedback plays |
| Harpoon.HarpoonBehavior.OnSelectExited | Assets/Scripts/Other/XRLimitedGrabInteractable.cs:105-112 | a non-socket release clears the held flag; a socket release leaves it |
| Harpoon.HarpoonBehavior.Shoot | Assets/Scripts/Harpoon/HarpoonBehavior.cs:361-400 | the placement moves exactly as Shot says: a miss leaves stage and anchors; a start hit records the start; an end hit records the end, places the rope and destroys the socketed arrow; the feedback played and the preview states per case; target type, crosshair and preview line unchanged |
| Harpoon.HarpoonBehavior.OnTriggerPressed | Assets/Scripts/Harpoon/HarpoonBehavior.cs:344-352 | nothing changes unless held; when held, everything Shoot promises: the placement as Shot says, the feedback, preview and arrow-destroy effects per case, and the crosshair and target type kept |
| Harpoon.ArrowSocket.constructor | Assets/Scripts/Harpoon/ArrowSocket.cs:25-31 | the default arrow tag is "Arrow" and nothing is selected |
| Harpoon.ArrowSocket.OnSelectEntered | Assets/Scripts/Harpoon/ArrowSocket.cs:40-49 | an interactable without the arrow tag changes nothing; an arrow is selected by the base socket, reloads the harpoon (stage None, both previews hidden, anchors, ropes, target type, feedback and crosshair kept) and replaces the remembered selection |
| Harpoon.ArrowSocket.DestroyArrow | Assets/Scripts/Harpoon/ArrowSocket.cs:56-62 | destruction is requested for the remembered arrow, and for nothing when none was accepted |
| HarpoonPrefab.HarpoonBehavior.constructor | Assets/Prefabs/Harpoon/HarpoonBehavior.cs:27-33 | stage None regardless of ammunition, no target, not held, no ropes |
| HarpoonPrefab.HarpoonBehavior.IsTooFar | Assets/Prefabs/Harpoon/HarpoonBehavior.cs:121-124 | too far iff the distance exceeds the grab radius, decided exactly on squared distances |
| HarpoonPrefab.HarpoonBehavior.IsSelectableBy | Assets/Prefabs/Harpoon/HarpoonBehavior.cs:140-143 | selectable iff within the grab radius and the base allows it |
| HarpoonPrefab.HarpoonBehavior.IsHoverableBy | Assets/Prefabs/Harpoon/HarpoonBehavior.cs:145-148 | hoverable iff not held, within the radius and the base allows it; a held harpoon never is |
| HarpoonPrefab.HarpoonBehavior.OnGrab | Assets/Prefabs/Harpoon/HarpoonBehavior.cs:166-169 | held after a grab |
| HarpoonPrefab.HarpoonBehavior.OnRelease | Assets/Prefabs/Harpoon/HarpoonBehavior.cs:171-174 | not held after a release |
| HarpoonPrefab.HarpoonBehavior.Update | Assets/Prefabs/Harpoon/HarpoonBehavior.cs:71-119 | the target type is NextTargetType; the crosshair is active iff Valid or Invalid with the matching sprite; the line previews only in StartPlaced; placement, held flag and position untouched |
| HarpoonPrefab.HarpoonBehavior.Shoot | Assets/Prefabs/Harpoon/HarpoonBehavior.cs:183-206 | the preview line is always discarded, then the placement moves as Shot says (Done absorbing, no reload); held flag, target type, position, crosshair, line positions and renderer count unchanged |
| HarpoonPrefab.HarpoonBehavior.OnTriggerPressed | Assets/Prefabs/Harpoon/HarpoonBehavior.cs:176-181 | nothing changes unless held; otherwise everything Shoot promises, including its frame |
| LimitedGrab.XRLimitedGrabInteractable.constructor | Assets/Scripts/Other/XRLimitedGrabInteractable.cs:18-23 | grab radius 1 and not held |
| LimitedGrab.XRLimitedGrabInteractable.IsTooFar | Assets/Scripts/Other/XRLimitedGrabInteractable.cs:83-86 | too far iff distance > radius, so exactly at the radius is in range |
| LimitedGrab.XRLimitedGrabInteractable.IsSelectableBy | Assets/Scripts/Other/XRLimitedGrabInteractable.cs:54-57 | selectable iff not too far and the base allows it |
| LimitedGrab.XRLimitedGrabInteractable.IsHoverableBy | Assets/Scripts/Other/XRLimitedGrabInteractable.cs:69-72 | hoverable iff not held, not too far and the base allows it; hoverable implies in range |
| LimitedGrab.XRLimitedGrabInteractable.OnGrab | Assets/Scripts/Other/XRLimitedGrabInteractable.cs:92-99 | a non-socket grab sets the held flag; a socket grab leaves it |
| LimitedGrab.XRLimitedGrabInteractable.OnRelease | Assets/Scripts/Other/XRLimitedGrabInteractable.cs:105-112 | a non-socket release clears the held flag; a socket release leaves it |
| MaxDistanceFilter.ClampDistance | Assets/Prefabs/Harpoon/MaxDistanceHoverFilter.cs:21 | the result lies in [0, float.MaxValue], equals the input inside that range, and is 0 below it |
| MaxDistanceFilter.ClampDistanceIdempotent | Assets/Prefabs/Harpoon/MaxDistanceHoverFilter.cs:19-22 | validating twice is the same as validating once |
| MaxDistanceFilter.MaxDistanceSelectFilter.constructor | Assets/Prefabs/Harpoon/MaxDistanceHoverFilter.cs:10 | stores the inspector's maximum distance |
| MaxDistanceFilter.MaxDistanceSelectFilter.CanProcess | Assets/Prefabs/Harpoon/MaxDistanceHoverFilter.cs:12 | the filter always processes |
| MaxDistanceFilter.MaxDistanceSelectFilter.Process | Assets/Prefabs/Harpoon/MaxDistanceHoverFilter.cs:14-17 | passes iff the interactor–interactable distance is at most MaxDistance, decided on squared distances |
| MaxDistanceFilter.MaxDistanceSelectFilter.OnValidate | Assets/Prefabs/Harpoon/MaxDistanceHoverFilter.cs:19-22 | afterwards MaxDistance ≥ 0, and a value already in range is unchanged |
| Interaction.AfterSelectEntered | Assets/Scripts/Rope/ZipLineHandleBehavior.cs:94-101 | a select fills only an empty slot of its own hand, changes at most one slot and never replaces a held one |
| Interaction.AfterSelectExited | Assets/Scripts/Rope/ZipLineHandleBehavior.cs:113-121 | an exit empties the slot of its hand and keeps the other; after a hand exits both are never filled |
| Interaction.SelectThenExitRestores | Assets/Scripts/Rope/ZipLineHandleBehavior.cs:90-127 | a hand that takes its empty slot and then exits leaves the slots as they were |
| Interaction.BothHandsAttach | Assets/Scripts/Rope/ZipLineHandleBehavior.cs:94-106 | a left and a right hand fill both slots in either order, and one hand alone never does |
| Rope.Upper | Assets/Scripts/Rope/RopeBehavior.cs:113-119 | one of the two ends, at least as high as both |
| Rope.Lower | Assets/Scripts/Rope/RopeBehavior.cs:113-119 | one of the two ends, at most as high as both |
| Rope.ZipLineTriggers | Assets/Scripts/Rope/RopeBehavior.cs:111-119 | the start trigger is snapSpherePosition of the way from the higher end, the end trigger the same fraction from the lower end |
| Rope.TriggersIgnoreDirection | Assets/Scripts/Rope/RopeBehavior.cs:113-119 | swapping the rope's ends gives the same triggers on a sloped rope |
| Rope.StartTriggerNotLower | Assets/Scripts/Rope/RopeBehavior.cs:111-119 | with snapSpherePosition ≤ 0.5 the start trigger is never below the end trigger, and strictly above it on a sloped rope below 0.5 |
| Rope.TriggersOnRope | Assets/Scripts/Rope/RopeBehavior.cs:111-119 | both triggers lie on the rope for a fraction in [0, 1] |
| Rope.MixOnSegment | Assets/Scripts/Rope/RopeBehavior.cs:113-114 | the unclamped blend is Lerp and on the segment |
| Rope.MidpointHalfway | Assets/Scripts/Rope/RopeBehavior.cs:100 | the rope's position is half its length from each end |
| Rope.RopeBehavior.constructor | Assets/Scripts/Rope/RopeBehavior.cs:10-58 | width 0.015, snap position 0.05, not validated |
| Rope.RopeBehavior.ForceUpdate | Assets/Scripts/Rope/RopeBehavior.cs:71-76 | new ends and the layout marked stale |
| Rope.RopeBehavior.OnValidate | Assets/Scripts/Rope/RopeBehavior.cs:166-169 | the layout is marked stale |
| Rope.RopeBehavior.UpdateLineVisuals | Assets/Scripts/Rope/RopeBehavior.cs:81-84 | the cylinder is width wide and half the rope's length tall |
| Rope.RopeBehavior.UpdateCollider | Assets/Scripts/Rope/RopeBehavior.cs:89-93 | collider radius = width, height = the rope's length |
| Rope.RopeBehavior.UpdateTransform | Assets/Scripts/Rope/RopeBehavior.cs:98-102 | the rope sits at the midpoint of its ends |
| Rope.RopeBehavior.UpdateInteractions | Assets/Scripts/Rope/RopeBehavior.cs:108-134 | on a sloped rope the trigger spheres are placed by ZipLineTriggers and keep their previous activity (nothing re-activates spheres switched off while the rope was flat); on a flat rope both are deactivated and stay where they were |
| Rope.RopeBehavior.UpdateAll | Assets/Scripts/Rope/RopeBehavior.cs:140-146 | the whole layout holds and the ends and inspector values are kept |
| Rope.RopeBehavior.Update | Assets/Scripts/Rope/RopeBehavior.cs:153-160 | afterwards validated and laid out; an already validated rope is left entirely unchanged |
| Rope.RopeBehavior.GetStartPoint | Assets/Scripts/Rope/RopeBehavior.cs:175-178 | on a laid-out sloped rope, the start trigger's position from ZipLineTriggers |
| Rope.RopeBehavior.GetEndPoint | Assets/Scripts/Rope/RopeBehavior.cs:186-189 | on a laid-out sloped rope, the end trigger's position from ZipLineTriggers |
| RopePrefab.RopeBehavior.constructor | Assets/Prefabs/Rope/RopeBehavior.cs:12-19 | width 0.015, snap position 0.05, no components yet |
| RopePrefab.RopeBehavior.Create | Assets/Prefabs/Rope/RopeBehavior.cs:29-35 | a fresh rope holding the ends and both materials, stale, with no components yet |
| RopePrefab.RopeBehavior.Setup | Assets/Prefabs/Rope/RopeBehavior.cs:36-43 | stores ends and materials and marks the layout stale |
| RopePrefab.RopeBehavior.UpdateLineRenderer | Assets/Prefabs/Rope/RopeBehavior.cs:45-58 | the renderer is added only if missing; the line runs from start to end with the rope's width and material |
| RopePrefab.RopeBehavior.UpdateRigidBody | Assets/Prefabs/Rope/RopeBehavior.cs:60-69 | the rigidbody is added only if missing |
| RopePrefab.RopeBehavior.UpdateCollider | Assets/Prefabs/Rope/RopeBehavior.cs:71-80 | the collider is added only if missing and sized to width and length |
| RopePrefab.RopeBehavior.UpdateTransform | Assets/Prefabs/Rope/RopeBehavior.cs:82-86 | the rope sits at the midpoint of its ends; existing spheres, being its children, are carried to the positions the move gives them; without spheres they stay put |
| RopePrefab.RopeBehavior.CreateZipLine | Assets/Prefabs/Rope/RopeBehavior.cs:141-153 | one more pair of spheres, the start one with the trigger material |
| RopePrefab.RopeBehavior.UpdateInteractions | Assets/Prefabs/Rope/RopeBehavior.cs:88-115 | every call adds another grab interactable; a sloped rope gets its spheres created once, scaled to 3 × width and placed by ZipLineTriggers; on a flat rope this step does not touch them, so they stay where UpdateTransform carried them |
| RopePrefab.RopeBehavior.UpdateComponents | Assets/Prefabs/Rope/RopeBehavior.cs:117-124 | exactly one renderer, rigidbody and collider, all laid out to the rope; existing spheres carried with the rope |
| RopePrefab.RopeBehavior.UpdateAll | Assets/Prefabs/Rope/RopeBehavior.cs:117-124 | the full layout holds with each cached component created at most once; on a flat rope no spheres are created and existing ones keep their carried positions |
| RopePrefab.RopeBehavior.Update | Assets/Prefabs/Rope/RopeBehavior.cs:127-134 | afterwards validated and laid out; a validated rope is unchanged; otherwise one more grab interactable, and spheres on a re-laid-out flat rope sit where the rope carried them; ends, width, snap fraction and materials always kept |
| RopePrefab.RopeBehavior.OnValidate | Assets/Prefabs/Rope/RopeBehavior.cs:136-139 | the layout is marked stale |
| ZipLineAnimation.EasePosition | Assets/Scripts/Rope/ZipLineHandleBehavior.cs:73-76 | the curve maps 0 to 0 and 1 to 1 |
| ZipLineAnimation.EaseRange | Assets/Scripts/Rope/ZipLineHandleBehavior.cs:73-76 | the curve maps [0, 1] into [0, 1] |
| ZipLineAnimation.EaseIncreasing | Assets/Scripts/Rope/ZipLineHandleBehavior.cs:73-76 | the curve is strictly increasing from −1 on |
| ZipLineAnimation.TimeFraction | Assets/Scripts/Rope/ZipLineHandleBehavior.cs:45-47 | always in [0, 1]; 0 before the start and 1 after the duration; elapsed ÷ duration in between |
| ZipLineAnimation.AnimationDuration | Assets/Scripts/Rope/ZipLineHandleBehavior.cs:65-71 | five times the duration is the trigger distance, so the ride runs at five units per second |
| ZipLineAnimation.HandleOnRope | Assets/Scripts/Rope/ZipLineHandleBehavior.cs:42-51 | the handle always lies on the segment between the rope's trigger points |
| ZipLineAnimation.HandleEndpoints | Assets/Scripts/Rope/ZipLineHandleBehavior.cs:42-51 | a ride starts on the start point and rests on the end point once its time is up |
| ZipLineAnimation.HandleProgresses | Assets/Scripts/Rope/ZipLineHandleBehavior.cs:45-51 | later in the ride the handle is never farther back |
| ZipLineAnimation.HandleMovesAway | Assets/Scripts/Rope/ZipLineHandleBehavior.cs:45-51 | for one ride (same start time and duration), a later frame puts the handle no nearer the rope's start trigger |
| ZipLineAnimation.FrameLatch | Assets/Scripts/Rope/ZipLineHandleBehavior.cs:23-35 | a ride starts only if triggered and not running and consumes the trigger; an unfinished ride goes on; a finished ride stops, and restarts in the same frame only in the revision that does not return |
| ZipLineAnimation.RevisionsDifferOnRetrigger | Assets/Prefabs/ZipLineHandle/ZipLineHandleBehavior.cs:42-57 | on a trigger pending when a ride finishes, the newer handle consumes it and marks a ride running in the same frame while the older one returns first and leaves it pending; both destroy the component in that frame, so no second ride runs in either |
| ZipLineHandle.ZipLineHandleBehavior.constructor | Assets/Scripts/Rope/ZipLineHandleBehavior.cs:9-20 | empty slots, idle latch, detached, climbing enabled |
| ZipLineHandle.ZipLineHandleBehavior.ForceUpdate | Assets/Scripts/Rope/ZipLineHandleBehavior.cs:78-88 | the new rope and pivot position, and only the parent's yaw |
| ZipLineHandle.ZipLineHandleBehavior.AttachPlayer | Assets/Scripts/Rope/ZipLineHandleBehavior.cs:129-141 | attached and ride requested; with an "Origin" object the controller found on it (possibly none, only warned about) is kept and climbing is disabled; without one the lookup throws, so `faulted` is set and climbing stays as it was |
| ZipLineHandle.ZipLineHandleBehavior.DetachPlayer | Assets/Scripts/Rope/ZipLineHandleBehavior.cs:143-147 | detached, climbing enabled |
| ZipLineHandle.ZipLineHandleBehavior.OnSelectEntered | Assets/Scripts/Rope/ZipLineHandleBehavior.cs:90-107 | slots move by AfterSelectEntered; once both slots are filled the player is attached as AttachPlayer says, Origin fault included; otherwise nothing else changes |
| ZipLineHandle.ZipLineHandleBehavior.OnSelectExited | Assets/Scripts/Rope/ZipLineHandleBehavior.cs:109-127 | slots move by AfterSelectExited; the player is detached whenever a slot is empty |
| ZipLineHandle.ZipLineHandleBehavior.TriggerAnimation | Assets/Scripts/Rope/ZipLineHandleBehavior.cs:65-71 | running, trigger cleared, started now, lasting AnimationDuration of the trigger distance |
| ZipLineHandle.ZipLineHandleBehavior.UpdateAnimation | Assets/Scripts/Rope/ZipLineHandleBehavior.cs:42-62 | the handle moves to its eased place on the rope; an attached player is moved by the same displacement and a detached one not at all; reports whether the time is up; an attached player without a controller throws before anything moves |
| ZipLineHandle.ZipLineHandleBehavior.Update | Assets/Scripts/Rope/ZipLineHandleBehavior.cs:23-35 | the latch advances by FrameLatch without returning; the handle follows HandlePosition and carries an attached player; a finished ride releases constraints and destroys the component; the ride timing changes exactly when the trigger is consumed; slots, attachment, controller, climbing flag and yaw never change; a ride whose move throws changes nothing but `faulted`, every frame |
| ZipLineHandle.RideMovesForward | Assets/Scripts/Rope/ZipLineHandleBehavior.cs:23-62 | two Update frames of a ride not over at the first leave the handle no nearer the start trigger on the second |
| ZipLineHandlePrefab.ZipLineHandleBehavior.constructor | Assets/Prefabs/ZipLineHandle/ZipLineHandleBehavior.cs:9-20 | empty slots, idle latch, detached, climbing enabled |
| ZipLineHandlePrefab.ZipLineHandleBehavior.ForceUpdate | Assets/Prefabs/ZipLineHandle/ZipLineHandleBehavior.cs:65-71 | the new rope and the pivot's full position and rotation |
| ZipLineHandlePrefab.ZipLineHandleBehavior.AttachPlayer | Assets/Prefabs/ZipLineHandle/ZipLineHandleBehavior.cs:112-118 | attached and ride requested; with an "Origin" object the controller found on it (possibly none) is kept and climbing is disabled; without one the lookup throws, so `faulted` is set and climbing stays as it was |
| ZipLineHandlePrefab.ZipLineHandleBehavior.DetachPlayer | Assets/Prefabs/ZipLineHandle/ZipLineHandleBehavior.cs:120-124 | detached, climbing enabled |
| ZipLineHandlePrefab.ZipLineHandleBehavior.OnSelectEntered | Assets/Prefabs/ZipLineHandle/ZipLineHandleBehavior.cs:73-90 | slots move by AfterSelectEntered; once both are filled the player is attached as AttachPlayer says, Origin fault included; otherwise nothing else changes |
| ZipLineHandlePrefab.ZipLineHandleBehavior.OnSelectExited | Assets/Prefabs/ZipLineHandle/ZipLineHandleBehavior.cs:92-110 | slots move by AfterSelectExited; detach whenever a slot is empty |
| ZipLineHandlePrefab.ZipLineHandleBehavior.Update | Assets/Prefabs/ZipLineHandle/ZipLineHandleBehavior.cs:22-63 | the latch advances by FrameLatch with a return on finishing; the handle follows HandlePosition and carries an attached player; a finished ride releases and destroys; the ride timing changes exactly when the trigger is consumed; slots, attachment, controller, climbing flag and rotation never change; a ride whose move throws changes nothing but `faulted`, every frame |
| ZipLineHandlePrefab.RideMovesForward | Assets/Prefabs/ZipLineHandle/ZipLineHandleBehavior.cs:22-58 | two Update frames of a ride not over at the first leave the handle no nearer the start trigger on the second |
| ZipLineHarpoonHandle.ZiplineHandle.constructor | Assets/Prefabs/ZipLineHarpoonHandle/ZipLineHandleBehavior.cs:12-19 | empty slots, no player origin, nothing parented, no rides |
| ZipLineHarpoonHandle.ZiplineHandle.ForceUpdate | Assets/Prefabs/ZipLineHarpoonHandle/ZipLineHandleBehavior.cs:21-26 | the rope, position and rotation are copied |
| ZipLineHarpoonHandle.ZiplineHandle.SetHandPosition | Assets/Prefabs/ZipLineHarpoonHandle/ZipLineHandleBehavior.cs:69-73 | that interactor is placed on the hand target, and no other |
| ZipLineHarpoonHandle.ZiplineHandle.AttachPlayer | Assets/Prefabs/ZipLineHarpoonHandle/ZipLineHandleBehavior.cs:75-80 | the player origin is taken from the left hand's root only the first time; the rig is parented and one ride requested |
| ZipLineHarpoonHandle.ZiplineHandle.DetachPlayer | Assets/Prefabs/ZipLineHarpoonHandle/ZipLineHandleBehavior.cs:82-85 | unparents a known origin; before any attach it is a no-op |
| ZipLineHarpoonHandle.ZiplineHandle.OnSelectEntered | Assets/Prefabs/ZipLineHarpoonHandle/ZipLineHandleBehavior.cs:28-47 | slots move by AfterSelectEntered; a filled slot snaps its interactor to that side's target pose; attach iff both are filled |
| ZipLineHarpoonHandle.ZiplineHandle.OnSelectExited | Assets/Prefabs/ZipLineHarpoonHandle/ZipLineHandleBehavior.cs:49-67 | slots move by AfterSelectExited; detach whenever a slot is empty and the origin is known |
| Tracking.ControllerTracking.constructor | Assets/Scripts/Other/ControllerTracking.cs:15-21 | stores the local position and rotation as the originals, with no closest pose and not triggered |
| Snapping.TaggedPoses | Assets/Scripts/Climbing/ClimbHandSnapping.cs:73-79 | the poses of exactly the children tagged "SnappingPoint", never more than there are children |
| Snapping.TaggedPosesAppend | Assets/Scripts/GrabHandSnapping.cs:30-38 | collecting two child lists one after the other gives the first's points followed by the second's |
| Snapping.CollectSnappingPoints | Assets/Scripts/Climbing/ClimbHandSnapping.cs:73-79 | the list grows by the tagged children's poses, in child order |
| Snapping.FirstClosestUnique | Assets/Scripts/Climbing/ClimbHandSnapping.cs:142-158 | exactly one index satisfies the first-closest property |
| Snapping.DistanceOrder | Assets/Scripts/Climbing/ClimbHandSnapping.cs:150 | comparing distances gives the same answer as comparing squared distances |
| Snapping.ClosestHandPose | Assets/Scripts/Climbing/ClimbHandSnapping.cs:142-158 | on a non-empty list, an index no other point is closer than, with every earlier point strictly farther |
| Snapping.ChoosePose | Assets/Scripts/Climbing/ClimbHandSnapping.cs:128-132 | the tracking is triggered and holds the first closest pose to the model; its originals are kept |
| Snapping.Pin | Assets/Scripts/Climbing/ClimbHandSnapping.cs:183-188 | the model stands exactly at the stored pose |
| Snapping.Restore | Assets/Scripts/Climbing/ClimbHandSnapping.cs:195-213 | not triggered, and the model is back at its original local position and rotation |
| ClimbHandSnapping.ClimbHandSnapping.constructor | Assets/Scripts/Climbing/ClimbHandSnapping.cs:19-40 | no models or trackings yet, not listening |
| ClimbHandSnapping.ClimbHandSnapping.Start | Assets/Scripts/Climbing/ClimbHandSnapping.cs:64-102 | a missing controller faults, with the right model already stored when only the left controller is missing; otherwise the models are stored and the points are the tagged children; listening iff the interactable, a point and both models exist, with fresh trackings of the models' local poses |
| ClimbHandSnapping.ClimbHandSnapping.AlignHandModel | Assets/Scripts/Climbing/ClimbHandSnapping.cs:108-135 | the tracking of the selecting hand (right iff its parent is the right controller) takes the first closest pose and is triggered |
| ClimbHandSnapping.ClimbHandSnapping.AlignStep | Assets/Scripts/Climbing/ClimbHandSnapping.cs:166-189 | while triggered the model is pinned exactly to the stored pose; when not triggered the model is unchanged |
| ClimbHandSnapping.ClimbHandSnapping.ResetHandModel | Assets/Scripts/Climbing/ClimbHandSnapping.cs:195-213 | the hand's tracking is cleared and its model restored to the original local pose; the other hand's tracking, and its model unless it is the same object, are unchanged |
| GrabHandSnapping.GrabHandSnapping.constructor | Assets/Scripts/GrabHandSnapping.cs:10-16 | stores the models; no trackings or points; not listening |
| GrabHandSnapping.GrabHandSnapping.Awake | Assets/Scripts/GrabHandSnapping.cs:25-62 | the points are the tagged own children then the tagged parent's children; an object without a parent keeps only its own children and faults; listening iff it has a parent and nothing is missing |
| GrabHandSnapping.GrabHandSnapping.AlignHandModel | Assets/Scripts/GrabHandSnapping.cs:64-131 | the selecting hand's tracking takes the first closest pose and the model is snapped onto it once; the other hand's tracking is unchanged |
| GrabHandSnapping.GrabHandSnapping.ResetHandModel | Assets/Scripts/GrabHandSnapping.cs:133-151 | tracking cleared and model restored to the original local pose; the other hand's tracking, and its model unless it is the same object, are unchanged |
| HandSnapping.HandSnapping.constructor | Assets/Scripts/HandSnapping.cs:9-22 | stores the inspector's points and models; not aligning, not listening |
| HandSnapping.HandSnapping.Awake | Assets/Scripts/HandSnapping.cs:24-49 | listening iff there are points and nothing is missing, with fresh trackings |
| HandSnapping.HandSnapping.AlignHandModel | Assets/Scripts/HandSnapping.cs:51-81 | aligning is set; the selecting hand's tracking takes the first closest pose and the model is pinned to it; the other hand's tracking is unchanged |
| HandSnapping.HandSnapping.AlignStep | Assets/Scripts/HandSnapping.cs:101-111 | the model is held exactly at the pose on every step while triggered, and is unchanged while not triggered |
| HandSnapping.HandSnapping.ResetHandModel | Assets/Scripts/HandSnapping.cs:113-133 | tracking cleared and model restored; the aligning flag is never cleared; the other hand's tracking, and its model unless it is the same object, are unchanged |
| Checkpoint.Reactivations | Assets/Scripts/Checkpoint/CheckpointManager.cs:52-60 | one reactivation per zipline, in order |
| Checkpoint.CoroutineOrder | Assets/Scripts/Checkpoint/CheckpointManager.cs:70-86 | each resumption adds exactly one call after the earlier ones, and a full run is fade-out, move, fade-in |
| Checkpoint.CheckpointManager.constructor | Assets/Scripts/Checkpoint/CheckpointManager.cs:11-12 | no spawn point and no start point |
| Checkpoint.CheckpointManager.Start | Assets/Scripts/Checkpoint/CheckpointManager.cs:17-20 | records the "GameStart" marker, and faults when there is none |
| Checkpoint.CheckpointManager.UpdateSpawnPoint | Assets/Scripts/Checkpoint/CheckpointManager.cs:26-29 | the spawn point becomes the given one |
| Checkpoint.CheckpointManager.GetSpawnPoint | Assets/Scripts/Checkpoint/CheckpointManager.cs:35-38 | returns the last spawn point given |
| Checkpoint.CheckpointManager.SmoothTeleportation | Assets/Scripts/Checkpoint/CheckpointManager.cs:70-76 | a 0.25 s fade-out (the calls CallsSoFar gives for the first wait), then a teleport record awaiting the move |
| Checkpoint.CheckpointManager.ResumeTeleport | Assets/Scripts/Checkpoint/CheckpointManager.cs:76-86 | the first resumption puts the player at the target's position and rotation; the second fades in and finishes; each time the record moves by NextPhase and the log gains exactly the call CallsSoFar adds |
| Checkpoint.CheckpointManager.AdjustAndTeleport | Assets/Scripts/Checkpoint/CheckpointManager.cs:48-49 | Adjust with the marker's yaw, then the teleport coroutine starts |
| Checkpoint.CheckpointManager.ReactivateZipLines | Assets/Scripts/Checkpoint/CheckpointManager.cs:52-60 | every zipline found is reactivated, in order |
| Checkpoint.CheckpointManager.TeleportPlayerToLastSpawnPoint | Assets/Scripts/Checkpoint/CheckpointManager.cs:44-62 | a no-op without a spawn point; otherwise Adjust with the spawn yaw, fade-out, teleport record, then each zipline reactivated |
| Checkpoint.CheckpointManager.TeleportPlayerToStart | Assets/Scripts/Checkpoint/CheckpointManager.cs:92-99 | a no-op without a start point; otherwise Adjust and the teleport to it |
| CheckpointLegacy.CheckpointManager.constructor | Assets/Scripts/CheckPoint/CheckpointManager.cs:7-8 | no spawn point and no start point |
| CheckpointLegacy.CheckpointManager.Start | Assets/Scripts/CheckPoint/CheckpointManager.cs:13-16 | records the start marker, and faults when there is none |
| CheckpointLegacy.CheckpointManager.UpdateSpawnPoint | Assets/Scripts/CheckPoint/CheckpointManager.cs:17-20 | the spawn point becomes the given one |
| CheckpointLegacy.CheckpointManager.GetSpawnPoint | Assets/Scripts/CheckPoint/CheckpointManager.cs:22-25 | returns the last spawn point given |
| CheckpointLegacy.CheckpointManager.SmoothTeleportation | Assets/Scripts/CheckPoint/CheckpointManager.cs:36-42 | a 0.25 s fade-out (the calls CallsSoFar gives for the first wait), then a teleport record awaiting the move |
| CheckpointLegacy.CheckpointManager.ResumeTeleport | Assets/Scripts/CheckPoint/CheckpointManager.cs:42-52 | the player ends at the target's position and rotation, then the fade-in finishes the sequence; each time the record moves by NextPhase and the log gains exactly the call CallsSoFar adds |
| CheckpointLegacy.CheckpointManager.TeleportPlayerToLastSpawnPoint | Assets/Scripts/CheckPoint/CheckpointManager.cs:27-34 | a no-op while no spawn point is set; otherwise Adjust with the spawn yaw, then the fade and move |
| CheckpointLegacy.CheckpointManager.TeleportPlayerToStart | Assets/Scripts/CheckPoint/CheckpointManager.cs:54-61 | a no-op without a start point; otherwise Adjust and the teleport to it |
| CheckpointState.CheckpointState.constructor | Assets/Scripts/Checkpoint/CheckpointState.cs:13 | inactive and no effects played |
| CheckpointState.CheckpointState.ActivateCheckpoint | Assets/Scripts/Checkpoint/CheckpointState.cs:18-25 | afterwards active; the colour, particle and sound effects play on the first activation only, and a second activation changes nothing |
| Cooking.CookingManager.constructor | Assets/Scripts/Cooking/CookingManager.cs:44-53 | not cooking, steak not in the pan, pan not near the fire |
| Cooking.CookingManager.Start | Assets/Scripts/Cooking/CookingManager.cs:56-59 | the cooked steak is hidden |
| Cooking.CookingManager.Update | Assets/Scripts/Cooking/CookingManager.cs:61-67 | cooking starts this frame iff not cooking, the raw steak is active, it is in the pan and the pan is near the fire; cooking is never undone |
| Cooking.CookingManager.StartCooking | Assets/Scripts/Cooking/CookingManager.cs:78-87 | a second call changes nothing; the first starts the sound once and the cooking phase |
| Cooking.CookingManager.ResumeCooking | Assets/Scripts/Cooking/CookingManager.cs:89-114 | smoke runs only with a smoke effect; at the end the raw steak is hidden and the cooked one shown at its pose and parent, with the sound stopped |
| Proximity.HalfExtents | Assets/Scripts/Guitar/ProximityStringDetector.cs:41-43 | each half extent is size × scale ÷ 2 × multiplier |
| Proximity.InsideFacts | Assets/Scripts/Guitar/ProximityStringDetector.cs:49-52 | inside iff strictly within ± the half extents on every axis; boundary points are outside; the test is symmetric |
| Proximity.MultiplierEnlarges | Assets/Scripts/Guitar/ProximityStringDetector.cs:41-52 | a multiplier of at least 1 only enlarges the box |
| Proximity.Touch | Assets/Scripts/Guitar/ProximityStringDetector.cs:54-65 | a call happens iff the side changed, and reports the new side |
| Proximity.TouchesAlternate | Assets/Scripts/Guitar/ProximityStringDetector.cs:54-65 | enter and exit calls alternate, start opposite to the initial side and end on the last side |
| Proximity.ProximityStringDetector.constructor | Assets/Scripts/Guitar/ProximityStringDetector.cs:18-21 | outside, no calls |
| Proximity.ProximityStringDetector.Update | Assets/Scripts/Guitar/ProximityStringDetector.cs:35-66 | a no-op without hand or collider; otherwise the inside flag is the box test and a change is reported once |
| Proximity.ProximityStringDetector.OnHandTouch | Assets/Scripts/Guitar/ProximityStringDetector.cs:54-65 | the sound controller receives the call; a missing one faults |
| ProximityLegacy.ProximityStringDetector.constructor | Assets/Scripts/Guitare/ProximityStringDetector.cs:8-11 | outside, no calls |
| ProximityLegacy.ProximityStringDetector.Update | Assets/Scripts/Guitare/ProximityStringDetector.cs:20-51 | a no-op without references; otherwise the strict box test and one call per change of side |
| ProximityLegacy.ProximityStringDetector.OnHandTouch | Assets/Scripts/Guitare/ProximityStringDetector.cs:39-50 | the sound controller receives the call; a missing one faults |
| ClimbingMomentum.ClimbEndedOnce | Assets/Scripts/Climbing/ClimbingMomentumManager.cs:46-50 | the climb-end edge cannot fire two frames running, and fires only from a phase other than Ended |
| ClimbingMomentum.ChooseVelocity | Assets/Scripts/Climbing/ClimbingMomentumManager.cs:72 | one of the two velocities, at least as fast as both; the right one only when strictly faster, so ties go left |
| ClimbingMomentum.ChooseByMagnitude | Assets/Scripts/Climbing/ClimbingMomentumManager.cs:72 | comparing magnitudes chooses the same hand as comparing squared magnitudes |
| ClimbingMomentum.Momentum | Assets/Scripts/Climbing/ClimbingMomentumManager.cs:82 | opposite to the hand's velocity and three times as fast |
| ClimbingMomentum.Decay | Assets/Scripts/Climbing/ClimbingMomentumManager.cs:56-61 | the factor after n frames of decay stays in (0, 1] |
| ClimbingMomentum.DecayRunUnique | Assets/Scripts/Climbing/ClimbingMomentumManager.cs:56-61 | a starting velocity determines the run of frames |
| ClimbingMomentum.DecayRunDecreasing | Assets/Scripts/Climbing/ClimbingMomentumManager.cs:56-61 | the speed strictly decreases from frame to frame |
| ClimbingMomentum.ClimbingMomentumManager.constructor | Assets/Scripts/Climbing/ClimbingMomentumManager.cs:19-24 | phase Idle, no moves |
| ClimbingMomentum.ClimbingMomentumManager.Start | Assets/Scripts/Climbing/ClimbingMomentumManager.cs:26-36 | records the provider's phase; without a provider it faults |
| ClimbingMomentum.ClimbingMomentumManager.Update | Assets/Scripts/Climbing/ClimbingMomentumManager.cs:38-52 | a no-op without a provider; otherwise the phase is remembered, and on entering Ended (only then) the moves grow by the decay run of Momentum(ChooseVelocity) |
| ClimbingMomentum.ClimbingMomentumManager.ApplyMomentum | Assets/Scripts/Climbing/ClimbingMomentumManager.cs:54-64 | the loop ends, having moved once per frame with the velocity decayed 0.98 per frame while faster than 1 |
| ClimbingMomentum.ClimbingMomentumManager.OnClimbFinished | Assets/Scripts/Climbing/ClimbingMomentumManager.cs:66-87 | the moves grow by the decay run of −3 × the faster hand's velocity |
| ClimbingMomentumLegacy.ClimbingMomentumManager.constructor | Assets/Scripts/ClimbingMomentumManager.cs:16-21 | phase Idle, no moves |
| ClimbingMomentumLegacy.ClimbingMomentumManager.Start | Assets/Scripts/ClimbingMomentumManager.cs:23-33 | records the provider's phase; without a provider it faults |
| ClimbingMomentumLegacy.ClimbingMomentumManager.Update | Assets/Scripts/ClimbingMomentumManager.cs:35-49 | a no-op without a provider; on entering Ended (only then) the momentum run is applied; the phase is remembered |
| ClimbingMomentumLegacy.ClimbingMomentumManager.ApplyMomentum | Assets/Scripts/ClimbingMomentumManager.cs:51-61 | the loop ends, having moved with the velocity decayed 0.98 per frame while faster than 1 |
| ClimbingMomentumLegacy.ClimbingMomentumManager.OnClimbFinished | Assets/Scripts/ClimbingMomentumManager.cs:63-77 | the moves grow by the decay run of −3 × the faster hand's velocity, ties to the left |

## Left out

- Physics, rendering, audio, haptics and the scene graph are not modelled: raycasts, `Instantiate`, `GetComponent`, sprites, line renderers, particles, sounds and haptic impulses. Raycasts and lookups are parameters; feedback is a logged event.
- Frame timing is not modelled. `Time.time` and `Time.deltaTime` are not computed. `WaitForSeconds` pauses become the phases of a coroutine record. Two coroutines running in the same frames do not interleave in the model.
- Floating point is not modelled: every `float` is an exact `real`. `Mathf.Approximately` follows Unity's documented tolerance, but rounding is not modelled.
- `Vector3.Distance` and `magnitude` are square roots. The model never computes them: comparisons use squared lengths, and a needed length arrives as `dist` with its defining relation.
- Quaternions and Euler angles are not modelled: rotations are copied, never composed. The zipline handle keeps only the parent's yaw. The snapping scripts' world/local relation of the hand model is not modelled.
- RopePrefab.RopeBehavior.UpdateTransform: the rope's rotation is not modelled, so where the child spheres end up after the rope moves is a parameter (`carried`), not computed from the old and new transforms.
- `InverseTransformPoint` in the proximity detector is not computed: the hand's local position is a parameter.
- Code not in these files is opaque: `ClimbingMomentumManager.Adjust`, `ZipLineBehavior.Reactivate` and `RopeBehavior.StartZipLine`. Each is a logged call.
- The classes inherit from the XR Interaction Toolkit (`XRGrabInteractable`, `XRSocketInteractor`). Their base behaviour is not modelled; `base.IsSelectableBy`-style answers are parameters.
- `Destroy` is a flag or a logged request. The engine stops calling a destroyed component, so callbacks require that it is not destroyed.
- `ClimbHandSnapping.AlignHandModel`: the Lerp approach loop before the model reaches the pose is not modelled, because it is float convergence. The model goes straight to the pin-while-triggered phase.
- `Harpoon.HarpoonBehavior.Update`: the crosshair's world position is not modelled, nor its scale growing with the camera distance.
- The older harpoon plays no sounds (a todo at Assets/Prefabs/Harpoon/HarpoonBehavior.cs:99), so it has no feedback log.
- `ZipLineAnimation.TimeFraction`: for a zero-length ride, 0 ÷ 0 (NaN in the engine) is taken as 0.
- Checkpoints: the spawn transform is read when the coroutine resumes. The model captures its pose when the coroutine starts.
- Inspector references are assumed set: `climbingMomentumManager`, `canvas`, the hand targets, CheckpointState's tissue renderer, particle system and audio source, and CookingManager's `rawSteak`, `cookedSteak`, `cookingSound` and `steakParent`.
- Lookups that can miss in a scene are modelled. A missing one takes the script's own error path, or, where the script dereferences it, sets a `faulted` flag for the NullReferenceException. These lookups are: the climb provider, the grab and climb interactables, the sound controller, the "GameStart" object, the controller models, the "Origin" object and its CharacterController in the zipline handles, and the parent of a grabbable in `GrabHandSnapping.Awake`.
- Lookups of parts the same prefab always carries are assumed to succeed: the zipline handle's Rigidbody when a ride ends, the handle's parent in `ForceUpdate`, the interactor's parent transform, the canvas's FadingScript, the RopeBehavior of an instantiated rope, and the renderer and collider of a created primitive.
- Cooking: `EatSteak` and the trigger detectors are not modelled. Those detectors set `isSteakInPan` and `panNearFire`, which are inputs here.
- `ClimbingMomentum.ClimbingMomentumManager.ApplyMomentum` records each frame's velocity, not the displacement `velocity × Time.deltaTime`, because frame times are not modelled. The whole decay run is applied when the climb ends, rather than spread over later frames.
- The commented-out camera-rotation correction in the newer momentum manager is not code, so it is not modelled.
