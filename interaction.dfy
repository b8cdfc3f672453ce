/** The XR Interaction Toolkit's view of the controllers, reduced to what the scripts
    test: which hand an interactor belongs to, whether it is a socket, and the root of
    its hierarchy. Also the two-hand slot rule shared by the three zipline handles. */
module Interaction {
  import opened Geometry

  /** InteractorHandedness. */
  datatype Handedness = NoHand | Left | Right

  /** An IXRSelectInteractor: `id` stands for object identity; `root` is the identity
      of transform.root (the player rig for a hand controller). */
  datatype Interactor = Interactor(id: nat, handedness: Handedness, isSocket: bool, root: nat)

  /** The `_leftHandInteractor` / `_rightHandInteractor` pair of a zipline handle. */
  datatype Slots = Slots(left: Option<Interactor>, right: Option<Interactor>) {
    predicate BothFilled() { left.Some? && right.Some? }
  }

  const EmptySlots := Slots(None, None)

  /** OnSelectEntered: a left hand takes the left slot if it is empty; otherwise a
      right hand takes the right slot if it is empty; anything else changes nothing. */
  function AfterSelectEntered(s: Slots, i: Interactor): (r: Slots)
    // the left slot changes only when it was empty and a left hand arrived
    ensures r.left != s.left ==> s.left.None? && i.handedness == Left && r.left == Some(i)
    // the right slot changes only when it was empty and a right hand arrived
    ensures r.right != s.right ==> s.right.None? && i.handedness == Right && r.right == Some(i)
    // at most one slot changes per event
    ensures r.left == s.left || r.right == s.right
    // an empty matching slot is always taken
    ensures s.left.None? && i.handedness == Left ==> r.left == Some(i)
    ensures s.right.None? && i.handedness == Right ==> r.right == Some(i)
    // a filled slot is never overwritten
    ensures s.left.Some? ==> r.left == s.left
    ensures s.right.Some? ==> r.right == s.right
  {
    if s.left.None? && i.handedness == Left then Slots(Some(i), s.right)
    else if s.right.None? && i.handedness == Right then Slots(s.left, Some(i))
    else s
  }

  /** OnSelectExited: the slot of the exiting hand is cleared, whoever fills it. */
  function AfterSelectExited(s: Slots, h: Handedness): (r: Slots)
    ensures h == Left ==> r.left.None? && r.right == s.right
    ensures h == Right ==> r.right.None? && r.left == s.left
    ensures h == NoHand ==> r == s
    // after a hand leaves, the handle is never held by both hands
    ensures h != NoHand ==> !r.BothFilled()
  {
    match h
    case Left => Slots(None, s.right)
    case Right => Slots(s.left, None)
    case NoHand => s
  }

  /** A hand that entered an empty slot and exits again leaves the slots as they were. */
  lemma SelectThenExitRestores(s: Slots, i: Interactor)
    requires i.handedness == Left ==> s.left.None?
    requires i.handedness == Right ==> s.right.None?
    ensures AfterSelectExited(AfterSelectEntered(s, i), i.handedness) == s
  {
  }

  /** Both slots become filled only by the second hand: starting from no hands, a left
      and a right select, in either order, fill both, and no single select does. */
  lemma BothHandsAttach(l: Interactor, r: Interactor)
    requires l.handedness == Left && r.handedness == Right
    ensures AfterSelectEntered(AfterSelectEntered(EmptySlots, l), r) == Slots(Some(l), Some(r))
    ensures AfterSelectEntered(AfterSelectEntered(EmptySlots, r), l) == Slots(Some(l), Some(r))
    ensures forall i :: !AfterSelectEntered(EmptySlots, i).BothFilled()
  {
  }
}
