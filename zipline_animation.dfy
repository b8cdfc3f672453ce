/** The zipline ride shared by both handle revisions: the eased position along the
    rope, the clamped time fraction, and the trigger/running latch advanced once per
    frame. */
module ZipLineAnimation {
  import opened Geometry

  /** GetPositionPctFromTimePct / UpdatePosition: ((t + 1)^2 - 1) / 3. */
  function EasePosition(t: real): (r: real)
    ensures t == 0.0 ==> r == 0.0
    ensures t == 1.0 ==> r == 1.0
  {
    ((t + 1.0) * (t + 1.0) - 1.0) / 3.0
  }

  /** The curve maps [0, 1] into [0, 1]. */
  lemma EaseRange(t: real)
    requires 0.0 <= t <= 1.0
    ensures 0.0 <= EasePosition(t) <= 1.0
  {
    EaseIncreasingFrom(0.0, t);
    EaseIncreasingFrom(t, 1.0);
  }

  /** The curve is strictly increasing from t = -1 on, so the handle never moves back. */
  lemma EaseIncreasing(a: real, b: real)
    requires -1.0 <= a < b
    ensures EasePosition(a) < EasePosition(b)
  {
    assert EasePosition(b) - EasePosition(a) == (b - a) * (a + b + 2.0) / 3.0;
    ProductSign(b - a, a + b + 2.0);
  }

  lemma EaseIncreasingFrom(a: real, b: real)
    requires -1.0 <= a <= b
    ensures EasePosition(a) <= EasePosition(b)
  {
    if a < b {
      EaseIncreasing(a, b);
    }
  }

  /** Mathf.Clamp01(elapsed / duration). A zero duration (a rope whose triggers
      coincide) divides by zero: a positive elapsed time gives +infinity, clamped to 1;
      a negative one gives 0; 0 / 0 is taken as 0 here. */
  function TimeFraction(elapsed: real, duration: real): (r: real)
    ensures 0.0 <= r <= 1.0
    ensures duration > 0.0 && elapsed >= duration ==> r == 1.0
    ensures duration > 0.0 && elapsed <= 0.0 ==> r == 0.0
    ensures duration > 0.0 && 0.0 <= elapsed <= duration ==> r * duration == elapsed
  {
    if duration > 0.0 then Clamp01(elapsed / duration)
    else if elapsed > 0.0 then 1.0
    else 0.0
  }

  /** The animation duration TriggerAnimation sets: a fifth of the distance between
      the rope's trigger points, i.e. a ride at five units per second. */
  function AnimationDuration(dist: real): (r: real)
    requires dist >= 0.0
    ensures r >= 0.0
    ensures r > 0.0 <==> dist > 0.0
    ensures r * 5.0 == dist
  {
    dist / 5.0
  }

  /** Where the handle is `elapsed` seconds into a ride from `a` to `b`. */
  function HandlePosition(a: Vec3, b: Vec3, elapsed: real, duration: real): Vec3 {
    Lerp(a, b, EasePosition(TimeFraction(elapsed, duration)))
  }

  /** The handle always stays on the segment between the rope's trigger points. */
  lemma HandleOnRope(a: Vec3, b: Vec3, elapsed: real, duration: real)
    ensures OnSegment(HandlePosition(a, b, elapsed, duration), a, b)
  {
    var t := EasePosition(TimeFraction(elapsed, duration));
    assert Lerp(a, b, t) == Lerp(a, b, Clamp01(t));
  }

  /** A ride starts at the start point and, once the duration has passed, rests
      exactly on the end point. */
  lemma HandleEndpoints(a: Vec3, b: Vec3, elapsed: real, duration: real)
    requires duration > 0.0
    ensures elapsed <= 0.0 ==> HandlePosition(a, b, elapsed, duration) == a
    ensures elapsed >= duration ==> HandlePosition(a, b, elapsed, duration) == b
  {
  }

  /** Later in the ride is never farther back along the rope. */
  lemma HandleProgresses(elapsed1: real, elapsed2: real, duration: real)
    requires elapsed1 <= elapsed2
    ensures EasePosition(TimeFraction(elapsed1, duration)) <= EasePosition(TimeFraction(elapsed2, duration))
  {
    var t1, t2 := TimeFraction(elapsed1, duration), TimeFraction(elapsed2, duration);
    if duration > 0.0 {
      DivMonotone(elapsed1, elapsed2, duration);
    }
    EaseIncreasingFrom(t1, t2);
  }

  /** A point a fraction t in [0, 1] along the way from `a` to `b` lies t * t of the
      squared length away from `a`. */
  lemma LerpSqDist(a: Vec3, b: Vec3, t: real)
    requires 0.0 <= t <= 1.0
    ensures SqDist(a, Lerp(a, b, t)) == t * t * SqDist(a, b)
  {
    assert Sub(Lerp(a, b, t), a) == Scale(t, Sub(b, a));
    ScaleSqMagnitude(t, Sub(b, a));
  }

  /** Successive frames of one ride (same start time and duration) put the handle
      no nearer the rope's start point: the squared distance from it never shrinks. */
  lemma HandleMovesAway(a: Vec3, b: Vec3, elapsed1: real, elapsed2: real, duration: real)
    requires elapsed1 <= elapsed2
    ensures SqDist(a, HandlePosition(a, b, elapsed1, duration)) <= SqDist(a, HandlePosition(a, b, elapsed2, duration))
  {
    var t1, t2 := EasePosition(TimeFraction(elapsed1, duration)), EasePosition(TimeFraction(elapsed2, duration));
    HandleProgresses(elapsed1, elapsed2, duration);
    EaseRange(TimeFraction(elapsed1, duration));
    EaseRange(TimeFraction(elapsed2, duration));
    assert HandlePosition(a, b, elapsed1, duration) == Lerp(a, b, t1);
    assert HandlePosition(a, b, elapsed2, duration) == Lerp(a, b, t2);
    LerpFartherFromStart(a, b, t1, t2);
  }

  lemma LerpFartherFromStart(a: Vec3, b: Vec3, t1: real, t2: real)
    requires 0.0 <= t1 <= t2 <= 1.0
    ensures SqDist(a, Lerp(a, b, t1)) <= SqDist(a, Lerp(a, b, t2))
  {
    LerpSqDist(a, b, t1);
    LerpSqDist(a, b, t2);
    SquaresOrdered(SqDist(a, Lerp(a, b, t1)), SqDist(a, Lerp(a, b, t2)), t1, t2, SqDist(a, b));
  }

  lemma SquaresOrdered(d1: real, d2: real, t1: real, t2: real, k: real)
    requires 0.0 <= t1 <= t2 && k >= 0.0
    requires d1 == t1 * t1 * k && d2 == t2 * t2 * k
    ensures d1 <= d2
  {
    assert t2 * t2 - t1 * t1 == (t2 - t1) * (t2 + t1);
    assert t2 * t2 * k - t1 * t1 * k == (t2 * t2 - t1 * t1) * k;
  }

  lemma DivMonotone(a: real, b: real, d: real)
    requires a <= b && d > 0.0
    ensures a / d <= b / d
  {
    assert b / d - a / d == (b - a) / d;
  }

  /** `_triggerAnimation` and `_running`. */
  datatype Latch = Latch(triggered: bool, running: bool)

  /** One Update of the latch. `finished` says whether a running ride reached its
      duration this frame; `returnOnFinish` is true for the revision that returns
      right after finishing and false for the one that goes on to test the trigger in
      the same frame. RevisionsDifferOnRetrigger states where the two revisions part. */
  function FrameLatch(l: Latch, finished: bool, returnOnFinish: bool): (r: Latch)
    // a ride starts only when triggered and not running, and consumes the trigger
    ensures !l.running && l.triggered ==> r == Latch(false, true)
    ensures !l.triggered ==> !r.triggered
    ensures !l.running && !l.triggered ==> r == l
    // a running ride that has not finished goes on and leaves the trigger alone
    ensures l.running && !finished ==> r == l
    // a finished ride stops, unless the trigger restarts it in the same frame
    ensures l.running && finished && returnOnFinish ==> r == Latch(l.triggered, false)
    ensures l.running && finished && !returnOnFinish ==> r == Latch(false, l.triggered)
  {
    var afterRide := l.(running := l.running && !finished);
    if returnOnFinish && l.running && finished then afterRide
    else if afterRide.triggered && !afterRide.running then Latch(false, true)
    else afterRide
  }

  /** The two revisions differ on a trigger that is pending while a ride finishes:
      one consumes it and marks a new ride running in the same frame, the other
      returns first and leaves it pending. Either way the finishing frame destroys the
      component (Update's contract in both handle modules), so no second ride runs. */
  lemma RevisionsDifferOnRetrigger()
    ensures FrameLatch(Latch(true, true), true, false) == Latch(false, true)
    ensures FrameLatch(Latch(true, true), true, true) == Latch(true, false)
  {
  }
}
