/**
 * The camera transition controller: the `isAnimating` mutex, the two eased
 * transitions (zoom onto the panel, reset to the overview), their completion
 * effects, cancellation, and the clamp the orbit controls apply to their target.
 *
 * Animation frames are explicit: a transition runs its first frame at once,
 * and every later frame is a `Tick` at a caller-supplied time `now` (in
 * milliseconds, the value `Date.now()` would return).
 */
module Camera {
  import opened Common

  datatype Vec3 = Vec3(x: real, y: real, z: real)

  /** `lerpVectors(a, b, t)`: the point a fraction `t` of the way from `a` to `b`. */
  function Lerp(a: Vec3, b: Vec3, t: real): (r: Vec3)
    ensures t == 0.0 ==> r == a
    ensures t == 1.0 ==> r == b
  {
    Vec3(a.x + (b.x - a.x) * t, a.y + (b.y - a.y) * t, a.z + (b.z - a.z) * t)
  }

  /** A distance limit of the orbit controls: a number or `Infinity`. */
  datatype Limit = Finite(value: real) | Infinite

  datatype Controls = Controls(
    target: Vec3,
    enableRotate: bool,
    enableZoom: bool,
    minDistance: real,
    maxDistance: Limit)

  datatype Transition = ZoomIn | Reset

  /** One running transition: where it started, where it ends, when it began, and whether a completion callback waits. */
  datatype Animation = Animation(
    kind: Transition,
    startPosition: Vec3,
    endPosition: Vec3,
    startTarget: Vec3,
    endTarget: Vec3,
    startTime: real,
    hasCallback: bool)

  /**
   * The controller: camera position, orbit controls, the mutex, the id of the
   * requested frame, the transition that frame will continue, and the id the
   * next frame request will receive (frame ids start at 1).
   */
  datatype Cam = Cam(
    position: Vec3,
    controls: Controls,
    isAnimating: bool,
    animationId: Option<nat>,
    pending: Option<Animation>,
    nextFrameId: nat)

  const Duration: real := 1500.0

  const OriginalPosition: Vec3 := Vec3(25.688755018841892, 4.3063773636979565, 15.100411821420774)
  const OriginalTarget: Vec3 := Vec3(0.17666347376958655, 7.040941209607237, 1.8224583297318953)
  const UIPosition: Vec3 := Vec3(11.806177745161065, 12.94484623673, -4.594371204038005)

  /** The start-up camera: the scene's initial pose and the overview constraints. */
  const Initial: Cam := Cam(
    Vec3(24.45732511317063, 4.914951810646316, 15.36648732308515),
    Controls(Vec3(-1.0, 6.0, -0.18277228675437365), true, true, 20.0, Finite(45.0)),
    false, None, None, 1)

  /**
   * The controller's invariant: the mutex is held exactly while a frame is
   * requested and a transition is pending; frame ids are positive; while a
   * transition runs the distance limits are lifted, and a zoom-in also locks
   * rotation and zoom.
   */
  predicate Valid(c: Cam) {
    && c.nextFrameId >= 1
    && (c.isAnimating <==> c.animationId.Some?)
    && (c.isAnimating <==> c.pending.Some?)
    && (c.animationId.Some? ==> 1 <= c.animationId.value < c.nextFrameId)
    && (c.isAnimating ==> c.controls.minDistance == 0.0 && c.controls.maxDistance == Infinite)
    && ((c.pending.Some? && c.pending.value.kind == ZoomIn && c.animationId.Some?)
          ==> (!c.controls.enableRotate && !c.controls.enableZoom))
  }

  /** `Math.min(elapsed / duration, 1)`. */
  function Progress(elapsed: real): (p: real)
    ensures p <= 1.0
    ensures p == 1.0 <==> elapsed >= Duration
    ensures 0.0 <= elapsed ==> 0.0 <= p
  {
    Min(elapsed / Duration, 1.0)
  }

  /** The smoothstep easing `p * p * (3 - 2 * p)`. */
  function Ease(p: real): real {
    p * p * (3.0 - 2.0 * p)
  }

  /** The constraints a completed transition leaves behind. */
  function Settled(kind: Transition, target: Vec3): (r: Controls)
    ensures r.target == target && r.enableZoom && r.maxDistance.Finite?
    ensures kind == ZoomIn ==> !r.enableRotate && r.minDistance == 9.0 && r.maxDistance.value == 15.0
    ensures kind == Reset ==> r.enableRotate && r.minDistance == 20.0 && r.maxDistance.value == 45.0
  {
    match kind
    case ZoomIn => Controls(target, false, true, 9.0, Finite(15.0))
    case Reset => Controls(target, true, true, 20.0, Finite(45.0))
  }

  /**
   * One animation frame at time `now`: move along the eased path; before the
   * end request another frame (a zoom-in also locks rotation and zoom), at the
   * end release the mutex, settle the constraints and report whether the
   * completion callback runs.
   */
  function Frame(c: Cam, a: Animation, now: real): (r: (Cam, bool))
    ensures r.0.isAnimating <==> (c.isAnimating && now - a.startTime < Duration)
    ensures now - a.startTime >= Duration ==>
              && r.0.position == a.endPosition
              && r.0.controls == Settled(a.kind, a.endTarget)
              && r.0.animationId.None? && r.0.pending.None?
    ensures r.1 <==> (now - a.startTime >= Duration && a.hasCallback)
    ensures now - a.startTime < Duration ==> r.0.pending == Some(a)
    ensures r.0.controls.minDistance == c.controls.minDistance || now - a.startTime >= Duration
    ensures c.isAnimating && Valid(c) ==> Valid(r.0)
  {
    var p := Progress(now - a.startTime);
    var e := Ease(p);
    var moved := c.(position := Lerp(a.startPosition, a.endPosition, e),
                    controls := c.controls.(target := Lerp(a.startTarget, a.endTarget, e)));
    if p < 1.0 then
      var controls := if a.kind == ZoomIn then moved.controls.(enableRotate := false, enableZoom := false)
                      else moved.controls;
      (moved.(controls := controls, animationId := Some(c.nextFrameId), pending := Some(a),
              nextFrameId := c.nextFrameId + 1), false)
    else
      assert e == 1.0;
      (moved.(isAnimating := false, animationId := None, pending := None,
              controls := Settled(a.kind, moved.controls.target)), a.hasCallback)
  }

  /** Start a transition of the given kind towards the given end pose, running its first frame at once. */
  function Start(c: Cam, kind: Transition, endPosition: Vec3, endTarget: Vec3, now: real, hasCallback: bool): (r: (Cam, bool))
    requires !c.isAnimating
    ensures r.0.isAnimating && !r.1
    ensures r.0.position == c.position && r.0.controls.target == c.controls.target
    ensures r.0.controls.minDistance == 0.0 && r.0.controls.maxDistance == Infinite
    ensures r.0.pending == Some(Animation(kind, c.position, endPosition, c.controls.target, endTarget, now, hasCallback))
    ensures Valid(c) ==> Valid(r.0)
  {
    var a := Animation(kind, c.position, endPosition, c.controls.target, endTarget, now, hasCallback);
    var locked := c.(isAnimating := true, controls := c.controls.(minDistance := 0.0, maxDistance := Infinite));
    Frame(locked, a, now)
  }

  /**
   * `zoomToScreen(screen, onComplete)`: ignored while a transition runs;
   * otherwise start moving to the panel view, aiming at the screen's position.
   */
  function ZoomToScreen(c: Cam, screenPosition: Vec3, now: real, hasCallback: bool): (r: (Cam, bool))
    ensures c.isAnimating ==> r == (c, false)
    ensures !c.isAnimating ==> r.0.isAnimating && !r.1
    ensures !c.isAnimating ==> !r.0.controls.enableRotate && !r.0.controls.enableZoom
    ensures !c.isAnimating ==> (r.0.pending.Some? && r.0.pending.value.endPosition == UIPosition
                                && r.0.pending.value.endTarget == screenPosition)
    ensures Valid(c) ==> Valid(r.0)
  {
    if c.isAnimating then (c, false)
    else Start(c, ZoomIn, UIPosition, screenPosition, now, hasCallback)
  }

  /** `resetCamera(onComplete)`: ignored while a transition runs; otherwise start moving back to the overview. */
  function ResetCamera(c: Cam, now: real, hasCallback: bool): (r: (Cam, bool))
    ensures c.isAnimating ==> r == (c, false)
    ensures !c.isAnimating ==> r.0.isAnimating && !r.1
    ensures !c.isAnimating ==> (r.0.controls.enableRotate == c.controls.enableRotate
                                && r.0.controls.enableZoom == c.controls.enableZoom)
    ensures !c.isAnimating ==> (r.0.pending.Some? && r.0.pending.value.endPosition == OriginalPosition
                                && r.0.pending.value.endTarget == OriginalTarget)
    ensures Valid(c) ==> Valid(r.0)
  {
    if c.isAnimating then (c, false)
    else Start(c, Reset, OriginalPosition, OriginalTarget, now, hasCallback)
  }

  /** The requested frame runs at time `now`; without one nothing happens. */
  function Tick(c: Cam, now: real): (r: (Cam, bool))
    ensures c.pending.None? ==> r == (c, false)
    ensures c.pending.Some? ==> r.0.pending.None? || r.0.pending == c.pending
    ensures Valid(c) ==> Valid(r.0)
  {
    match c.pending
    case None => (c, false)
    case Some(a) => Frame(c, a, now)
  }

  /** `getIsAnimating()`. */
  predicate IsAnimating(c: Cam) {
    c.isAnimating
  }

  /**
   * `cancelAnimation()`: with a (truthy) frame id, cancel that frame and
   * release the mutex; the lifted distance limits stay as they are.
   */
  function CancelAnimation(c: Cam): (r: Cam)
    ensures !(c.animationId.Some? && c.animationId.value != 0) ==> r == c
    ensures c.animationId.Some? && c.animationId.value != 0 ==>
              !r.isAnimating && r.animationId.None? && r.pending.None?
    ensures r.position == c.position && r.controls == c.controls
    ensures Valid(c) ==> Valid(r)
  {
    if c.animationId.Some? && c.animationId.value != 0 then
      c.(animationId := None, pending := None, isAnimating := false)
    else c
  }

  /** The orbit controls' `change` handler: raise `y` to 6, then raise `x` to 1, then lower `x` to -1. */
  function ClampTarget(t: Vec3): (r: Vec3)
    ensures r.y >= 6.0 && r.x == -1.0 && r.z == t.z
    ensures t.y >= 6.0 ==> r.y == t.y
  {
    var t1 := if t.y < 6.0 then t.(y := 6.0) else t;
    var t2 := if t1.x < 1.0 then t1.(x := 1.0) else t1;
    if t2.x > -1.0 then t2.(x := -1.0) else t2
  }

  // Easing.

  lemma EaseEndpoints()
    ensures Ease(0.0) == 0.0 && Ease(1.0) == 1.0
    ensures Progress(0.0) == 0.0 && Progress(Duration) == 1.0
  {
  }

  /** On [0, 1] the eased weight stays in [0, 1]. */
  lemma EaseBounds(p: real)
    requires 0.0 <= p <= 1.0
    ensures 0.0 <= Ease(p) <= 1.0
  {
    var sq := p * p;
    assert 0.0 <= sq;
    assert 0.0 <= sq * (3.0 - 2.0 * p);
    var d := (1.0 - p) * (1.0 - p);
    assert 1.0 - Ease(p) == d * (1.0 + 2.0 * p);
    assert 0.0 <= d;
    assert 0.0 <= d * (1.0 + 2.0 * p);
  }

  /** The easing is monotone on [0, 1]. */
  lemma EaseMonotone(p: real, q: real)
    requires 0.0 <= p <= q <= 1.0
    ensures Ease(p) <= Ease(q)
  {
    var qq, qp, pp := q * q, q * p, p * p;
    assert Ease(q) - Ease(p) == (q - p) * (3.0 * (q + p) - 2.0 * (qq + qp + pp));
    assert pp <= p by { assert p * p <= p * 1.0; }
    assert qq <= q by { assert q * q <= q * 1.0; }
    assert qp <= p by { assert q * p <= 1.0 * p; }
    assert qp <= q by { assert q * p <= q * 1.0; }
    var f := 3.0 * (q + p) - 2.0 * (qq + qp + pp);
    assert 0.0 <= f;
    assert 0.0 <= (q - p) * f;
  }

  /** Time only moves the eased weight forward, and it reaches 1 exactly at the duration. */
  lemma EasedProgressMonotone(e1: real, e2: real)
    requires 0.0 <= e1 <= e2
    ensures 0.0 <= Ease(Progress(e1)) <= Ease(Progress(e2)) <= 1.0
    ensures Ease(Progress(e2)) == 1.0 <== e2 >= Duration
  {
    assert Progress(e1) <= Progress(e2) by {
      assert e1 / Duration <= e2 / Duration;
    }
    EaseBounds(Progress(e1));
    EaseBounds(Progress(e2));
    EaseMonotone(Progress(e1), Progress(e2));
  }

  // The controller.

  lemma InitialValid()
    ensures Valid(Initial) && !IsAnimating(Initial)
  {
  }

  /** Run the requested frames at the given times; also count the completion callbacks that ran. */
  function Run(c: Cam, times: seq<real>): (r: (Cam, nat))
    ensures c.pending.None? ==> r == (c, 0)
    ensures Valid(c) ==> Valid(r.0)
    decreases |times|
  {
    if |times| == 0 then (c, 0)
    else
      var (c1, fired) := Tick(c, times[0]);
      var (c2, n) := Run(c1, times[1..]);
      (c2, n + if fired then 1 else 0)
  }

  /**
   * Whatever the frame times, a transition's completion callback runs at most
   * once, and only if one was supplied.
   */
  lemma {:induction false} CallbackAtMostOnce(c: Cam, times: seq<real>)
    ensures Run(c, times).1 <= if c.pending.Some? && c.pending.value.hasCallback then 1 else 0
    decreases |times|
  {
    if |times| > 0 {
      var (c1, fired) := Tick(c, times[0]);
      CallbackAtMostOnce(c1, times[1..]);
      if fired {
        assert c1.pending.None?;
      } else if c1.pending.Some? {
        assert c1.pending == c.pending;
      }
    }
  }

  /** Once a frame at or past the duration has run, the controller is idle with the transition's end pose. */
  lemma FinishedTransition(c: Cam, now: real)
    requires Valid(c) && c.isAnimating
    requires now - c.pending.value.startTime >= Duration
    ensures !Tick(c, now).0.isAnimating
    ensures Tick(c, now).0.position == c.pending.value.endPosition
    ensures Tick(c, now).0.controls.target == c.pending.value.endTarget
    ensures Tick(c, now).1 == c.pending.value.hasCallback
  {
  }

  /** A completed zoom-in leaves rotation off, zoom on and the distance in [9, 15]; a completed reset, rotation on and [20, 45]. */
  lemma CompletionConstraints(c: Cam, now: real)
    requires Valid(c) && c.isAnimating
    requires now - c.pending.value.startTime >= Duration
    ensures c.pending.value.kind == ZoomIn ==>
              Tick(c, now).0.controls == Controls(c.pending.value.endTarget, false, true, 9.0, Finite(15.0))
    ensures c.pending.value.kind == Reset ==>
              Tick(c, now).0.controls == Controls(c.pending.value.endTarget, true, true, 20.0, Finite(45.0))
  {
  }

  /** Cancelling a running transition releases the mutex but keeps the lifted limits. */
  lemma CancelKeepsLiftedLimits(c: Cam)
    requires Valid(c) && c.isAnimating
    ensures !CancelAnimation(c).isAnimating
    ensures CancelAnimation(c).controls.minDistance == 0.0
    ensures CancelAnimation(c).controls.maxDistance == Infinite
  {
  }

  /** Zooming in and letting the transition run out ends at the panel view, locked, with the callback run. */
  lemma ZoomThenFinish(c: Cam, screenPosition: Vec3, now: real, later: real)
    requires Valid(c) && !c.isAnimating
    requires later - now >= Duration
    ensures var z := ZoomToScreen(c, screenPosition, now, true).0;
            Tick(z, later) == (z.(position := UIPosition,
                                  controls := Controls(screenPosition, false, true, 9.0, Finite(15.0)),
                                  isAnimating := false, animationId := None, pending := None), true)
  {
  }

  /** The target clamp is idempotent, and every target ends on the plane x = -1. */
  lemma ClampTargetIdempotent(t: Vec3)
    ensures ClampTarget(ClampTarget(t)) == ClampTarget(t)
    ensures ClampTarget(t).y == Max(t.y, 6.0)
  {
  }
}
