/** The load-time camera sequencer: a fixed list of keyframes played once,
    each either an instant snap followed by a linear pan, or an eased move
    of the container's position and scale. */
module Camera {
  import opened Options

  /** Ticker delta to milliseconds, for the sequencer. */
  const ProgressTimeScale: real := 16.0
  const DesignWidth: real := 1920.0
  const DesignHeight: real := 1080.0

  /** One scripted phase. duration and hold are the optional fields of the
      source's keyframe objects; panX and panY the optional pan end. */
  datatype Keyframe = Keyframe(
    x: real, y: real, scale: real,
    instant: bool,
    duration: Option<real>,
    hold: Option<real>,
    panX: Option<real>,
    panY: Option<real>)

  /** JavaScript's `a || b` on an optional number: undefined and 0 are falsy. */
  function OrElse(a: Option<real>, b: real): (r: real)
    ensures a.Some? && a.value != 0.0 ==> r == a.value
    ensures a.None? || a.value == 0.0 ==> r == b
    ensures r == b || (a.Some? && r == a.value)
    ensures r == 0.0 <==> (a.None? || a.value == 0.0) && b == 0.0
  {
    if a.Some? && a.value != 0.0 then a.value else b
  }

  /** The phase length: `duration || hold || 0`. */
  function KeyframeDuration(k: Keyframe): (d: real)
    ensures k.duration.Some? && k.duration.value != 0.0 ==> d == k.duration.value
    ensures (k.duration.None? || k.duration.value == 0.0) && k.hold.Some? ==> d == k.hold.value
    ensures d == 0.0 <==> (k.duration.None? || k.duration.value == 0.0)
                          && (k.hold.None? || k.hold.value == 0.0)
  {
    OrElse(k.duration, OrElse(k.hold, 0.0))
  }

  /** A pan is played only if both pan coordinates are given. */
  predicate HasPan(k: Keyframe) {
    k.panX.Some? && k.panY.Some?
  }

  /** The script: three instant close-ups, each held for 2000 ms with a slow
      pan, then a 2000 ms eased zoom out to the full view. Offsets are scaled
      from the 1920x1080 design size to the screen. */
  function Animations(screenWidth: real, screenHeight: real): (script: seq<Keyframe>)
    ensures |script| == 4
    ensures forall i :: 0 <= i < |script| ==> KeyframeDuration(script[i]) == 2000.0
    ensures forall i :: 0 <= i < 3 ==> script[i].instant && HasPan(script[i])
    ensures !script[3].instant && !HasPan(script[3])
    ensures script[3].x == 0.0 && script[3].y == 0.0 && script[3].scale == 1.0
  {
    var sx := screenWidth / DesignWidth;
    var sy := screenHeight / DesignHeight;
    [ Keyframe(-3800.0 * sx, -2100.0 * sy, 4.0, true, None, Some(2000.0),
               Some(-3700.0 * sx), Some(-2110.0 * sy)),
      Keyframe(-3600.0 * sx, -1500.0 * sy, 3.5, true, None, Some(2000.0),
               Some(-3660.0 * sx), Some(-1510.0 * sy)),
      Keyframe(-3800.0 * sx, -1000.0 * sy, 3.5, true, None, Some(2000.0),
               Some(-3750.0 * sx), Some(-1010.0 * sy)),
      Keyframe(0.0, 0.0, 1.0, false, Some(2000.0), None, None, None) ]
  }

  function Cube(x: real): real { x * x * x }

  lemma CubeMonotone(a: real, b: real)
    requires 0.0 <= a <= b
    ensures 0.0 <= Cube(a) <= Cube(b)
  {
    assert a * a <= b * b;
    assert a * a * a <= b * b * b;
  }

  /** The easing curve of the eased phases. */
  function EaseInOutCubic(t: real): (e: real)
    ensures t == 0.0 ==> e == 0.0
    ensures t == 0.5 ==> e == 0.5
    ensures t == 1.0 ==> e == 1.0
  {
    if t < 0.5 then 4.0 * t * t * t
    else
      var c := -2.0 * t + 2.0;
      assert t == 0.5 ==> c == 1.0 && Cube(c) == 1.0;
      assert t == 1.0 ==> c == 0.0 && Cube(c) == 0.0;
      1.0 - Cube(c) / 2.0
  }

  /** On [0, 1] the easing stays in [0, 1], below 1/2 before the midpoint
      and at or above it after. */
  lemma EaseBounds(t: real)
    requires 0.0 <= t <= 1.0
    ensures 0.0 <= EaseInOutCubic(t) <= 1.0
    ensures t < 0.5 ==> EaseInOutCubic(t) < 0.5
    ensures 0.5 <= t ==> 0.5 <= EaseInOutCubic(t)
  {
    if t < 0.5 {
      CubeMonotone(t, 0.5);
      assert 4.0 * t * t * t == 4.0 * Cube(t);
      assert Cube(t) < 0.125 by {
        assert t * t < 0.25 by { assert t * t <= t * 0.5; }
        assert t * t * t <= 0.25 * t;
      }
    } else {
      CubeMonotone(-2.0 * t + 2.0, 1.0);
    }
  }

  /** The easing is non-decreasing on [0, 1]. */
  lemma EaseMonotone(t1: real, t2: real)
    requires 0.0 <= t1 <= t2 <= 1.0
    ensures EaseInOutCubic(t1) <= EaseInOutCubic(t2)
  {
    EaseBounds(t1);
    EaseBounds(t2);
    if t2 < 0.5 {
      CubeMonotone(t1, t2);
      assert 4.0 * t1 * t1 * t1 == 4.0 * Cube(t1);
      assert 4.0 * t2 * t2 * t2 == 4.0 * Cube(t2);
    } else if 0.5 <= t1 {
      CubeMonotone(-2.0 * t2 + 2.0, -2.0 * t1 + 2.0);
    }
  }

  lemma CubeDouble(x: real)
    ensures Cube(2.0 * x) == 8.0 * Cube(x)
  {
  }

  /** The easing is point-symmetric about (1/2, 1/2). */
  lemma EaseSymmetric(t: real)
    ensures EaseInOutCubic(1.0 - t) == 1.0 - EaseInOutCubic(t)
  {
    var s := 1.0 - t;
    if t < 0.5 {
      assert -2.0 * s + 2.0 == 2.0 * t;
      CubeDouble(t);
    } else if t > 0.5 {
      assert -2.0 * t + 2.0 == 2.0 * s;
      CubeDouble(s);
      assert 4.0 * s * s * s == 4.0 * Cube(s);
    }
  }

  /** The pan curve of the instant phases: the identity on the phase fraction. */
  function Linear(t: real): (p: real)
    ensures t == 0.0 ==> p == 0.0
    ensures t == 1.0 ==> p == 1.0
    ensures 0.0 <= t <= 1.0 ==> 0.0 <= p <= 1.0
  {
    t
  }

  /** In the script a keyframe pans exactly when it is an instant one. */
  lemma ScriptPansExactlyWhenInstant(screenWidth: real, screenHeight: real)
    ensures var script := Animations(screenWidth, screenHeight);
      forall i :: 0 <= i < |script| ==> (HasPan(script[i]) <==> script[i].instant)
  {
  }

  lemma MulNonNegative(x: real, y: real)
    requires 0.0 <= x && 0.0 <= y
    ensures 0.0 <= x * y
  {
  }

  /** Scaling c by a weight in [0, 1] lands between 0 and c. */
  lemma ScaledBetween(c: real, w: real)
    requires 0.0 <= w <= 1.0
    ensures 0.0 <= c ==> 0.0 <= c * w <= c
    ensures c <= 0.0 ==> c <= c * w <= 0.0
  {
    if 0.0 <= c {
      MulNonNegative(c, 1.0 - w);
      MulNonNegative(c, w);
    } else {
      MulNonNegative(-c, 1.0 - w);
      MulNonNegative(-c, w);
    }
  }

  /** Interpolation from a to b by weight w, as the ticker writes the
      container's fields. Both branches compute the same value; the split
      only lets the in-range branch call ScaledBetween under its
      precondition, which keeps the nonlinear proof small. */
  function Lerp(a: real, b: real, w: real): (r: real)
    ensures w == 0.0 ==> r == a
    ensures w == 1.0 ==> r == b
    ensures 0.0 <= w <= 1.0 && a <= b ==> a <= r <= b
    ensures 0.0 <= w <= 1.0 && b <= a ==> b <= r <= a
  {
    if 0.0 <= w <= 1.0 then
      ScaledBetween(b - a, w);
      a + (b - a) * w
    else
      a + (b - a) * w
  }

  /** `Math.min(elapsed / duration, 1)`: the fraction of the phase played. */
  function Progress(elapsed: real, duration: real): (t: real)
    requires 0.0 < duration
    ensures t <= 1.0
    ensures duration <= elapsed ==> t == 1.0
    ensures elapsed < duration ==> t * duration == elapsed
    ensures 0.0 <= elapsed ==> 0.0 <= t
  {
    if elapsed / duration < 1.0 then elapsed / duration else 1.0
  }

  /** Halfway through an eased move from (0, 0, 1) to (100, 0, 2) over 1000 ms
      the container is at (50, 0) with scale 1.5. */
  lemma EasedMidpointExample()
    ensures var e := EaseInOutCubic(Progress(500.0, 1000.0));
      Lerp(0.0, 100.0, e) == 50.0 && Lerp(0.0, 0.0, e) == 0.0 && Lerp(1.0, 2.0, e) == 1.5
  {
    assert Progress(500.0, 1000.0) == 0.5;
  }

  /** The sequencer's closure variables and the container transform it drives. */
  class Sequencer {
    const animations: seq<Keyframe>
    var currentAnim: int
    var animProgress: real
    var startX: real
    var startY: real
    var startScale: real
    var targetX: real
    var targetY: real
    var targetScale: real
    var panEndX: real
    var panEndY: real
    var animDuration: real
    var isInstant: bool
    var hasPan: bool
    var containerX: real
    var containerY: real
    var containerScale: real

    /** The script is non-empty, every phase has a positive length (so the
        ticker never divides by zero) and the index is not negative. */
    ghost predicate WellFormed()
      reads this
    {
      && 0 < |animations|
      && (forall i :: 0 <= i < |animations| ==> 0.0 < KeyframeDuration(animations[i]))
      && 0 <= currentAnim
    }

    /** The phase variables hold what StartAnimation took from keyframe k. */
    ghost predicate PhaseOf(k: Keyframe)
      reads this
    {
      && targetX == k.x && targetY == k.y && targetScale == k.scale
      && isInstant == k.instant
      && animDuration == KeyframeDuration(k)
      && hasPan == HasPan(k)
      && (hasPan ==> panEndX == k.panX.value && panEndY == k.panY.value)
    }

    /** What StartAnimation leaves after entering keyframe k with the
        container at (cx, cy) and scale cs, and the pan end at (px, py). */
    ghost predicate Entered(k: Keyframe, cx: real, cy: real, cs: real, px: real, py: real)
      reads this
    {
      && PhaseOf(k)
      && animProgress == 0.0
      && (!HasPan(k) ==> panEndX == px && panEndY == py)
      && startScale == cs
      && (if k.instant then
            && startX == k.x && startY == k.y
            && containerX == k.x && containerY == k.y && containerScale == k.scale
          else
            && startX == cx && startY == cy
            && containerX == cx && containerY == cy && containerScale == cs)
    }

    /** The phase variables describe the current keyframe, or the last one
        once the index has run past the end. */
    ghost predicate Valid()
      reads this
    {
      && WellFormed()
      && PhaseOf(animations[if currentAnim < |animations| then currentAnim else |animations| - 1])
    }

    /** Starts playing script with the container at the origin at scale 1. */
    constructor (script: seq<Keyframe>)
      requires 0 < |script|
      requires forall i :: 0 <= i < |script| ==> 0.0 < KeyframeDuration(script[i])
      ensures Valid() && animations == script
      ensures currentAnim == 0 && animProgress == 0.0
      ensures Entered(script[0], 0.0, 0.0, 1.0, 0.0, 0.0)
      ensures script[0].instant ==>
        containerX == script[0].x && containerY == script[0].y && containerScale == script[0].scale
      ensures !script[0].instant ==>
        containerX == 0.0 && containerY == 0.0 && containerScale == 1.0
    {
      animations := script;
      currentAnim, animProgress := 0, 0.0;
      startX, startY, startScale := 0.0, 0.0, 1.0;
      targetX, targetY, targetScale := 0.0, 0.0, 1.0;
      panEndX, panEndY := 0.0, 0.0;
      animDuration := 0.0;
      isInstant, hasPan := false, false;
      containerX, containerY, containerScale := 0.0, 0.0, 1.0;
      new;
      StartAnimation(0);
    }

    /** Enters keyframe index (or, past the end, restarts at keyframe 0):
        the progress restarts, the phase variables are taken from the
        keyframe, and an instant keyframe snaps the container onto its
        target, which is also where its pan starts. */
    method StartAnimation(index: int)
      requires WellFormed() && 0 <= index
      modifies this
      decreases if index < |animations| then 0 else 1
      ensures WellFormed()
      ensures currentAnim == if index < |animations| then old(currentAnim) else 0
      ensures Entered(animations[if index < |animations| then index else 0],
                      old(containerX), old(containerY), old(containerScale), old(panEndX), old(panEndY))
    {
      if index >= |animations| {
        ghost var cx, cy, cs, px, py := containerX, containerY, containerScale, panEndX, panEndY;
        currentAnim := 0;
        StartAnimation(0);
        assert Entered(animations[0], cx, cy, cs, px, py);
        return;
      }
      var anim := animations[index];
      TakePhase(anim);
      if isInstant {
        containerX := targetX;
        containerY := targetY;
        containerScale := targetScale;
        startX := targetX;
        startY := targetY;
      }
    }

    /** The part of StartAnimation that copies keyframe anim into the phase
        variables and makes the current container transform the start. */
    method TakePhase(anim: Keyframe)
      modifies this`startX, this`startY, this`startScale, this`targetX, this`targetY,
               this`targetScale, this`isInstant, this`animDuration, this`animProgress,
               this`hasPan, this`panEndX, this`panEndY
      ensures PhaseOf(anim) && animProgress == 0.0
      ensures !HasPan(anim) ==> panEndX == old(panEndX) && panEndY == old(panEndY)
      ensures startX == containerX && startY == containerY && startScale == containerScale
    {
      startX := containerX;
      startY := containerY;
      startScale := containerScale;
      targetX := anim.x;
      targetY := anim.y;
      targetScale := anim.scale;
      isInstant := anim.instant;
      animDuration := KeyframeDuration(anim);
      animProgress := 0.0;
      hasPan := anim.panX.Some? && anim.panY.Some?;
      if hasPan {
        panEndX := anim.panX.value;
        panEndY := anim.panY.value;
      }
    }

    /** The container after the ticker's placement step, given the
        transform (cx, cy, cs) it had before: on the pan for an instant phase
        with a pan, on the eased path for an eased phase, untouched otherwise. */
    ghost predicate Placed(cx: real, cy: real, cs: real)
      requires 0.0 < animDuration
      reads this
    {
      var t := Progress(animProgress, animDuration);
      if isInstant && hasPan then
        && containerX == Lerp(startX, panEndX, Linear(t))
        && containerY == Lerp(startY, panEndY, Linear(t))
        && containerScale == cs
      else if !isInstant then
        && containerX == Lerp(startX, targetX, EaseInOutCubic(t))
        && containerY == Lerp(startY, targetY, EaseInOutCubic(t))
        && containerScale == Lerp(startScale, targetScale, EaseInOutCubic(t))
      else
        containerX == cx && containerY == cy && containerScale == cs
    }

    /** The container sits at the end of the phase: on the pan end for an
        instant phase with a pan, on the target for an eased phase. */
    ghost predicate Settled()
      reads this
    {
      && (isInstant && hasPan ==> containerX == panEndX && containerY == panEndY)
      && (!isInstant ==> containerX == targetX && containerY == targetY && containerScale == targetScale)
    }

    /** The placement half of the ticker (t clamped to 1, then pan or ease). */
    method PlaceContainer()
      requires 0.0 < animDuration
      modifies this`containerX, this`containerY, this`containerScale
      ensures Placed(old(containerX), old(containerY), old(containerScale))
      ensures animDuration <= animProgress ==> Settled()
    {
      var t := Progress(animProgress, animDuration);
      if isInstant && hasPan {
        var panT := Linear(t);
        containerX := Lerp(startX, panEndX, panT);
        containerY := Lerp(startY, panEndY, panT);
      } else if !isInstant && animDuration > 0.0 {
        var easedT := EaseInOutCubic(t);
        containerX := Lerp(startX, targetX, easedT);
        containerY := Lerp(startY, targetY, easedT);
        containerScale := Lerp(startScale, targetScale, easedT);
      }
    }

    /** One ticker call. The progress advances by 16 ms per frame unit; when
        it reaches the phase length the index moves on, and the next keyframe
        is entered only if there is one: the script plays once and is never
        restarted. The container is then placed for the (possibly new) phase. */
    method Tick(delta: real)
      requires Valid()
      modifies this
      ensures Valid()
      ensures var advanced := old(animProgress) + delta * ProgressTimeScale >= old(animDuration);
        currentAnim == if advanced then old(currentAnim) + 1 else old(currentAnim)
      ensures var advanced := old(animProgress) + delta * ProgressTimeScale >= old(animDuration);
        var entered := advanced && old(currentAnim) + 1 < |animations|;
        && (!entered ==>
              && animProgress == old(animProgress) + delta * ProgressTimeScale
              && startX == old(startX) && startY == old(startY) && startScale == old(startScale)
              && targetX == old(targetX) && targetY == old(targetY) && targetScale == old(targetScale)
              && panEndX == old(panEndX) && panEndY == old(panEndY)
              && animDuration == old(animDuration)
              && isInstant == old(isInstant) && hasPan == old(hasPan)
              && Placed(old(containerX), old(containerY), old(containerScale)))
        && (entered ==>
              && animProgress == 0.0
              && startScale == old(containerScale)
              && (isInstant ==> startX == targetX && startY == targetY)
              && (!isInstant ==> startX == old(containerX) && startY == old(containerY))
              && (isInstant ==> Placed(targetX, targetY, targetScale))
              && (!isInstant ==> Placed(old(containerX), old(containerY), old(containerScale))))
      ensures animDuration <= animProgress ==> Settled()
    {
      animProgress := animProgress + delta * ProgressTimeScale;
      if animProgress >= animDuration {
        currentAnim := currentAnim + 1;
        if currentAnim < |animations| {
          StartAnimation(currentAnim);
        }
      }
      PlaceContainer();
    }
  }
}
