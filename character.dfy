/** The character's idle motion (eye blinks and blush, eased toward targets
    every tick) and the drag interaction that turns the head and overrides
    those targets. The two share the dragging flag and the targets, so both
    live on one class. */
module Character {

  /** Fraction of the remaining distance to the target covered per tick. */
  const Speed: real := 0.1
  /** Ticker delta to milliseconds, for the blink timer. */
  const BlinkTimeScale: real := 16.67
  /** An eye counts as shut at or below this openness. */
  const ShutThreshold: real := 0.01
  /** Head-angle change per pixel of horizontal drag. */
  const DragSensitivity: real := 0.09

  function Abs(x: real): real { if x < 0.0 then -x else x }

  /** The idle controller's values: the blink timer and interval, the three
      targets and the three current (smoothed) parameter values. */
  datatype IdleState = IdleState(
    timeSinceLastBlink: real,
    blinkInterval: real,
    targetREye: real,
    targetLEye: real,
    targetBlush: real,
    currentREye: real,
    currentLEye: real,
    currentBlush: real)

  /** One first-order smoothing step of current toward target. */
  function Smooth(current: real, target: real): (next: real)
    ensures current <= target ==> current <= next <= target
    ensures target <= current ==> target <= next <= current
    ensures Abs(target - next) == 0.9 * Abs(target - current)
  {
    current + (target - current) * Speed
  }

  /** The interval until the next blink, from a random draw r in [0, 1). */
  function NextBlinkInterval(r: real): (b: real)
    requires 0.0 <= r < 1.0
    ensures 1.0 <= b < 6001.0
  {
    2000.0 * r * (4.0 - 1.0) + 1.0
  }

  /** One idle tick: advance the blink timer, close the eyes when it expires,
      reopen them once both are shut, then smooth all three values. Only the
      timer and the smoothing run while a drag is in progress. */
  function IdleStep(s: IdleState, dragging: bool, delta: real, r: real): (s': IdleState)
    requires 0.0 <= r < 1.0
    ensures s'.targetBlush == s.targetBlush
    ensures s'.blinkInterval == s.blinkInterval || 1.0 <= s'.blinkInterval < 6001.0
    ensures s'.targetREye == s.targetREye || s'.targetREye == 0.0 || s'.targetREye == 1.0
    ensures s'.targetLEye == s.targetLEye || s'.targetLEye == 0.0 || s'.targetLEye == 1.0
    ensures s'.timeSinceLastBlink == 0.0
            || s'.timeSinceLastBlink == s.timeSinceLastBlink + delta * BlinkTimeScale
  {
    var timer := s.timeSinceLastBlink + delta * BlinkTimeScale;
    var close := !dragging && timer >= s.blinkInterval;
    var targetR := if close then 0.0 else s.targetREye;
    var targetL := if close then 0.0 else s.targetLEye;
    var reopen := !dragging
      && s.currentREye <= ShutThreshold && targetR == 0.0
      && s.currentLEye <= ShutThreshold && targetL == 0.0;
    var targetR' := if reopen then 1.0 else targetR;
    var targetL' := if reopen then 1.0 else targetL;
    IdleState(
      if close then 0.0 else timer,
      if reopen then NextBlinkInterval(r) else s.blinkInterval,
      targetR', targetL', s.targetBlush,
      Smooth(s.currentREye, targetR'),
      Smooth(s.currentLEye, targetL'),
      Smooth(s.currentBlush, s.targetBlush))
  }

  /** The timer grows by the scaled delta unless the blink closes this tick,
      and the three values always take one smoothing step toward the new
      targets; the blush target is never changed by the idle tick. */
  lemma IdleStepTimerAndSmoothing(s: IdleState, dragging: bool, delta: real, r: real)
    requires 0.0 <= r < 1.0
    ensures var s' := IdleStep(s, dragging, delta, r);
      && (s'.timeSinceLastBlink == 0.0
          || s'.timeSinceLastBlink == s.timeSinceLastBlink + delta * BlinkTimeScale)
      && (dragging || s.timeSinceLastBlink + delta * BlinkTimeScale < s.blinkInterval
          ==> s'.timeSinceLastBlink == s.timeSinceLastBlink + delta * BlinkTimeScale)
      && s'.targetBlush == s.targetBlush
      && s'.currentREye == Smooth(s.currentREye, s'.targetREye)
      && s'.currentLEye == Smooth(s.currentLEye, s'.targetLEye)
      && s'.currentBlush == Smooth(s.currentBlush, s.targetBlush)
  {
  }

  /** When the timer expires outside a drag, the timer restarts and both eye
      targets close, unless both eyes were already shut, in which case the
      reopen rule fires in the same tick. */
  lemma BlinkCloses(s: IdleState, delta: real, r: real)
    requires 0.0 <= r < 1.0
    requires s.timeSinceLastBlink + delta * BlinkTimeScale >= s.blinkInterval
    ensures var s' := IdleStep(s, false, delta, r);
      && s'.timeSinceLastBlink == 0.0
      && (s.currentREye > ShutThreshold || s.currentLEye > ShutThreshold ==>
            s'.targetREye == 0.0 && s'.targetLEye == 0.0 && s'.blinkInterval == s.blinkInterval)
      && (s.currentREye <= ShutThreshold && s.currentLEye <= ShutThreshold ==>
            s'.targetREye == 1.0 && s'.targetLEye == 1.0 && s'.blinkInterval == NextBlinkInterval(r))
  {
  }

  /** Outside a drag, a tick whose timer has not expired and whose reopen
      condition does not hold leaves both eye targets and the interval alone. */
  lemma BlinkQuiet(s: IdleState, delta: real, r: real)
    requires 0.0 <= r < 1.0
    requires s.timeSinceLastBlink + delta * BlinkTimeScale < s.blinkInterval
    requires !(s.currentREye <= ShutThreshold && s.targetREye == 0.0
               && s.currentLEye <= ShutThreshold && s.targetLEye == 0.0)
    ensures var s' := IdleStep(s, false, delta, r);
      && s'.targetREye == s.targetREye && s'.targetLEye == s.targetLEye
      && s'.blinkInterval == s.blinkInterval
  {
  }

  /** Outside a drag, once both eyes are shut and both targets are closed,
      the targets reopen and a new interval in [1, 6001) is drawn. */
  lemma BlinkReopens(s: IdleState, delta: real, r: real)
    requires 0.0 <= r < 1.0
    requires s.currentREye <= ShutThreshold && s.currentLEye <= ShutThreshold
    requires s.targetREye == 0.0 && s.targetLEye == 0.0
    ensures var s' := IdleStep(s, false, delta, r);
      && s'.targetREye == 1.0 && s'.targetLEye == 1.0
      && s'.blinkInterval == NextBlinkInterval(r)
      && 1.0 <= s'.blinkInterval < 6001.0
  {
  }

  /** While dragging the timer keeps running but the targets and the blink
      interval are left alone. */
  lemma BlinkSuppressedWhileDragging(s: IdleState, delta: real, r: real)
    requires 0.0 <= r < 1.0
    ensures var s' := IdleStep(s, true, delta, r);
      && s'.timeSinceLastBlink == s.timeSinceLastBlink + delta * BlinkTimeScale
      && s'.targetREye == s.targetREye && s'.targetLEye == s.targetLEye
      && s'.blinkInterval == s.blinkInterval
  {
  }

  /** 0.9 to the power n: the remaining gap after n smoothing steps. */
  function Decay(n: nat): (d: real)
    ensures 0.0 < d <= 1.0
  {
    if n == 0 then 1.0 else 0.9 * Decay(n - 1)
  }

  lemma {:induction false} DecayAdd(m: nat, n: nat)
    ensures Decay(m + n) == Decay(m) * Decay(n)
    decreases m
  {
    if m > 0 {
      DecayAdd(m - 1, n);
    }
  }

  /** Forty-four smoothing steps shrink a gap of 1 below the shut threshold. */
  lemma DecayBelowThreshold()
    ensures Decay(44) <= ShutThreshold
  {
    assert Decay(2) == 0.81;
    DecayAdd(2, 2);
    DecayAdd(4, 4);
    DecayAdd(8, 8);
    DecayAdd(16, 16);
    DecayAdd(32, 8);
    DecayAdd(40, 4);
    assert Decay(4) == 0.6561;
    assert Decay(8) == 0.43046721;
    assert Decay(16) <= 0.1854;
    assert Decay(32) <= 0.0344;
    assert Decay(40) <= 0.0149;
  }

  /** The idle controller run over a sequence of ticks without any drag. */
  function IdleRun(s: IdleState, deltas: seq<real>, draws: seq<real>): IdleState
    requires |deltas| == |draws|
    requires forall i :: 0 <= i < |draws| ==> 0.0 <= draws[i] < 1.0
    decreases |deltas|
  {
    if |deltas| == 0 then s
    else IdleRun(IdleStep(s, false, deltas[0], draws[0]), deltas[1..], draws[1..])
  }

  predicate EyesTargetedOpen(s: IdleState) {
    s.targetREye == 1.0 && s.targetLEye == 1.0
  }

  lemma {:induction false} ReopenWithin(s: IdleState, deltas: seq<real>, draws: seq<real>, m: nat)
    requires m <= 44
    requires s.targetREye == 0.0 && s.targetLEye == 0.0
    requires 0.0 <= s.currentREye <= Decay(m) && 0.0 <= s.currentLEye <= Decay(m)
    requires |deltas| == |draws| && 45 - m <= |deltas|
    requires forall i :: 0 <= i < |draws| ==> 0.0 <= draws[i] < 1.0
    ensures exists i :: 1 <= i <= 45 - m && EyesTargetedOpen(IdleRun(s, deltas[..i], draws[..i]))
    decreases 44 - m
  {
    var s' := IdleStep(s, false, deltas[0], draws[0]);
    assert IdleRun(s, deltas[..1], draws[..1]) == IdleRun(s', deltas[..1][1..], draws[..1][1..]);
    if s.currentREye <= ShutThreshold && s.currentLEye <= ShutThreshold {
      assert IdleRun(s, deltas[..1], draws[..1]) == s';
    } else {
      if m == 44 {
        DecayBelowThreshold();
      }
      assert m < 44;
      assert s'.targetREye == 0.0 && s'.targetLEye == 0.0;
      ReopenWithin(s', deltas[1..], draws[1..], m + 1);
      var j :| 1 <= j <= 45 - (m + 1) && EyesTargetedOpen(IdleRun(s', deltas[1..][..j], draws[1..][..j]));
      assert deltas[..j + 1][1..] == deltas[1..][..j];
      assert draws[..j + 1][1..] == draws[1..][..j];
      assert IdleRun(s, deltas[..j + 1], draws[..j + 1]) == IdleRun(s', deltas[1..][..j], draws[1..][..j]);
    }
  }

  /** A blink always completes: once both eye targets are closed and the
      eyes are open at most fully, the targets reopen within 45 ticks
      (absent a drag), whatever the deltas and random draws. */
  lemma BlinkCompletes(s: IdleState, deltas: seq<real>, draws: seq<real>)
    requires s.targetREye == 0.0 && s.targetLEye == 0.0
    requires 0.0 <= s.currentREye <= 1.0 && 0.0 <= s.currentLEye <= 1.0
    requires |deltas| == |draws| && 45 <= |deltas|
    requires forall i :: 0 <= i < |draws| ==> 0.0 <= draws[i] < 1.0
    ensures exists i :: 1 <= i <= 45 && EyesTargetedOpen(IdleRun(s, deltas[..i], draws[..i]))
  {
    ReopenWithin(s, deltas, draws, 0);
  }

  /** The head angle written while dragging: the angle captured at
      pointer-down plus the horizontal pointer travel times the sensitivity. */
  function DragAngle(modelStart: real, dragStart: real, pointerX: real): (a: real)
    ensures a == modelStart <==> pointerX == dragStart
    ensures a > modelStart <==> pointerX > dragStart
  {
    modelStart + (pointerX - dragStart) * DragSensitivity
  }

  /** Moving the pointer by d pixels moves the angle by 0.09 * d. */
  lemma DragAngleTracksPointer(modelStart: real, dragStart: real, pointerX: real, d: real)
    ensures DragAngle(modelStart, dragStart, pointerX + d) - DragAngle(modelStart, dragStart, pointerX)
            == DragSensitivity * d
  {
  }

  /** The character's parameters and the closure state of the idle ticker
      and the drag handlers. angleX and angleY stand for the model's
      ParamAngleX and ParamAngleY; the current values for ParamEyeROpen,
      ParamEyeLOpen and the blush parameter. */
  class Character {
    var timeSinceLastBlink: real
    var blinkInterval: real
    var targetREye: real
    var targetLEye: real
    var targetBlush: real
    var currentREye: real
    var currentLEye: real
    var currentBlush: real
    var isDragging: bool
    var dragStartX: real
    var dragStartY: real
    var modelStartX: real
    var modelStartY: real
    var angleX: real
    var angleY: real

    function Idle(): IdleState
      reads this
    {
      IdleState(timeSinceLastBlink, blinkInterval, targetREye, targetLEye, targetBlush,
                currentREye, currentLEye, currentBlush)
    }

    /** Initial state: blink due after 4000 ms, eyes targeted open, blush
        at -5; the current values are read from the model's parameters. */
    constructor (eyeR: real, eyeL: real, blush: real, angleX0: real, angleY0: real)
      ensures Idle() == IdleState(0.0, 4000.0, 1.0, 1.0, -5.0, eyeR, eyeL, blush)
      ensures !isDragging
      ensures dragStartX == 0.0 && dragStartY == 0.0 && modelStartX == 0.0 && modelStartY == 0.0
      ensures angleX == angleX0 && angleY == angleY0
    {
      timeSinceLastBlink := 0.0;
      blinkInterval := 4000.0;
      targetREye, targetLEye, targetBlush := 1.0, 1.0, -5.0;
      currentREye, currentLEye, currentBlush := eyeR, eyeL, blush;
      isDragging := false;
      dragStartX, dragStartY, modelStartX, modelStartY := 0.0, 0.0, 0.0, 0.0;
      angleX, angleY := angleX0, angleY0;
    }

    /** The blink ticker; r is the value Math.random() would return. */
    method Tick(delta: real, r: real)
      requires 0.0 <= r < 1.0
      modifies this`timeSinceLastBlink, this`blinkInterval, this`targetREye, this`targetLEye,
               this`currentREye, this`currentLEye, this`currentBlush
      ensures Idle() == IdleStep(old(Idle()), isDragging, delta, r)
    {
      timeSinceLastBlink := timeSinceLastBlink + delta * BlinkTimeScale;
      if !isDragging {
        if timeSinceLastBlink >= blinkInterval {
          targetREye := 0.0;
          targetLEye := 0.0;
          timeSinceLastBlink := 0.0;
        }
        if currentREye <= ShutThreshold && targetREye == 0.0
          && currentLEye <= ShutThreshold && targetLEye == 0.0
        {
          targetREye := 1.0;
          targetLEye := 1.0;
          blinkInterval := 2000.0 * r * (4.0 - 1.0) + 1.0;
        }
      }
      currentREye := currentREye + (targetREye - currentREye) * Speed;
      currentLEye := currentLEye + (targetLEye - currentLEye) * Speed;
      currentBlush := currentBlush + (targetBlush - currentBlush) * Speed;
    }

    /** Pointer pressed on the character: start dragging from (x, y),
        remember the current head angles, close the right eye and blush. */
    method PointerDown(x: real, y: real)
      modifies this`isDragging, this`dragStartX, this`dragStartY,
               this`modelStartX, this`modelStartY, this`targetREye, this`targetBlush
      ensures isDragging
      ensures dragStartX == x && dragStartY == y
      ensures modelStartX == angleX && modelStartY == angleY
      ensures targetREye == 0.0 && targetBlush == 10.0
    {
      isDragging := true;
      dragStartX := x;
      dragStartY := y;
      modelStartX := angleX;
      modelStartY := angleY;
      targetREye := 0.0;
      targetBlush := 10.0;
    }

    /** Pointer moved: while dragging, both head angles follow the
        horizontal travel since pointer-down (the vertical one included);
        otherwise nothing changes. */
    method PointerMove(x: real, y: real)
      modifies this`angleX, this`angleY
      ensures isDragging ==> angleX == DragAngle(modelStartX, dragStartX, x)
      ensures isDragging ==> angleY == DragAngle(modelStartX, dragStartX, x)
      ensures !isDragging ==> angleX == old(angleX) && angleY == old(angleY)
    {
      if isDragging {
        var deltaX := x - dragStartX;
        angleX := modelStartX + deltaX * DragSensitivity;
        angleY := modelStartX + deltaX * DragSensitivity;
      }
    }

    /** Pointer released over the stage: the drag ends, targets stay. */
    method StagePointerUp()
      modifies this`isDragging
      ensures !isDragging
    {
      isDragging := false;
    }

    /** Pointer released anywhere in the window: the drag ends and the right
        eye and blush targets return to rest. */
    method WindowPointerUp()
      modifies this`isDragging, this`targetREye, this`targetBlush
      ensures !isDragging
      ensures targetREye == 1.0 && targetBlush == -5.0
    {
      isDragging := false;
      targetREye := 1.0;
      targetBlush := -5.0;
    }
  }
}
