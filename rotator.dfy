/** The turntable that stacks the finished rings (RotatorController.cs).
    It owns two flags: `stopRotate`, raised for the whole of a bounce, and
    `isRotated`, the one-shot latch that starts the endless rotation loop at
    most once. Its three routines (rotating, bouncing, shaking) are records
    returned by the call that starts them and advanced one frame at a time
    by a Step method. */
module Rotators {
  import opened Common

  /** Duration of each leg of a shake, and how far it pushes forward. */
  const ShakeLegTime: real := 0.05
  const ShakeDistance: real := 0.2
  /** Extra drop of a bounce below one ring height, and the rise after it. */
  const BounceOffset: real := 0.5

  /** One leg of the rotation loop: the drawn angle and speed, the eased
      curve, the euler angles it runs between, its duration and the
      elapsed time. An `endless` leg comes from a zero speed: its duration
      is infinite in the engine's float division, so it never finishes and
      its interpolation factor stays 0. */
  datatype Leg = Leg(start: Vec3, end: Vec3, angle: real, speed: real, duration: real, t: real, lerp: LerpType, endless: bool)

  /** The random draws that choose a leg: the angle and speed samples, the
      curve index sample and Random.value for the direction. */
  datatype LegChoice = LegChoice(angleSample: real, speedSample: real, typeSample: nat, coin: real)

  function DrawnAngle(level: LevelData, choice: LegChoice): real {
    RangeReal(level.minRotatingDegrees, level.maxRotatingDegrees, choice.angleSample)
  }

  function DrawnSpeed(level: LevelData, choice: LegChoice): real {
    RangeReal(level.minRotatingSpeed, level.maxRotatingSpeed, choice.speedSample)
  }

  /** Whether a draw gives a leg that runs. The duration is angle / speed
      in float arithmetic: a positive quotient runs for that long, and a
      zero speed under a positive angle gives +Infinity, a leg that runs
      forever. Any other draw (a quotient of zero or less, or 0 / 0, which
      is NaN) skips the leg's loop and draws again in the same frame. */
  predicate Escapes(level: LevelData, choice: LegChoice) {
    var angle := DrawnAngle(level, choice);
    var speed := DrawnSpeed(level, choice);
    if speed == 0.0 then angle > 0.0 else angle / speed > 0.0
  }

  /** A leg that can be stepped: a positive duration or an endless one. */
  predicate LegReady(l: Leg) {
    (l.endless || l.duration > 0.0) && 0.0 <= l.t
  }

  /** The leg's elapsed time has reached its duration. */
  predicate Finished(l: Leg) {
    !l.endless && l.t >= l.duration
  }

  /** The interpolation factor at elapsed time t: t over the duration, or
      0 for an endless leg (t over +Infinity). */
  function LegFactor(l: Leg, t: real): real
    requires l.endless || l.duration > 0.0
  {
    if l.endless then 0.0 else t / l.duration
  }

  /** The leg built from one draw starting at the current euler angles. */
  function NewLeg(start: Vec3, level: LevelData, choice: LegChoice): (l: Leg)
    requires |level.rotatingTypes| > 0 && Escapes(level, choice)
    ensures level.minRotatingDegrees <= level.maxRotatingDegrees ==>
      level.minRotatingDegrees <= l.angle <= level.maxRotatingDegrees
    ensures level.minRotatingSpeed <= level.maxRotatingSpeed ==>
      level.minRotatingSpeed <= l.speed <= level.maxRotatingSpeed
    ensures l.endless <==> l.speed == 0.0
    ensures l.endless ==> l.angle > 0.0
    ensures !l.endless ==> l.duration > 0.0 && l.duration * l.speed == l.angle
    ensures LegReady(l) && !Finished(l)
    ensures l.lerp in level.rotatingTypes
    ensures l.start == start && l.t == 0.0
    ensures l.end.x == start.x && l.end.z == start.z
    ensures l.end.y == start.y + l.angle || l.end.y == start.y - l.angle
  {
    var angle := DrawnAngle(level, choice);
    var speed := DrawnSpeed(level, choice);
    var k := RangeInt(0, |level.rotatingTypes|, choice.typeSample);
    var end := Add(start, Scale(if choice.coin <= 0.5 then Up else Down, angle));
    var endless := speed == 0.0;
    Leg(start, end, angle, speed, if endless then 0.0 else angle / speed, 0.0, level.rotatingTypes[k], endless)
  }

  /** Draw k is the first of the stream that gives a running leg. */
  predicate IsFirstEscape(level: LevelData, choices: seq<LegChoice>, k: int) {
    && 0 <= k < |choices| && Escapes(level, choices[k])
    && forall j :: 0 <= j < k ==> !Escapes(level, choices[j])
  }

  /** The redraw loop at the head of the rotation routine: draws are taken
      from the stream until one gives a running leg, all in one frame.
      `choices` is the stream of random draws; one that escapes must exist,
      otherwise the loop never gives the frame back. */
  method DrawLeg(start: Vec3, level: LevelData, choices: seq<LegChoice>) returns (leg: Leg, used: nat)
    requires |level.rotatingTypes| > 0
    requires exists k :: 0 <= k < |choices| && Escapes(level, choices[k])
    ensures IsFirstEscape(level, choices, used)
    ensures leg == NewLeg(start, level, choices[used])
  {
    used := 0;
    while !Escapes(level, choices[used])
      invariant used < |choices|
      invariant forall j :: 0 <= j < used ==> !Escapes(level, choices[j])
      invariant exists k :: used <= k < |choices| && Escapes(level, choices[k])
      decreases |choices| - used
    {
      used := used + 1;
    }
    leg := NewLeg(start, level, choices[used]);
  }

  datatype BounceLeg = DownLeg | UpLeg

  /** The bounce routine: which leg runs, its end points, the time of each
      leg (half the bounce time) and the elapsed time of the current leg. */
  datatype Bounce = Bounce(leg: BounceLeg, start: Vec3, end: Vec3, legTime: real, t: real)

  datatype BounceStep = BounceRunning(b: Bounce) | BounceDone

  /** The shake routine: `back` is false on the forward leg. */
  datatype Shake = Shake(back: bool, start: Vec3, end: Vec3, t: real)

  datatype ShakeStep = ShakeRunning(s: Shake) | ShakeDone

  /** What MoveDownAndBounce started. */
  datatype Started = StartedBounce(bounce: Bounce) | StartedRotation(leg: Leg) | NothingStarted

  class Rotator {
    var stopRotate: bool
    var isRotated: bool
    /** Number of rings parented to the rotator. */
    var childCount: nat
    var position: Vec3
    var eulerAngles: Vec3
    /** The easing library. */
    const ease: Easing

    constructor (position: Vec3, ease: Easing)
      ensures !stopRotate && !isRotated && childCount == 0
      ensures this.position == position && eulerAngles == Zero3 && this.ease == ease
    {
      stopRotate := false;
      isRotated := false;
      childCount := 0;
      this.position := position;
      eulerAngles := Zero3;
      this.ease := ease;
    }

    /** Reaction to a ring landing. With more than one ring stacked it starts
        a bounce and raises `stopRotate`; otherwise it starts the rotation loop
        only the first time (`isRotated` latches), so at most one rotation
        loop ever exists. A level without rotating curves makes the loop's
        first draw throw: the latch is set but no rotation runs. */
    method MoveDownAndBounce(bounceTime: real, ringPieceHeight: real, level: LevelData, choices: seq<LegChoice>)
      returns (started: Started)
      requires childCount <= 1 && !isRotated && |level.rotatingTypes| > 0 ==>
        exists k :: 0 <= k < |choices| && Escapes(level, choices[k])
      modifies this
      ensures childCount == old(childCount) && position == old(position) && eulerAngles == old(eulerAngles)
      ensures old(childCount) > 1 ==>
        && stopRotate && isRotated == old(isRotated)
        && started == StartedBounce(Bounce(DownLeg, position, Add(position, Scale(Down, ringPieceHeight + BounceOffset)), bounceTime / 2.0, 0.0))
      ensures old(childCount) <= 1 ==> isRotated && stopRotate == old(stopRotate)
      ensures old(childCount) <= 1 && !old(isRotated) && |level.rotatingTypes| > 0 ==>
        exists k :: IsFirstEscape(level, choices, k) && started == StartedRotation(NewLeg(eulerAngles, level, choices[k]))
      ensures old(childCount) <= 1 && (old(isRotated) || |level.rotatingTypes| == 0) ==>
        started == NothingStarted
    {
      if childCount > 1 {
        stopRotate := true;
        var startPos := position;
        var endPos := Add(startPos, Scale(Down, ringPieceHeight + BounceOffset));
        started := StartedBounce(Bounce(DownLeg, startPos, endPos, bounceTime / 2.0, 0.0));
      } else if !isRotated {
        isRotated := true;
        if |level.rotatingTypes| == 0 {
          started := NothingStarted;
        } else {
          var leg, _ := DrawLeg(eulerAngles, level, choices);
          started := StartedRotation(leg);
        }
      } else {
        started := NothingStarted;
      }
    }

    /** One frame of the rotation loop. A finished leg is replaced by the
        first running leg of the redraw loop; with no rotating curves that
        draw throws and the routine ends. While `stopRotate` is raised or
        the game is not Playing the leg is parked: its elapsed time does not
        advance and the angles are not written, so the leg resumes where it
        stopped. Otherwise the angles take the eased interpolation of the
        elapsed fraction. */
    method StepRotation(leg: Leg, dt: real, state: GameState, level: LevelData, choices: seq<LegChoice>)
      returns (next: Option<Leg>)
      requires LegReady(leg) && 0.0 <= dt
      requires Finished(leg) && |level.rotatingTypes| > 0 ==>
        exists k :: 0 <= k < |choices| && Escapes(level, choices[k])
      modifies this
      ensures stopRotate == old(stopRotate) && isRotated == old(isRotated)
      ensures childCount == old(childCount) && position == old(position)
      ensures next.Some? ==> LegReady(next.value)
      ensures !Finished(leg) && (stopRotate || state != Playing) ==>
        next == Some(leg) && eulerAngles == old(eulerAngles)
      ensures !Finished(leg) && !stopRotate && state == Playing ==>
        && next == Some(leg.(t := leg.t + dt))
        && eulerAngles == Lerp(leg.start, leg.end, ease(leg.lerp, LegFactor(leg, leg.t + dt)))
      ensures Finished(leg) && |level.rotatingTypes| == 0 ==>
        next.None? && eulerAngles == old(eulerAngles)
      ensures Finished(leg) && |level.rotatingTypes| > 0 ==>
        exists k :: IsFirstEscape(level, choices, k) &&
          var drawn := NewLeg(old(eulerAngles), level, choices[k]);
          && ((stopRotate || state != Playing) ==> next == Some(drawn) && eulerAngles == old(eulerAngles))
          && (!stopRotate && state == Playing ==>
                next == Some(drawn.(t := dt))
                && eulerAngles == Lerp(drawn.start, drawn.end, ease(drawn.lerp, LegFactor(drawn, dt))))
    {
      var current := leg;
      if Finished(current) {
        if |level.rotatingTypes| == 0 {
          return None;
        }
        var used;
        current, used := DrawLeg(eulerAngles, level, choices);
      }
      if stopRotate || state != Playing {
        next := Some(current);
      } else {
        var stepped := current.(t := current.t + dt);
        eulerAngles := Lerp(current.start, current.end, ease(current.lerp, LegFactor(current, stepped.t)));
        next := Some(stepped);
      }
    }

    /** One frame of a bounce. The first leg drops the stack by one ring
        height plus BounceOffset; the second rises BounceOffset from wherever
        the first leg left it. `stopRotate` is cleared only when the second
        leg has finished, and is not touched before. */
    method StepBounce(b: Bounce, dt: real) returns (r: BounceStep)
      requires 0.0 <= b.t && 0.0 <= dt
      modifies this
      ensures isRotated == old(isRotated) && childCount == old(childCount) && eulerAngles == old(eulerAngles)
      ensures r.BounceRunning? ==> stopRotate == old(stopRotate) && 0.0 <= r.b.t && r.b.legTime == b.legTime
      ensures r.BounceDone? ==> !stopRotate && b.t >= b.legTime
      ensures b.leg == DownLeg && b.t < b.legTime ==>
        && r == BounceRunning(b.(t := b.t + dt))
        && position == Lerp(b.start, b.end, ease(EaseOutQuad, (b.t + dt) / b.legTime))
      ensures b.leg == DownLeg && b.t >= b.legTime && 0.0 < b.legTime ==>
        && r == BounceRunning(Bounce(UpLeg, old(position), Add(old(position), Scale(Up, BounceOffset)), b.legTime, dt))
        && position == Lerp(old(position), Add(old(position), Scale(Up, BounceOffset)), ease(EaseOutQuad, dt / b.legTime))
      ensures b.leg == UpLeg && b.t < b.legTime ==>
        && r == BounceRunning(b.(t := b.t + dt))
        && position == Lerp(b.start, b.end, ease(EaseOutQuad, (b.t + dt) / b.legTime))
      ensures b.legTime <= 0.0 || (b.leg == UpLeg && b.t >= b.legTime) ==>
        r == BounceDone && position == old(position)
    {
      var current := b;
      if current.leg == DownLeg {
        if current.t < current.legTime {
          current := current.(t := current.t + dt);
          position := Lerp(current.start, current.end, ease(EaseOutQuad, current.t / current.legTime));
          return BounceRunning(current);
        }
        current := Bounce(UpLeg, position, Add(position, Scale(Up, BounceOffset)), current.legTime, 0.0);
      }
      if current.t < current.legTime {
        current := current.(t := current.t + dt);
        position := Lerp(current.start, current.end, ease(EaseOutQuad, current.t / current.legTime));
        return BounceRunning(current);
      }
      stopRotate := false;
      r := BounceDone;
    }

    /** Starts a shake: forward by ShakeDistance from the current position,
        then back. */
    method ShakeRotator() returns (s: Shake)
      ensures s == Shake(false, position, Add(position, Scale(Forward, ShakeDistance)), 0.0)
    {
      s := Shake(false, position, Add(position, Scale(Forward, ShakeDistance)), 0.0);
    }

    /** One frame of a shake. Both legs are linear and last ShakeLegTime; the
        interpolation is clamped, so the last write of the backward leg puts
        the rotator exactly where the shake started. */
    method StepShake(s: Shake, dt: real) returns (r: ShakeStep)
      requires 0.0 <= s.t && 0.0 <= dt
      modifies this
      ensures stopRotate == old(stopRotate) && isRotated == old(isRotated)
      ensures childCount == old(childCount) && eulerAngles == old(eulerAngles)
      ensures r.ShakeRunning? ==> 0.0 <= r.s.t && r.s.start == s.start && r.s.end == s.end
      ensures r.ShakeRunning? && !r.s.back ==> position == Lerp(s.start, s.end, r.s.t / ShakeLegTime)
      ensures r.ShakeRunning? && r.s.back ==> position == Lerp(s.end, s.start, r.s.t / ShakeLegTime)
      ensures r.ShakeRunning? && r.s.back && r.s.t >= ShakeLegTime ==> position == s.start
      ensures !s.back ==> r.ShakeRunning?
      ensures r.ShakeDone? <==> s.back && s.t >= ShakeLegTime
      ensures r.ShakeDone? ==> position == old(position)
    {
      var current := s;
      if !current.back {
        if current.t < ShakeLegTime {
          current := current.(t := current.t + dt);
          position := Lerp(current.start, current.end, current.t / ShakeLegTime);
          return ShakeRunning(current);
        }
        current := current.(back := true, t := 0.0);
      }
      if current.t < ShakeLegTime {
        current := current.(t := current.t + dt);
        position := Lerp(current.end, current.start, current.t / ShakeLegTime);
        return ShakeRunning(current);
      }
      r := ShakeDone;
    }
  }
}
