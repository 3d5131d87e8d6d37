/** A painted ball (PaintedBallController.cs): it is shot forward to the
    first collider within reach, resolves what it struck on arrival, and can
    be advanced one slot in the queue. Its calls into the other components
    (sound, controller, ring, rotator, particles) are recorded in order in
    an action log. */
module PaintedBalls {
  import opened Common

  /** Reach of the shooting ray, of the arrival ray, and how far behind the
      ball the explosion is played. */
  const ShootRayLength: real := 100.0
  const ArrivalRayLength: real := 1.0
  const ExplodeBackOffset: real := 0.05

  /** A ray cast that struck a collider: where, and at what distance. */
  datatype RayHit = RayHit(point: Vec3, distance: real)

  /** The calls the ball makes into other components. */
  datatype BallAction =
    | PlayPaintSound
    | NotifyHitPainted        // GameController.HandleHitPaintedRingPiece
    | PaintStruckPiece        // RingPieceController.ChangeColor on the struck piece
    | PaintWholeRing          // RingController.PaintedAllPieces on the struck piece's ring
    | SpawnFadingRing         // GameController.CreateFadingRing at the ring's position
    | NotifyHitNormal         // GameController.HandleHitNormalRingPiece
    | ShakeRotator
    | Explode(at: Vec3)       // GameController.PlayPaintedBallExplode

  /** The flight routine towards the shooting ray's hit point. */
  datatype Flight = Flight(start: Vec3, target: Vec3, time: real, t: real)

  /** The routine that moves a waiting ball forward by one slot. */
  datatype Advance = Advance(start: Vec3, end: Vec3, time: real, t: real)

  /** The reaction to the collider the arrival ray struck, before the shake
      and the explosion: a piece tagged "Finish" ends the game and nothing
      is painted; any other piece is painted when balls remain, or its whole
      ring is painted and faded when this was the last ball, and in both
      cases the controller is told exactly once that a normal piece was hit,
      after the painting. */
  function HitReaction(struckFinish: bool, outOfBalls: bool): (acts: seq<BallAction>)
    ensures NotifyHitPainted in acts <==> struckFinish
    ensures NotifyHitNormal in acts <==> !struckFinish
    ensures CountOf(acts, NotifyHitPainted) + CountOf(acts, NotifyHitNormal) == 1
    ensures |acts| > 0 && acts[|acts| - 1] in {NotifyHitPainted, NotifyHitNormal}
    ensures PaintStruckPiece in acts <==> !struckFinish && !outOfBalls
    ensures PaintWholeRing in acts <==> !struckFinish && outOfBalls
    ensures SpawnFadingRing in acts <==> PaintWholeRing in acts
    ensures forall k :: 0 <= k < |acts| ==> !acts[k].Explode? && acts[k] != ShakeRotator && acts[k] != PlayPaintSound
  {
    if struckFinish then [NotifyHitPainted]
    else if !outOfBalls then [PaintStruckPiece, NotifyHitNormal]
    else [PaintWholeRing, SpawnFadingRing, NotifyHitNormal]
  }

  class PaintedBall {
    var position: Vec3
    var destroyed: bool
    /** Calls made into other components, oldest first. */
    var actions: seq<BallAction>

    constructor (position: Vec3)
      ensures this.position == position && !destroyed && actions == []
    {
      this.position := position;
      destroyed := false;
      actions := [];
    }

    /** Shoots the ball forward. `hit` is what the forward ray of length
        ShootRayLength struck, if anything. With no hit nothing starts and
        the ball stays where it is; otherwise the flight lasts the hit
        distance divided by the speed. */
    method Shoot(speed: real, hit: Option<RayHit>) returns (flight: Option<Flight>)
      requires speed > 0.0
      requires hit.Some? ==> 0.0 <= hit.value.distance <= ShootRayLength
      ensures hit.None? <==> flight.None?
      ensures hit.Some? ==> flight == Some(Flight(position, hit.value.point, hit.value.distance / speed, 0.0))
      ensures flight.Some? ==> 0.0 <= flight.value.time <= ShootRayLength / speed
    {
      match hit {
        case None => flight := None;
        case Some(h) =>
          flight := Some(Flight(position, h.point, h.distance / speed, 0.0));
          assert h.distance / speed <= ShootRayLength / speed by {
            assert ShootRayLength / speed - h.distance / speed == (ShootRayLength - h.distance) / speed;
          }
      }
    }

    /** One frame of the flight. While the flight time has not elapsed the
        ball is interpolated towards the hit point, and the frame that uses
        up the time puts it exactly there. On the frame after, the paint
        sound plays and the arrival ray is cast: `arrival` is None when it
        struck nothing within ArrivalRayLength, and otherwise says whether
        the struck piece is tagged "Finish". On a hit the ball reacts, shakes
        the rotator, plays its explosion just behind itself and is destroyed;
        on a miss it stays, undestroyed. */
    method StepFlight(f: Flight, dt: real, arrival: Option<bool>, outOfBalls: bool) returns (r: Option<Flight>)
      requires 0.0 <= f.t && 0.0 <= dt
      modifies this
      ensures f.t < f.time ==>
        && r == Some(f.(t := f.t + dt))
        && position == Lerp(f.start, f.target, (f.t + dt) / f.time)
        && actions == old(actions) && destroyed == old(destroyed)
      ensures f.t < f.time && f.t + dt >= f.time ==> position == f.target
      ensures f.t >= f.time ==> r.None? && position == old(position)
      ensures f.t >= f.time && arrival.None? ==>
        actions == old(actions) + [PlayPaintSound] && destroyed == old(destroyed)
      ensures f.t >= f.time && arrival.Some? ==>
        && actions == old(actions) + [PlayPaintSound] + HitReaction(arrival.value, outOfBalls)
                      + [ShakeRotator, Explode(Add(position, Scale(Back, ExplodeBackOffset)))]
        && destroyed
    {
      if f.t < f.time {
        var next := f.(t := f.t + dt);
        if next.t >= next.time {
          ElapsedFactor(next.t, next.time);
        }
        position := Lerp(next.start, next.target, next.t / next.time);
        return Some(next);
      }
      actions := actions + [PlayPaintSound];
      match arrival {
        case None =>
        case Some(struckFinish) =>
          actions := actions + HitReaction(struckFinish, outOfBalls);
          actions := actions + [ShakeRotator, Explode(Add(position, Scale(Back, ExplodeBackOffset)))];
          destroyed := true;
      }
      r := None;
    }

    /** The per-frame check: once the game is over, a ball still on screen
        explodes where it is and is destroyed, unless the game-over screen
        is already showing. */
    method Update(gameOverScreen: bool, state: GameState)
      requires !destroyed
      modifies this
      ensures position == old(position)
      ensures !gameOverScreen && state == GameOver ==>
        actions == old(actions) + [Explode(position)] && destroyed
      ensures gameOverScreen || state != GameOver ==>
        actions == old(actions) && destroyed == old(destroyed)
    {
      if gameOverScreen {
        return;
      }
      if state == GameOver {
        actions := actions + [Explode(position)];
        destroyed := true;
      }
    }

    /** Starts moving the ball forward by forwardDistance over time. */
    method MoveForward(forwardDistance: real, time: real) returns (a: Advance)
      ensures a == Advance(position, Add(position, Scale(Forward, forwardDistance)), time, 0.0)
      ensures a.end.x == position.x && a.end.y == position.y && a.end.z == position.z + forwardDistance
    {
      a := Advance(position, Add(position, Scale(Forward, forwardDistance)), time, 0.0);
    }

    /** One frame of the forward move; the frame that uses up the time puts
        the ball exactly on its new slot. */
    method StepAdvance(a: Advance, dt: real) returns (r: Option<Advance>)
      requires 0.0 <= a.t && 0.0 <= dt
      modifies this
      ensures destroyed == old(destroyed) && actions == old(actions)
      ensures a.t < a.time ==>
        r == Some(a.(t := a.t + dt)) && position == Lerp(a.start, a.end, (a.t + dt) / a.time)
      ensures a.t < a.time && a.t + dt >= a.time ==> position == a.end
      ensures a.t >= a.time ==> r.None? && position == old(position)
    {
      if a.t < a.time {
        var next := a.(t := a.t + dt);
        if next.t >= next.time {
          ElapsedFactor(next.t, next.time);
        }
        position := Lerp(next.start, next.end, next.t / next.time);
        return Some(next);
      }
      r := None;
    }
  }
}
