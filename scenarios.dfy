/** Properties of whole runs that span several components or frames: the
    ring-by-ring progress of a level, and the shake and bounce routines of
    the rotator driven frame by frame until they finish. */
module Scenarios {
  import opened Common
  import opened Rotators
  import opened GameControl

  /** The decisions taken when the last ball of each ring hits a normal
      piece, ring after ring, starting at ringCount, for at most `rings`
      rings; the sequence stops at the win. Each entry is the outcome
      GameController.HandleHitNormalRingPiece returns with no ball left, and
      the next entry starts from the ring count that call leaves on NextRing
      (one more). */
  function RingOutcomes(ringCount: int, ringNumber: int, rings: nat): seq<RoundOutcome>
    decreases rings
  {
    if rings == 0 then []
    else
      var o := RoundAdvance(0, ringCount, ringNumber);
      if o == Win then [Win] else [o] + RingOutcomes(ringCount + 1, ringNumber, rings - 1)
  }

  /** From a ring count not past the ring number, the level is won exactly
      on ring number ringNumber: every ring before it brings the next ring,
      and the win comes after ringNumber - ringCount of them. */
  lemma {:induction false} LevelWonOnLastRing(ringCount: int, ringNumber: int, rings: nat)
    requires ringCount <= ringNumber && rings > ringNumber - ringCount
    ensures |RingOutcomes(ringCount, ringNumber, rings)| == ringNumber - ringCount + 1
    ensures RingOutcomes(ringCount, ringNumber, rings)[ringNumber - ringCount] == Win
    ensures forall k :: 0 <= k < ringNumber - ringCount ==> RingOutcomes(ringCount, ringNumber, rings)[k] == NextRing
    decreases ringNumber - ringCount
  {
    if ringCount < ringNumber {
      LevelWonOnLastRing(ringCount + 1, ringNumber, rings - 1);
    }
  }

  /** A ring number below the ring count (a level whose ring range allows a
      number below 1) is never reached again: the count only grows, and the
      level can never be won however many rings are painted. */
  lemma {:induction false} LevelNeverWonPastRingNumber(ringCount: int, ringNumber: int, rings: nat)
    requires ringNumber < ringCount
    ensures Win !in RingOutcomes(ringCount, ringNumber, rings)
    ensures |RingOutcomes(ringCount, ringNumber, rings)| == rings
    decreases rings
  {
    if rings > 0 {
      LevelNeverWonPastRingNumber(ringCount + 1, ringNumber, rings - 1);
    }
  }

  /** Runs a shake started on the rotator over the given frame times. When
      the shake has finished, the rotator is exactly where it was before
      the shake, whatever the frame times were; the shake touches nothing
      but the position. */
  method ShakeToEnd(rotator: Rotator, frames: seq<real>) returns (done: bool)
    requires forall k :: 0 <= k < |frames| ==> 0.0 <= frames[k]
    modifies rotator
    ensures done ==> rotator.position == old(rotator.position)
    ensures rotator.stopRotate == old(rotator.stopRotate) && rotator.isRotated == old(rotator.isRotated)
    ensures rotator.childCount == old(rotator.childCount) && rotator.eulerAngles == old(rotator.eulerAngles)
  {
    var s := rotator.ShakeRotator();
    var home := rotator.position;
    done := false;
    var i := 0;
    while i < |frames| && !done
      invariant 0 <= i <= |frames|
      invariant s.start == home && 0.0 <= s.t
      invariant s.back && s.t >= ShakeLegTime ==> rotator.position == home
      invariant done ==> rotator.position == home
      invariant rotator.stopRotate == old(rotator.stopRotate) && rotator.isRotated == old(rotator.isRotated)
      invariant rotator.childCount == old(rotator.childCount) && rotator.eulerAngles == old(rotator.eulerAngles)
    {
      var r := rotator.StepShake(s, frames[i]);
      match r {
        case ShakeDone => done := true;
        case ShakeRunning(next) => s := next;
      }
      i := i + 1;
    }
  }

  /** Runs a bounce that MoveDownAndBounce started over the given frame
      times. The rotation stays stopped on every frame until both legs have
      finished, and is released once they have. */
  method BounceToEnd(rotator: Rotator, b: Bounce, frames: seq<real>) returns (done: bool)
    requires rotator.stopRotate && b.t == 0.0
    requires forall k :: 0 <= k < |frames| ==> 0.0 <= frames[k]
    modifies rotator
    ensures done <==> !rotator.stopRotate
    ensures rotator.isRotated == old(rotator.isRotated) && rotator.childCount == old(rotator.childCount)
    ensures rotator.eulerAngles == old(rotator.eulerAngles)
  {
    var current := b;
    done := false;
    var i := 0;
    while i < |frames| && !done
      invariant 0 <= i <= |frames|
      invariant 0.0 <= current.t
      invariant done <==> !rotator.stopRotate
      invariant rotator.isRotated == old(rotator.isRotated) && rotator.childCount == old(rotator.childCount)
      invariant rotator.eulerAngles == old(rotator.eulerAngles)
    {
      var r := rotator.StepBounce(current, frames[i]);
      match r {
        case BounceDone => done := true;
        case BounceRunning(next) => current := next;
      }
      i := i + 1;
    }
  }
}
