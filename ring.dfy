/** A ring of paintable pieces (RingController.cs): it pre-paints a random
    subset of its pieces, can paint all of them at once, and glides down onto
    the rotator's stack, where it becomes the rotator's child. */
module Rings {
  import opened Common
  import opened RingPieces
  import opened Rotators

  /** The entry glide: the rotator found when it started, its end points,
      its duration and the elapsed time. */
  datatype Move = Move(rotator: Rotator, start: Vec3, end: Vec3, time: real, t: real)

  /** A frame of the glide either keeps going or lands; on landing it says
      where the fading circle was spawned and what the rotator started. */
  datatype MoveStep = Moving(m: Move) | Arrived(fadingCircleAt: Vec3, started: Started)

  /** Number of pieces actually pre-painted for a request of n: the loop
      runs n times but stops when no unpainted candidate is left. */
  function PaintedTarget(n: int, pieceCount: nat): nat {
    if n <= 0 then 0 else if n <= pieceCount then n else pieceCount
  }

  /** The list without its first element, or the empty list unchanged. */
  function DropFirst<T>(s: seq<T>): seq<T> {
    if |s| > 0 then s[1..] else s
  }

  class Ring {
    /** The ring's pieces, in the order of its serialized array. */
    const pieces: seq<RingPiece>
    var position: Vec3
    var parent: Rotator?
    var localPosition: Vec3
    var localEulerAngles: Vec3

    ghost predicate Valid() {
      Distinct(pieces)
    }

    constructor (pieces: seq<RingPiece>, position: Vec3)
      requires Distinct(pieces)
      ensures Valid() && this.pieces == pieces && this.position == position && parent == null
    {
      this.pieces := pieces;
      this.position := position;
      parent := null;
      localPosition := position;
      localEulerAngles := Zero3;
    }

    /** The pieces currently tagged "Finish". */
    ghost function Painted(): set<RingPiece>
      reads this, pieces
    {
      set p | p in pieces && p.finished
    }

    /** Every piece carries exactly one cross mark if painted and none
        otherwise: what pre-painting a fresh ring leaves behind. */
    ghost predicate OneMarkPerPaint()
      reads this, pieces
    {
      forall p :: p in pieces ==> |p.children| == (if p.finished then 1 else 0)
    }

    /** Starts the two routines of a ring handed out by the controller. The
        pre-painting runs first, so it is modelled to completion here; the
        glide is returned to be stepped frame by frame. */
    method MoveToRotatorPosition(movingTime: real, paintedPieceNumber: int, ringMaterial: Color,
                                 rotator: Rotator, ringPieceHeight: real)
      returns (ghost chosen: seq<RingPiece>, m: Move)
      requires Valid()
      modifies pieces
      ensures m == Move(rotator, position, Add(rotator.position, Scale(Up, ringPieceHeight * rotator.childCount as real)), movingTime, 0.0)
      ensures |chosen| == PaintedTarget(paintedPieceNumber, |pieces|) && Distinct(chosen)
      ensures forall p :: p in chosen ==> p in pieces && p.finished
      ensures forall p :: p in pieces && p !in chosen ==>
        p.finished == old(p.finished) && p.material == old(p.material) && p.children == old(p.children)
      ensures (forall p :: p in pieces ==> !old(p.finished)) ==>
        |Painted()| == PaintedTarget(paintedPieceNumber, |pieces|)
    {
      chosen := EnablePaintedPiece(paintedPieceNumber, ringMaterial);
      m := Move(rotator, position, Add(rotator.position, Scale(Up, ringPieceHeight * rotator.childCount as real)), movingTime, 0.0);
    }

    /** Paints paintedPieceNumber distinct pieces chosen at random without
        replacement from a working copy of the piece list. When the copy runs
        empty before the count does, the engine's index into the empty list
        throws and the routine ends. The random index is left unconstrained.
        `chosen` records the picks in order. On a ring whose pieces are all
        unpainted, exactly that many pieces end up painted. */
    method EnablePaintedPiece(paintedPieceNumber: int, ringMaterial: Color) returns (ghost chosen: seq<RingPiece>)
      requires Valid()
      modifies pieces
      ensures |chosen| == PaintedTarget(paintedPieceNumber, |pieces|) && Distinct(chosen)
      ensures forall p :: p in chosen ==> p in pieces && p.finished
      ensures forall p :: p in chosen && !old(p.finished) ==>
        p.material == ringMaterial && |p.children| == |old(p.children)| + 1
      ensures forall p :: p in chosen && old(p.finished) ==>
        p.material == old(p.material) && p.children == old(p.children)
      ensures forall p :: p in pieces && p !in chosen ==>
        p.finished == old(p.finished) && p.material == old(p.material) && p.children == old(p.children)
      ensures (forall p :: p in pieces ==> !old(p.finished)) ==>
        |Painted()| == PaintedTarget(paintedPieceNumber, |pieces|)
      ensures old(OneMarkPerPaint()) ==> OneMarkPerPaint()
    {
      var work := pieces;
      var remaining := paintedPieceNumber;
      chosen := [];
      while remaining > 0
        invariant Distinct(work) && Distinct(chosen)
        invariant forall p :: p in work ==> p in pieces
        invariant forall p :: p in chosen ==> p in pieces && p !in work
        invariant forall p :: p in pieces ==> p in work || p in chosen
        invariant |work| + |chosen| == |pieces|
        invariant remaining <= 0 ==> |chosen| == PaintedTarget(paintedPieceNumber, |pieces|)
        invariant remaining > 0 ==> |chosen| == paintedPieceNumber - remaining
        invariant forall p :: p in chosen ==> p.finished
        invariant forall p :: p in chosen && !old(p.finished) ==>
          p.material == ringMaterial && |p.children| == |old(p.children)| + 1
        invariant forall p :: p in chosen && old(p.finished) ==>
          p.material == old(p.material) && p.children == old(p.children)
        invariant forall p :: p in work ==>
          p.finished == old(p.finished) && p.material == old(p.material) && p.children == old(p.children)
      {
        if |work| == 0 {
          break;
        }
        var index :| 0 <= index < |work|;
        var piece := work[index];
        assert piece in work;
        assert piece !in chosen;
        piece.ChangeColor(ringMaterial);
        chosen := chosen + [piece];
        work := work[..index] + work[index + 1..];
        remaining := remaining - 1;
      }
      if forall p :: p in pieces ==> !old(p.finished) {
        assert Painted() == set p | p in chosen;
        DistinctCard(chosen);
      }
    }

    /** Paints every piece that is still unpainted and then destroys each
        piece's first child. On a ring that carries one cross mark per
        painted piece, no cross mark is left afterwards. */
    method PaintedAllPieces(ringMaterial: Color)
      requires Valid()
      modifies pieces
      ensures forall p :: p in pieces ==> p.finished
      ensures forall p :: p in pieces && old(p.finished) ==>
        p.material == old(p.material) && p.children == DropFirst(old(p.children))
      ensures forall p :: p in pieces && !old(p.finished) ==>
        p.material == ringMaterial && |p.children| == |old(p.children)|
      ensures old(OneMarkPerPaint()) ==> forall p :: p in pieces ==> p.children == []
    {
      for i := 0 to |pieces|
        invariant forall j :: 0 <= j < i ==> pieces[j].finished
        invariant forall j :: 0 <= j < i && old(pieces[j].finished) ==>
          pieces[j].material == old(pieces[j].material) && pieces[j].children == DropFirst(old(pieces[j].children))
        invariant forall j :: 0 <= j < i && !old(pieces[j].finished) ==>
          pieces[j].material == ringMaterial && |pieces[j].children| == |old(pieces[j].children)|
        invariant forall j :: i <= j < |pieces| ==>
          pieces[j].finished == old(pieces[j].finished) && pieces[j].material == old(pieces[j].material)
          && pieces[j].children == old(pieces[j].children)
      {
        pieces[i].ChangeColor(ringMaterial);
        pieces[i].RemoveCrossPrefab();
      }
    }

    /** One frame of the glide. Until the duration has elapsed the ring is
        interpolated towards the top of the stack. On the frame after, it
        spawns the fading circle half a ring height below itself, becomes the
        rotator's child (the child count grows by one, the local offset keeps
        only the height above the rotator, the local rotation is cleared) and
        makes the rotator react with half the glide time as bounce time. The
        frame that uses up the time puts the ring exactly on the stack. */
    method StepMove(m: Move, dt: real, ringPieceHeight: real, level: LevelData, choices: seq<LegChoice>)
      returns (r: MoveStep)
      requires m.t >= m.time && m.rotator.childCount == 0 && !m.rotator.isRotated && |level.rotatingTypes| > 0 ==>
        exists k :: 0 <= k < |choices| && Escapes(level, choices[k])
      requires 0.0 <= m.t && 0.0 <= dt
      modifies this, m.rotator
      ensures m.t < m.time ==>
        && r == Moving(m.(t := m.t + dt))
        && position == Lerp(m.start, m.end, (m.t + dt) / m.time)
        && parent == old(parent)
        && unchanged(m.rotator)
      ensures m.t < m.time && m.t + dt >= m.time ==> position == m.end
      ensures m.t >= m.time ==>
        && r.Arrived?
        && r.fadingCircleAt == Add(old(position), Scale(Down, ringPieceHeight / 2.0))
        && parent == m.rotator
        && m.rotator.childCount == old(m.rotator.childCount) + 1
        && localPosition == Vec3(0.0, old(position).y - m.rotator.position.y, 0.0)
        && position == Vec3(m.rotator.position.x, old(position).y, m.rotator.position.z)
        && localEulerAngles == Zero3
        && m.rotator.position == old(m.rotator.position)
      ensures m.t >= m.time && old(m.rotator.childCount) >= 1 ==>
        && m.rotator.stopRotate && m.rotator.isRotated == old(m.rotator.isRotated)
        && r.started.StartedBounce? && r.started.bounce.legTime == m.time / 4.0
      ensures m.t >= m.time && old(m.rotator.childCount) == 0 ==>
        && m.rotator.isRotated && m.rotator.stopRotate == old(m.rotator.stopRotate)
        && (old(m.rotator.isRotated) || |level.rotatingTypes| == 0 <==> r.started.NothingStarted?)
      ensures m.t >= m.time && old(m.rotator.childCount) == 0 && r.started.StartedRotation? ==>
        exists k :: IsFirstEscape(level, choices, k) && r.started.leg == NewLeg(m.rotator.eulerAngles, level, choices[k])
    {
      if m.t < m.time {
        var next := m.(t := m.t + dt);
        if next.t >= next.time {
          ElapsedFactor(next.t, next.time);
        }
        position := Lerp(next.start, next.end, next.t / next.time);
        return Moving(next);
      }
      var fadingCircleAt := Add(position, Scale(Down, ringPieceHeight / 2.0));
      var rotator := m.rotator;
      parent := rotator;
      rotator.childCount := rotator.childCount + 1;
      localPosition := Vec3(0.0, position.y - rotator.position.y, 0.0);
      position := Vec3(rotator.position.x, position.y, rotator.position.z);
      localEulerAngles := Zero3;
      var started := rotator.MoveDownAndBounce(m.time / 2.0, ringPieceHeight, level, choices);
      r := Arrived(fadingCircleAt, started);
    }
  }
}
