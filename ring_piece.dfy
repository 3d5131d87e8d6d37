/** One paintable segment of a ring (RingPieceController.cs). A piece is
    painted at most once: the "Finish" tag is both the painted flag and the
    guard of ChangeColor. */
module RingPieces {
  import opened Common

  /** The cross mark instantiated under a freshly painted piece. Its local
      placement is visual only and is not modelled. */
  class CrossMark {
    constructor () {}
  }

  class RingPiece {
    /** The piece's tag is "Finish". */
    var finished: bool
    /** Colour of the piece's material. */
    var material: Color
    /** The piece's child objects, in sibling order. */
    var children: seq<CrossMark>

    constructor (finished: bool, material: Color)
      ensures this.finished == finished && this.material == material && children == []
    {
      this.finished := finished;
      this.material := material;
      children := [];
    }

    /** Paints the piece with the current ring material unless it is
        already tagged "Finish": one new cross mark, the ring material and
        the tag. On a tagged piece nothing changes, so the call is
        idempotent, and afterwards the piece is always tagged. */
    method ChangeColor(ringMaterial: Color)
      modifies this
      ensures finished
      ensures old(finished) ==> material == old(material) && children == old(children)
      ensures !old(finished) ==>
        && material == ringMaterial
        && |children| == |old(children)| + 1
        && children[..|old(children)|] == old(children)
        && fresh(children[|old(children)|])
    {
      if !finished {
        AttachCrossPrefab();
        material := ringMaterial;
        finished := true;
      }
    }

    /** Instantiates one cross mark and makes it the last child. */
    method AttachCrossPrefab()
      modifies this
      ensures finished == old(finished) && material == old(material)
      ensures |children| == |old(children)| + 1
      ensures children[..|old(children)|] == old(children)
      ensures fresh(children[|old(children)|])
    {
      var crossMark := new CrossMark();
      children := children + [crossMark];
    }

    /** Destroys the first child if there is one; otherwise does nothing. */
    method RemoveCrossPrefab()
      modifies this
      ensures finished == old(finished) && material == old(material)
      ensures |old(children)| > 0 ==> children == old(children)[1..]
      ensures |old(children)| == 0 ==> children == old(children)
    {
      if |children| > 0 {
        children := children[1..];
      }
    }
  }
}
