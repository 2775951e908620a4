/**
 * `DataTextBlockGroup`: a reusable bag of text blocks with a use counter, the
 * first block pushed as its referential, and corner information derived from
 * its blocks.
 *
 * The normalised edge units are left out (`Vector2.Normalize` is floating
 * point and nothing shown reads them). `Uid` is referenced by the strategies
 * but not defined in the class; it is a constant field here.
 */
module Group {
  import opened Wrappers
  import opened Geometry
  import opened Blocks

  /** The corner properties and the centre a group derives from its blocks. */
  datatype GroupShape = GroupShape(
    topLeft: BlockPoint, topRight: BlockPoint, bottomRight: BlockPoint, bottomLeft: BlockPoint,
    topLine: Vector2, leftLine: Vector2, center: BlockPoint)

  /** A new group's corner properties: every point and vector at its default value. */
  const DefaultShape: GroupShape :=
    GroupShape(BlockPoint(0.0, 0.0), BlockPoint(0.0, 0.0), BlockPoint(0.0, 0.0), BlockPoint(0.0, 0.0),
               Zero, Zero, BlockPoint(0.0, 0.0))

  /** The centre as the source computes it: half of each extent subtracted from the top-left corner. */
  function CenterAsWritten(topLeft: BlockPoint, topRight: BlockPoint, bottomLeft: BlockPoint): (c: BlockPoint)
    ensures c.x == topLeft.x - (topRight.x - topLeft.x) / 2.0
    ensures c.y == topLeft.y - (bottomLeft.y - topLeft.y) / 2.0
  {
    BlockPoint(topLeft.x - (topRight.x - topLeft.x) / 2.0, topLeft.y - (bottomLeft.y - topLeft.y) / 2.0)
  }

  /** The centre of the box spanned by the three corners: half of each extent added to the top-left corner. */
  function Center(topLeft: BlockPoint, topRight: BlockPoint, bottomLeft: BlockPoint): (c: BlockPoint)
    ensures c.x - topLeft.x == topRight.x - c.x
    ensures c.y - topLeft.y == bottomLeft.y - c.y
  {
    BlockPoint(topLeft.x + (topRight.x - topLeft.x) / 2.0, topLeft.y + (bottomLeft.y - topLeft.y) / 2.0)
  }

  /** For a box whose right edge is right of its left edge and whose bottom is below its top, the centre lies inside it. */
  lemma {:induction false} CenterInside(topLeft: BlockPoint, topRight: BlockPoint, bottomLeft: BlockPoint)
    requires topLeft.x <= topRight.x && topLeft.y <= bottomLeft.y
    ensures var c := Center(topLeft, topRight, bottomLeft);
      topLeft.x <= c.x <= topRight.x && topLeft.y <= c.y <= bottomLeft.y
  {
    var c := Center(topLeft, topRight, bottomLeft);
    assert 2.0 * c.x == topLeft.x + topRight.x;
    assert 2.0 * c.y == topLeft.y + bottomLeft.y;
  }

  /** The box from (0, 0) to (2, 2): the computed centre is (-1, -1), outside the box, instead of (1, 1). */
  lemma CenterAsWrittenOutside()
    ensures CenterAsWritten(BlockPoint(0.0, 0.0), BlockPoint(2.0, 0.0), BlockPoint(0.0, 2.0)) == BlockPoint(-1.0, -1.0)
    ensures Center(BlockPoint(0.0, 0.0), BlockPoint(2.0, 0.0), BlockPoint(0.0, 2.0)) == BlockPoint(1.0, 1.0)
  {
  }

  /**
   * `UpdateGroupInfo`: nothing for an empty group; a single block gives its
   * corners and edges; with several blocks the source's branch is an
   * unfinished statement that assigns nothing, so the corners stay. The
   * centre is recomputed whenever the group is not empty.
   */
  function UpdatedShape(blocks: seq<DataBlock>, shape: GroupShape): (r: GroupShape)
    ensures blocks == [] ==> r == shape
    ensures |blocks| == 1 ==>
      var a := blocks[0].area;
      && r.topLeft == a.topLeft && r.topRight == a.topRight
      && r.bottomRight == a.bottomRight && r.bottomLeft == a.bottomLeft
      && r.topLine == a.TopLine() && r.leftLine == a.LeftLine()
    ensures |blocks| > 1 ==>
      && r.topLeft == shape.topLeft && r.topRight == shape.topRight
      && r.bottomRight == shape.bottomRight && r.bottomLeft == shape.bottomLeft
      && r.topLine == shape.topLine && r.leftLine == shape.leftLine
    ensures blocks != [] ==> r.center == Center(r.topLeft, r.topRight, r.bottomLeft)
  {
    if blocks == [] then shape
    else
      var s :=
        if |blocks| == 1 then
          var a := blocks[0].area;
          GroupShape(a.topLeft, a.topRight, a.bottomRight, a.bottomLeft, a.TopLine(), a.LeftLine(), shape.center)
        else shape;
      s.(center := Center(s.topLeft, s.topRight, s.bottomLeft))
  }

  /** A group whose only block has a well-formed area is centred inside that area. */
  lemma {:induction false} SingleBlockCentered(b: DataBlock, shape: GroupShape)
    requires b.area.topLeft.x <= b.area.topRight.x && b.area.topLeft.y <= b.area.bottomLeft.y
    ensures var c := UpdatedShape([b], shape).center;
      b.area.topLeft.x <= c.x <= b.area.topRight.x && b.area.topLeft.y <= c.y <= b.area.bottomLeft.y
  {
    CenterInside(b.area.topLeft, b.area.topRight, b.area.bottomLeft);
  }

  class TextBlockGroup {
    const uid: Guid
    var blocks: seq<DataBlock>
    /** The use counter (`_using`). */
    var usage: int
    var origin: Option<BlockPoint>
    var referential: Option<DataBlock>
    var shape: GroupShape

    /** A new group: no block, not in use. */
    constructor (uid: Guid)
      ensures this.uid == uid && blocks == [] && usage == 0 && !IsUsed()
      ensures origin == None && referential == None && shape == DefaultShape
    {
      this.uid := uid;
      blocks := [];
      usage := 0;
      origin := None;
      referential := None;
      shape := DefaultShape;
    }

    /** `IsUsed`: the counter is not zero, so a counter driven below zero also reads as in use. */
    predicate IsUsed()
      reads this
      ensures usage == 0 ==> !IsUsed()
      ensures usage < 0 || usage > 0 ==> IsUsed()
    {
      usage != 0
    }

    /** `Initialize`: one more user. */
    method Initialize()
      modifies this
      ensures usage == old(usage) + 1
      ensures blocks == old(blocks) && origin == old(origin) && referential == old(referential) && shape == old(shape)
    {
      usage := usage + 1;
    }

    /** `Clear`: one user less, and no block; the referential and the corners are kept. */
    method Clear()
      modifies this
      ensures usage == old(usage) - 1 && blocks == []
      ensures origin == old(origin) && referential == old(referential) && shape == old(shape)
    {
      usage := usage - 1;
      blocks := [];
    }

    /** `PushDataImpl`: the first block into an empty group becomes the referential. */
    method PushData(data: DataBlock)
      modifies this
      ensures blocks == old(blocks) + [data]
      ensures old(blocks) == [] ==> referential == Some(data) && origin == Some(data.area.topLeft)
      ensures old(blocks) == [] ==> RelativePosition(data) == Ok(BlockPoint(0.0, 0.0))
      ensures old(blocks) != [] ==> referential == old(referential) && origin == old(origin)
      ensures usage == old(usage) && shape == old(shape)
    {
      if blocks == [] {
        referential := Some(data);
        origin := Some(data.area.topLeft);
      }
      blocks := blocks + [data];
    }

    /** `UpdateGroupInfo`. */
    method UpdateGroupInfo()
      modifies this
      ensures shape == UpdatedShape(blocks, old(shape))
      ensures blocks == old(blocks) && usage == old(usage) && origin == old(origin) && referential == old(referential)
    {
      if |blocks| == 0 {
        return;
      }
      if |blocks| == 1 {
        var area := blocks[0].area;
        shape := shape.(topLeft := area.topLeft, topLine := area.TopLine(), leftLine := area.LeftLine(),
                        topRight := area.topRight, bottomLeft := area.bottomLeft, bottomRight := area.bottomRight);
      }
      shape := shape.(center := Center(shape.topLeft, shape.topRight, shape.bottomLeft));
    }

    /** `Push`: one block appended at the end, then the group information refreshed. */
    method Push(data: DataBlock)
      modifies this
      ensures blocks == old(blocks) + [data]
      ensures old(blocks) == [] ==> referential == Some(data) && origin == Some(data.area.topLeft)
      ensures old(blocks) != [] ==> referential == old(referential) && origin == old(origin)
      ensures usage == old(usage) && shape == UpdatedShape(blocks, old(shape))
    {
      PushData(data);
      UpdateGroupInfo();
    }

    /**
     * `Consume`: every block of `other`, in order, is pushed. A group consuming
     * itself modifies the list it enumerates: its first block is appended, and
     * the enumeration then throws.
     */
    method Consume(other: TextBlockGroup) returns (r: Result<()>)
      modifies this
      ensures other != this ==>
        && r == Ok(())
        && blocks == old(blocks) + old(other.blocks)
        && (old(blocks) == [] && old(other.blocks) != [] ==>
              referential == Some(old(other.blocks)[0]) && origin == Some(old(other.blocks)[0].area.topLeft))
        && (old(blocks) != [] || old(other.blocks) == [] ==> referential == old(referential) && origin == old(origin))
        && shape == UpdatedShape(blocks, old(shape))
      ensures other == this && old(blocks) == [] ==> r == Ok(()) && blocks == [] && shape == old(shape)
      ensures other == this && old(blocks) != [] ==>
        && r == Err(InvalidOperation)
        && blocks == old(blocks) + [old(blocks)[0]] && shape == old(shape)
      ensures other == this ==> referential == old(referential) && origin == old(origin)
      ensures usage == old(usage)
    {
      if other == this {
        if blocks == [] {
          UpdateGroupInfo();
          return Ok(());
        }
        PushData(blocks[0]);
        return Err(InvalidOperation);
      }
      var source := other.blocks;
      var i := 0;
      while i < |source|
        invariant 0 <= i <= |source| && source == other.blocks
        invariant blocks == old(blocks) + source[..i]
        invariant old(blocks) == [] && i > 0 ==> referential == Some(source[0]) && origin == Some(source[0].area.topLeft)
        invariant old(blocks) != [] || i == 0 ==> referential == old(referential) && origin == old(origin)
        invariant usage == old(usage) && shape == old(shape)
      {
        PushData(source[i]);
        assert source[..i + 1] == source[..i] + [source[i]];
        i := i + 1;
      }
      assert source[..i] == source;
      UpdateGroupInfo();
      return Ok(());
    }

    /** `Compile` is not implemented: it always throws. */
    function Compile(): (r: Result<DataBlock>)
      ensures r.Err? && r.error == NotImplemented
    {
      Err(NotImplemented)
    }

    /**
     * `GetRelativePosition`: the offset from a block's position to the group's
     * origin; the origin is read through `!`, so a group that never held a
     * block throws.
     */
    function RelativePosition(b: DataBlock): (r: Result<BlockPoint>)
      reads this
      ensures origin.None? <==> r.Err?
      ensures r.Err? ==> r.error == InvalidOperation
      ensures r.Ok? ==>
        Translate(BlockPoint(b.area.X(), b.area.Y()), Vector2(r.value.x, r.value.y)) == origin.value
    {
      match origin
      case None => Err(InvalidOperation)
      case Some(o) => Ok(BlockPoint(o.x - b.area.X(), o.y - b.area.Y()))
    }
  }
}
