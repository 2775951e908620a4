/**
 * Points, vectors and block areas (BlockCoordHelper, both BlockArea generations).
 * Coordinates are exact reals: addition, subtraction, min and max are exact;
 * lengths, angles and area overlap are supplied as function values in `FloatOps`.
 */
module Geometry {
  import opened Wrappers

  /** A point of the page (`BlockPoint`). */
  datatype BlockPoint = BlockPoint(x: real, y: real)

  /** A 2-D vector (`System.Numerics.Vector2`). */
  datatype Vector2 = Vector2(x: real, y: real)

  const Zero: Vector2 := Vector2(0.0, 0.0)

  /** `BlockCoordHelper.EQUALITY_TOLERANCE` (0.001f). */
  const EQUALITY_TOLERANCE: real := 0.001

  function Abs(r: real): (a: real)
    ensures a >= 0.0 && (a == r || a == -r)
  {
    if r < 0.0 then -r else r
  }

  function Max(a: real, b: real): (m: real)
    ensures m >= a && m >= b && (m == a || m == b)
  {
    if a >= b then a else b
  }

  function Min(a: real, b: real): (m: real)
    ensures m <= a && m <= b && (m == a || m == b)
  {
    if a <= b then a else b
  }

  function Negate(v: Vector2): Vector2
  {
    Vector2(-v.x, -v.y)
  }

  /** The point reached from `p` by moving along `v`. */
  function Translate(p: BlockPoint, v: Vector2): BlockPoint
  {
    BlockPoint(p.x + v.x, p.y + v.y)
  }

  /** `BlockCoordHelper.Diff`: the vector leading from `source` to `target`. */
  function Diff(source: BlockPoint, target: BlockPoint): (v: Vector2)
    ensures Translate(source, v) == target
    ensures v == Zero <==> source == target
  {
    Vector2(target.x - source.x, target.y - source.y)
  }

  /** Reversing the two points negates the difference. */
  lemma DiffAntisymmetric(s: BlockPoint, t: BlockPoint)
    ensures Diff(s, t) == Negate(Diff(t, s))
    ensures Diff(s, s) == Zero
  {
  }

  /** The vector is the only one leading from `source` to `target`. */
  lemma {:induction false} DiffUnique(source: BlockPoint, target: BlockPoint, v: Vector2)
    requires Translate(source, v) == target
    ensures v == Diff(source, target)
  {
    assert v.x == target.x - source.x && v.y == target.y - source.y;
  }

  /**
   * `BlockCoordHelper.CoordEquality`. Despite its name it is true when the two
   * coordinates are FARTHER apart than the tolerance.
   */
  function CoordEquality(a: real, b: real): (r: bool)
    ensures !r <==> -EQUALITY_TOLERANCE <= a - b <= EQUALITY_TOLERANCE
    ensures a == b ==> !r
  {
    Abs(a - b) > EQUALITY_TOLERANCE
  }

  lemma CoordEqualitySymmetric(a: real, b: real)
    ensures CoordEquality(a, b) == CoordEquality(b, a)
  {
  }

  /**
   * A block's bounding quadrilateral. Both generations of `BlockArea` store
   * their four corners and a width and height; X and Y are the top-left corner.
   */
  datatype BlockArea = BlockArea(
    topLeft: BlockPoint,
    topRight: BlockPoint,
    bottomRight: BlockPoint,
    bottomLeft: BlockPoint,
    width: real,
    height: real)
  {
    function X(): real { topLeft.x }
    function Y(): real { topLeft.y }

    function TopLine(): Vector2 { Diff(topLeft, topRight) }
    function BottomLine(): Vector2 { Diff(bottomLeft, bottomRight) }
    function LeftLine(): Vector2 { Diff(topLeft, bottomLeft) }
    function RightLine(): Vector2 { Diff(topRight, bottomRight) }

    /** `GetPoints`: the corners clockwise from the top-left one. */
    function GetPoints(): (pts: seq<BlockPoint>)
      ensures |pts| == 4
      ensures pts[0] == topLeft && pts[1] == topRight && pts[2] == bottomRight && pts[3] == bottomLeft
    {
      [topLeft, topRight, bottomRight, bottomLeft]
    }
  }

  /** A vector length function: never negative. */
  ghost predicate IsLength(length: Vector2 -> real)
  {
    forall v :: length(v) >= 0.0
  }

  /** The first-generation constructor `BlockArea(x, y, width, height)`. */
  function FromBox(x: real, y: real, width: real, height: real): (a: BlockArea)
    ensures a.X() == x && a.Y() == y && a.width == width && a.height == height
    ensures a.topLeft == BlockPoint(x, y) && a.topRight == BlockPoint(x + width, y)
    ensures a.bottomRight == BlockPoint(x + width, y + height) && a.bottomLeft == BlockPoint(x, y + height)
  {
    BlockArea(BlockPoint(x, y), BlockPoint(x + width, y),
              BlockPoint(x + width, y + height), BlockPoint(x, y + height),
              width, height)
  }

  /**
   * A box built from a width and a height is an axis-aligned rectangle: the top
   * edge is horizontal of length `width`, the left edge vertical of length
   * `height`, and opposite edges are equal.
   */
  lemma FromBoxIsRectangle(x: real, y: real, width: real, height: real)
    requires width >= 0.0 && height >= 0.0
    ensures var a := FromBox(x, y, width, height);
      && a.TopLine() == a.BottomLine() == Vector2(width, 0.0)
      && a.LeftLine() == a.RightLine() == Vector2(0.0, height)
      && a.topLeft.x <= a.topRight.x && a.topLeft.y <= a.bottomLeft.y
  {
  }

  /** The second-generation constructor `BlockArea(topLeft, topRight, bottomRight, bottomLeft)`. */
  function FromCorners(tl: BlockPoint, tr: BlockPoint, br: BlockPoint, bl: BlockPoint,
                       length: Vector2 -> real): (a: BlockArea)
    ensures a.GetPoints() == [tl, tr, br, bl]
    ensures a.X() == tl.x && a.Y() == tl.y
    ensures a.width == length(Diff(tl, tr)) && a.height == length(Diff(tl, bl))
    ensures IsLength(length) ==> a.width >= 0.0 && a.height >= 0.0
  {
    var topLine := Diff(tl, tr);
    var leftLine := Diff(tl, bl);
    BlockArea(tl, tr, br, bl, length(topLine), length(leftLine))
  }

  /** An area whose width and height are its edge lengths is rebuilt by its own points. */
  lemma {:induction false} PointsRoundTrip(a: BlockArea, length: Vector2 -> real)
    requires a.width == length(a.TopLine()) && a.height == length(a.LeftLine())
    ensures var p := a.GetPoints(); FromCorners(p[0], p[1], p[2], p[3], length) == a
  {
    var p := a.GetPoints();
    assert p[0] == a.topLeft && p[1] == a.topRight && p[2] == a.bottomRight && p[3] == a.bottomLeft;
  }

  /**
   * Both generations agree: rebuilding a first-generation box from its corners
   * gives the same area, as long as the length of an axis-aligned vector is its extent.
   */
  lemma {:induction false} GenerationsAgree(x: real, y: real, width: real, height: real, length: Vector2 -> real)
    requires width >= 0.0 && height >= 0.0
    requires length(Vector2(width, 0.0)) == width && length(Vector2(0.0, height)) == height
    ensures var a := FromBox(x, y, width, height);
      FromCorners(a.topLeft, a.topRight, a.bottomRight, a.bottomLeft, length) == a
  {
    FromBoxIsRectangle(x, y, width, height);
    var a := FromBox(x, y, width, height);
    PointsRoundTrip(a, length);
  }

  /**
   * The floating-point geometry the source delegates to System.Numerics and
   * System.Math, and the `BlockArea.Overlap` member it calls but does not show.
   */
  datatype FloatOps = FloatOps(
    length: Vector2 -> real,                       // Vector2.Length
    radianAngle: (Vector2, Vector2) -> real,       // BlockCoordHelper.RadianAngle(a, b, matchSin: true)
    alignTolerance: real,                          // BlockCoordHelper.ALIGN_MAGNITUDE_TOLERANCE
    verticalAdjust: BlockArea -> BlockArea,        // EnsureLeftAlign and edge-length equalisation
    overlap: (BlockArea, BlockArea, Option<real>) -> bool) // BlockArea.Overlap(other[, tolerance]); None: default
}
