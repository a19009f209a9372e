/**
 * Bounding boxes of conversation areas and the overlap test that keeps the
 * areas of one town apart. Coordinates are exact reals, so the halving of
 * width and height is exact.
 */
module Geometry {

  /** A box given by its centre and its extent. */
  datatype BoundingBox = BoundingBox(x: real, y: real, width: real, height: real)

  /** The spans [x1, x2] and [y1, y2] that a box covers. */
  datatype Rect = Rect(x1: real, x2: real, y1: real, y2: real)

  /** The corners of a box: the spans are centred on the box's centre and as wide as its extent. */
  function ToRectPoints(box: BoundingBox): (r: Rect)
    ensures r.x2 - r.x1 == box.width && r.y2 - r.y1 == box.height
    ensures r.x1 + r.x2 == 2.0 * box.x && r.y1 + r.y2 == 2.0 * box.y
  {
    Rect(box.x - box.width / 2.0, box.x + box.width / 2.0,
         box.y - box.height / 2.0, box.y + box.height / 2.0)
  }

  /**
   * Two boxes overlap unless one lies entirely on one side of the other on
   * some axis; a shared edge counts as lying on one side.
   */
  predicate BoxesOverlap(box1: BoundingBox, box2: BoundingBox)
  {
    var rect1 := ToRectPoints(box1);
    var rect2 := ToRectPoints(box2);
    var noOverlap := rect1.x1 >= rect2.x2 || rect2.x1 >= rect1.x2
                  || rect1.y1 >= rect2.y2 || rect2.y1 >= rect1.y2;
    !noOverlap
  }

  /** The point (px, py) lies strictly inside the box. */
  predicate StrictlyInside(px: real, py: real, box: BoundingBox)
  {
    var r := ToRectPoints(box);
    r.x1 < px < r.x2 && r.y1 < py < r.y2
  }

  /** The overlap test does not depend on the order of its arguments. */
  lemma BoxesOverlapSymmetric(box1: BoundingBox, box2: BoundingBox)
    ensures BoxesOverlap(box1, box2) <==> BoxesOverlap(box2, box1)
  {
  }

  /** Boxes that meet along a vertical edge do not overlap. */
  lemma SharedVerticalEdgeIsNoOverlap(box1: BoundingBox, box2: BoundingBox)
    requires ToRectPoints(box1).x2 == ToRectPoints(box2).x1
    ensures !BoxesOverlap(box1, box2) && !BoxesOverlap(box2, box1)
  {
  }

  /** Boxes that meet along a horizontal edge do not overlap. */
  lemma SharedHorizontalEdgeIsNoOverlap(box1: BoundingBox, box2: BoundingBox)
    requires ToRectPoints(box1).y2 == ToRectPoints(box2).y1
    ensures !BoxesOverlap(box1, box2) && !BoxesOverlap(box2, box1)
  {
  }

  /**
   * For boxes of positive extent, the overlap test holds exactly when some
   * point lies strictly inside both boxes: the boxes are treated as open
   * rectangles.
   */
  lemma OverlapIsCommonInteriorPoint(box1: BoundingBox, box2: BoundingBox)
    requires box1.width > 0.0 && box1.height > 0.0
    requires box2.width > 0.0 && box2.height > 0.0
    ensures BoxesOverlap(box1, box2) <==>
            exists px, py :: StrictlyInside(px, py, box1) && StrictlyInside(px, py, box2)
  {
    var r1, r2 := ToRectPoints(box1), ToRectPoints(box2);
    if BoxesOverlap(box1, box2) {
      var lowX := if r1.x1 < r2.x1 then r2.x1 else r1.x1;
      var highX := if r1.x2 < r2.x2 then r1.x2 else r2.x2;
      var lowY := if r1.y1 < r2.y1 then r2.y1 else r1.y1;
      var highY := if r1.y2 < r2.y2 then r1.y2 else r2.y2;
      var px, py := (lowX + highX) / 2.0, (lowY + highY) / 2.0;
      assert StrictlyInside(px, py, box1) && StrictlyInside(px, py, box2);
    }
  }

  /** A box of positive extent overlaps itself. */
  lemma BoxOverlapsItself(box: BoundingBox)
    requires box.width > 0.0 && box.height > 0.0
    ensures BoxesOverlap(box, box)
  {
  }
}
