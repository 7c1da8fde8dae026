/**
 Core Graphics value types used by the rounded-image recipe: points, sizes,
 rectangles with their min/mid/max accessors, and UIKit edge insets.
 CGFloat is modelled by exact `real` arithmetic.
 */
module Geometry {

  datatype Point = Point(x: real, y: real)

  datatype Size = Size(width: real, height: real)

  datatype Rect = Rect(origin: Point, size: Size)

  /** UIEdgeInsets, in its declaration order. */
  datatype EdgeInsets = EdgeInsets(top: real, left: real, bottom: real, right: real)

  /** `UIEdgeInsets()`: every inset zero. */
  const ZeroInsets: EdgeInsets := EdgeInsets(0.0, 0.0, 0.0, 0.0)

  /** Smallest x of the rectangle; like CGRectGetMinX it accepts a negative width. */
  function MinX(r: Rect): (m: real)
    ensures m <= r.origin.x && m <= r.origin.x + r.size.width
    ensures m == r.origin.x || m == r.origin.x + r.size.width
  {
    if r.size.width >= 0.0 then r.origin.x else r.origin.x + r.size.width
  }

  /** Largest x of the rectangle. */
  function MaxX(r: Rect): (m: real)
    ensures m >= r.origin.x && m >= r.origin.x + r.size.width
    ensures m == r.origin.x || m == r.origin.x + r.size.width
  {
    if r.size.width >= 0.0 then r.origin.x + r.size.width else r.origin.x
  }

  /** Horizontal centre of the rectangle. */
  function MidX(r: Rect): (m: real)
    ensures MinX(r) <= m <= MaxX(r)
    ensures m - MinX(r) == MaxX(r) - m
  {
    r.origin.x + r.size.width / 2.0
  }

  /** Smallest y of the rectangle (the top edge in UIKit's flipped coordinates). */
  function MinY(r: Rect): (m: real)
    ensures m <= r.origin.y && m <= r.origin.y + r.size.height
    ensures m == r.origin.y || m == r.origin.y + r.size.height
  {
    if r.size.height >= 0.0 then r.origin.y else r.origin.y + r.size.height
  }

  /** Largest y of the rectangle (the bottom edge). */
  function MaxY(r: Rect): (m: real)
    ensures m >= r.origin.y && m >= r.origin.y + r.size.height
    ensures m == r.origin.y || m == r.origin.y + r.size.height
  {
    if r.size.height >= 0.0 then r.origin.y + r.size.height else r.origin.y
  }

  /** Vertical centre of the rectangle. */
  function MidY(r: Rect): (m: real)
    ensures MinY(r) <= m <= MaxY(r)
    ensures m - MinY(r) == MaxY(r) - m
  {
    r.origin.y + r.size.height / 2.0
  }

  /** p lies inside the closed rectangle and on one of its four edges. */
  predicate OnBoundary(r: Rect, p: Point)
  {
    && MinX(r) <= p.x <= MaxX(r)
    && MinY(r) <= p.y <= MaxY(r)
    && (p.x == MinX(r) || p.x == MaxX(r) || p.y == MinY(r) || p.y == MaxY(r))
  }

  /** p is one of the rectangle's four vertices. */
  predicate IsVertex(r: Rect, p: Point)
  {
    && (p.x == MinX(r) || p.x == MaxX(r))
    && (p.y == MinY(r) || p.y == MaxY(r))
  }

  /**
   p and q are boundary points on one common edge line, so the straight
   segment between them runs along the rectangle's outline.
   */
  predicate AlongEdge(r: Rect, p: Point, q: Point)
  {
    && OnBoundary(r, p)
    && OnBoundary(r, q)
    && (|| (p.x == q.x && (p.x == MinX(r) || p.x == MaxX(r)))
        || (p.y == q.y && (p.y == MinY(r) || p.y == MaxY(r))))
  }
}
