/**
 `UIBezierPath(roundedRectWithoutAliasing:byRoundingCorners:cornerRadius:)`:
 a closed path around a rectangle whose selected corners are replaced by
 tangent arcs. The path is a sequence of symbolic Core Graphics path
 commands; the arc geometry itself (CGPathAddArcToPoint) is not computed.
 */
module BezierPath {
  import opened Geometry

  /** The four members of UIRectCorner the builder visits. */
  datatype Corner = TopLeft | TopRight | BottomRight | BottomLeft

  /** The fixed, clockwise order in which the builder visits the corners. */
  const CornerOrder: seq<Corner> := [TopLeft, TopRight, BottomRight, BottomLeft]

  /**
   A Core Graphics path element. `ArcTo(through, to, radius)` is
   CGPathAddArcToPoint: an arc of the given radius tangent to the line from
   the current point to `through` and to the line from `through` to `to`.
   */
  datatype PathCmd =
    | MoveTo(p: Point)
    | LineTo(p: Point)
    | ArcTo(through: Point, to: Point, radius: real)
    | Close

  datatype CmdKind = MoveKind | LineKind | ArcKind | CloseKind

  function KindOf(c: PathCmd): (k: CmdKind)
  {
    match c
    case MoveTo(_) => MoveKind
    case LineTo(_) => LineKind
    case ArcTo(_, _, _) => ArcKind
    case Close => CloseKind
  }

  /** Number of commands of kind k in a path. */
  function Count(path: seq<PathCmd>, k: CmdKind): (n: nat)
    decreases |path|
  {
    if path == [] then 0
    else (if KindOf(path[0]) == k then 1 else 0) + Count(path[1..], k)
  }

  /** Counting distributes over concatenation. */
  lemma {:induction false} CountConcat(a: seq<PathCmd>, b: seq<PathCmd>, k: CmdKind)
    ensures Count(a + b, k) == Count(a, k) + Count(b, k)
    decreases |a|
  {
    if a == [] {
      assert a + b == b;
    } else {
      assert (a + b)[1..] == a[1..] + b;
      CountConcat(a[1..], b, k);
    }
  }

  /** The three points `pointsForCorner` gives one corner. */
  datatype CornerPoints = CornerPoints(start: Point, corner: Point, end: Point)

  /**
   The midpoint of the edge before the corner, the corner itself, and the
   midpoint of the edge after it, going clockwise.
   */
  function PointsForCorner(frame: Rect, c: Corner): (pts: CornerPoints)
  {
    match c
    case TopLeft =>
      CornerPoints(Point(MinX(frame), MidY(frame)), Point(MinX(frame), MinY(frame)), Point(MidX(frame), MinY(frame)))
    case TopRight =>
      CornerPoints(Point(MidX(frame), MinY(frame)), Point(MaxX(frame), MinY(frame)), Point(MaxX(frame), MidY(frame)))
    case BottomRight =>
      CornerPoints(Point(MaxX(frame), MidY(frame)), Point(MaxX(frame), MaxY(frame)), Point(MidX(frame), MaxY(frame)))
    case BottomLeft =>
      CornerPoints(Point(MidX(frame), MaxY(frame)), Point(MinX(frame), MaxY(frame)), Point(MinX(frame), MidY(frame)))
  }

  /**
   The corner point is a vertex of the frame, the start and end points are
   midpoints of the two edges that meet there, and each lies on a common
   edge with the vertex.
   */
  lemma CornerPointsOnOutline(frame: Rect, c: Corner)
    ensures var pts := PointsForCorner(frame, c);
      && IsVertex(frame, pts.corner)
      && AlongEdge(frame, pts.start, pts.corner)
      && AlongEdge(frame, pts.corner, pts.end)
      && (pts.start.x == MidX(frame) || pts.start.y == MidY(frame))
      && (pts.end.x == MidX(frame) || pts.end.y == MidY(frame))
  {
  }

  /** The corner visited after c; BottomLeft wraps round to TopLeft. */
  function NextCorner(c: Corner): (next: Corner)
  {
    match c
    case TopLeft => TopRight
    case TopRight => BottomRight
    case BottomRight => BottomLeft
    case BottomLeft => TopLeft
  }

  /** A corner is rounded when it is selected and the radius is positive. */
  predicate IsRounded(corners: set<Corner>, cornerRadius: real, c: Corner)
  {
    c in corners && cornerRadius > 0.0
  }

  /** What one loop iteration appends for corner c (after any initial move). */
  function Segment(frame: Rect, corners: set<Corner>, cornerRadius: real, c: Corner): (seg: seq<PathCmd>)
  {
    var pts := PointsForCorner(frame, c);
    if IsRounded(corners, cornerRadius, c) then [ArcTo(pts.corner, pts.end, cornerRadius)]
    else [LineTo(pts.corner), LineTo(pts.end)]
  }

  /** The segments of several corners, one after the other. */
  function Segments(frame: Rect, corners: set<Corner>, cornerRadius: real, todo: seq<Corner>): (segs: seq<PathCmd>)
    decreases |todo|
  {
    if todo == [] then []
    else Segment(frame, corners, cornerRadius, todo[0]) + Segments(frame, corners, cornerRadius, todo[1..])
  }

  /**
   The builder's loop over the corners still to visit, with the path built
   so far: a move to the corner's start point while the path is empty, then
   the corner's arc or its two lines.
   */
  function AddCorners(frame: Rect, corners: set<Corner>, cornerRadius: real, todo: seq<Corner>, path: seq<PathCmd>): (built: seq<PathCmd>)
    decreases |todo|
  {
    if todo == [] then path
    else
      var pts := PointsForCorner(frame, todo[0]);
      var moved := if path == [] then [MoveTo(pts.start)] else path;
      AddCorners(frame, corners, cornerRadius, todo[1..], moved + Segment(frame, corners, cornerRadius, todo[0]))
  }

  /** The path: every corner in clockwise order from the top left, then a close. */
  function RoundedRectWithoutAliasing(frame: Rect, corners: set<Corner>, cornerRadius: real): (path: seq<PathCmd>)
  {
    AddCorners(frame, corners, cornerRadius, CornerOrder, []) + [Close]
  }

  /** Once the path is non-empty, the loop only appends the remaining corners' segments. */
  lemma {:induction false} AddCornersAppends(frame: Rect, corners: set<Corner>, cornerRadius: real, todo: seq<Corner>, path: seq<PathCmd>)
    requires path != []
    ensures AddCorners(frame, corners, cornerRadius, todo, path) == path + Segments(frame, corners, cornerRadius, todo)
    decreases |todo|
  {
    if todo == [] {
      assert path + [] == path;
    } else {
      var seg := Segment(frame, corners, cornerRadius, todo[0]);
      AddCornersAppends(frame, corners, cornerRadius, todo[1..], path + seg);
      assert path + seg + Segments(frame, corners, cornerRadius, todo[1..])
          == path + (seg + Segments(frame, corners, cornerRadius, todo[1..]));
    }
  }

  /**
   The whole path: one move to the top-left corner's start point, the four
   corners' segments in the order top left, top right, bottom right, bottom
   left, and one close.
   */
  lemma PathShape(frame: Rect, corners: set<Corner>, cornerRadius: real)
    ensures RoundedRectWithoutAliasing(frame, corners, cornerRadius)
         == [MoveTo(PointsForCorner(frame, TopLeft).start)]
            + Segment(frame, corners, cornerRadius, TopLeft)
            + Segment(frame, corners, cornerRadius, TopRight)
            + Segment(frame, corners, cornerRadius, BottomRight)
            + Segment(frame, corners, cornerRadius, BottomLeft)
            + [Close]
  {
  }

  /** The move opens the path at the left edge's midpoint, and the path holds one move and one close. */
  lemma SingleMoveAndClose(frame: Rect, corners: set<Corner>, cornerRadius: real)
    ensures var path := RoundedRectWithoutAliasing(frame, corners, cornerRadius);
      && |path| >= 6
      && path[0] == MoveTo(Point(MinX(frame), MidY(frame)))
      && path[|path| - 1] == Close
      && Count(path, MoveKind) == 1
      && Count(path, CloseKind) == 1
  {
    PathShape(frame, corners, cornerRadius);
    var path := RoundedRectWithoutAliasing(frame, corners, cornerRadius);
    var body := Segment(frame, corners, cornerRadius, TopLeft)
              + Segment(frame, corners, cornerRadius, TopRight)
              + Segment(frame, corners, cornerRadius, BottomRight)
              + Segment(frame, corners, cornerRadius, BottomLeft);
    assert path == [MoveTo(PointsForCorner(frame, TopLeft).start)] + body + [Close];
    SegmentCounts(frame, corners, cornerRadius, TopLeft);
    SegmentCounts(frame, corners, cornerRadius, TopRight);
    SegmentCounts(frame, corners, cornerRadius, BottomRight);
    SegmentCounts(frame, corners, cornerRadius, BottomLeft);
    BodyCounts(frame, corners, cornerRadius, MoveKind);
    BodyCounts(frame, corners, cornerRadius, CloseKind);
    CountConcat([MoveTo(PointsForCorner(frame, TopLeft).start)], body, MoveKind);
    CountConcat([MoveTo(PointsForCorner(frame, TopLeft).start)] + body, [Close], MoveKind);
    CountConcat([MoveTo(PointsForCorner(frame, TopLeft).start)], body, CloseKind);
    CountConcat([MoveTo(PointsForCorner(frame, TopLeft).start)] + body, [Close], CloseKind);
  }

  /** One corner's segment: an arc when the corner is rounded, otherwise two lines. */
  lemma SegmentCounts(frame: Rect, corners: set<Corner>, cornerRadius: real, c: Corner)
    ensures var seg := Segment(frame, corners, cornerRadius, c);
      && Count(seg, ArcKind) == (if IsRounded(corners, cornerRadius, c) then 1 else 0)
      && Count(seg, LineKind) == (if IsRounded(corners, cornerRadius, c) then 0 else 2)
      && Count(seg, MoveKind) == 0
      && Count(seg, CloseKind) == 0
      && |seg| == (if IsRounded(corners, cornerRadius, c) then 1 else 2)
  {
    var seg := Segment(frame, corners, cornerRadius, c);
    if IsRounded(corners, cornerRadius, c) {
      assert seg[1..] == [];
    } else {
      var pts := PointsForCorner(frame, c);
      assert seg[1..] == [LineTo(pts.end)];
      assert seg[1..][1..] == [];
      forall k
        ensures Count(seg, k) == (if k == LineKind then 2 else 0)
      {
        assert Count(seg[1..], k) == (if k == LineKind then 1 else 0);
      }
    }
  }

  /** Counts over the four corners' segments add up corner by corner. */
  lemma BodyCounts(frame: Rect, corners: set<Corner>, cornerRadius: real, k: CmdKind)
    ensures Count(Segment(frame, corners, cornerRadius, TopLeft)
                  + Segment(frame, corners, cornerRadius, TopRight)
                  + Segment(frame, corners, cornerRadius, BottomRight)
                  + Segment(frame, corners, cornerRadius, BottomLeft), k)
         == Count(Segment(frame, corners, cornerRadius, TopLeft), k)
            + Count(Segment(frame, corners, cornerRadius, TopRight), k)
            + Count(Segment(frame, corners, cornerRadius, BottomRight), k)
            + Count(Segment(frame, corners, cornerRadius, BottomLeft), k)
  {
    var a := Segment(frame, corners, cornerRadius, TopLeft);
    var b := Segment(frame, corners, cornerRadius, TopRight);
    var c := Segment(frame, corners, cornerRadius, BottomRight);
    var d := Segment(frame, corners, cornerRadius, BottomLeft);
    CountConcat(a, b, k);
    CountConcat(a + b, c, k);
    CountConcat(a + b + c, d, k);
  }

  /** The size of a set of corners is the number of corners in it, visited in order. */
  lemma CornerCardinality(corners: set<Corner>)
    ensures |corners| == (if TopLeft in corners then 1 else 0) + (if TopRight in corners then 1 else 0)
                       + (if BottomRight in corners then 1 else 0) + (if BottomLeft in corners then 1 else 0)
  {
    var s3 := corners - {BottomLeft};
    var s2 := s3 - {BottomRight};
    var s1 := s2 - {TopRight};
    NoCornerLeft(s1 - {TopLeft});
    RemoveCorner(s1, TopLeft);
    RemoveCorner(s2, TopRight);
    RemoveCorner(s3, BottomRight);
    RemoveCorner(corners, BottomLeft);
  }

  lemma RemoveCorner(s: set<Corner>, c: Corner)
    ensures |s| == |s - {c}| + (if c in s then 1 else 0)
  {
  }

  lemma NoCornerLeft(s: set<Corner>)
    requires TopLeft !in s && TopRight !in s && BottomRight !in s && BottomLeft !in s
    ensures s == {}
  {
    forall c | c in s
      ensures false
    {
      match c
      case TopLeft =>
      case TopRight =>
      case BottomRight =>
      case BottomLeft =>
    }
  }

  /**
   The path holds one arc per selected corner when the radius is positive
   and none otherwise, two lines for every other corner, and so
   `10 - arcs` commands in all.
   */
  lemma ArcAndLineCounts(frame: Rect, corners: set<Corner>, cornerRadius: real)
    ensures var path := RoundedRectWithoutAliasing(frame, corners, cornerRadius);
      && Count(path, ArcKind) == (if cornerRadius > 0.0 then |corners| else 0)
      && Count(path, LineKind) == 2 * (4 - Count(path, ArcKind))
      && |path| == 10 - Count(path, ArcKind)
  {
    PathShape(frame, corners, cornerRadius);
    var path := RoundedRectWithoutAliasing(frame, corners, cornerRadius);
    var head := [MoveTo(PointsForCorner(frame, TopLeft).start)];
    var body := Segment(frame, corners, cornerRadius, TopLeft)
              + Segment(frame, corners, cornerRadius, TopRight)
              + Segment(frame, corners, cornerRadius, BottomRight)
              + Segment(frame, corners, cornerRadius, BottomLeft);
    assert path == head + body + [Close];
    SegmentCounts(frame, corners, cornerRadius, TopLeft);
    SegmentCounts(frame, corners, cornerRadius, TopRight);
    SegmentCounts(frame, corners, cornerRadius, BottomRight);
    SegmentCounts(frame, corners, cornerRadius, BottomLeft);
    BodyCounts(frame, corners, cornerRadius, ArcKind);
    BodyCounts(frame, corners, cornerRadius, LineKind);
    CountConcat(head, body, ArcKind);
    CountConcat(head + body, [Close], ArcKind);
    CountConcat(head, body, LineKind);
    CountConcat(head + body, [Close], LineKind);
    CornerCardinality(corners);
  }

  /**
   With no corner selected, or a radius that is not positive, the path is
   the plain rectangle: eight lines through the four vertices and the four
   edge midpoints, and no arc.
   */
  lemma PlainRectangle(frame: Rect, corners: set<Corner>, cornerRadius: real)
    requires corners == {} || cornerRadius <= 0.0
    ensures RoundedRectWithoutAliasing(frame, corners, cornerRadius)
         == [ MoveTo(Point(MinX(frame), MidY(frame))),
              LineTo(Point(MinX(frame), MinY(frame))), LineTo(Point(MidX(frame), MinY(frame))),
              LineTo(Point(MaxX(frame), MinY(frame))), LineTo(Point(MaxX(frame), MidY(frame))),
              LineTo(Point(MaxX(frame), MaxY(frame))), LineTo(Point(MidX(frame), MaxY(frame))),
              LineTo(Point(MinX(frame), MaxY(frame))), LineTo(Point(MinX(frame), MidY(frame))),
              Close ]
  {
    PathShape(frame, corners, cornerRadius);
  }

  /**
   Every rounded corner gets the arc through its vertex to the next edge
   midpoint, and every other corner gets the line to its vertex.
   */
  lemma CornerCommands(frame: Rect, corners: set<Corner>, cornerRadius: real, c: Corner)
    ensures var path := RoundedRectWithoutAliasing(frame, corners, cornerRadius);
            var pts := PointsForCorner(frame, c);
      && (IsRounded(corners, cornerRadius, c) ==> ArcTo(pts.corner, pts.end, cornerRadius) in path)
      && (!IsRounded(corners, cornerRadius, c) ==> LineTo(pts.corner) in path && LineTo(pts.end) in path)
  {
    PathShape(frame, corners, cornerRadius);
    var path := RoundedRectWithoutAliasing(frame, corners, cornerRadius);
    var seg := Segment(frame, corners, cornerRadius, c);
    assert forall cmd :: cmd in seg ==> cmd in path;
  }

  /** Each corner ends where the next one in clockwise order starts, the last wrapping to the first. */
  lemma CornersChain(frame: Rect)
    ensures forall c :: PointsForCorner(frame, c).end == PointsForCorner(frame, NextCorner(c)).start
    ensures forall i :: 0 <= i < 3 ==> CornerOrder[i + 1] == NextCorner(CornerOrder[i])
    ensures NextCorner(CornerOrder[3]) == CornerOrder[0]
  {
  }

  /**
   The commands after the opening move, starting from point `from`, follow
   the outline of `frame`: every line and both tangent lines of every arc run
   along an edge, no second move occurs, and the path ends in a close whose
   segment back to `origin` also runs along an edge. The current point after
   an arc is taken to be its `to` point; the real tangent point lies on the
   same edge, between `through` and `to`, when the radius fits.
   */
  predicate Traces(frame: Rect, origin: Point, from: Point, cmds: seq<PathCmd>)
    decreases |cmds|
  {
    if cmds == [] then false
    else match cmds[0]
      case MoveTo(_) => false
      case LineTo(q) => AlongEdge(frame, from, q) && Traces(frame, origin, q, cmds[1..])
      case ArcTo(t, q, _) => AlongEdge(frame, from, t) && AlongEdge(frame, t, q) && Traces(frame, origin, q, cmds[1..])
      case Close => |cmds| == 1 && AlongEdge(frame, from, origin)
  }

  /** A single closed contour that starts on the outline of frame and traces it. */
  predicate IsOutlineContour(frame: Rect, path: seq<PathCmd>)
  {
    && |path| >= 2
    && path[0].MoveTo?
    && OnBoundary(frame, path[0].p)
    && Traces(frame, path[0].p, path[0].p, path[1..])
  }

  /** A corner's segment carries the trace from its start point on to its end point. */
  lemma TracesSegment(frame: Rect, corners: set<Corner>, cornerRadius: real, c: Corner, origin: Point, rest: seq<PathCmd>)
    ensures Traces(frame, origin, PointsForCorner(frame, c).start, Segment(frame, corners, cornerRadius, c) + rest)
        <==> Traces(frame, origin, PointsForCorner(frame, c).end, rest)
  {
  }

  /**
   The path built for any frame, corner selection and radius is a single
   closed contour along the frame's outline.
   */
  lemma PathTracesOutline(frame: Rect, corners: set<Corner>, cornerRadius: real)
    ensures IsOutlineContour(frame, RoundedRectWithoutAliasing(frame, corners, cornerRadius))
  {
    PathShape(frame, corners, cornerRadius);
    var path := RoundedRectWithoutAliasing(frame, corners, cornerRadius);
    var origin := PointsForCorner(frame, TopLeft).start;
    var a := Segment(frame, corners, cornerRadius, TopLeft);
    var b := Segment(frame, corners, cornerRadius, TopRight);
    var c := Segment(frame, corners, cornerRadius, BottomRight);
    var d := Segment(frame, corners, cornerRadius, BottomLeft);
    assert path[1..] == a + (b + (c + (d + [Close])));
    CornerPointsOnOutline(frame, TopLeft);
    CornerPointsOnOutline(frame, BottomLeft);
    assert Traces(frame, origin, PointsForCorner(frame, BottomLeft).end, [Close]);
    TracesSegment(frame, corners, cornerRadius, BottomLeft, origin, [Close]);
    TracesSegment(frame, corners, cornerRadius, BottomRight, origin, d + [Close]);
    TracesSegment(frame, corners, cornerRadius, TopRight, origin, c + (d + [Close]));
    TracesSegment(frame, corners, cornerRadius, TopLeft, origin, b + (c + (d + [Close])));
  }

  /** Every arc in the path carries the given radius, which is then positive. */
  lemma ArcsCarryRadius(frame: Rect, corners: set<Corner>, cornerRadius: real)
    ensures forall cmd | cmd in RoundedRectWithoutAliasing(frame, corners, cornerRadius) && cmd.ArcTo? ::
      cmd.radius == cornerRadius && cornerRadius > 0.0
  {
  }
}
