# ZSWRoundedImage in Dafny

A model of ZSWRoundedImage, an iOS utility that draws a small, resizable
image of a rounded rectangle (optionally bordered) for use as a button or
view background. The model covers the two decisions the library makes:

- **`BezierPath.RoundedRectWithoutAliasing`** models
  `UIBezierPath(roundedRectWithoutAliasing:byRoundingCorners:cornerRadius:)`.
  It builds a closed path around a frame. The loop visits the corners top
  left, top right, bottom right, bottom left. Each corner has a start
  point (the midpoint of the edge before it), the corner point and an end
  point (the midpoint of the edge after it). The first iteration moves to
  the start point, because the path is still empty. A corner that is
  selected, with a positive radius, gets one tangent arc (CGPathAddArcToPoint).
  Any other corner gets two straight lines through its vertex. The path
  then closes. Path commands are symbolic values:
  `MoveTo | LineTo | ArcTo(through, to, radius) | Close`.
- **`RoundedImage.ImageWithRoundedCorners`** models
  `UIImage.imageWithRoundedCorners`. It returns a `RenderPlan` holding
  what the function hands to UIKit:
  - the image context's size in pixels and its opaque flag;
  - the background fill and the foreground fill of the path with the
    `.Copy` blend mode;
  - the optional border stroke, with its clamped width;
  - the scale the image is tagged with;
  - the cap insets and the `.Tile` resizing mode.

  The screen scale is a parameter.

Supporting modules:

- `Geometry` models CGPoint, CGSize and CGRect with their min/mid/max
  accessors, plus UIEdgeInsets.
- `Colors` models `UIColor.isTranslucent`. A colour either has readable
  RGBA components or it does not, and one that does not is never
  translucent.
- `Resizing` models the `RoundedResizingDirection` option set as a set of
  axes. It also models the option set's raw-value bits.

The stroke width is `min(borderWidth * screenScale, cornerRadius) * 2`.
This is modelled exactly as written: it compares a border width scaled to
pixels with a radius still in points.

## Model

| member | source | states |
|---|---|---|
| `Resizing.RawValueRoundTrip` | ZSWRoundedImage/ZSWRoundedImage.swift:3-11 | Reading the axes back out of an option set's raw value gives the same set of axes. |
| `Resizing.FromRawValueKeepsLowBits` | ZSWRoundedImage/ZSWRoundedImage.swift:3-10 | For any raw value, including a negative one, `contains` reads only bit 0 (Horizontal) and bit 1 (Vertical). Re-encoding gives the raw value modulo 4. |
| `Resizing.BothIsUnion` | ZSWRoundedImage/ZSWRoundedImage.swift:9-11 | `Both` is the union of Horizontal (0b1) and Vertical (0b10), with raw value 3. |
| `BezierPath.CornerPointsOnOutline` | ZSWRoundedImage/ZSWRoundedImage.swift:92-117 | For every corner, the corner point is a vertex of the frame. The start and end points are edge midpoints, and each shares an edge with that vertex. |
| `BezierPath.CornersChain` | ZSWRoundedImage/ZSWRoundedImage.swift:94-117 | Each corner's end point is the next corner's start point in the order TL, TR, BR, BL. BottomLeft's end is TopLeft's start. |
| `BezierPath.AddCornersAppends` | ZSWRoundedImage/ZSWRoundedImage.swift:125-136 | Once the path is non-empty, the loop adds no move. It appends exactly the remaining corners' segments, in order. |
| `BezierPath.PathShape` | ZSWRoundedImage/ZSWRoundedImage.swift:125-139 | The path is one move to TopLeft's start, then the segments of TL, TR, BR and BL in that order, then one close. |
| `BezierPath.SingleMoveAndClose` | ZSWRoundedImage/ZSWRoundedImage.swift:125-139 | The path starts with a move to (minX, midY) and ends with a close. It contains exactly one move and exactly one close. |
| `BezierPath.SegmentCounts` | ZSWRoundedImage/ZSWRoundedImage.swift:131-136 | A rounded corner contributes one arc and no line. Any other corner contributes two lines and no arc. Neither contributes a move or a close. |
| `BezierPath.CornerCommands` | ZSWRoundedImage/ZSWRoundedImage.swift:131-136 | Every selected corner gets `ArcTo(corner point, end point, radius)` in the path when the radius is positive. Otherwise it gets lines to its corner point and its end point. |
| `BezierPath.ArcsCarryRadius` | ZSWRoundedImage/ZSWRoundedImage.swift:131-132 | Every arc in the path has the given corner radius, and an arc appears only when that radius is positive. |
| `BezierPath.ArcAndLineCounts` | ZSWRoundedImage/ZSWRoundedImage.swift:125-139 | The number of arcs is the number of selected corners when the radius is positive, and 0 otherwise. The number of lines is twice the number of sharp corners. The path has 10 minus the arc count commands. |
| `BezierPath.PlainRectangle` | ZSWRoundedImage/ZSWRoundedImage.swift:92-139 | With no corner selected, or a radius that is not positive, the path is the plain rectangle: a move, eight lines through the vertices and edge midpoints, and a close. |
| `BezierPath.PathTracesOutline` | ZSWRoundedImage/ZSWRoundedImage.swift:89-142 | For any frame, corner set and radius, the path is one closed contour along the frame's outline. Every line, and both tangent lines of every arc, runs along an edge, and no second move occurs. |
| `RoundedImage.ImageWithRoundedCorners` | ZSWRoundedImage/ZSWRoundedImage.swift:28-80 | A stroke is planned exactly when a border width is given, and it is never wider than twice the corner radius. The context scale is 1.0 and the image is tagged with the screen scale. |
| `RoundedImage.CanvasSize` | ZSWRoundedImage/ZSWRoundedImage.swift:30-40 | Width is `2*radius*scale + scale` when Horizontal is set and `2*radius*scale` otherwise. Height follows the same rule with Vertical. |
| `RoundedImage.CanvasSizeIgnoresStyle` | ZSWRoundedImage/ZSWRoundedImage.swift:30-40 | Two requests with the same radius and direction get the same canvas size, whatever their corners, colours and border. |
| `RoundedImage.CapInsetsByAxis` | ZSWRoundedImage/ZSWRoundedImage.swift:67-77 | Top and bottom equal the unscaled radius when Vertical is set, and 0 otherwise. Left and right follow the same rule with Horizontal. |
| `RoundedImage.CapInsetsIgnoreScale` | ZSWRoundedImage/ZSWRoundedImage.swift:67-77 | The cap insets are the same for every screen scale. |
| `RoundedImage.TileSeamIsOnePoint` | ZSWRoundedImage/ZSWRoundedImage.swift:30-79 | On a resizable axis, canvas length equals the two insets plus one point, times the image scale, so the tiled interior is one point wide. On any other axis the insets are 0 and the length is two radii. |
| `RoundedImage.OpaqueIffNoTranslucentColor` | ZSWRoundedImage/ZSWRoundedImage.swift:42-43 | The context is opaque exactly when every colour with readable components among the foreground, the background and the border colour has alpha of at least 1. The border colour counts whenever it is given, even without a border width. |
| `RoundedImage.UnstrokedBorderColorDecidesOpacity` | ZSWRoundedImage/ZSWRoundedImage.swift:42-56 | A translucent border colour given without a border width is never stroked, yet the context is still not opaque. |
| `RoundedImage.StrokeClampedToRadius` | ZSWRoundedImage/ZSWRoundedImage.swift:54-59 | A stroke exists exactly when a border width is given, and it uses the border colour and `.Copy`. Its width is twice the scaled border width while that is at most the radius, and twice the radius otherwise. |
| `RoundedImage.ZeroRadiusSuppressesBorder` | ZSWRoundedImage/ZSWRoundedImage.swift:58 | With radius 0 and a non-negative border width and scale, the stroke width is 0. |
| `RoundedImage.PathOnCanvas` | ZSWRoundedImage/ZSWRoundedImage.swift:47-49 | The path opens at the middle of the canvas's left edge, which is (0, height/2) for a non-negative radius and scale. Every arc in it has the scaled radius `cornerRadius * screenScale`, which is then positive. |
| `RoundedImage.PlanPath` | ZSWRoundedImage/ZSWRoundedImage.swift:49-52 | With a positive radius and scale, the filled path has one arc per selected corner and a single move. It is one closed contour along the canvas outline. |
| `RoundedImage.ArcsFitHalfEdges` | ZSWRoundedImage/ZSWRoundedImage.swift:31-49 | Every half edge of the canvas is at least the scaled radius, so neighbouring arcs never overlap. A half edge equals the radius exactly on a non-resizable axis. |

## Left out

- Rasterisation is left out: `UIGraphicsBeginImageContextWithOptions`, `UIRectFill`, the fill, clip and stroke calls, `UIGraphicsGetImageFromCurrentImageContext`, `UIImage(CGImage:scale:orientation:)` and `resizableImageWithCapInsets`. This is UIKit/Core Graphics code with no visible source. The plan records what is passed to these calls: sizes, flags, colours, blend mode, scales, insets and tile mode.
- `UIScreen.mainScreen().scale` is global device state. It is a `screenScale` parameter.
- The tangent-circle geometry of CGPathAddArcToPoint is left out. An arc stays the symbolic command `ArcTo(through, to, radius)`. `Traces` treats the point after an arc as `to`. The real tangent point lies on the same edge whenever the radius fits.
- CGFloat rounding is left out. All arithmetic is exact `real` arithmetic.
- The `default` branch of `pointsForCorner` is unreachable, because the loop passes only the four single corners. `Corner` has exactly those four values.
- UIRectCorner's raw bit values are not modelled. A corner selection is a `set<Corner>`, and `.AllCorners` is the set of all four.
- Colour components other than alpha are never read by the recipe. They are carried in `Rgba` but not used.
- Negative radius, border width or scale: the size, opacity, stroke and inset arithmetic takes them as written, so the model has no precondition on them. Lemmas that need non-negative values say so in their own `requires`.
- `ImageWithRoundedCorners` returns a plan for every input, including a zero-area or negative canvas size. The Swift code may trap there instead. It force-unwraps `rawImage.CGImage!` at ZSWRoundedImage/ZSWRoundedImage.swift:65, and UIKit creates no image context for a non-positive size. That failure belongs to UIKit and is not modelled.
- Repeatable output for identical inputs is not stated as a lemma. Every operation is a pure function, so it holds by construction.
- A border width with no border colour is stroked in the context's current stroke colour. `Stroke.color` is then `None`, and that colour is not modelled.
- Example/ZSWRoundedImage/ViewController.swift is not part of this model: it is UI wiring with no logic of its own.
