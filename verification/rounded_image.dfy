/**
 `UIImage.imageWithRoundedCorners`: the decisions the recipe makes before
 handing drawing to UIKit. The result is a render plan: canvas size and
 opacity for the graphics context, the fill and stroke to perform, the
 scale the image is tagged with, and the cap insets and tiling mode that
 make it resizable. The screen scale is a parameter.
 */
module RoundedImage {
  import opened Optional
  import opened Geometry
  import opened Colors
  import opened Resizing
  import opened BezierPath

  /** The arguments of `imageWithRoundedCorners`. */
  datatype Request = Request(
    roundedCorners: set<Corner>,
    cornerRadius: real,
    resizingDirection: set<Axis>,
    foregroundColor: Color,
    backgroundColor: Color,
    borderColor: Option<Color>,
    borderWidth: Option<real>)

  /** Compositing used for the fill and the stroke: `.Copy` replaces, never blends. */
  datatype BlendMode = Copy

  /** How the resizable image fills extra space: `.Tile` repeats the interior. */
  datatype ResizingMode = Tile

  /**
   The border stroke: clipped to the path, drawn with `.Copy`. The colour is
   None when no border colour was given, in which case the context's current
   stroke colour is used.
   */
  datatype Stroke = Stroke(color: Option<Color>, width: real, blend: BlendMode)

  datatype RenderPlan = RenderPlan(
    canvasSize: Size,          // the image context size, in pixels
    isOpaque: bool,            // the context's opaque flag
    contextScale: real,        // the context's own scale
    background: Color,         // fills the whole canvas first
    foreground: Color,         // fills the path
    fillBlend: BlendMode,
    path: seq<PathCmd>,        // built in pixel space
    stroke: Option<Stroke>,
    imageScale: real,          // the scale the extracted image is tagged with
    capInsets: EdgeInsets,     // in points
    resizingMode: ResizingMode)

  /** Swift's `min`: the second argument only when it is strictly smaller. */
  function Min(a: real, b: real): (m: real)
    ensures m <= a && m <= b
    ensures m == a || m == b
  {
    if b < a then b else a
  }

  /** The radius in pixels: the recipe draws in 1.0-scale space so small radii alias less. */
  function ScaledCornerRadius(cornerRadius: real, screenScale: real): (scaled: real)
  {
    cornerRadius * screenScale
  }

  /**
   The context size: twice the scaled radius on each side, plus one point's
   worth of pixels along every axis the image may be resized on.
   */
  function ScaledSize(cornerRadius: real, direction: set<Axis>, screenScale: real): (size: Size)
  {
    var scaledCornerRadius := ScaledCornerRadius(cornerRadius, screenScale);
    var width := scaledCornerRadius * 2.0;
    var height := scaledCornerRadius * 2.0;
    Size(
      if Horizontal in direction then width + screenScale else width,
      if Vertical in direction then height + screenScale else height)
  }

  /** The whole canvas, `CGRect(origin: CGPoint(), size: size)`. */
  function Canvas(size: Size): (frame: Rect)
  {
    Rect(Point(0.0, 0.0), size)
  }

  /** Whether any colour that will be drawn is translucent; an absent border is not. */
  predicate AnyTranslucent(req: Request)
  {
    || IsTranslucent(req.foregroundColor)
    || IsTranslucent(req.backgroundColor)
    || (req.borderColor.Some? && IsTranslucent(req.borderColor.value))
  }

  /**
   Stroke width: the scaled border width, capped by the unscaled corner
   radius, doubled because the clip discards the half outside the path.
   */
  function StrokeWidth(borderWidth: real, cornerRadius: real, screenScale: real): (width: real)
  {
    Min(borderWidth * screenScale, cornerRadius) * 2.0
  }

  /** Cap insets, in points: the unscaled radius on the edges of each resizable axis. */
  function CapInsets(cornerRadius: real, direction: set<Axis>): (insets: EdgeInsets)
  {
    var vertical := if Vertical in direction then ZeroInsets.(top := cornerRadius, bottom := cornerRadius) else ZeroInsets;
    if Horizontal in direction then vertical.(left := cornerRadius, right := cornerRadius) else vertical
  }

  /** The border stroke, planned only when a border width is given. */
  function BorderStroke(req: Request, screenScale: real): (stroke: Option<Stroke>)
  {
    match req.borderWidth
    case Some(w) => Some(Stroke(req.borderColor, StrokeWidth(w, req.cornerRadius, screenScale), Copy))
    case None => None
  }

  /** The plan `imageWithRoundedCorners` carries out on a screen of the given scale. */
  function ImageWithRoundedCorners(req: Request, screenScale: real): (plan: RenderPlan)
    ensures plan.stroke.Some? <==> req.borderWidth.Some?
    ensures plan.stroke.Some? ==> plan.stroke.value.width <= 2.0 * req.cornerRadius
    ensures plan.contextScale == 1.0 && plan.imageScale == screenScale
  {
    var size := ScaledSize(req.cornerRadius, req.resizingDirection, screenScale);
    RenderPlan(
      size,
      !AnyTranslucent(req),
      1.0,
      req.backgroundColor,
      req.foregroundColor,
      Copy,
      RoundedRectWithoutAliasing(Canvas(size), req.roundedCorners, ScaledCornerRadius(req.cornerRadius, screenScale)),
      BorderStroke(req, screenScale),
      screenScale,
      CapInsets(req.cornerRadius, req.resizingDirection),
      Tile)
  }

  /**
   Canvas width is `2*radius*scale + scale` when the image resizes
   horizontally and `2*radius*scale` otherwise; height likewise with the
   vertical axis.
   */
  lemma CanvasSize(req: Request, screenScale: real)
    ensures var size := ImageWithRoundedCorners(req, screenScale).canvasSize;
      && size.width == 2.0 * req.cornerRadius * screenScale + (if Horizontal in req.resizingDirection then screenScale else 0.0)
      && size.height == 2.0 * req.cornerRadius * screenScale + (if Vertical in req.resizingDirection then screenScale else 0.0)
  {
  }

  /** The canvas size depends only on radius, resizing direction and scale. */
  lemma CanvasSizeIgnoresStyle(a: Request, b: Request, screenScale: real)
    requires a.cornerRadius == b.cornerRadius && a.resizingDirection == b.resizingDirection
    ensures ImageWithRoundedCorners(a, screenScale).canvasSize == ImageWithRoundedCorners(b, screenScale).canvasSize
  {
  }

  /**
   Top and bottom insets are the unscaled radius exactly when the image
   resizes vertically and zero otherwise; left and right likewise
   horizontally. The screen scale plays no part.
   */
  lemma CapInsetsByAxis(req: Request, screenScale: real)
    ensures var insets := ImageWithRoundedCorners(req, screenScale).capInsets;
      && insets.top == insets.bottom == (if Vertical in req.resizingDirection then req.cornerRadius else 0.0)
      && insets.left == insets.right == (if Horizontal in req.resizingDirection then req.cornerRadius else 0.0)
  {
  }

  /** Cap insets are in points, so the screen scale does not change them. */
  lemma CapInsetsIgnoreScale(req: Request, s1: real, s2: real)
    ensures ImageWithRoundedCorners(req, s1).capInsets == ImageWithRoundedCorners(req, s2).capInsets
  {
  }

  /**
   Along a resizable axis the tiled interior between the cap insets is
   exactly one point (one screen scale of pixels); along any other axis the
   image is exactly two radii long and has no cap insets.
   */
  lemma TileSeamIsOnePoint(req: Request, screenScale: real)
    ensures var plan := ImageWithRoundedCorners(req, screenScale);
      && (Horizontal in req.resizingDirection ==>
            plan.canvasSize.width == (plan.capInsets.left + 1.0 + plan.capInsets.right) * plan.imageScale)
      && (Horizontal !in req.resizingDirection ==>
            plan.capInsets.left == plan.capInsets.right == 0.0
            && plan.canvasSize.width == 2.0 * req.cornerRadius * plan.imageScale)
      && (Vertical in req.resizingDirection ==>
            plan.canvasSize.height == (plan.capInsets.top + 1.0 + plan.capInsets.bottom) * plan.imageScale)
      && (Vertical !in req.resizingDirection ==>
            plan.capInsets.top == plan.capInsets.bottom == 0.0
            && plan.canvasSize.height == 2.0 * req.cornerRadius * plan.imageScale)
  {
    var plan := ImageWithRoundedCorners(req, screenScale);
    var r := req.cornerRadius;
    assert plan.canvasSize == ScaledSize(r, req.resizingDirection, screenScale);
    assert plan.capInsets == CapInsets(r, req.resizingDirection);
    assert plan.imageScale == screenScale;
    SeamArithmetic(r, screenScale);
  }

  lemma SeamArithmetic(r: real, s: real)
    ensures r * s * 2.0 + s == (r + 1.0 + r) * s
    ensures r * s * 2.0 == 2.0 * r * s
  {
  }

  /**
   The colours that decide opacity: foreground, background and the border
   colour whenever one is given, even when no border width is given and so
   the border colour is never used to stroke.
   */
  function OpacityColors(req: Request): (cs: set<Color>)
    ensures req.foregroundColor in cs && req.backgroundColor in cs
    ensures forall c :: c in cs ==> c == req.foregroundColor || c == req.backgroundColor || req.borderColor == Some(c)
  {
    {req.foregroundColor, req.backgroundColor} + (match req.borderColor case Some(c) => {c} case None => {})
  }

  /**
   The context is opaque exactly when every colour that decides opacity and
   whose components can be read has alpha of at least 1.
   */
  lemma OpaqueIffNoTranslucentColor(req: Request, screenScale: real)
    ensures ImageWithRoundedCorners(req, screenScale).isOpaque
        <==> forall c :: c in OpacityColors(req) ==> c.NonRgb? || c.alpha >= 1.0
  {
  }

  /**
   A stroke is planned exactly when a border width is given. Its colour is
   the border colour; its width is twice the scaled border width while that
   fits within the radius and twice the radius beyond, so it is zero for a
   zero radius.
   */
  lemma StrokeClampedToRadius(req: Request, screenScale: real)
    ensures var plan := ImageWithRoundedCorners(req, screenScale);
      && (req.borderWidth.None? ==> plan.stroke.None?)
      && (req.borderWidth.Some? ==>
            var w := req.borderWidth.value * screenScale;
            && plan.stroke.Some?
            && plan.stroke.value.color == req.borderColor
            && plan.stroke.value.blend == Copy
            && plan.stroke.value.width <= 2.0 * req.cornerRadius
            && (w <= req.cornerRadius ==> plan.stroke.value.width == 2.0 * w)
            && (w >= req.cornerRadius ==> plan.stroke.value.width == 2.0 * req.cornerRadius))
  {
  }

  /** With a non-negative border width and scale, a zero radius suppresses the border. */
  lemma ZeroRadiusSuppressesBorder(req: Request, screenScale: real)
    requires req.cornerRadius == 0.0 && screenScale >= 0.0
    requires req.borderWidth.Some? && req.borderWidth.value >= 0.0
    ensures ImageWithRoundedCorners(req, screenScale).stroke.value.width == 0.0
  {
  }

  /**
   The path is built in pixel space over the whole canvas: it opens at the
   middle of the canvas's left edge, which is x = 0 for a non-negative
   radius and scale, and every arc carries the scaled radius.
   */
  lemma PathOnCanvas(req: Request, screenScale: real)
    ensures var plan := ImageWithRoundedCorners(req, screenScale);
      && |plan.path| >= 6
      && plan.path[0] == MoveTo(Point(MinX(Canvas(plan.canvasSize)), plan.canvasSize.height / 2.0))
      && (req.cornerRadius >= 0.0 && screenScale >= 0.0 ==>
            plan.path[0] == MoveTo(Point(0.0, plan.canvasSize.height / 2.0)))
      && forall cmd | cmd in plan.path && cmd.ArcTo? ::
           cmd.radius == req.cornerRadius * screenScale && cmd.radius > 0.0
  {
  }

  /**
   A border colour given without a border width is never stroked, yet a
   translucent one still makes the context non-opaque.
   */
  lemma UnstrokedBorderColorDecidesOpacity(req: Request, screenScale: real)
    requires req.borderColor.Some? && req.borderColor.value.Rgba? && req.borderColor.value.alpha < 1.0
    requires req.borderWidth.None?
    ensures var plan := ImageWithRoundedCorners(req, screenScale);
      plan.stroke.None? && !plan.isOpaque
  {
  }

  /**
   With a positive radius and scale the plan's path holds one arc per
   rounded corner and a single move, and it is one closed contour along
   the canvas outline.
   */
  lemma PlanPath(req: Request, screenScale: real)
    requires req.cornerRadius > 0.0 && screenScale > 0.0
    ensures var plan := ImageWithRoundedCorners(req, screenScale);
      && Count(plan.path, ArcKind) == |req.roundedCorners|
      && Count(plan.path, MoveKind) == 1
      && IsOutlineContour(Canvas(plan.canvasSize), plan.path)
  {
    var plan := ImageWithRoundedCorners(req, screenScale);
    var frame := Canvas(plan.canvasSize);
    var r := ScaledCornerRadius(req.cornerRadius, screenScale);
    assert plan.path == RoundedRectWithoutAliasing(frame, req.roundedCorners, r);
    PositiveProduct(req.cornerRadius, screenScale);
    ArcAndLineCounts(frame, req.roundedCorners, r);
    SingleMoveAndClose(frame, req.roundedCorners, r);
    PathTracesOutline(frame, req.roundedCorners, r);
  }

  lemma PositiveProduct(a: real, b: real)
    requires a > 0.0 && b > 0.0
    ensures a * b > 0.0
  {
  }

  /**
   Each half edge of the canvas is at least the scaled radius long, so the
   arcs of neighbouring corners never overlap. The half edge equals the
   radius exactly along an axis that is not resizable: a fully rounded
   image with only horizontal resizing is a pill whose height is the
   arcs' diameter.
   */
  lemma ArcsFitHalfEdges(req: Request, screenScale: real)
    requires req.cornerRadius >= 0.0 && screenScale > 0.0
    ensures var frame := Canvas(ImageWithRoundedCorners(req, screenScale).canvasSize);
            var r := ScaledCornerRadius(req.cornerRadius, screenScale);
      && MidX(frame) - MinX(frame) >= r
      && (MidX(frame) - MinX(frame) == r <==> Horizontal !in req.resizingDirection)
      && MidY(frame) - MinY(frame) >= r
      && (MidY(frame) - MinY(frame) == r <==> Vertical !in req.resizingDirection)
  {
  }
}
