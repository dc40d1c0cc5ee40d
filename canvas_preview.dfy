/**
 * The canvas compositor: a background layer (solid fill, then either a
 * cover-fitted photo or one random blob per circle), a text layer, and the
 * visible canvas that stacks them, the background through the CSS filter
 * chain and the text without it.
 *
 * The browser's 2D context is modelled as `Context`: the drawing state the
 * pipeline sets (`filter`, `fillStyle`) and a log of the drawing calls.
 */
module CanvasPreview {

  import opened Wrappers
  import opened Strings
  import opened Constants
  import opened Draws
  import Css

  /** Math.PI. */
  const PI: real := 3.141592653589793

  /** Vertices of a blob. */
  const BLOB_POINTS: nat := 6

  /** Relative spread of a vertex radius around the blob radius. */
  const BLOB_VARIANCE: real := 0.4

  function Max(a: real, b: real): real { if a >= b then a else b }

  function Min(a: real, b: real): real { if a <= b then a else b }

  /** One command of a Path2D. */
  datatype PathOp =
    | MoveTo(x: real, y: real)
    | BezierTo(cp1x: real, cp1y: real, cp2x: real, cp2y: real, x: real, y: real)
    | ClosePath

  /** The two offscreen layers the visible canvas is composed of. */
  datatype Layer = BackgroundLayer | TextLayer

  /** A straight stroke from (x0, y0) to (x1, y1). */
  datatype Segment = Segment(x0: real, y0: real, x1: real, y1: real)

  /** A drawing call, with the part of the context state it depends on. */
  datatype Op =
    | ClearRect(w: real, h: real)
    | FillRect(w: real, h: real, color: string, filter: string)
    | DrawLayer(layer: Layer, filter: string)
    | DrawPhoto(src: string, x: real, y: real, w: real, h: real)
    | FillPath(path: seq<PathOp>, color: string)
    | FillText(text: string, x: real, y: real, color: string, alpha: real)
    | Stroke(segments: seq<Segment>, color: string)

  /** A canvas and its 2D context. */
  class Context {
    const width: real
    const height: real
    var filter: string
    var fillStyle: string
    var log: seq<Op>

    constructor (width: real, height: real)
      ensures this.width == width && this.height == height
      ensures filter == "none" && fillStyle == "#000000" && log == []
    {
      this.width := width;
      this.height := height;
      filter := "none";
      fillStyle := "#000000";
      log := [];
    }
  }

  // ---------------------------------------------------------------------
  // Cover fit of a background photo

  /** Where a photo is drawn: its scale, top-left corner and drawn size. */
  datatype Placement = Placement(scale: real, x: real, y: real, width: real, height: real)

  /** The photo's intrinsic size once it has loaded. */
  datatype ImageSize = ImageSize(width: real, height: real)

  function CoverFit(w: real, h: real, img: ImageSize): Placement
    requires img.width > 0.0 && img.height > 0.0
  {
    var scale := Max(w / img.width, h / img.height);
    var sw := img.width * scale;
    var sh := img.height * scale;
    Placement(scale, (w - sw) / 2.0, (h - sh) / 2.0, sw, sh)
  }

  /**
   * Cover fit: the scale is the larger of the two axis ratios, so the drawn
   * photo keeps its aspect ratio, covers the canvas on both axes, matches it
   * exactly on one, and is centred (its offsets are never positive).
   */
  lemma CoverFitCovers(w: real, h: real, img: ImageSize)
    requires img.width > 0.0 && img.height > 0.0
    ensures var p := CoverFit(w, h, img);
      && p.scale >= w / img.width && p.scale >= h / img.height
      && (p.scale == w / img.width || p.scale == h / img.height)
      && p.width * img.height == p.height * img.width
      && p.width >= w && p.height >= h && (p.width == w || p.height == h)
      && p.x <= 0.0 && p.y <= 0.0
      && p.x + p.width / 2.0 == w / 2.0 && p.y + p.height / 2.0 == h / 2.0
  {
    var sx, sy := w / img.width, h / img.height;
    assert img.width * sx == w && img.height * sy == h;
    if sx >= sy {
      assert img.height * sx >= img.height * sy;
    } else {
      assert img.width * sy >= img.width * sx;
    }
  }

  // ---------------------------------------------------------------------
  // Blob shapes

  /** A blob's radius: 30% of the shorter canvas side. */
  function BlobRadius(w: real, h: real): real
  {
    (30.0 / 100.0) * Min(w, h)
  }

  /** Segment i (1 to 6) of a blob in polar terms: its end angle, its start angle and its two radii. */
  datatype BlobSegment = BlobSegment(angle: real, prevAngle: real, vertexRadius: real, controlRadius: real)

  /** The distance of a vertex from the centre: the radius varied by ±20% around 1. */
  function VertexRadius(radius: real, draw: real): real
  {
    radius * (1.0 + (draw - 0.5) * BLOB_VARIANCE)
  }

  /** The distance of a control point from the centre: 1.2 to 1.6 times the radius. */
  function ControlRadius(radius: real, draw: real): real
  {
    radius * (1.2 + draw * 0.4)
  }

  /** Segment i from its two Math.random() draws, the vertex draw first. */
  function SegmentAt(i: nat, radius: real, vertexDraw: real, controlDraw: real): BlobSegment
  {
    BlobSegment(
      (i as real * 2.0 * PI) / BLOB_POINTS as real,
      ((i as real - 1.0) * 2.0 * PI) / BLOB_POINTS as real,
      VertexRadius(radius, vertexDraw),
      ControlRadius(radius, controlDraw))
  }

  /** The six segments of a blob, from its twelve draws. */
  function BlobSegments(radius: real, draws: seq<real>): seq<BlobSegment>
    requires |draws| == 2 * BLOB_POINTS
  {
    seq(BLOB_POINTS, k requires 0 <= k < BLOB_POINTS => SegmentAt(k + 1, radius, draws[2 * k], draws[2 * k + 1]))
  }

  /** The cubic Bézier of a segment around (x, y); its control points sit half a step off the vertex angles. */
  function ToBezier(x: real, y: real, seg: BlobSegment, cos: real -> real, sin: real -> real): PathOp
  {
    var half := PI / BLOB_POINTS as real;
    BezierTo(
      x + seg.controlRadius * cos(seg.prevAngle + half), y + seg.controlRadius * sin(seg.prevAngle + half),
      x + seg.controlRadius * cos(seg.angle - half), y + seg.controlRadius * sin(seg.angle - half),
      x + seg.vertexRadius * cos(seg.angle), y + seg.vertexRadius * sin(seg.angle))
  }

  function Beziers(x: real, y: real, radius: real, draws: seq<real>, n: nat, cos: real -> real, sin: real -> real): seq<PathOp>
    requires |draws| == 2 * BLOB_POINTS && n <= BLOB_POINTS
  {
    seq(n, k requires 0 <= k < n => ToBezier(x, y, BlobSegments(radius, draws)[k], cos, sin))
  }

  /** The blob path around (x, y): a move to the first vertex, six Béziers, a close. */
  function BlobPath(x: real, y: real, radius: real, draws: seq<real>, cos: real -> real, sin: real -> real): seq<PathOp>
    requires |draws| == 2 * BLOB_POINTS
  {
    [MoveTo(x + radius, y)] + Beziers(x, y, radius, draws, BLOB_POINTS, cos, sin) + [ClosePath]
  }

  /** Builds the blob path segment by segment, as drawShape does. */
  method BuildBlobPath(x: real, y: real, radius: real, draws: seq<real>, cos: real -> real, sin: real -> real)
    returns (path: seq<PathOp>)
    requires |draws| == 2 * BLOB_POINTS
    ensures path == BlobPath(x, y, radius, draws, cos, sin)
  {
    path := [MoveTo(x + radius, y)];
    var i := 1;
    while i <= BLOB_POINTS
      invariant 1 <= i <= BLOB_POINTS + 1
      invariant path == [MoveTo(x + radius, y)] + Beziers(x, y, radius, draws, i - 1, cos, sin)
    {
      var angle := (i as real * 2.0 * PI) / BLOB_POINTS as real;
      var r := radius * (1.0 + (draws[2 * (i - 1)] - 0.5) * BLOB_VARIANCE);
      var pointX := x + r * cos(angle);
      var pointY := y + r * sin(angle);
      var prevAngle := ((i as real - 1.0) * 2.0 * PI) / BLOB_POINTS as real;
      var cpRadius := radius * (1.2 + draws[2 * (i - 1) + 1] * 0.4);
      var cp1x := x + cpRadius * cos(prevAngle + PI / BLOB_POINTS as real);
      var cp1y := y + cpRadius * sin(prevAngle + PI / BLOB_POINTS as real);
      var cp2x := x + cpRadius * cos(angle - PI / BLOB_POINTS as real);
      var cp2y := y + cpRadius * sin(angle - PI / BLOB_POINTS as real);
      BeziersSnoc(x, y, radius, draws, i, cos, sin);
      assert ToBezier(x, y, SegmentAt(i, radius, draws[2 * (i - 1)], draws[2 * (i - 1) + 1]), cos, sin)
          == BezierTo(cp1x, cp1y, cp2x, cp2y, pointX, pointY);
      path := path + [BezierTo(cp1x, cp1y, cp2x, cp2y, pointX, pointY)];
      i := i + 1;
    }
    path := path + [ClosePath];
  }

  lemma BeziersSnoc(x: real, y: real, radius: real, draws: seq<real>, n: nat, cos: real -> real, sin: real -> real)
    requires |draws| == 2 * BLOB_POINTS && 1 <= n <= BLOB_POINTS
    ensures Beziers(x, y, radius, draws, n, cos, sin)
         == Beziers(x, y, radius, draws, n - 1, cos, sin)
            + [ToBezier(x, y, SegmentAt(n, radius, draws[2 * (n - 1)], draws[2 * (n - 1) + 1]), cos, sin)]
  {
    assert BlobSegments(radius, draws)[n - 1] == SegmentAt(n, radius, draws[2 * (n - 1)], draws[2 * (n - 1) + 1]);
  }

  /**
   * Blob bounds: for draws in [0, 1) every vertex radius lies in
   * [0.8 R, 1.2 R) and every control radius in [1.2 R, 1.6 R); the six
   * segments are evenly spaced, one sixth of a turn each, ending at a full
   * turn; and the path is a move, exactly six Béziers and a close.
   */
  lemma BlobBounds(x: real, y: real, radius: real, draws: seq<real>, cos: real -> real, sin: real -> real)
    requires radius > 0.0 && |draws| == 2 * BLOB_POINTS
    requires forall i :: 0 <= i < |draws| ==> IsDraw(draws[i])
    ensures var segs := BlobSegments(radius, draws);
      forall k :: 0 <= k < BLOB_POINTS ==>
        && 0.8 * radius <= segs[k].vertexRadius < 1.2 * radius
        && 1.2 * radius <= segs[k].controlRadius < 1.6 * radius
        && segs[k].angle - segs[k].prevAngle == 2.0 * PI / 6.0
        && segs[k].angle == (k + 1) as real * 2.0 * PI / 6.0
    ensures var p := BlobPath(x, y, radius, draws, cos, sin);
      && |p| == BLOB_POINTS + 2 && p[0] == MoveTo(x + radius, y) && p[BLOB_POINTS + 1] == ClosePath
      && forall k :: 1 <= k <= BLOB_POINTS ==> p[k].BezierTo?
  {
    var segs := BlobSegments(radius, draws);
    forall k | 0 <= k < BLOB_POINTS
      ensures 0.8 * radius <= segs[k].vertexRadius < 1.2 * radius
      ensures 1.2 * radius <= segs[k].controlRadius < 1.6 * radius
      ensures segs[k].angle - segs[k].prevAngle == 2.0 * PI / 6.0
      ensures segs[k].angle == (k + 1) as real * 2.0 * PI / 6.0
    {
      assert segs[k] == SegmentAt(k + 1, radius, draws[2 * k], draws[2 * k + 1]);
      SegmentBounds(k + 1, radius, draws[2 * k], draws[2 * k + 1]);
    }
  }

  lemma SegmentBounds(i: nat, radius: real, dv: real, dc: real)
    requires radius > 0.0 && IsDraw(dv) && IsDraw(dc)
    ensures var seg := SegmentAt(i, radius, dv, dc);
      && 0.8 * radius <= seg.vertexRadius < 1.2 * radius
      && 1.2 * radius <= seg.controlRadius < 1.6 * radius
      && seg.angle - seg.prevAngle == 2.0 * PI / 6.0
      && seg.angle == i as real * 2.0 * PI / 6.0
  {
    SegmentRadii(radius, dv, dc);
    SegmentAngles(i, radius, dv, dc);
  }

  lemma SegmentRadii(radius: real, dv: real, dc: real)
    requires radius > 0.0 && IsDraw(dv) && IsDraw(dc)
    ensures 0.8 * radius <= VertexRadius(radius, dv) < 1.2 * radius
    ensures 1.2 * radius <= ControlRadius(radius, dc) < 1.6 * radius
  {
    VertexRadiusBounds(radius, dv);
    ControlRadiusBounds(radius, dc);
  }

  lemma VertexRadiusBounds(radius: real, d: real)
    requires radius > 0.0 && IsDraw(d)
    ensures 0.8 * radius <= VertexRadius(radius, d) < 1.2 * radius
  {
    var f := 0.8 + d * 0.4;
    assert VertexRadius(radius, d) == radius * f by {
      assert (d - 0.5) * BLOB_VARIANCE == d * 0.4 - 0.2;
    }
    ScaledWithin(radius, f, 0.8, 1.2);
  }

  lemma ControlRadiusBounds(radius: real, d: real)
    requires radius > 0.0 && IsDraw(d)
    ensures 1.2 * radius <= ControlRadius(radius, d) < 1.6 * radius
  {
    ScaledWithin(radius, 1.2 + d * 0.4, 1.2, 1.6);
  }

  lemma ScaledWithin(radius: real, f: real, lo: real, hi: real)
    requires radius > 0.0 && lo <= f < hi
    ensures lo * radius <= radius * f < hi * radius
  {
    assert radius * f - lo * radius == radius * (f - lo);
    assert hi * radius - radius * f == radius * (hi - f);
  }

  lemma SegmentAngles(i: nat, radius: real, dv: real, dc: real)
    ensures var seg := SegmentAt(i, radius, dv, dc);
      && seg.angle - seg.prevAngle == 2.0 * PI / 6.0
      && seg.angle == i as real * 2.0 * PI / 6.0
  {
    var step := 2.0 * PI;
    var r := i as real;
    assert (r - 1.0) * step == r * step - step;
  }

  /** The blob of one circle, in canvas pixels: origin given in percent of the canvas. */
  function ShapePath(w: real, h: real, shapeX: real, shapeY: real, draws: seq<real>, cos: real -> real, sin: real -> real): seq<PathOp>
    requires |draws| == 2 * BLOB_POINTS
  {
    BlobPath((shapeX / 100.0) * w, (shapeY / 100.0) * h, BlobRadius(w, h), draws, cos, sin)
  }

  /** drawShape: build the blob path and fill it with the circle's colour. */
  method DrawShape(ctx: Context, shapeX: real, shapeY: real, color: string, draws: seq<real>,
                   cos: real -> real, sin: real -> real)
    requires |draws| == 2 * BLOB_POINTS
    modifies ctx
    ensures ctx.log == old(ctx.log) + [FillPath(ShapePath(ctx.width, ctx.height, shapeX, shapeY, draws, cos, sin), color)]
    ensures ctx.fillStyle == color && ctx.filter == old(ctx.filter)
  {
    var x := (shapeX / 100.0) * ctx.width;
    var y := (shapeY / 100.0) * ctx.height;
    var radius := (30.0 / 100.0) * Min(ctx.width, ctx.height);
    var path := BuildBlobPath(x, y, radius, draws, cos, sin);
    ctx.fillStyle := color;
    ctx.log := ctx.log + [FillPath(path, color)];
  }

  // ---------------------------------------------------------------------
  // Background layer

  /**
   * What drawShape reads of generateRandomShape's result (its origin, in
   * percent), and the twelve Math.random() draws the blob path takes.
   */
  datatype ShapeInput = ShapeInput(x: real, y: real, draws: seq<real>)

  predicate ValidShapes(circles: seq<Circle>, shapes: seq<ShapeInput>)
  {
    |shapes| == |circles| && forall k :: 0 <= k < |shapes| ==> |shapes[k].draws| == 2 * BLOB_POINTS
  }

  /** One filled blob per circle, in list order. */
  function ShapeOps(w: real, h: real, circles: seq<Circle>, shapes: seq<ShapeInput>,
                    cos: real -> real, sin: real -> real): seq<Op>
    requires ValidShapes(circles, shapes)
  {
    seq(|circles|, k requires 0 <= k < |circles| =>
      FillPath(ShapePath(w, h, shapes[k].x, shapes[k].y, shapes[k].draws, cos, sin), circles[k].color))
  }

  /**
   * The background layer: clear, solid fill, then the cover-fitted photo
   * once it has loaded, or, without a photo, the blobs.
   */
  function BackgroundOps(w: real, h: real, backgroundColor: string, filter: string, circles: seq<Circle>,
                         image: Option<string>, loaded: Option<ImageSize>, shapes: seq<ShapeInput>,
                         cos: real -> real, sin: real -> real): seq<Op>
    requires ValidShapes(circles, shapes)
    requires loaded.Some? ==> loaded.value.width > 0.0 && loaded.value.height > 0.0
  {
    [ClearRect(w, h), FillRect(w, h, backgroundColor, filter)]
    + if image.Some? then
        if loaded.Some? then
          var p := CoverFit(w, h, loaded.value);
          [DrawPhoto(image.value, p.x, p.y, p.width, p.height)]
        else []
      else ShapeOps(w, h, circles, shapes, cos, sin)
  }

  /** The background-layer effect. `loaded` is the photo's size once its load event has fired. */
  method DrawBackgroundLayer(ctx: Context, backgroundColor: string, circles: seq<Circle>,
                             image: Option<string>, loaded: Option<ImageSize>, shapes: seq<ShapeInput>,
                             cos: real -> real, sin: real -> real)
    requires ValidShapes(circles, shapes)
    requires loaded.Some? ==> loaded.value.width > 0.0 && loaded.value.height > 0.0
    modifies ctx
    ensures ctx.log == old(ctx.log) + BackgroundOps(ctx.width, ctx.height, backgroundColor, old(ctx.filter),
                                                    circles, image, loaded, shapes, cos, sin)
    ensures ctx.filter == old(ctx.filter)
  {
    ctx.log := ctx.log + [ClearRect(ctx.width, ctx.height)];
    ctx.fillStyle := backgroundColor;
    ctx.log := ctx.log + [FillRect(ctx.width, ctx.height, backgroundColor, ctx.filter)];
    ghost var base := ctx.log;
    if image.Some? {
      if loaded.Some? {
        var p := CoverFit(ctx.width, ctx.height, loaded.value);
        ctx.log := ctx.log + [DrawPhoto(image.value, p.x, p.y, p.width, p.height)];
      }
    } else {
      var i := 0;
      while i < |circles|
        invariant 0 <= i <= |circles| && ctx.filter == old(ctx.filter)
        invariant ctx.log == base + ShapeOps(ctx.width, ctx.height, circles[..i], shapes[..i], cos, sin)
      {
        DrawShape(ctx, shapes[i].x, shapes[i].y, circles[i].color, shapes[i].draws, cos, sin);
        assert ShapeOps(ctx.width, ctx.height, circles[..i + 1], shapes[..i + 1], cos, sin)
            == ShapeOps(ctx.width, ctx.height, circles[..i], shapes[..i], cos, sin)
               + [FillPath(ShapePath(ctx.width, ctx.height, shapes[i].x, shapes[i].y, shapes[i].draws, cos, sin), circles[i].color)];
        i := i + 1;
      }
      assert circles[..i] == circles && shapes[..i] == shapes;
    }
  }

  /**
   * With a background photo no blob is drawn; without one, exactly one blob
   * per circle is filled, after the solid fill, in list order and in the
   * circle's colour.
   */
  lemma BackgroundLayerContent(w: real, h: real, backgroundColor: string, filter: string, circles: seq<Circle>,
                               image: Option<string>, loaded: Option<ImageSize>, shapes: seq<ShapeInput>,
                               cos: real -> real, sin: real -> real)
    requires ValidShapes(circles, shapes)
    requires loaded.Some? ==> loaded.value.width > 0.0 && loaded.value.height > 0.0
    ensures var ops := BackgroundOps(w, h, backgroundColor, filter, circles, image, loaded, shapes, cos, sin);
      && ops[0] == ClearRect(w, h) && ops[1] == FillRect(w, h, backgroundColor, filter)
      && (image.Some? ==> forall i :: 0 <= i < |ops| ==> !ops[i].FillPath?)
      && (image.None? ==>
            && |ops| == 2 + |circles|
            && forall k :: 0 <= k < |circles| ==> ops[2 + k].FillPath? && ops[2 + k].color == circles[k].color)
  {
  }

  // ---------------------------------------------------------------------
  // Text layer

  /** The text style the compositor receives. */
  datatype TextStyle = TextStyle(
    fontSize: real, fontWeight: int, letterSpacing: real, fontFamily: string, opacity: real,
    lineHeight: real, color: string, isItalic: bool, isUnderline: bool, isStrikethrough: bool)

  /** Baseline of line i of n: the block of lines is centred on the canvas, one line height apart. */
  function Baseline(i: int, n: int, h: real, lineHeight: real): real
  {
    h / 2.0 - ((n - 1) as real * lineHeight) / 2.0 + i as real * lineHeight
  }

  /**
   * Consecutive baselines are one line height apart, and the baselines are
   * symmetric about the canvas centre: line i and line n-1-i add up to h.
   */
  lemma BaselineLayout(i: int, n: int, h: real, lineHeight: real)
    ensures Baseline(i + 1, n, h, lineHeight) - Baseline(i, n, h, lineHeight) == lineHeight
    ensures Baseline(i, n, h, lineHeight) + Baseline(n - 1 - i, n, h, lineHeight) == h
    ensures n == 1 ==> Baseline(0, n, h, lineHeight) == h / 2.0
  {
    assert (i + 1) as real * lineHeight == i as real * lineHeight + lineHeight;
    assert (n - 1 - i) as real * lineHeight == (n - 1) as real * lineHeight - i as real * lineHeight;
  }

  /** Underline and strikethrough of a line of measured width m centred at x with baseline yPos. */
  function Decorations(x: real, yPos: real, m: real, style: TextStyle): seq<Segment>
  {
    (if style.isUnderline then [Segment(x - m / 2.0, yPos + 3.0, x + m / 2.0, yPos + 3.0)] else [])
    + (if style.isStrikethrough then [Segment(x - m / 2.0, yPos - style.fontSize / 4.0, x + m / 2.0, yPos - style.fontSize / 4.0)] else [])
  }

  /**
   * Decorations are horizontal strokes spanning the measured width centred
   * on x; the underline sits 3 px below the baseline, the strikethrough a
   * quarter of the font size above it, and each appears only with its flag.
   */
  lemma DecorationGeometry(x: real, yPos: real, m: real, style: TextStyle)
    ensures var d := Decorations(x, yPos, m, style);
      && |d| == (if style.isUnderline then 1 else 0) + (if style.isStrikethrough then 1 else 0)
      && (forall k :: 0 <= k < |d| ==> d[k].x0 == x - m / 2.0 && d[k].x1 == x + m / 2.0 && d[k].y0 == d[k].y1)
      && (style.isUnderline ==> d[0].y0 == yPos + 3.0)
      && (style.isStrikethrough ==> d[|d| - 1].y0 == yPos - style.fontSize / 4.0)
  {
  }

  /** The calls for line i of n: fill the line centred on the canvas, then stroke its decorations if any. */
  function LineOps(line: string, i: nat, n: nat, w: real, h: real, style: TextStyle, m: real): seq<Op>
  {
    var x := w / 2.0;
    var yPos := Baseline(i, n, h, style.fontSize * style.lineHeight);
    [FillText(line, x, yPos, style.color, style.opacity / 100.0)]
    + if style.isUnderline || style.isStrikethrough then [Stroke(Decorations(x, yPos, m, style), style.color)] else []
  }

  /** The calls for the first k lines. `measure` gives the measured width of a line. */
  function TextOps(lines: seq<string>, k: nat, w: real, h: real, style: TextStyle, measure: string -> real): seq<Op>
    requires k <= |lines|
  {
    if k == 0 then []
    else TextOps(lines, k - 1, w, h, style, measure) + LineOps(lines[k - 1], k - 1, |lines|, w, h, style, measure(lines[k - 1]))
  }

  /** The text fills among a list of calls, in order. */
  function Fills(ops: seq<Op>): seq<Op>
  {
    if ops == [] then [] else (if ops[0].FillText? then [ops[0]] else []) + Fills(ops[1..])
  }

  lemma {:induction false} FillsAppend(a: seq<Op>, b: seq<Op>)
    ensures Fills(a + b) == Fills(a) + Fills(b)
  {
    if a == [] {
      assert a + b == b;
    } else {
      assert (a + b)[0] == a[0];
      assert (a + b)[1..] == a[1..] + b;
      FillsAppend(a[1..], b);
    }
  }

  /**
   * Line layout: the text layer fills one text per line, in line order,
   * each centred horizontally at its own baseline.
   */
  lemma {:induction false} TextOpsFillEachLine(lines: seq<string>, k: nat, w: real, h: real, style: TextStyle, measure: string -> real)
    requires k <= |lines|
    ensures Fills(TextOps(lines, k, w, h, style, measure))
         == seq(k, i requires 0 <= i < k =>
                  FillText(lines[i], w / 2.0, Baseline(i, |lines|, h, style.fontSize * style.lineHeight),
                           style.color, style.opacity / 100.0))
  {
    if k > 0 {
      TextOpsFillEachLine(lines, k - 1, w, h, style, measure);
      var line := LineOps(lines[k - 1], k - 1, |lines|, w, h, style, measure(lines[k - 1]));
      FillsAppend(TextOps(lines, k - 1, w, h, style, measure), line);
      LineOpsFill(lines[k - 1], k - 1, |lines|, w, h, style, measure(lines[k - 1]));
    }
  }

  lemma LineOpsFill(line: string, i: nat, n: nat, w: real, h: real, style: TextStyle, m: real)
    ensures Fills(LineOps(line, i, n, w, h, style, m))
         == [FillText(line, w / 2.0, Baseline(i, n, h, style.fontSize * style.lineHeight), style.color, style.opacity / 100.0)]
  {
    var ops := LineOps(line, i, n, w, h, style, m);
    assert ops[0] == FillText(line, w / 2.0, Baseline(i, n, h, style.fontSize * style.lineHeight), style.color, style.opacity / 100.0);
    assert Fills(ops) == [ops[0]] + Fills(ops[1..]);
    assert Fills(ops[1..]) == [] by {
      if |ops| == 2 {
        assert Fills(ops[1..]) == [] + Fills(ops[1..][1..]);
        assert ops[1..][1..] == [];
      } else {
        assert ops[1..] == [];
      }
    }
  }

  /** drawText: split the text on newlines and draw each line with its decorations; the style changes are undone. */
  method DrawText(ctx: Context, text: string, style: TextStyle, w: real, h: real, measure: string -> real)
    modifies ctx
    ensures ctx.log == old(ctx.log) + TextOps(Split(text, '\n'), |Split(text, '\n')|, w, h, style, measure)
    ensures ctx.fillStyle == old(ctx.fillStyle) && ctx.filter == old(ctx.filter)
  {
    var saved := ctx.fillStyle;
    ctx.fillStyle := style.color;
    var lines := Split(text, '\n');
    var i := 0;
    while i < |lines|
      invariant 0 <= i <= |lines| && ctx.filter == old(ctx.filter)
      invariant ctx.log == old(ctx.log) + TextOps(lines, i, w, h, style, measure)
    {
      DrawLine(ctx, lines[i], i, |lines|, w, h, style, measure(lines[i]));
      i := i + 1;
    }
    ctx.fillStyle := saved;
  }

  /** One line of drawText: the fill, then the decorations' stroke when there are any. */
  method DrawLine(ctx: Context, line: string, i: nat, n: nat, w: real, h: real, style: TextStyle, m: real)
    modifies ctx`log
    ensures ctx.log == old(ctx.log) + LineOps(line, i, n, w, h, style, m)
  {
    var x := w / 2.0;
    var yPos := Baseline(i, n, h, style.fontSize * style.lineHeight);
    var fill := FillText(line, x, yPos, style.color, style.opacity / 100.0);
    assert LineOps(line, i, n, w, h, style, m)[0] == fill;
    assert |LineOps(line, i, n, w, h, style, m)| >= 1;
    assert LineOps(line, i, n, w, h, style, m)
        == [fill] + if style.isUnderline || style.isStrikethrough then [Stroke(Decorations(x, yPos, m, style), style.color)] else [];
    if style.isUnderline || style.isStrikethrough {
      var segments: seq<Segment> := [];
      if style.isUnderline {
        segments := segments + [Segment(x - m / 2.0, yPos + 3.0, x + m / 2.0, yPos + 3.0)];
      }
      if style.isStrikethrough {
        segments := segments + [Segment(x - m / 2.0, yPos - style.fontSize / 4.0, x + m / 2.0, yPos - style.fontSize / 4.0)];
      }
      assert segments == Decorations(x, yPos, m, style);
      ctx.log := ctx.log + [fill, Stroke(segments, style.color)];
    } else {
      ctx.log := ctx.log + [fill];
    }
  }

  // ---------------------------------------------------------------------
  // Compositing

  /** The filter values of the background layer. */
  datatype Filters = Filters(blur: real, brightness: real, contrast: real, saturation: real)

  /** The four candidate parts of the filter string, the blur part empty unless blur > 0. */
  function FilterParts(f: Filters, fmt: real -> string): seq<string>
  {
    [ if f.blur > 0.0 then Css.Render(Css.Blur(f.blur / 4.0), fmt) else "",
      Css.Render(Css.Brightness(f.brightness), fmt),
      Css.Render(Css.Contrast(f.contrast), fmt),
      Css.Render(Css.Saturate(f.saturation), fmt) ]
  }

  /** `[...].filter(Boolean).join(" ")`. */
  function CssFilter(f: Filters, fmt: real -> string): string
  {
    Join(NonEmpty(FilterParts(f, fmt)), " ")
  }

  /** The filter chain the compositor applies, as a list of filter functions. */
  function FilterTerms(f: Filters): (terms: seq<Css.FilterTerm>)
  {
    (if f.blur > 0.0 then [Css.Blur(f.blur / 4.0)] else [])
    + [Css.Brightness(f.brightness), Css.Contrast(f.contrast), Css.Saturate(f.saturation)]
  }

  /**
   * The filter string is exactly the chain of FilterTerms: blur (a quarter
   * of the blur value) first and only when blur > 0, then brightness,
   * contrast and saturate, always, in that order; with blur 0 it holds
   * just those three.
   */
  lemma CssFilterChain(f: Filters, fmt: real -> string)
    ensures CssFilter(f, fmt) == Css.Chain(FilterTerms(f), fmt)
    ensures var t := FilterTerms(f);
      && |t| == (if f.blur > 0.0 then 4 else 3)
      && t[|t| - 3..] == [Css.Brightness(f.brightness), Css.Contrast(f.contrast), Css.Saturate(f.saturation)]
      && ((exists k :: 0 <= k < |t| && t[k].Blur?) <==> f.blur > 0.0)
      && (f.blur > 0.0 ==> t[0] == Css.Blur(f.blur / 4.0))
  {
    var parts := FilterParts(f, fmt);
    var t := FilterTerms(f);
    NonEmptyKeepsAll(parts[1..]);
    if f.blur > 0.0 {
      NonEmptyKeepsAll(parts);
      assert Css.RenderAll(t, fmt) == parts;
    } else {
      assert NonEmpty(parts) == NonEmpty(parts[1..]);
      assert Css.RenderAll(t, fmt) == parts[1..];
    }
  }

  /** The visible canvas's calls for one composite, given the filter the context had before. */
  function CompositeOps(prevFilter: string, w: real, h: real, backgroundColor: string, f: Filters, fmt: real -> string): seq<Op>
  {
    [ ClearRect(w, h),
      FillRect(w, h, backgroundColor, prevFilter),
      DrawLayer(BackgroundLayer, CssFilter(f, fmt)),
      DrawLayer(TextLayer, "none") ]
  }

  /** No solid fill and no text-layer draw in the log went through a filter. */
  predicate TextAndFillUnfiltered(log: seq<Op>)
  {
    forall i :: 0 <= i < |log| ==>
      (log[i].FillRect? ==> log[i].filter == "none")
      && (log[i].DrawLayer? && log[i].layer == TextLayer ==> log[i].filter == "none")
  }

  /**
   * compositeCanvas: clear, fill with the background colour, draw the
   * background layer through the filter chain, reset the filter to "none",
   * draw the text layer. Nothing happens while a layer is missing.
   * Starting from a context whose filter is "none" (a fresh one), the text
   * and the base fill are never filtered, however many composites run.
   */
  method CompositeCanvas(ctx: Context, w: real, h: real, backgroundColor: string, f: Filters,
                         fmt: real -> string, layersReady: bool)
    modifies ctx
    ensures layersReady ==> ctx.log == old(ctx.log) + CompositeOps(old(ctx.filter), w, h, backgroundColor, f, fmt)
                             && ctx.filter == "none" && ctx.fillStyle == backgroundColor
    ensures !layersReady ==> ctx.log == old(ctx.log) && ctx.filter == old(ctx.filter) && ctx.fillStyle == old(ctx.fillStyle)
    ensures old(ctx.filter) == "none" && TextAndFillUnfiltered(old(ctx.log))
            ==> ctx.filter == "none" && TextAndFillUnfiltered(ctx.log)
  {
    if !layersReady {
      return;
    }
    ctx.log := ctx.log + [ClearRect(w, h)];
    ctx.fillStyle := backgroundColor;
    ctx.log := ctx.log + [FillRect(w, h, backgroundColor, ctx.filter)];
    var cssFilters := Join(NonEmpty(FilterParts(f, fmt)), " ");
    ctx.filter := cssFilters;
    ctx.log := ctx.log + [DrawLayer(BackgroundLayer, ctx.filter)];
    ctx.filter := "none";
    ctx.log := ctx.log + [DrawLayer(TextLayer, ctx.filter)];
  }
}
