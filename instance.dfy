/**
 * The conversion of one positioned glyph (a `GlyphVertex` produced by the
 * layout engine) into one GPU instance record: the glyph's pixel rectangle
 * and its section bounds are mapped into clip space, the rectangle is clipped
 * against the bounds one side at a time, and every clipped side rescales the
 * matching texture edge so that the texel density is preserved.
 *
 * Coordinates are `real`: the f32 rounding of the original is not modelled.
 */
module Instances {

  datatype Point = Point(x: real, y: real)

  datatype Rect = Rect(min: Point, max: Point) {
    function Width(): real { max.x - min.x }
    function Height(): real { max.y - min.y }
  }

  /** An RGBA colour, four f32 components in the original. */
  datatype Color = Color(r: real, g: real, b: real, a: real)

  /** What the layout engine hands over for one glyph. */
  datatype GlyphVertex = GlyphVertex(
    texCoords: Rect,
    pixelCoords: Rect,
    bounds: Rect,
    screenWidth: real,
    screenHeight: real,
    color: Color,
    z: real)

  /** The fixed-layout record uploaded to the instance buffer. */
  datatype Instance = Instance(
    leftTop: (real, real, real),
    rightBottom: (real, real),
    texLeftTop: (real, real),
    texRightBottom: (real, real),
    color: Color)

  function Min(a: real, b: real): real { if a <= b then a else b }
  function Max(a: real, b: real): real { if a <= b then b else a }

  /** Maps one pixel coordinate to clip space along an axis of extent `screen`. */
  function ToClip(c: real, screen: real): real
    requires screen != 0.0
  {
    2.0 * (c / screen - 0.5)
  }

  lemma ToClipMonotonic(a: real, b: real, screen: real)
    requires screen > 0.0 && a <= b
    ensures ToClip(a, screen) <= ToClip(b, screen)
    ensures a < b ==> ToClip(a, screen) < ToClip(b, screen)
  {
    assert b / screen - a / screen == (b - a) / screen;
  }

  /** The clip-space map is undone by `(r / 2 + 0.5) * screen`: no coordinate is lost. */
  lemma ToClipInverse(c: real, screen: real)
    requires screen != 0.0
    ensures (ToClip(c, screen) / 2.0 + 0.5) * screen == c
  {
    assert ToClip(c, screen) / 2.0 + 0.5 == c / screen;
  }

  function ClipSpace(r: Rect, screenWidth: real, screenHeight: real): Rect
    requires screenWidth != 0.0 && screenHeight != 0.0
  {
    Rect(Point(ToClip(r.min.x, screenWidth), ToClip(r.min.y, screenHeight)),
         Point(ToClip(r.max.x, screenWidth), ToClip(r.max.y, screenHeight)))
  }

  /**
   * On a screen of positive size the clip-space map keeps and reflects the
   * order of each rectangle's corners on both axes.
   */
  lemma {:induction false} ClipSpaceKeepsOrder(r: Rect, screenWidth: real, screenHeight: real)
    requires screenWidth > 0.0 && screenHeight > 0.0
    ensures var g := ClipSpace(r, screenWidth, screenHeight);
      && (r.min.x <= r.max.x <==> g.min.x <= g.max.x)
      && (r.min.y <= r.max.y <==> g.min.y <= g.max.y)
  {
    if r.min.x <= r.max.x {
      ToClipMonotonic(r.min.x, r.max.x, screenWidth);
    } else {
      ToClipMonotonic(r.max.x, r.min.x, screenWidth);
    }
    if r.min.y <= r.max.y {
      ToClipMonotonic(r.min.y, r.max.y, screenHeight);
    } else {
      ToClipMonotonic(r.max.y, r.min.y, screenHeight);
    }
  }

  /** The rectangle being clipped together with its texture rectangle. */
  datatype Clip = Clip(gl: Rect, tex: Rect)

  /**
   * The clip of one side divides by the rectangle's extent on that axis
   * before the clip; these predicates say that division is defined whenever
   * the clip takes place (in f32 it would otherwise yield NaN).
   */
  predicate MaxXDefined(c: Clip, b: Rect) { c.gl.max.x > b.max.x ==> c.gl.Width() != 0.0 }
  predicate MinXDefined(c: Clip, b: Rect) { c.gl.min.x < b.min.x ==> c.gl.Width() != 0.0 }
  predicate MaxYDefined(c: Clip, b: Rect) { c.gl.max.y > b.max.y ==> c.gl.Height() != 0.0 }
  predicate MinYDefined(c: Clip, b: Rect) { c.gl.min.y < b.min.y ==> c.gl.Height() != 0.0 }

  /** Clip of the right edge (largest x). */
  function ClipMaxX(c: Clip, b: Rect): (r: Clip)
    requires MaxXDefined(c, b)
    ensures r.gl.max.x == Min(c.gl.max.x, b.max.x)
    ensures r.gl.min == c.gl.min && r.gl.max.y == c.gl.max.y
    ensures r.tex.min == c.tex.min && r.tex.max.y == c.tex.max.y
    ensures r.tex.Width() * c.gl.Width() == c.tex.Width() * r.gl.Width()
    ensures c.gl.max.x <= b.max.x ==> r == c
  {
    if c.gl.max.x > b.max.x then
      var oldWidth := c.gl.Width();
      var gl := c.gl.(max := c.gl.max.(x := b.max.x));
      var tex := c.tex.(max := c.tex.max.(x := c.tex.min.x + c.tex.Width() * gl.Width() / oldWidth));
      assert tex.Width() * oldWidth == c.tex.Width() * gl.Width();
      Clip(gl, tex)
    else
      c
  }

  /** Clip of the left edge (smallest x). */
  function ClipMinX(c: Clip, b: Rect): (r: Clip)
    requires MinXDefined(c, b)
    ensures r.gl.min.x == Max(c.gl.min.x, b.min.x)
    ensures r.gl.max == c.gl.max && r.gl.min.y == c.gl.min.y
    ensures r.tex.max == c.tex.max && r.tex.min.y == c.tex.min.y
    ensures r.tex.Width() * c.gl.Width() == c.tex.Width() * r.gl.Width()
    ensures c.gl.min.x >= b.min.x ==> r == c
  {
    if c.gl.min.x < b.min.x then
      var oldWidth := c.gl.Width();
      var gl := c.gl.(min := c.gl.min.(x := b.min.x));
      var tex := c.tex.(min := c.tex.min.(x := c.tex.max.x - c.tex.Width() * gl.Width() / oldWidth));
      assert tex.Width() * oldWidth == c.tex.Width() * gl.Width();
      Clip(gl, tex)
    else
      c
  }

  /** Clip of the edge with the largest y. */
  function ClipMaxY(c: Clip, b: Rect): (r: Clip)
    requires MaxYDefined(c, b)
    ensures r.gl.max.y == Min(c.gl.max.y, b.max.y)
    ensures r.gl.min == c.gl.min && r.gl.max.x == c.gl.max.x
    ensures r.tex.min == c.tex.min && r.tex.max.x == c.tex.max.x
    ensures r.tex.Height() * c.gl.Height() == c.tex.Height() * r.gl.Height()
    ensures c.gl.max.y <= b.max.y ==> r == c
  {
    if c.gl.max.y > b.max.y then
      var oldHeight := c.gl.Height();
      var gl := c.gl.(max := c.gl.max.(y := b.max.y));
      var tex := c.tex.(max := c.tex.max.(y := c.tex.min.y + c.tex.Height() * gl.Height() / oldHeight));
      assert tex.Height() * oldHeight == c.tex.Height() * gl.Height();
      Clip(gl, tex)
    else
      c
  }

  /** Clip of the edge with the smallest y. */
  function ClipMinY(c: Clip, b: Rect): (r: Clip)
    requires MinYDefined(c, b)
    ensures r.gl.min.y == Max(c.gl.min.y, b.min.y)
    ensures r.gl.max == c.gl.max && r.gl.min.x == c.gl.min.x
    ensures r.tex.max == c.tex.max && r.tex.min.x == c.tex.min.x
    ensures r.tex.Height() * c.gl.Height() == c.tex.Height() * r.gl.Height()
    ensures c.gl.min.y >= b.min.y ==> r == c
  {
    if c.gl.min.y < b.min.y then
      var oldHeight := c.gl.Height();
      var gl := c.gl.(min := c.gl.min.(y := b.min.y));
      var tex := c.tex.(min := c.tex.min.(y := c.tex.max.y - c.tex.Height() * gl.Height() / oldHeight));
      assert tex.Height() * oldHeight == c.tex.Height() * gl.Height();
      Clip(gl, tex)
    else
      c
  }

  /** The glyph rectangle in clip space, paired with its texture rectangle. */
  function Unclipped(v: GlyphVertex): Clip
    requires v.screenWidth != 0.0 && v.screenHeight != 0.0
  {
    Clip(ClipSpace(v.pixelCoords, v.screenWidth, v.screenHeight), v.texCoords)
  }

  function GlBounds(v: GlyphVertex): Rect
    requires v.screenWidth != 0.0 && v.screenHeight != 0.0
  {
    ClipSpace(v.bounds, v.screenWidth, v.screenHeight)
  }

  /**
   * The conversion is defined over the reals when the screen has non-zero
   * extent and every clip that takes place divides by a non-zero extent.
   */
  predicate Convertible(v: GlyphVertex) {
    && v.screenWidth != 0.0 && v.screenHeight != 0.0
    && var b := GlBounds(v);
    && var c0 := Unclipped(v);
    && MaxXDefined(c0, b)
    && var c1 := ClipMaxX(c0, b);
    && MinXDefined(c1, b)
    && var c2 := ClipMinX(c1, b);
    && MaxYDefined(c2, b)
    && var c3 := ClipMaxY(c2, b);
    && MinYDefined(c3, b)
  }

  /** The four clips in the order the original applies them. */
  function Clipped(v: GlyphVertex): (r: Clip)
    requires Convertible(v)
    ensures var c := Unclipped(v); var b := GlBounds(v);
      && r.gl.max.x == Min(c.gl.max.x, b.max.x)
      && r.gl.min.x == Max(c.gl.min.x, b.min.x)
      && r.gl.max.y == Min(c.gl.max.y, b.max.y)
      && r.gl.min.y == Max(c.gl.min.y, b.min.y)
  {
    var b := GlBounds(v);
    ClipMinY(ClipMaxY(ClipMinX(ClipMaxX(Unclipped(v), b), b), b), b)
  }

  /**
   * `Instance::from`: the clipped rectangle with its y corners swapped, the
   * depth and the colour passed through.
   */
  function FromVertex(v: GlyphVertex): (i: Instance)
    requires Convertible(v)
    ensures var c := Unclipped(v); var b := GlBounds(v);
      && i.leftTop == (Max(c.gl.min.x, b.min.x), Min(c.gl.max.y, b.max.y), v.z)
      && i.rightBottom == (Min(c.gl.max.x, b.max.x), Max(c.gl.min.y, b.min.y))
    ensures i.color == v.color
  {
    var c := Clipped(v);
    Instance(
      (c.gl.min.x, c.gl.max.y, v.z),
      (c.gl.max.x, c.gl.min.y),
      (c.tex.min.x, c.tex.max.y),
      (c.tex.max.x, c.tex.min.y),
      v.color)
  }

  /** The emitted rectangle lies within the section bounds on all four sides. */
  lemma FromVertexWithinBounds(v: GlyphVertex)
    requires Convertible(v)
    ensures var i := FromVertex(v); var b := GlBounds(v);
      && i.rightBottom.0 <= b.max.x && i.leftTop.0 >= b.min.x
      && i.leftTop.1 <= b.max.y && i.rightBottom.1 >= b.min.y
  {
  }

  /** Chaining two stages that each keep `tex * gl == tex' * gl'` keeps it end to end. */
  lemma DensityChain(t0: real, g0: real, t1: real, g1: real, t2: real, g2: real)
    requires t1 * g0 == t0 * g1
    requires t2 * g1 == t1 * g2
    requires g1 == 0.0 ==> t2 == t1 && g2 == g1
    ensures t2 * g0 == t0 * g2
  {
    if g1 != 0.0 {
      assert t2 * g0 * g1 == t1 * g2 * g0;
      assert t1 * g0 * g2 == t0 * g1 * g2;
      assert (t2 * g0 - t0 * g2) * g1 == 0.0;
    }
  }

  /** The two clips along x together keep the texel density along x. */
  lemma {:induction false} ClipsXKeepDensity(c0: Clip, b: Rect)
    requires MaxXDefined(c0, b) && MinXDefined(ClipMaxX(c0, b), b)
    ensures var c2 := ClipMinX(ClipMaxX(c0, b), b);
      c2.tex.Width() * c0.gl.Width() == c0.tex.Width() * c2.gl.Width()
  {
    var c1 := ClipMaxX(c0, b);
    var c2 := ClipMinX(c1, b);
    DensityChain(c0.tex.Width(), c0.gl.Width(), c1.tex.Width(), c1.gl.Width(),
                 c2.tex.Width(), c2.gl.Width());
  }

  /** The two clips along y together keep the texel density along y. */
  lemma {:induction false} ClipsYKeepDensity(c0: Clip, b: Rect)
    requires MaxYDefined(c0, b) && MinYDefined(ClipMaxY(c0, b), b)
    ensures var c2 := ClipMinY(ClipMaxY(c0, b), b);
      c2.tex.Height() * c0.gl.Height() == c0.tex.Height() * c2.gl.Height()
  {
    var c1 := ClipMaxY(c0, b);
    var c2 := ClipMinY(c1, b);
    DensityChain(c0.tex.Height(), c0.gl.Height(), c1.tex.Height(), c1.gl.Height(),
                 c2.tex.Height(), c2.gl.Height());
  }

  /**
   * Texel density is preserved on both axes: the texture extent per unit of
   * rectangle extent after clipping equals the one before.
   */
  lemma {:induction false} FromVertexKeepsDensity(v: GlyphVertex)
    requires Convertible(v)
    ensures var i := FromVertex(v); var c := Unclipped(v);
      && (i.texRightBottom.0 - i.texLeftTop.0) * c.gl.Width()
         == c.tex.Width() * (i.rightBottom.0 - i.leftTop.0)
      && (i.texLeftTop.1 - i.texRightBottom.1) * c.gl.Height()
         == c.tex.Height() * (i.leftTop.1 - i.rightBottom.1)
  {
    var b := GlBounds(v);
    var c0 := Unclipped(v);
    var c2 := ClipMinX(ClipMaxX(c0, b), b);
    var c4 := ClipMinY(ClipMaxY(c2, b), b);
    ClipsXKeepDensity(c0, b);
    ClipsYKeepDensity(c2, b);
    assert c4.gl.Width() == c2.gl.Width() && c4.tex.Width() == c2.tex.Width();
    assert c2.gl.Height() == c0.gl.Height() && c2.tex.Height() == c0.tex.Height();
  }

  /**
   * Both x edges of the texture rectangle of `c` sit at the same fraction of
   * the texture rectangle of `c0` as the matching edges of the glyph
   * rectangle of `c` sit in the glyph rectangle of `c0`.
   */
  predicate PlacedX(c0: Clip, c: Clip) {
    && (c.tex.min.x - c0.tex.min.x) * c0.gl.Width() == c0.tex.Width() * (c.gl.min.x - c0.gl.min.x)
    && (c.tex.max.x - c0.tex.min.x) * c0.gl.Width() == c0.tex.Width() * (c.gl.max.x - c0.gl.min.x)
  }

  /** The same along y. */
  predicate PlacedY(c0: Clip, c: Clip) {
    && (c.tex.min.y - c0.tex.min.y) * c0.gl.Height() == c0.tex.Height() * (c.gl.min.y - c0.gl.min.y)
    && (c.tex.max.y - c0.tex.min.y) * c0.gl.Height() == c0.tex.Height() * (c.gl.max.y - c0.gl.min.y)
  }

  /** An edge at a known fraction, moved by an extent of the same density, stays at the matching fraction. */
  lemma MoveEdge(t0: real, g0: real, tw0: real, gw0: real, t: real, g: real, tw: real, gw: real)
    requires (t - t0) * gw0 == tw0 * (g - g0)
    requires tw * gw0 == tw0 * gw
    ensures (t + tw - t0) * gw0 == tw0 * (g + gw - g0)
    ensures (t - tw - t0) * gw0 == tw0 * (g - gw - g0)
  {
    assert (t + tw - t0) * gw0 == (t - t0) * gw0 + tw * gw0;
    assert tw0 * (g + gw - g0) == tw0 * (g - g0) + tw0 * gw;
    assert (t - tw - t0) * gw0 == (t - t0) * gw0 - tw * gw0;
    assert tw0 * (g - gw - g0) == tw0 * (g - g0) - tw0 * gw;
  }

  /** The right-edge clip keeps the placement along x. */
  lemma ClipMaxXPlaces(c0: Clip, c: Clip, b: Rect)
    requires MaxXDefined(c, b) && PlacedX(c0, c)
    requires c.tex.Width() * c0.gl.Width() == c0.tex.Width() * c.gl.Width()
    ensures var r := ClipMaxX(c, b);
      && PlacedX(c0, r)
      && r.tex.Width() * c0.gl.Width() == c0.tex.Width() * r.gl.Width()
  {
    var r := ClipMaxX(c, b);
    DensityChain(c0.tex.Width(), c0.gl.Width(), c.tex.Width(), c.gl.Width(), r.tex.Width(), r.gl.Width());
    MoveEdge(c0.tex.min.x, c0.gl.min.x, c0.tex.Width(), c0.gl.Width(),
             r.tex.min.x, r.gl.min.x, r.tex.Width(), r.gl.Width());
  }

  /** The left-edge clip keeps the placement along x. */
  lemma ClipMinXPlaces(c0: Clip, c: Clip, b: Rect)
    requires MinXDefined(c, b) && PlacedX(c0, c)
    requires c.tex.Width() * c0.gl.Width() == c0.tex.Width() * c.gl.Width()
    ensures var r := ClipMinX(c, b);
      && PlacedX(c0, r)
      && r.tex.Width() * c0.gl.Width() == c0.tex.Width() * r.gl.Width()
  {
    var r := ClipMinX(c, b);
    DensityChain(c0.tex.Width(), c0.gl.Width(), c.tex.Width(), c.gl.Width(), r.tex.Width(), r.gl.Width());
    MoveEdge(c0.tex.min.x, c0.gl.min.x, c0.tex.Width(), c0.gl.Width(),
             r.tex.max.x, r.gl.max.x, r.tex.Width(), r.gl.Width());
  }

  /** The max-y clip keeps the placement along y. */
  lemma ClipMaxYPlaces(c0: Clip, c: Clip, b: Rect)
    requires MaxYDefined(c, b) && PlacedY(c0, c)
    requires c.tex.Height() * c0.gl.Height() == c0.tex.Height() * c.gl.Height()
    ensures var r := ClipMaxY(c, b);
      && PlacedY(c0, r)
      && r.tex.Height() * c0.gl.Height() == c0.tex.Height() * r.gl.Height()
  {
    var r := ClipMaxY(c, b);
    DensityChain(c0.tex.Height(), c0.gl.Height(), c.tex.Height(), c.gl.Height(), r.tex.Height(), r.gl.Height());
    MoveEdge(c0.tex.min.y, c0.gl.min.y, c0.tex.Height(), c0.gl.Height(),
             r.tex.min.y, r.gl.min.y, r.tex.Height(), r.gl.Height());
  }

  /** The min-y clip keeps the placement along y. */
  lemma ClipMinYPlaces(c0: Clip, c: Clip, b: Rect)
    requires MinYDefined(c, b) && PlacedY(c0, c)
    requires c.tex.Height() * c0.gl.Height() == c0.tex.Height() * c.gl.Height()
    ensures var r := ClipMinY(c, b);
      && PlacedY(c0, r)
      && r.tex.Height() * c0.gl.Height() == c0.tex.Height() * r.gl.Height()
  {
    var r := ClipMinY(c, b);
    DensityChain(c0.tex.Height(), c0.gl.Height(), c.tex.Height(), c.gl.Height(), r.tex.Height(), r.gl.Height());
    MoveEdge(c0.tex.min.y, c0.gl.min.y, c0.tex.Height(), c0.gl.Height(),
             r.tex.max.y, r.gl.max.y, r.tex.Height(), r.gl.Height());
  }

  /** The two clips along x keep the placement along x and leave y as it was. */
  lemma {:induction false} ClipsXPlace(c0: Clip, b: Rect)
    requires MaxXDefined(c0, b) && MinXDefined(ClipMaxX(c0, b), b)
    ensures var c2 := ClipMinX(ClipMaxX(c0, b), b);
      && PlacedX(c0, c2) && PlacedY(c0, c2)
      && c2.tex.Height() * c0.gl.Height() == c0.tex.Height() * c2.gl.Height()
  {
    var c1 := ClipMaxX(c0, b);
    assert PlacedX(c0, c0);
    ClipMaxXPlaces(c0, c0, b);
    ClipMinXPlaces(c0, c1, b);
  }

  /** The two clips along y keep a placement along y that already holds, and leave x as it was. */
  lemma {:induction false} ClipsYPlace(c0: Clip, c: Clip, b: Rect)
    requires MaxYDefined(c, b) && MinYDefined(ClipMaxY(c, b), b)
    requires PlacedX(c0, c) && PlacedY(c0, c)
    requires c.tex.Height() * c0.gl.Height() == c0.tex.Height() * c.gl.Height()
    ensures var c2 := ClipMinY(ClipMaxY(c, b), b);
      PlacedX(c0, c2) && PlacedY(c0, c2)
  {
    ClipMaxYPlaces(c0, c, b);
    ClipMinYPlaces(c0, ClipMaxY(c, b), b);
  }

  /** All four clips keep both placements. */
  lemma {:induction false} ClipsPlace(c0: Clip, b: Rect)
    requires MaxXDefined(c0, b) && MinXDefined(ClipMaxX(c0, b), b)
    requires var c2 := ClipMinX(ClipMaxX(c0, b), b);
      MaxYDefined(c2, b) && MinYDefined(ClipMaxY(c2, b), b)
    ensures var c4 := ClipMinY(ClipMaxY(ClipMinX(ClipMaxX(c0, b), b), b), b);
      PlacedX(c0, c4) && PlacedY(c0, c4)
  {
    ClipsXPlace(c0, b);
    ClipsYPlace(c0, ClipMinX(ClipMaxX(c0, b), b), b);
  }

  /**
   * Each texture corner of `i` sits at the same fraction of the texture
   * rectangle of `c0` as the matching glyph corner of `i` sits in the glyph
   * rectangle of `c0`.
   */
  predicate CornersPlaced(c0: Clip, i: Instance) {
    && (i.texLeftTop.0 - c0.tex.min.x) * c0.gl.Width() == c0.tex.Width() * (i.leftTop.0 - c0.gl.min.x)
    && (i.texRightBottom.0 - c0.tex.min.x) * c0.gl.Width() == c0.tex.Width() * (i.rightBottom.0 - c0.gl.min.x)
    && (i.texRightBottom.1 - c0.tex.min.y) * c0.gl.Height() == c0.tex.Height() * (i.rightBottom.1 - c0.gl.min.y)
    && (i.texLeftTop.1 - c0.tex.min.y) * c0.gl.Height() == c0.tex.Height() * (i.leftTop.1 - c0.gl.min.y)
  }

  /** An instance laid out from a placed clip has its corners placed. */
  lemma PlacedCorners(c0: Clip, c: Clip, i: Instance)
    requires PlacedX(c0, c) && PlacedY(c0, c)
    requires i.leftTop.0 == c.gl.min.x && i.leftTop.1 == c.gl.max.y
    requires i.rightBottom == (c.gl.max.x, c.gl.min.y)
    requires i.texLeftTop == (c.tex.min.x, c.tex.max.y)
    requires i.texRightBottom == (c.tex.max.x, c.tex.min.y)
    ensures CornersPlaced(c0, i)
  {
  }

  /**
   * Each emitted texture edge sits at the same fraction of the original
   * texture rectangle as the matching emitted edge sits in the original glyph
   * rectangle: clipping cuts the texture exactly where it cuts the glyph.
   */
  lemma {:induction false} FromVertexTexCornersProportional(v: GlyphVertex)
    requires Convertible(v)
    ensures CornersPlaced(Unclipped(v), FromVertex(v))
  {
    var c0 := Unclipped(v);
    var c4 := Clipped(v);
    ClipsPlace(c0, GlBounds(v));
    PlacedCorners(c0, c4, FromVertex(v));
  }

  /**
   * A glyph inside its bounds on every side is emitted with its texture
   * rectangle untouched and its corners in the swapped-y layout.
   */
  lemma FromVertexInsideBounds(v: GlyphVertex)
    requires Convertible(v)
    requires var c := Unclipped(v); var b := GlBounds(v);
      && c.gl.max.x <= b.max.x && c.gl.min.x >= b.min.x
      && c.gl.max.y <= b.max.y && c.gl.min.y >= b.min.y
    ensures var c := Unclipped(v);
      FromVertex(v) == Instance(
        (c.gl.min.x, c.gl.max.y, v.z),
        (c.gl.max.x, c.gl.min.y),
        (v.texCoords.min.x, v.texCoords.max.y),
        (v.texCoords.max.x, v.texCoords.min.y),
        v.color)
  {
  }

  /**
   * The conditions the layout engine meets in practice make the conversion
   * defined: a screen of positive size, a glyph rectangle of positive extent
   * and bounds whose minimum does not exceed their maximum.
   */
  lemma {:induction false} ConvertibleWhenWellFormed(v: GlyphVertex)
    requires v.screenWidth > 0.0 && v.screenHeight > 0.0
    requires v.pixelCoords.min.x < v.pixelCoords.max.x
    requires v.pixelCoords.min.y < v.pixelCoords.max.y
    requires v.bounds.min.x <= v.bounds.max.x && v.bounds.min.y <= v.bounds.max.y
    ensures Convertible(v)
  {
    ToClipMonotonic(v.pixelCoords.min.x, v.pixelCoords.max.x, v.screenWidth);
    ToClipMonotonic(v.pixelCoords.min.y, v.pixelCoords.max.y, v.screenHeight);
    ToClipMonotonic(v.bounds.min.x, v.bounds.max.x, v.screenWidth);
    ToClipMonotonic(v.bounds.min.y, v.bounds.max.y, v.screenHeight);
  }

  /**
   * A glyph at pixels (10,10)-(30,40) inside bounds (0,0)-(100,100) on a
   * 100x100 screen keeps its texture rectangle; its corners land at the
   * clip-space images of x 10 and 30 and of y 40 and 10.
   */
  lemma UnclippedGlyphExample(z: real, color: Color)
    ensures var tex := Rect(Point(0.0, 0.0), Point(0.1, 0.1));
      var v := GlyphVertex(tex, Rect(Point(10.0, 10.0), Point(30.0, 40.0)),
                           Rect(Point(0.0, 0.0), Point(100.0, 100.0)), 100.0, 100.0, color, z);
      Convertible(v) &&
      FromVertex(v) == Instance((-0.8, -0.2, z), (-0.4, -0.8), (0.0, 0.1), (0.1, 0.0), color)
  {
    var tex := Rect(Point(0.0, 0.0), Point(0.1, 0.1));
    var v := GlyphVertex(tex, Rect(Point(10.0, 10.0), Point(30.0, 40.0)),
                         Rect(Point(0.0, 0.0), Point(100.0, 100.0)), 100.0, 100.0, color, z);
    ConvertibleWhenWellFormed(v);
    FromVertexInsideBounds(v);
  }
}
