/** What Fit and Stretch show: the whole picture, as large as it can be shown or to every edge. */
module Framing {
  import opened Transform
  import opened Coverage

  /** Nothing is cut off: every point of the source picture lands on the canvas. */
  ghost predicate Shows(p: Params) {
    forall q :: InSource(p, q) ==> InCanvas(p, Apply(SourceToDest(p), q))
  }

  /** Half the width and height, on the canvas, of the box around the turned picture. */
  function HalfBox(p: Params): Vec2 {
    Box(EffectiveScale(p), RotatedBounds(p))
  }

  function Box(s: Vec2, b: Vec2): Vec2 {
    Vec2(s.x * (0.5 * b.x), s.y * (0.5 * b.y))
  }

  /** That box, displaced by the pan, is within the canvas. */
  predicate BoxFits(p: Params) {
    && Abs(p.panX) + HalfBox(p).x <= 0.5 * p.dstWidth as real
    && Abs(p.panY) + HalfBox(p).y <= 0.5 * p.dstHeight as real
  }

  lemma ScaledBound(s: real, x: real, b: real)
    requires s > 0.0 && -b <= x <= b
    ensures -(s * b) <= s * x <= s * b
  {
    ProductSign(s, b - x);
    ProductSign(s, b + x);
  }

  lemma Minus(t: real, y: real)
    ensures -t * y == -(t * y) && Abs(-t) == Abs(t)
  {
  }

  lemma TurnX(r: Rotation, x: real, y: real, sw: real, sh: real) returns (t: real)
    requires -(0.5 * sw) <= x <= 0.5 * sw && -(0.5 * sh) <= y <= 0.5 * sh
    ensures t == r.c * x - r.s * y && -(0.5 * Projected(sw, sh, r)) <= t <= 0.5 * Projected(sw, sh, r)
  {
    t := r.c * x + -r.s * y;
    DotBound(r.c, -r.s, x, y, sw, sh);
    Minus(r.s, y);
  }

  lemma TurnY(r: Rotation, x: real, y: real, sw: real, sh: real) returns (t: real)
    requires -(0.5 * sw) <= x <= 0.5 * sw && -(0.5 * sh) <= y <= 0.5 * sh
    ensures t == r.s * x + r.c * y && -(0.5 * Projected90(sw, sh, r)) <= t <= 0.5 * Projected90(sw, sh, r)
  {
    t := r.s * x + r.c * y;
    DotBound(r.s, r.c, x, y, sw, sh);
  }

  lemma ShownAs(s: Vec2, r: Rotation, w: Vec2, x: real, y: real)
    requires x == r.c * w.x - r.s * w.y && y == r.s * w.x + r.c * w.y
    ensures Shown(s, r, w) == Vec2(s.x * x, s.y * y)
  {
  }

  /** Turned, a vector within the source's half-extents stays within their projections. */
  lemma ShownTurned(s: Vec2, r: Rotation, w: Vec2, sw: real, sh: real) returns (v: Vec2)
    requires Within(w, sw, sh)
    ensures Shown(s, r, w) == Vec2(s.x * v.x, s.y * v.y)
    ensures -(0.5 * Projected(sw, sh, r)) <= v.x <= 0.5 * Projected(sw, sh, r)
    ensures -(0.5 * Projected90(sw, sh, r)) <= v.y <= 0.5 * Projected90(sw, sh, r)
  {
    var x := TurnX(r, w.x, w.y, sw, sh);
    var y := TurnY(r, w.x, w.y, sw, sh);
    ShownAs(s, r, w, x, y);
    v := Vec2(x, y);
  }

  lemma BoxBound(s: Vec2, v: Vec2, b: Vec2)
    requires s.x > 0.0 && s.y > 0.0
    requires -(0.5 * b.x) <= v.x <= 0.5 * b.x && -(0.5 * b.y) <= v.y <= 0.5 * b.y
    ensures -Box(s, b).x <= s.x * v.x <= Box(s, b).x && -Box(s, b).y <= s.y * v.y <= Box(s, b).y
  {
    ScaledBound(s.x, v.x, 0.5 * b.x);
    ScaledBound(s.y, v.y, 0.5 * b.y);
  }

  /** A vector within the source's half-extents lands within the box. */
  lemma LandsInBox(p: Params, w: Vec2)
    requires !Degenerate(p) && Within(w, p.srcWidth as real, p.srcHeight as real)
    ensures var v := Shown(EffectiveScale(p), p.rotation, w);
            -HalfBox(p).x <= v.x <= HalfBox(p).x && -HalfBox(p).y <= v.y <= HalfBox(p).y
  {
    var v := ShownTurned(EffectiveScale(p), p.rotation, w, p.srcWidth as real, p.srcHeight as real);
    BoxBound(EffectiveScale(p), v, RotatedBounds(p));
  }

  /** The corner of the source that lands furthest right, or left. */
  function SideX(p: Params, up: bool): Vec2 {
    Furthest(p.rotation.c, -p.rotation.s, p.srcWidth as real, p.srcHeight as real, up)
  }

  /** ... and furthest down, or up. */
  function SideY(p: Params, up: bool): Vec2 {
    Furthest(p.rotation.s, p.rotation.c, p.srcWidth as real, p.srcHeight as real, up)
  }

  lemma FurthestTurned(c: real, t: real, sw: real, sh: real, scale: real, up: bool)
    ensures var u, b := Furthest(c, t, sw, sh, up), sw * Abs(c) + sh * Abs(t);
            scale * (c * u.x + t * u.y) == if up then scale * (0.5 * b) else -(scale * (0.5 * b))
  {
    FurthestReaches(c, t, sw, sh, up);
  }

  lemma SideXReaches(s: Vec2, r: Rotation, sw: real, sh: real, up: bool)
    ensures var box := Box(s, Vec2(Projected(sw, sh, r), Projected90(sw, sh, r)));
            Shown(s, r, Furthest(r.c, -r.s, sw, sh, up)).x == if up then box.x else -box.x
  {
    Minus(r.s, Furthest(r.c, -r.s, sw, sh, up).y);
    FurthestTurned(r.c, -r.s, sw, sh, s.x, up);
  }

  lemma SideYReaches(s: Vec2, r: Rotation, sw: real, sh: real, up: bool)
    ensures var box := Box(s, Vec2(Projected(sw, sh, r), Projected90(sw, sh, r)));
            Shown(s, r, Furthest(r.s, r.c, sw, sh, up)).y == if up then box.y else -box.y
  {
    FurthestTurned(r.s, r.c, sw, sh, s.y, up);
  }

  lemma SidesReach(p: Params, up: bool)
    requires !Degenerate(p)
    ensures var s, r := EffectiveScale(p), p.rotation;
            && Shown(s, r, SideX(p, up)).x == (if up then HalfBox(p).x else -HalfBox(p).x)
            && Shown(s, r, SideY(p, up)).y == (if up then HalfBox(p).y else -HalfBox(p).y)
  {
    SideXReaches(EffectiveScale(p), p.rotation, p.srcWidth as real, p.srcHeight as real, up);
    SideYReaches(EffectiveScale(p), p.rotation, p.srcWidth as real, p.srcHeight as real, up);
  }

  /** Where a source point, given about the source centre and flipped, lands on the canvas. */
  lemma LandsAt(p: Params, w: Vec2)
    requires !Degenerate(p) && Within(w, p.srcWidth as real, p.srcHeight as real)
    ensures InSource(p, Placed(p, w))
    ensures var v := Shown(EffectiveScale(p), p.rotation, w);
            Apply(SourceToDest(p), Placed(p, w))
              == Vec2(0.5 * p.dstWidth as real + p.panX + v.x, 0.5 * p.dstHeight as real + p.panY + v.y)
  {
    SourceToDestForm(p, Placed(p, w));
    FlipTwice(p, w);
    ToCanvasAxesForm(p, w);
  }

  lemma Signed(flip: bool, x: real, half: real)
    requires -half <= x <= half
    ensures -half <= Sign(flip) * x <= half
  {
  }

  lemma FromSource(p: Params, q: Vec2) returns (w: Vec2)
    requires InSource(p, q)
    ensures Within(w, p.srcWidth as real, p.srcHeight as real) && Placed(p, w) == q
  {
    w := FromSourceCentre(p, q);
    Signed(p.flipH, q.x - 0.5 * p.srcWidth as real, 0.5 * p.srcWidth as real);
    Signed(p.flipV, q.y - 0.5 * p.srcHeight as real, 0.5 * p.srcHeight as real);
    FlipTwice(p, q);
  }

  lemma OnCanvas(d: real, pan: real, half: real, v: real)
    requires Abs(pan) + half <= 0.5 * d && -half <= v <= half
    ensures 0.0 <= 0.5 * d + pan + v <= d
  {
  }

  lemma LandsOnCanvas(p: Params, q: Vec2)
    requires !Degenerate(p) && BoxFits(p) && InSource(p, q)
    ensures InCanvas(p, Apply(SourceToDest(p), q))
  {
    var w := FromSource(p, q);
    var v := Shown(EffectiveScale(p), p.rotation, w);
    LandsAt(p, w);
    LandsInBox(p, w);
    OnCanvas(p.dstWidth as real, p.panX, HalfBox(p).x, v.x);
    OnCanvas(p.dstHeight as real, p.panY, HalfBox(p).y, v.y);
  }

  lemma FittingBoxShows(p: Params)
    requires !Degenerate(p) && BoxFits(p)
    ensures Shows(p)
  {
    forall q | InSource(p, q) ensures InCanvas(p, Apply(SourceToDest(p), q)) {
      LandsOnCanvas(p, q);
    }
  }

  lemma SideLands(p: Params, w: Vec2)
    requires !Degenerate(p) && Shows(p) && Within(w, p.srcWidth as real, p.srcHeight as real)
    ensures var v := Shown(EffectiveScale(p), p.rotation, w);
            && -0.5 * p.dstWidth as real <= p.panX + v.x <= 0.5 * p.dstWidth as real
            && -0.5 * p.dstHeight as real <= p.panY + v.y <= 0.5 * p.dstHeight as real
  {
    LandsAt(p, w);
  }

  lemma ShowingBoxFits(p: Params)
    requires !Degenerate(p) && Shows(p)
    ensures BoxFits(p)
  {
    SidesReach(p, true);
    SidesReach(p, false);
    SideLands(p, SideX(p, true));
    SideLands(p, SideX(p, false));
    SideLands(p, SideY(p, true));
    SideLands(p, SideY(p, false));
  }

  /** Whether all points of the picture are shown, decided by two inequalities. */
  lemma ShowsIff(p: Params)
    requires !Degenerate(p)
    ensures Shows(p) <==> BoxFits(p)
  {
    if BoxFits(p) { FittingBoxShows(p); }
    if Shows(p) { ShowingBoxFits(p); }
  }

  // ---------------------------------------------------------------------------
  // Fit

  lemma QuotientAtLeast(a: real, s: real, b: real)
    requires s > 0.0
    ensures b <= a / s <==> b * s <= a
  {
    var q := a / s;
    assert q * s == a;
    ProductSign(s, q - b);
    if q < b {
      ProductSign(s, b - q);
    }
  }

  lemma UniformFits(scale: real, b: Vec2, dw: real, dh: real)
    requires scale > 0.0 && b.x > 0.0 && b.y > 0.0
    ensures var box := Box(Vec2(scale, scale), b);
            (box.x <= 0.5 * dw && box.y <= 0.5 * dh) <==> scale <= Min(dw / b.x, dh / b.y)
  {
    QuotientAtLeast(dw, b.x, scale);
    QuotientAtLeast(dh, b.y, scale);
    HalfProduct(scale, b.x);
    HalfProduct(scale, b.y);
  }

  lemma UniformBox(p: Params, scale: real)
    requires !Degenerate(p) && scale > 0.0 && EffectiveScale(p) == Vec2(scale, scale)
    requires p.panX == p.panY == 0.0
    ensures var b := RotatedBounds(p);
            BoxFits(p) <==> scale <= Min(p.dstWidth as real / b.x, p.dstHeight as real / b.y)
  {
    ProjectionIsPositive(p.srcWidth as real, p.srcHeight as real, p.rotation);
    UniformFits(scale, RotatedBounds(p), p.dstWidth as real, p.dstHeight as real);
  }

  lemma HalfProduct(s: real, b: real)
    ensures s * (0.5 * b) == 0.5 * (s * b)
  {
  }

  /** With no pan, Fit uses the greatest uniform scale at which the whole picture is seen. */
  lemma FitScaleIsGreatest(p: Params, scale: real)
    requires !Degenerate(p) && p.fit == Fit && scale > 0.0
    requires p.panX == p.panY == 0.0
    ensures var f := FitScale(p).x;
            Shows(p.(zoom := scale / f)) <==> scale <= f
  {
    var f := FitScale(p).x;
    var q := p.(zoom := scale / f);
    assert scale / f > 0.0 by { ScalePositive(scale, f); }
    assert EffectiveScale(q) == Vec2(scale, scale) by { Quotient(scale, f); }
    ShowsIff(q);
    UniformBox(q, scale);
  }

  // ---------------------------------------------------------------------------
  // Stretch

  /** Some point of the picture lands on each edge of the canvas. */
  ghost predicate TouchesAllEdges(p: Params) {
    && (exists q :: InSource(p, q) && Apply(SourceToDest(p), q).x == 0.0)
    && (exists q :: InSource(p, q) && Apply(SourceToDest(p), q).x == p.dstWidth as real)
    && (exists q :: InSource(p, q) && Apply(SourceToDest(p), q).y == 0.0)
    && (exists q :: InSource(p, q) && Apply(SourceToDest(p), q).y == p.dstHeight as real)
  }

  lemma StretchedBox(p: Params)
    requires !Degenerate(p) && p.fit == Stretch && EffectiveZoom(p) == 1.0
    ensures HalfBox(p) == Vec2(0.5 * p.dstWidth as real, 0.5 * p.dstHeight as real)
  {
    var b := RotatedBounds(p);
    ProjectionIsPositive(p.srcWidth as real, p.srcHeight as real, p.rotation);
    Quotient(p.dstWidth as real, b.x);
    Quotient(p.dstHeight as real, b.y);
    HalfProduct(EffectiveScale(p).x, b.x);
    HalfProduct(EffectiveScale(p).y, b.y);
  }

  /** Stretch, unzoomed and with no pan, shows the whole picture and brings it to every edge. */
  lemma StretchIsExact(p: Params)
    requires !Degenerate(p) && p.fit == Stretch && EffectiveZoom(p) == 1.0 && p.panX == p.panY == 0.0
    ensures Shows(p) && TouchesAllEdges(p)
  {
    StretchedBox(p);
    ShowsIff(p);
    SidesReach(p, true);
    SidesReach(p, false);
    LandsAt(p, SideX(p, true));
    LandsAt(p, SideX(p, false));
    LandsAt(p, SideY(p, true));
    LandsAt(p, SideY(p, false));
  }
}
