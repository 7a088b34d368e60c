/** What the transform promises: exact inverses, and Fill never shows an empty corner. */
module Coverage {
  import opened Transform

  // ---------------------------------------------------------------------------
  // Closed forms of the maps

  /** A canvas vector in source axes, at a given scale and rotation. */
  function Seen(s: Vec2, r: Rotation, v: Vec2): Vec2
    requires s.x != 0.0 && s.y != 0.0
  {
    Turned(r, Vec2((1.0 / s.x) * v.x, (1.0 / s.y) * v.y))
  }

  function Turned(r: Rotation, u: Vec2): Vec2 {
    Vec2(r.c * u.x + r.s * u.y, -r.s * u.x + r.c * u.y)
  }

  lemma ToSourceAxesForm(p: Params, v: Vec2)
    requires !Degenerate(p)
    ensures ToSourceAxes(p, v) == Seen(EffectiveScale(p), p.rotation, v)
  {
    UnscaleThenTurn(EffectiveScale(p), p.rotation, v);
  }

  lemma UnscaleThenTurn(s: Vec2, r: Rotation, v: Vec2)
    requires s.x != 0.0 && s.y != 0.0
    ensures Apply(Mul(Rotate(Inverse(r)), Scale(1.0 / s.x, 1.0 / s.y)), v) == Seen(s, r, v)
  {
    var ix, iy := 1.0 / s.x, 1.0 / s.y;
    MulApply(Rotate(Inverse(r)), Scale(ix, iy), v);
  }

  /** A source vector on the canvas, at a given scale and rotation. */
  function Shown(s: Vec2, r: Rotation, w: Vec2): Vec2 {
    Vec2(s.x * (r.c * w.x - r.s * w.y), s.y * (r.s * w.x + r.c * w.y))
  }

  lemma ToCanvasAxesForm(p: Params, v: Vec2)
    ensures ToCanvasAxes(p, v) == Shown(EffectiveScale(p), p.rotation, v)
  {
    TurnThenScale(EffectiveScale(p), p.rotation, v);
  }

  lemma TurnThenScale(s: Vec2, r: Rotation, v: Vec2)
    ensures Apply(Mul(Scale(s.x, s.y), Rotate(r)), v) == Shown(s, r, v)
  {
    MulApply(Scale(s.x, s.y), Rotate(r), v);
  }

  /** A canvas point relative to the panned canvas centre. */
  function FromPannedCentre(p: Params, q: Vec2): Vec2 {
    Vec2(q.x - 0.5 * p.dstWidth as real - p.panX, q.y - 0.5 * p.dstHeight as real - p.panY)
  }

  /** A point given in source axes about the source centre, flipped and placed. */
  function Placed(p: Params, r: Vec2): Vec2 {
    Vec2(0.5 * p.srcWidth as real + Sign(p.flipH) * r.x, 0.5 * p.srcHeight as real + Sign(p.flipV) * r.y)
  }

  lemma DestToSourceForm(p: Params, q: Vec2)
    requires !Degenerate(p)
    ensures Apply(DestToSource(p), q) == Placed(p, ToSourceAxes(p, FromPannedCentre(p, q)))
  {
    var s := EffectiveScale(p);
    var a := Translate(0.5 * p.srcWidth as real, 0.5 * p.srcHeight as real);
    var b := Scale(Sign(p.flipH), Sign(p.flipV));
    var c := Rotate(Inverse(p.rotation));
    var d := Scale(1.0 / s.x, 1.0 / s.y);
    var e := Translate(-p.panX, -p.panY);
    var f := Translate(-0.5 * p.dstWidth as real, -0.5 * p.dstHeight as real);
    MulSix(a, b, c, d, e, f, q);
    MulApply(c, d, FromPannedCentre(p, q));
  }

  lemma MulSix(a: Mat3, b: Mat3, c: Mat3, d: Mat3, e: Mat3, f: Mat3, q: Vec2)
    requires Affine(a) && Affine(b) && Affine(c) && Affine(d) && Affine(e) && Affine(f)
    ensures Apply(Mul(Mul(Mul(Mul(Mul(a, b), c), d), e), f), q)
         == Apply(a, Apply(b, Apply(c, Apply(d, Apply(e, Apply(f, q))))))
  {
    MulApply(a, b, Apply(c, Apply(d, Apply(e, Apply(f, q)))));
    MulApply(Mul(a, b), c, Apply(d, Apply(e, Apply(f, q))));
    MulApply(Mul(Mul(a, b), c), d, Apply(e, Apply(f, q)));
    MulApply(Mul(Mul(Mul(a, b), c), d), e, Apply(f, q));
    MulApply(Mul(Mul(Mul(Mul(a, b), c), d), e), f, q);
  }

  /** A source point about the source centre, flipped. */
  function FromSourceCentre(p: Params, q: Vec2): Vec2 {
    Vec2(Sign(p.flipH) * (q.x - 0.5 * p.srcWidth as real),
         Sign(p.flipV) * (q.y - 0.5 * p.srcHeight as real))
  }

  lemma SourceToDestForm(p: Params, q: Vec2)
    requires !Degenerate(p)
    ensures var v := ToCanvasAxes(p, FromSourceCentre(p, q));
            Apply(SourceToDest(p), q) == Vec2(0.5 * p.dstWidth as real + p.panX + v.x,
                                              0.5 * p.dstHeight as real + p.panY + v.y)
  {
    var s := EffectiveScale(p);
    var a := Translate(0.5 * p.dstWidth as real, 0.5 * p.dstHeight as real);
    var b := Translate(p.panX, p.panY);
    var c := Scale(s.x, s.y);
    var d := Rotate(p.rotation);
    var e := Scale(Sign(p.flipH), Sign(p.flipV));
    var f := Translate(-0.5 * p.srcWidth as real, -0.5 * p.srcHeight as real);
    MulSix(a, b, c, d, e, f, q);
    MulApply(c, d, FromSourceCentre(p, q));
  }

  // ---------------------------------------------------------------------------
  // The maps invert each other

  lemma Distribute(c: real, s: real, x: real, y: real)
    ensures c * (c * x - s * y) + s * (s * x + c * y) == (c * c + s * s) * x
    ensures -s * (c * x - s * y) + c * (s * x + c * y) == (c * c + s * s) * y
  {
  }

  lemma Cancel(s: real, x: real)
    requires s != 0.0
    ensures (1.0 / s) * (s * x) == x && s * ((1.0 / s) * x) == x
  {
    var i := 1.0 / s;
    assert i * s == 1.0;
    assert (i * s) * x == x;
  }

  lemma SeenShown(s: Vec2, r: Angle, w: Vec2)
    requires s.x != 0.0 && s.y != 0.0
    ensures Seen(s, r, Shown(s, r, w)) == w
  {
    Cancel(s.x, r.c * w.x - r.s * w.y);
    Cancel(s.y, r.s * w.x + r.c * w.y);
    Distribute(r.c, r.s, w.x, w.y);
  }

  lemma ShownSeen(s: Vec2, r: Angle, v: Vec2)
    requires s.x != 0.0 && s.y != 0.0
    ensures Shown(s, r, Seen(s, r, v)) == v
  {
    var ux, uy := (1.0 / s.x) * v.x, (1.0 / s.y) * v.y;
    Distribute(r.c, -r.s, ux, uy);
    Cancel(s.x, v.x);
    Cancel(s.y, v.y);
  }

  lemma AxesRoundTrip(p: Params, v: Vec2)
    requires !Degenerate(p)
    ensures ToSourceAxes(p, ToCanvasAxes(p, v)) == v
    ensures ToCanvasAxes(p, ToSourceAxes(p, v)) == v
  {
    ToCanvasAxesForm(p, v);
    ToSourceAxesForm(p, ToCanvasAxes(p, v));
    SeenShown(EffectiveScale(p), p.rotation, v);
    ToSourceAxesForm(p, v);
    ToCanvasAxesForm(p, ToSourceAxes(p, v));
    ShownSeen(EffectiveScale(p), p.rotation, v);
  }

  lemma FlipTwice(p: Params, r: Vec2)
    ensures FromSourceCentre(p, Placed(p, r)) == r
    ensures Placed(p, FromSourceCentre(p, r)) == r
  {
  }

  /** Hit testing and sampling agree: each map undoes the other at every point. */
  lemma MapsAreInverse(p: Params, q: Vec2)
    ensures Apply(DestToSource(p), Apply(SourceToDest(p), q)) == q
    ensures Apply(SourceToDest(p), Apply(DestToSource(p), q)) == q
  {
    if !Degenerate(p) {
      var there := Apply(SourceToDest(p), q);
      SourceToDestForm(p, q);
      DestToSourceForm(p, there);
      assert FromPannedCentre(p, there) == ToCanvasAxes(p, FromSourceCentre(p, q));
      AxesRoundTrip(p, FromSourceCentre(p, q));
      FlipTwice(p, q);

      var back := Apply(DestToSource(p), q);
      var d := FromPannedCentre(p, q);
      DestToSourceForm(p, q);
      SourceToDestForm(p, back);
      FlipTwice(p, ToSourceAxes(p, d));
      AxesRoundTrip(p, d);
    }
  }

  // ---------------------------------------------------------------------------
  // When the canvas is covered

  predicate InCanvas(p: Params, q: Vec2) {
    0.0 <= q.x <= p.dstWidth as real && 0.0 <= q.y <= p.dstHeight as real
  }

  predicate InSource(p: Params, q: Vec2) {
    0.0 <= q.x <= p.srcWidth as real && 0.0 <= q.y <= p.srcHeight as real
  }

  /** No empty corner: every canvas point samples inside the source picture. */
  ghost predicate Covers(p: Params) {
    forall q :: InCanvas(p, q) ==> InSource(p, Apply(DestToSource(p), q))
  }

  /** The pan, seen in source axes. */
  function PanInSource(p: Params): Vec2
    requires !Degenerate(p)
  {
    ToSourceAxes(p, Vec2(p.panX, p.panY))
  }

  /** The sampled window, displaced by the pan, stays inside the source on both axes. */
  predicate WindowFits(p: Params)
    requires !Degenerate(p)
  {
    var pan, need := PanInSource(p), NeedHalf(p);
    && Abs(pan.x) + need.x <= 0.5 * p.srcWidth as real
    && Abs(pan.y) + need.y <= 0.5 * p.srcHeight as real
  }

  lemma MulBound(c: real, x: real, b: real)
    requires -b <= x <= b
    ensures -(Abs(c) * b) <= c * x <= Abs(c) * b
  {
    ProductSign(Abs(c), b - x);
    ProductSign(Abs(c), b + x);
  }

  lemma DivBound(x: real, b: real, s: real)
    requires s > 0.0 && -b <= x <= b
    ensures -(b / s) <= (1.0 / s) * x <= b / s
  {
    var i := 1.0 / s;
    assert i > 0.0 && b / s == i * b;
    ProductSign(i, b - x);
    ProductSign(i, b + x);
  }

  lemma HalfQuotient(w: real, s: real)
    requires s > 0.0
    ensures (0.5 * w) / s == 0.5 * (w / s)
    ensures (1.0 / s) * (0.5 * w) == 0.5 * (w / s)
    ensures (1.0 / s) * (-0.5 * w) == -(0.5 * (w / s))
  {
  }

  /** A vector within half-extents w and h reaches at most their projection on any axis. */
  lemma DotBound(c: real, s: real, x: real, y: real, w: real, h: real)
    requires -(0.5 * w) <= x <= 0.5 * w && -(0.5 * h) <= y <= 0.5 * h
    ensures -(0.5 * (w * Abs(c) + h * Abs(s))) <= c * x + s * y <= 0.5 * (w * Abs(c) + h * Abs(s))
  {
    MulBound(c, x, 0.5 * w);
    MulBound(s, y, 0.5 * h);
    assert Abs(c) * (0.5 * w) == 0.5 * (w * Abs(c));
    assert Abs(s) * (0.5 * h) == 0.5 * (h * Abs(s));
  }

  /** The half-extents of the canvas window at a given scale and rotation. */
  function Window(s: Vec2, r: Rotation, dw: real, dh: real): Vec2
    requires s.x > 0.0 && s.y > 0.0
  {
    Vec2(0.5 * Projected(dw / s.x, dh / s.y, r), 0.5 * Projected90(dw / s.x, dh / s.y, r))
  }

  predicate Within(d: Vec2, w: real, h: real) {
    -(0.5 * w) <= d.x <= 0.5 * w && -(0.5 * h) <= d.y <= 0.5 * h
  }

  lemma UnscaledWithin(s: Vec2, r: Rotation, d: Vec2, dw: real, dh: real) returns (u: Vec2)
    requires s.x > 0.0 && s.y > 0.0 && Within(d, dw, dh)
    ensures Seen(s, r, d) == Turned(r, u) && Within(u, dw / s.x, dh / s.y)
  {
    u := Vec2((1.0 / s.x) * d.x, (1.0 / s.y) * d.y);
    DivBound(d.x, 0.5 * dw, s.x);
    DivBound(d.y, 0.5 * dh, s.y);
    HalfQuotient(dw, s.x);
    HalfQuotient(dh, s.y);
  }

  /** A vector within half-extents, turned, stays within their projections. */
  lemma TurnedWithin(r: Rotation, u: Vec2, w: real, h: real)
    requires Within(u, w, h)
    ensures -(0.5 * Projected(w, h, r)) <= Turned(r, u).x <= 0.5 * Projected(w, h, r)
    ensures -(0.5 * Projected90(w, h, r)) <= Turned(r, u).y <= 0.5 * Projected90(w, h, r)
  {
    DotBound(r.c, r.s, u.x, u.y, w, h);
    DotBound(-r.s, r.c, u.x, u.y, w, h);
    assert Abs(-r.s) == Abs(r.s);
  }

  lemma SeenWithin(s: Vec2, r: Rotation, d: Vec2, dw: real, dh: real, need: Vec2)
    requires s.x > 0.0 && s.y > 0.0 && Within(d, dw, dh) && need == Window(s, r, dw, dh)
    ensures -need.x <= Seen(s, r, d).x <= need.x
    ensures -need.y <= Seen(s, r, d).y <= need.y
  {
    var u := UnscaledWithin(s, r, d, dw, dh);
    TurnedWithin(r, u, dw / s.x, dh / s.y);
  }

  /** The corner at half-extents w and h that reaches furthest along an axis, either way. */
  function Furthest(c: real, s: real, w: real, h: real, up: bool): Vec2 {
    Vec2(if (c < 0.0) == up then -0.5 * w else 0.5 * w, if (s < 0.0) == up then -0.5 * h else 0.5 * h)
  }

  lemma FurthestReaches(c: real, s: real, w: real, h: real, up: bool)
    ensures var u := Furthest(c, s, w, h, up);
            c * u.x + s * u.y == (if up then 0.5 else -0.5) * (w * Abs(c) + h * Abs(s))
  {
  }

  lemma FurthestScales(s: Vec2, c: real, t: real, dw: real, dh: real, up: bool)
    requires s.x > 0.0 && s.y > 0.0
    ensures var d := Furthest(c, t, dw, dh, up);
            Vec2((1.0 / s.x) * d.x, (1.0 / s.y) * d.y) == Furthest(c, t, dw / s.x, dh / s.y, up)
  {
    HalfQuotient(dw, s.x);
    HalfQuotient(dh, s.y);
  }

  function CornerX(p: Params, up: bool): Vec2 {
    Furthest(p.rotation.c, p.rotation.s, p.dstWidth as real, p.dstHeight as real, up)
  }

  function CornerY(p: Params, up: bool): Vec2 {
    Furthest(-p.rotation.s, p.rotation.c, p.dstWidth as real, p.dstHeight as real, up)
  }

  lemma SeenFurthestX(s: Vec2, r: Rotation, dw: real, dh: real, up: bool, need: Vec2)
    requires s.x > 0.0 && s.y > 0.0 && need == Window(s, r, dw, dh)
    ensures Seen(s, r, Furthest(r.c, r.s, dw, dh, up)).x == (if up then need.x else -need.x)
  {
    FurthestScales(s, r.c, r.s, dw, dh, up);
    FurthestReaches(r.c, r.s, dw / s.x, dh / s.y, up);
  }

  lemma SeenFurthestY(s: Vec2, r: Rotation, dw: real, dh: real, up: bool, need: Vec2)
    requires s.x > 0.0 && s.y > 0.0 && need == Window(s, r, dw, dh)
    ensures Seen(s, r, Furthest(-r.s, r.c, dw, dh, up)).y == (if up then need.y else -need.y)
  {
    FurthestScales(s, -r.s, r.c, dw, dh, up);
    FurthestReaches(-r.s, r.c, dw / s.x, dh / s.y, up);
  }

  lemma CornersReach(p: Params, up: bool)
    requires !Degenerate(p)
    ensures var need := NeedHalf(p);
            && ToSourceAxes(p, CornerX(p, up)).x == (if up then need.x else -need.x)
            && ToSourceAxes(p, CornerY(p, up)).y == (if up then need.y else -need.y)
  {
    ToSourceAxesForm(p, CornerX(p, up));
    ToSourceAxesForm(p, CornerY(p, up));
    SeenFurthestX(EffectiveScale(p), p.rotation, p.dstWidth as real, p.dstHeight as real, up, NeedHalf(p));
    SeenFurthestY(EffectiveScale(p), p.rotation, p.dstWidth as real, p.dstHeight as real, up, NeedHalf(p));
  }

  lemma SeenIsLinear(s: Vec2, r: Rotation, a: Vec2, b: Vec2)
    requires s.x != 0.0 && s.y != 0.0
    ensures var x, y := Seen(s, r, a), Seen(s, r, b);
            Seen(s, r, Vec2(a.x - b.x, a.y - b.y)) == Vec2(x.x - y.x, x.y - y.y)
  {
  }

  lemma AxesAreLinear(p: Params, a: Vec2, b: Vec2)
    requires !Degenerate(p)
    ensures var d, x, y := Vec2(a.x - b.x, a.y - b.y), ToSourceAxes(p, a), ToSourceAxes(p, b);
            ToSourceAxes(p, d) == Vec2(x.x - y.x, x.y - y.y)
  {
    ToSourceAxesForm(p, a);
    ToSourceAxesForm(p, b);
    ToSourceAxesForm(p, Vec2(a.x - b.x, a.y - b.y));
    SeenIsLinear(EffectiveScale(p), p.rotation, a, b);
  }

  /** Where a canvas point, given about the canvas centre, samples the source. */
  lemma SampleAt(p: Params, d: Vec2)
    requires !Degenerate(p)
    ensures var q := Vec2(0.5 * p.dstWidth as real + d.x, 0.5 * p.dstHeight as real + d.y);
            var r, pan := ToSourceAxes(p, d), PanInSource(p);
            Apply(DestToSource(p), q) == Placed(p, Vec2(r.x - pan.x, r.y - pan.y))
  {
    var q := Vec2(0.5 * p.dstWidth as real + d.x, 0.5 * p.dstHeight as real + d.y);
    DestToSourceForm(p, q);
    AxesAreLinear(p, d, Vec2(p.panX, p.panY));
  }

  lemma FittingWindowCovers(p: Params)
    requires !Degenerate(p) && WindowFits(p)
    ensures Covers(p)
  {
    forall q | InCanvas(p, q) ensures InSource(p, Apply(DestToSource(p), q)) {
      var d := Vec2(q.x - 0.5 * p.dstWidth as real, q.y - 0.5 * p.dstHeight as real);
      SampleAt(p, d);
      ToSourceAxesForm(p, d);
      SeenWithin(EffectiveScale(p), p.rotation, d, p.dstWidth as real, p.dstHeight as real, NeedHalf(p));
    }
  }

  lemma CoveringWindowFits(p: Params)
    requires !Degenerate(p) && Covers(p)
    ensures WindowFits(p)
  {
    CornersReach(p, true);
    CornersReach(p, false);
    CornerIsSampled(p, CornerX(p, true));
    CornerIsSampled(p, CornerX(p, false));
    CornerIsSampled(p, CornerY(p, true));
    CornerIsSampled(p, CornerY(p, false));
  }

  lemma CornerIsSampled(p: Params, d: Vec2)
    requires !Degenerate(p) && Covers(p)
    requires d.x == 0.5 * p.dstWidth as real || d.x == -0.5 * p.dstWidth as real
    requires d.y == 0.5 * p.dstHeight as real || d.y == -0.5 * p.dstHeight as real
    ensures var r, pan := ToSourceAxes(p, d), PanInSource(p);
            && -0.5 * p.srcWidth as real <= r.x - pan.x <= 0.5 * p.srcWidth as real
            && -0.5 * p.srcHeight as real <= r.y - pan.y <= 0.5 * p.srcHeight as real
  {
    SampleAt(p, d);
    var q := Vec2(0.5 * p.dstWidth as real + d.x, 0.5 * p.dstHeight as real + d.y);
    assert InCanvas(p, q);
  }

  /** Coverage of all canvas points, decided by two inequalities. */
  lemma CoverageIff(p: Params)
    requires !Degenerate(p)
    ensures Covers(p) <==> WindowFits(p)
  {
    if WindowFits(p) { FittingWindowCovers(p); }
    if Covers(p) { CoveringWindowFits(p); }
  }

  // ---------------------------------------------------------------------------
  // The clamp

  lemma ScaleIgnoresPan(p: Params, x: real, y: real)
    ensures var k := p.(panX := x, panY := y);
            && FitScale(k) == FitScale(p) && EffectiveScale(k) == EffectiveScale(p)
            && (!Degenerate(p) ==> NeedHalf(k) == NeedHalf(p))
  {
    var k := p.(panX := x, panY := y);
    assert RotatedBounds(k) == RotatedBounds(p);
    assert FitScale(k) == FitScale(p);
  }

  /** The clamp changes only the pan, so scale, window and slack stay. */
  lemma ClampKeepsWindow(p: Params)
    requires !Degenerate(p)
    ensures var k := Clamped(p);
            && !Degenerate(k) && NeedHalf(k) == NeedHalf(p) && PanSlack(k) == PanSlack(p)
            && (forall v :: ToSourceAxes(k, v) == ToSourceAxes(p, v))
            && (forall v :: ToCanvasAxes(k, v) == ToCanvasAxes(p, v))
  {
    var k := Clamped(p);
    assert k == p.(panX := k.panX, panY := k.panY);
    ScaleIgnoresPan(p, k.panX, k.panY);
  }

  lemma ClampedPan(p: Params)
    requires !Degenerate(p)
    ensures var pan, slack := PanInSource(p), PanSlack(p);
            PanInSource(Clamped(p)) == Vec2(Clamp(pan.x, -slack.x, slack.x),
                                            Clamp(pan.y, -slack.y, slack.y))
  {
    var pan, slack := PanInSource(p), PanSlack(p);
    var v := Vec2(Clamp(pan.x, -slack.x, slack.x), Clamp(pan.y, -slack.y, slack.y));
    AxesRoundTrip(p, v);
    ClampKeepsWindow(p);
  }

  /** After the clamp the canvas is covered whenever the window is no larger than the source. */
  lemma ClampCoversIff(p: Params)
    requires !Degenerate(p)
    ensures Covers(Clamped(p)) <==>
              NeedHalf(p).x <= 0.5 * p.srcWidth as real && NeedHalf(p).y <= 0.5 * p.srcHeight as real
  {
    ClampedPan(p);
    ClampKeepsWindow(p);
    CoverageIff(Clamped(p));
  }

  /** A pan that covers is left alone. */
  lemma ClampKeepsCoveringPan(p: Params)
    requires !Degenerate(p) && Covers(p)
    ensures Clamped(p) == p
  {
    CoverageIff(p);
    AxesRoundTrip(p, Vec2(p.panX, p.panY));
  }

  lemma ClampIsIdempotent(p: Params)
    ensures Clamped(Clamped(p)) == Clamped(p)
  {
    if !Degenerate(p) {
      var k := Clamped(p);
      ClampedPan(p);
      ClampKeepsWindow(p);
      AxesRoundTrip(k, Vec2(k.panX, k.panY));
    }
  }

  // ---------------------------------------------------------------------------
  // Fill

  lemma QuotientAtMost(a: real, s: real, b: real)
    requires s > 0.0
    ensures a / s <= b <==> a <= b * s
  {
    var q := a / s;
    assert q * s == a;
    ProductSign(s, b - q);
    if q > b {
      ProductSign(s, q - b);
    }
  }

  lemma ProjectionScales(w: real, h: real, r: Rotation, s: real)
    requires s > 0.0
    ensures Projected(w / s, h / s, r) == Projected(w, h, r) / s
    ensures Projected90(w / s, h / s, r) == Projected90(w, h, r) / s
  {
    var i := 1.0 / s;
    assert w / s == w * i && h / s == h * i;
    Factor(w, h, Abs(r.c), Abs(r.s), i);
    Factor(w, h, Abs(r.s), Abs(r.c), i);
    assert Projected(w, h, r) / s == Projected(w, h, r) * i;
    assert Projected90(w, h, r) / s == Projected90(w, h, r) * i;
  }

  lemma Factor(w: real, h: real, c: real, s: real, i: real)
    ensures (w * i) * c + (h * i) * s == (w * c + h * s) * i
  {
  }

  /** A uniform scale lets the canvas window into the source exactly from the Fill scale on. */
  lemma UniformWindow(p: Params, scale: real)
    requires !Degenerate(p) && scale > 0.0
    ensures var dw, dh := p.dstWidth as real, p.dstHeight as real;
            var sw, sh := p.srcWidth as real, p.srcHeight as real;
            (Projected(dw / scale, dh / scale, p.rotation) <= sw
             && Projected90(dw / scale, dh / scale, p.rotation) <= sh)
            <==> scale >= FillScale(sw, sh, dw, dh, p.rotation)
  {
    var dw, dh := p.dstWidth as real, p.dstHeight as real;
    var sw, sh := p.srcWidth as real, p.srcHeight as real;
    var a, b := Projected(dw, dh, p.rotation), Projected90(dw, dh, p.rotation);
    ProjectionScales(dw, dh, p.rotation, scale);
    QuotientAtMost(a, scale, sw);
    QuotientAtMost(b, scale, sh);
    QuotientAtMost(a, sw, scale);
    QuotientAtMost(b, sh, scale);
  }

  lemma ZoomedUp(f: real, z: real, scale: real)
    requires f > 0.0 && scale == f * z
    ensures scale >= f <==> z >= 1.0
  {
    ProductSign(f, z - 1.0);
    if z < 1.0 {
      ProductSign(f, 1.0 - z);
    }
  }

  lemma FillIsUniform(p: Params)
    requires !Degenerate(p) && p.fit == Fill
    ensures var f := FitScale(p).x;
            && EffectiveScale(p) == Vec2(f * EffectiveZoom(p), f * EffectiveZoom(p))
            && f == FillScale(p.srcWidth as real, p.srcHeight as real, p.dstWidth as real,
                              p.dstHeight as real, p.rotation)
  {
  }

  lemma UniformNeed(p: Params, scale: real)
    requires !Degenerate(p) && scale > 0.0 && EffectiveScale(p) == Vec2(scale, scale)
    ensures (NeedHalf(p).x <= 0.5 * p.srcWidth as real
             && NeedHalf(p).y <= 0.5 * p.srcHeight as real)
            <==> scale >= FillScale(p.srcWidth as real, p.srcHeight as real, p.dstWidth as real,
                                    p.dstHeight as real, p.rotation)
  {
    UniformWindow(p, scale);
    assert NeedHalf(p)
        == Window(Vec2(scale, scale), p.rotation, p.dstWidth as real, p.dstHeight as real);
  }

  /**
   * Fill never shows an empty corner: at any rotation, flip, size and pan, after the clamp the
   * whole canvas samples inside the source, exactly when the zoom does not shrink the picture.
   */
  lemma FillNeverShowsAnEdge(p: Params)
    requires !Degenerate(p) && p.fit == Fill
    ensures Covers(Clamped(p)) <==> EffectiveZoom(p) >= 1.0
  {
    var f, z := FitScale(p).x, EffectiveZoom(p);
    FillIsUniform(p);
    var scale := f * z;
    assert EffectiveScale(p) == Vec2(scale, scale);
    ZoomedUp(f, z, scale);
    UniformNeed(p, scale);
    ClampCoversIff(p);
  }

  /** With no pan, Fill uses the least uniform scale that covers the canvas. */
  lemma FillScaleIsLeast(p: Params, scale: real)
    requires !Degenerate(p) && p.fit == Fill && scale > 0.0
    requires p.panX == p.panY == 0.0
    ensures var f := FitScale(p).x;
            Covers(p.(zoom := scale / f)) <==> scale >= f
  {
    var f := FitScale(p).x;
    var q := p.(zoom := scale / f);
    assert scale / f > 0.0 by { ScalePositive(scale, f); }
    assert EffectiveScale(q) == Vec2(scale, scale) by { Cancel(f, scale); Quotient(scale, f); }
    CoverageIff(q);
    UniformNeed(q, scale);
    ToSourceAxesForm(q, Vec2(0.0, 0.0));
  }

  lemma ScalePositive(a: real, b: real)
    requires a > 0.0 && b > 0.0
    ensures a / b > 0.0
  {
  }

  lemma Quotient(a: real, b: real)
    requires b > 0.0
    ensures b * (a / b) == a
  {
  }
}
