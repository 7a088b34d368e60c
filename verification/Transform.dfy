/**
 * The geometric transform of the video pipeline, over the reals. An angle is its cosine and
 * sine, so every statement below holds at any rotation.
 */
module Transform {

  datatype Vec2 = Vec2(x: real, y: real)

  /** Row-major 3x3 matrix. */
  datatype Mat3 = Mat3(m0: real, m1: real, m2: real,
                       m3: real, m4: real, m5: real,
                       m6: real, m7: real, m8: real)

  datatype Rotation = Rotation(c: real, s: real)

  type Angle = r: Rotation | r.c * r.c + r.s * r.s == 1.0 witness Rotation(1.0, 0.0)

  datatype FitMode = Fit | Fill | Stretch

  datatype Params = Params(
    srcWidth: int, srcHeight: int, dstWidth: int, dstHeight: int,
    rotation: Angle, flipH: bool, flipV: bool,
    fit: FitMode, zoom: real, panX: real, panY: real)

  function Abs(x: real): (r: real)
    ensures r >= 0.0 && (r == x || r == -x)
  {
    if x < 0.0 then -x else x
  }

  function Min(a: real, b: real): real { if b < a then b else a }
  function Max(a: real, b: real): real { if a < b then b else a }
  function Clamp(v: real, lo: real, hi: real): real { if v < lo then lo else if hi < v then hi else v }

  // ---------------------------------------------------------------------------
  // Matrices

  const IDENTITY := Mat3(1.0, 0.0, 0.0, 0.0, 1.0, 0.0, 0.0, 0.0, 1.0)

  function Translate(tx: real, ty: real): Mat3 { IDENTITY.(m2 := tx, m5 := ty) }
  function Scale(sx: real, sy: real): Mat3 { IDENTITY.(m0 := sx, m4 := sy) }

  /** Clockwise as displayed, since y grows downward. */
  function Rotate(r: Rotation): Mat3 { IDENTITY.(m0 := r.c, m1 := -r.s, m3 := r.s, m4 := r.c) }

  function Inverse(r: Rotation): Rotation { Rotation(r.c, -r.s) }

  function Mul(a: Mat3, b: Mat3): Mat3 {
    Mat3(a.m0 * b.m0 + a.m1 * b.m3 + a.m2 * b.m6,
         a.m0 * b.m1 + a.m1 * b.m4 + a.m2 * b.m7,
         a.m0 * b.m2 + a.m1 * b.m5 + a.m2 * b.m8,
         a.m3 * b.m0 + a.m4 * b.m3 + a.m5 * b.m6,
         a.m3 * b.m1 + a.m4 * b.m4 + a.m5 * b.m7,
         a.m3 * b.m2 + a.m4 * b.m5 + a.m5 * b.m8,
         a.m6 * b.m0 + a.m7 * b.m3 + a.m8 * b.m6,
         a.m6 * b.m1 + a.m7 * b.m4 + a.m8 * b.m7,
         a.m6 * b.m2 + a.m7 * b.m5 + a.m8 * b.m8)
  }

  function Entries(m: Mat3): (r: seq<real>)
    ensures |r| == 9
  {
    [m.m0, m.m1, m.m2, m.m3, m.m4, m.m5, m.m6, m.m7, m.m8]
  }

  /** A row of one matrix against a column of the other. */
  function Dot(a: seq<real>, b: seq<real>, row: nat, col: nat): real
    requires |a| == |b| == 9 && row < 3 && col < 3
  {
    a[row * 3] * b[col] + a[row * 3 + 1] * b[3 + col] + a[row * 3 + 2] * b[6 + col]
  }

  method DotOf(a: seq<real>, b: seq<real>, row: nat, col: nat) returns (acc: real)
    requires |a| == |b| == 9 && row < 3 && col < 3
    ensures acc == Dot(a, b, row, col)
  {
    acc := 0.0;
    for k := 0 to 3
      invariant k == 0 ==> acc == 0.0
      invariant k == 1 ==> acc == a[row * 3] * b[col]
      invariant k == 2 ==> acc == a[row * 3] * b[col] + a[row * 3 + 1] * b[3 + col]
      invariant k == 3 ==> acc == Dot(a, b, row, col)
    {
      acc := acc + a[row * 3 + k] * b[k * 3 + col];
    }
  }

  /** The product as the program forms it, entry by entry. */
  method Multiply(a: Mat3, b: Mat3) returns (r: Mat3)
    ensures r == Mul(a, b)
  {
    var x, y := Entries(a), Entries(b);
    var m: seq<real> := [];
    for row := 0 to 3
      invariant |m| == row * 3
      invariant forall i, j :: 0 <= i < row && 0 <= j < 3 ==> m[i * 3 + j] == Dot(x, y, i, j)
    {
      for col := 0 to 3
        invariant |m| == row * 3 + col
        invariant forall i, j :: 0 <= i < row && 0 <= j < 3 ==> m[i * 3 + j] == Dot(x, y, i, j)
        invariant forall j :: 0 <= j < col ==> m[row * 3 + j] == Dot(x, y, row, j)
      {
        var acc := DotOf(x, y, row, col);
        m := m + [acc];
      }
    }
    ProductIs(a, b, m);
    r := Mat3(m[0], m[1], m[2], m[3], m[4], m[5], m[6], m[7], m[8]);
  }

  lemma ProductIs(a: Mat3, b: Mat3, m: seq<real>)
    requires |m| == 9
    requires forall i, j :: 0 <= i < 3 && 0 <= j < 3 ==> m[i * 3 + j] == Dot(Entries(a), Entries(b), i, j)
    ensures Mat3(m[0], m[1], m[2], m[3], m[4], m[5], m[6], m[7], m[8]) == Mul(a, b)
  {
    var x, y := Entries(a), Entries(b);
    assert m[0 * 3 + 0] == Dot(x, y, 0, 0) && m[0 * 3 + 1] == Dot(x, y, 0, 1) && m[0 * 3 + 2] == Dot(x, y, 0, 2);
    assert m[1 * 3 + 0] == Dot(x, y, 1, 0) && m[1 * 3 + 1] == Dot(x, y, 1, 1) && m[1 * 3 + 2] == Dot(x, y, 1, 2);
    assert m[2 * 3 + 0] == Dot(x, y, 2, 0) && m[2 * 3 + 1] == Dot(x, y, 2, 1) && m[2 * 3 + 2] == Dot(x, y, 2, 2);
  }

  function Apply(m: Mat3, p: Vec2): Vec2 {
    Vec2(m.m0 * p.x + m.m1 * p.y + m.m2, m.m3 * p.x + m.m4 * p.y + m.m5)
  }

  predicate Affine(m: Mat3) {
    m.m6 == 0.0 && m.m7 == 0.0 && m.m8 == 1.0
  }

  /** Composition: the right factor acts first. */
  lemma MulApply(a: Mat3, b: Mat3, p: Vec2)
    requires Affine(a) && Affine(b)
    ensures Affine(Mul(a, b)) && Apply(Mul(a, b), p) == Apply(a, Apply(b, p))
  {
  }

  // ---------------------------------------------------------------------------
  // Scales

  predicate Degenerate(p: Params) {
    p.srcWidth <= 0 || p.srcHeight <= 0 || p.dstWidth <= 0 || p.dstHeight <= 0
  }

  /** One extent seen along an axis turned by the rotation: w|c| + h|s|. */
  function Projected(w: real, h: real, r: Rotation): real {
    w * Abs(r.c) + h * Abs(r.s)
  }

  function Projected90(w: real, h: real, r: Rotation): real {
    w * Abs(r.s) + h * Abs(r.c)
  }

  lemma ProjectionIsPositive(w: real, h: real, r: Angle)
    requires w > 0.0 && h > 0.0
    ensures Projected(w, h, r) > 0.0 && Projected90(w, h, r) > 0.0
  {
    var c, s := Abs(r.c), Abs(r.s);
    if c == 0.0 {
      assert s > 0.0;
    }
    ProductSign(w, c);
    ProductSign(w, s);
    ProductSign(h, c);
    ProductSign(h, s);
  }

  lemma ProductSign(a: real, b: real)
    ensures a >= 0.0 && b >= 0.0 ==> a * b >= 0.0
    ensures a > 0.0 && b > 0.0 ==> a * b > 0.0
    ensures a >= 0.0 && b <= 0.0 ==> a * b <= 0.0
  {
  }

  function RotatedBounds(p: Params): Vec2 {
    if Degenerate(p) then Vec2(0.0, 0.0)
    else Vec2(Projected(p.srcWidth as real, p.srcHeight as real, p.rotation),
              Projected90(p.srcWidth as real, p.srcHeight as real, p.rotation))
  }

  function FitScale(p: Params): (r: Vec2)
    ensures !Degenerate(p) ==> r.x > 0.0 && r.y > 0.0
  {
    if Degenerate(p) then Vec2(0.0, 0.0)
    else
      var dw, dh := p.dstWidth as real, p.dstHeight as real;
      var sw, sh := p.srcWidth as real, p.srcHeight as real;
      var b := RotatedBounds(p);
      ProjectionIsPositive(sw, sh, p.rotation);
      ProjectionIsPositive(dw, dh, p.rotation);
      match p.fit
      case Fit => var s := Min(dw / b.x, dh / b.y); Vec2(s, s)
      case Fill => var s := FillScale(sw, sh, dw, dh, p.rotation); Vec2(s, s)
      case Stretch => Vec2(dw / b.x, dh / b.y)
  }

  /** Cover: the canvas, mapped back into source space, must fit inside the source. */
  function FillScale(sw: real, sh: real, dw: real, dh: real, r: Rotation): real
    requires sw > 0.0 && sh > 0.0
  {
    Max(Projected(dw, dh, r) / sw, Projected90(dw, dh, r) / sh)
  }

  function EffectiveZoom(p: Params): real {
    if p.zoom > 0.0 then p.zoom else 1.0
  }

  function EffectiveScale(p: Params): (r: Vec2)
    ensures !Degenerate(p) ==> r.x > 0.0 && r.y > 0.0
  {
    var f := FitScale(p);
    var z := EffectiveZoom(p);
    ProductSign(f.x, z);
    ProductSign(f.y, z);
    Times(f, z)
  }

  function Times(f: Vec2, z: real): Vec2 { Vec2(f.x * z, f.y * z) }

  // ---------------------------------------------------------------------------
  // The two maps

  function Sign(flip: bool): real { if flip then -1.0 else 1.0 }

  function SourceToDest(p: Params): Mat3 {
    if Degenerate(p) then IDENTITY
    else
      var s := EffectiveScale(p);
      var toOrigin := Translate(-0.5 * p.srcWidth as real, -0.5 * p.srcHeight as real);
      var flip := Scale(Sign(p.flipH), Sign(p.flipV));
      var toCentre := Translate(0.5 * p.dstWidth as real, 0.5 * p.dstHeight as real);
      Mul(Mul(Mul(Mul(Mul(toCentre, Translate(p.panX, p.panY)), Scale(s.x, s.y)),
                  Rotate(p.rotation)), flip), toOrigin)
  }

  function DestToSource(p: Params): Mat3 {
    if Degenerate(p) then IDENTITY
    else
      var s := EffectiveScale(p);
      var fromCentre := Translate(-0.5 * p.dstWidth as real, -0.5 * p.dstHeight as real);
      var unpan := Translate(-p.panX, -p.panY);
      var unscale := Scale(1.0 / s.x, 1.0 / s.y);
      var flip := Scale(Sign(p.flipH), Sign(p.flipV));
      var fromOrigin := Translate(0.5 * p.srcWidth as real, 0.5 * p.srcHeight as real);
      Mul(Mul(Mul(Mul(Mul(fromOrigin, flip), Rotate(Inverse(p.rotation))), unscale), unpan),
          fromCentre)
  }

  /** A canvas vector in source axes: unscaled, then rotated back. */
  function ToSourceAxes(p: Params, v: Vec2): Vec2
    requires !Degenerate(p)
  {
    var s := EffectiveScale(p);
    Apply(Mul(Rotate(Inverse(p.rotation)), Scale(1.0 / s.x, 1.0 / s.y)), v)
  }

  function ToCanvasAxes(p: Params, v: Vec2): Vec2 {
    var s := EffectiveScale(p);
    Apply(Mul(Scale(s.x, s.y), Rotate(p.rotation)), v)
  }

  // ---------------------------------------------------------------------------
  // Panning

  function PanSlack(p: Params): Vec2 {
    if Degenerate(p) then Vec2(0.0, 0.0)
    else
      var need := NeedHalf(p);
      Vec2(Max(0.0, 0.5 * p.srcWidth as real - need.x), Max(0.0, 0.5 * p.srcHeight as real - need.y))
  }

  /** Half-extents, in source pixels, of the canvas mapped back into the source. */
  function NeedHalf(p: Params): Vec2
    requires !Degenerate(p)
  {
    var s := EffectiveScale(p);
    var w, h := p.dstWidth as real / s.x, p.dstHeight as real / s.y;
    Vec2(0.5 * Projected(w, h, p.rotation), 0.5 * Projected90(w, h, p.rotation))
  }

  /** Moves the pan, in place, to the nearest one in source axes that the slack permits. */
  method ClampPanForCoverage(params: Params) returns (p: Params)
    ensures p == Clamped(params)
  {
    p := params;
    if Degenerate(p) {
      p := p.(panX := 0.0, panY := 0.0);
      return;
    }
    var slack := PanSlack(p);
    var v := ToSourceAxes(p, Vec2(p.panX, p.panY));
    v := v.(x := Clamp(v.x, -slack.x, slack.x));
    v := v.(y := Clamp(v.y, -slack.y, slack.y));
    var clamped := ToCanvasAxes(p, v);
    p := p.(panX := clamped.x, panY := clamped.y);
  }

  function Clamped(p: Params): Params {
    if Degenerate(p) then p.(panX := 0.0, panY := 0.0)
    else
      var slack := PanSlack(p);
      var v := ToSourceAxes(p, Vec2(p.panX, p.panY));
      var clamped := ToCanvasAxes(p, Vec2(Clamp(v.x, -slack.x, slack.x),
                                          Clamp(v.y, -slack.y, slack.y)));
      p.(panX := clamped.x, panY := clamped.y)
  }
}
