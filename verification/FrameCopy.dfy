/**
 * The last copy before the camera hands a frame out: from the ring's layout, whose stride is the
 * producer's business, into the buffer and stride that the consumer asked for.
 */
module FrameCopy {
  import opened Bytes
  import Ring

  /** NV12: a full luma plane, then interleaved chroma at half resolution, with one stride. */
  datatype Layout = Layout(width: int, height: int, stride: int, uvOffset: int, totalSize: int)

  /** `width & ~1` */
  function Even(n: nat): nat { n - n % 2 }

  function Nv12Layout(width: int, height: int, stride: int): Layout {
    if width <= 0 || height <= 0 then Layout(0, 0, 0, 0, 0)
    else
      var w, h := Even(width), Even(height);
      var s := if stride > 0 then stride else w;
      Layout(w, h, s, s * h, s * h + s * h / 2)
  }

  const LUMA_PADDING: Byte := 16
  const CHROMA_PADDING: Byte := 128

  // ---------------------------------------------------------------------------
  // Rows

  function Padding(n: nat, value: Byte): (r: seq<Byte>)
    ensures |r| == n && forall i :: 0 <= i < n ==> r[i] == value
  {
    seq(n, i => value)
  }

  /** A row of the destination: what both strides have room for, then padding. */
  function RowOf(source: seq<Byte>, from: nat, copy: nat, stride: nat, pad: Byte): (r: seq<Byte>)
    requires copy <= stride && from + copy <= |source|
    ensures |r| == stride
  {
    source[from..from + copy] + Padding(stride - copy, pad)
  }

  /** memcpy, then memset of what is left of the row; nothing outside the row is touched. */
  method CopyRow(dst: array<Byte>, at: nat, source: seq<Byte>, from: nat, copy: nat, stride: nat, pad: Byte)
    requires copy <= stride && from + copy <= |source| && at + stride <= dst.Length
    modifies dst
    ensures dst[at..at + stride] == RowOf(source, from, copy, stride, pad)
    ensures dst[..at] == old(dst[..at]) && dst[at + stride..] == old(dst[at + stride..])
  {
    ghost var row := RowOf(source, from, copy, stride, pad);
    for i := 0 to copy
      invariant dst[at..at + i] == row[..i]
      invariant dst[..at] == old(dst[..at]) && dst[at + i..] == old(dst[at + i..])
    {
      dst[at + i] := source[from + i];
      assert dst[at..at + i + 1] == dst[at..at + i] + [row[i]];
    }
    for i := copy to stride
      invariant dst[at..at + i] == row[..i]
      invariant dst[..at] == old(dst[..at]) && dst[at + i..] == old(dst[at + i..])
    {
      dst[at + i] := pad;
      assert dst[at..at + i + 1] == dst[at..at + i] + [row[i]];
    }
    assert row[..stride] == row;
  }

  // ---------------------------------------------------------------------------
  // Planes

  function At(base: nat, stride: nat, row: nat): nat {
    base + row * stride
  }

  lemma RowsFit(base: nat, stride: nat, row: nat, rows: nat)
    requires row < rows
    ensures At(base, stride, row) + stride <= At(base, stride, rows)
    ensures At(base, stride, row) + stride == At(base, stride, row + 1)
  {
    Distribute(row, 1, stride);
    Distribute(row + 1, rows - (row + 1), stride);
  }

  lemma Distribute(a: nat, b: nat, n: nat)
    ensures (a + b) * n == a * n + b * n && b * n >= 0
  {
  }

  /** Where a plane is read from and written to. */
  datatype Plane = Plane(sourceBase: nat, sourceStride: nat, base: nat, stride: nat, rows: nat, copy: nat, pad: Byte)

  predicate Fits(p: Plane, source: seq<Byte>, size: nat) {
    && p.copy <= p.sourceStride && p.copy <= p.stride
    && At(p.sourceBase, p.sourceStride, p.rows) <= |source|
    && At(p.base, p.stride, p.rows) <= size
  }

  lemma RowIsInside(p: Plane, source: seq<Byte>, size: nat, row: nat)
    requires Fits(p, source, size) && row < p.rows
    ensures At(p.sourceBase, p.sourceStride, row) + p.copy <= |source|
    ensures At(p.base, p.stride, row) + p.stride <= size
  {
    RowsFit(p.sourceBase, p.sourceStride, row, p.rows);
    RowsFit(p.base, p.stride, row, p.rows);
  }

  predicate RowDone(p: Plane, source: seq<Byte>, d: seq<Byte>, row: nat)
    requires Fits(p, source, |d|) && row < p.rows
  {
    RowIsInside(p, source, |d|, row);
    var at := At(p.base, p.stride, row);
    d[at..at + p.stride] == RowOf(source, At(p.sourceBase, p.sourceStride, row), p.copy, p.stride, p.pad)
  }

  /** Writing after a row, or before it, leaves it as it was. */
  lemma RowStays(p: Plane, source: seq<Byte>, d: seq<Byte>, e: seq<Byte>, row: nat, at: nat, n: nat)
    requires Fits(p, source, |d|) && row < p.rows && |e| == |d| && at + n <= |d|
    requires e[..at] == d[..at] && e[at + n..] == d[at + n..]
    requires At(p.base, p.stride, row) + p.stride <= at || at + n <= At(p.base, p.stride, row)
    requires RowDone(p, source, d, row)
    ensures RowDone(p, source, e, row)
  {
    RowIsInside(p, source, |d|, row);
    var from := At(p.base, p.stride, row);
    forall i | from <= i < from + p.stride ensures e[i] == d[i] {
      if i < at {
        assert e[i] == e[..at][i] && d[i] == d[..at][i];
      } else {
        assert e[i] == e[at + n..][i - (at + n)] && d[i] == d[at + n..][i - (at + n)];
      }
    }
    assert e[from..from + p.stride] == d[from..from + p.stride];
  }

  method CopyPlane(dst: array<Byte>, source: seq<Byte>, p: Plane)
    requires Fits(p, source, dst.Length)
    modifies dst
    ensures forall row :: 0 <= row < p.rows ==> RowDone(p, source, dst[..], row)
    ensures dst[..p.base] == old(dst[..p.base])
    ensures dst[At(p.base, p.stride, p.rows)..] == old(dst[At(p.base, p.stride, p.rows)..])
  {
    ghost var end := At(p.base, p.stride, p.rows);
    for row := 0 to p.rows
      invariant forall r :: 0 <= r < row ==> RowDone(p, source, dst[..], r)
      invariant dst[..p.base] == old(dst[..p.base]) && dst[end..] == old(dst[end..])
    {
      ghost var was := dst[..];
      RowIsInside(p, source, dst.Length, row);
      RowsFit(p.base, p.stride, row, p.rows);
      var at := p.base + row * p.stride;
      CopyRow(dst, at, source, p.sourceBase + row * p.sourceStride, p.copy, p.stride, p.pad);
      PrefixStays(was, dst[..], p.base, at);
      SuffixStays(was, dst[..], at + p.stride, end);
      forall r | 0 <= r < row ensures RowDone(p, source, dst[..], r) {
        RowsFit(p.base, p.stride, r, row);
        RowStays(p, source, was, dst[..], r, at, p.stride);
      }
    }
  }

  lemma PrefixStays(d: seq<Byte>, e: seq<Byte>, n: nat, at: nat)
    requires |d| == |e| && n <= at <= |d| && d[..at] == e[..at]
    ensures d[..n] == e[..n]
  {
    assert d[..n] == d[..at][..n] && e[..n] == e[..at][..n];
  }

  lemma SuffixStays(d: seq<Byte>, e: seq<Byte>, at: nat, n: nat)
    requires |d| == |e| && at <= n <= |d| && d[at..] == e[at..]
    ensures d[n..] == e[n..]
  {
    assert d[n..] == d[at..][n - at..] && e[n..] == e[at..][n - at..];
  }

  // ---------------------------------------------------------------------------
  // Frames

  /** A destination of the frame's size whose rows can hold it. */
  predicate Accepts(layout: Layout, info: Ring.Info) {
    && layout.width == info.width && layout.height == info.height && layout.stride >= layout.width
    && layout.uvOffset == layout.stride * layout.height
    && layout.totalSize == layout.uvOffset + layout.uvOffset / 2
  }

  function Source(info: Ring.Info): Layout {
    Nv12Layout(info.width, info.height, info.stride)
  }

  lemma SourceLayout(info: Ring.Info)
    requires Ring.GeometryIsSane(info)
    ensures var src := Source(info);
            && src.width == info.width && src.height == info.height && src.stride == info.stride
            && src.uvOffset == info.stride * info.height
            && src.totalSize == src.uvOffset + src.uvOffset / 2 <= info.bytesUsed
  {
  }

  function Copied(info: Ring.Info, layout: Layout): nat
    requires layout.stride >= 0
  {
    if info.stride < layout.stride then info.stride else layout.stride
  }

  function LumaPlane(info: Ring.Info, layout: Layout): Plane
    requires layout.stride >= 0
  {
    Plane(0, info.stride, 0, layout.stride, info.height, Copied(info, layout), LUMA_PADDING)
  }

  function ChromaPlane(info: Ring.Info, layout: Layout): Plane
    requires layout.stride >= 0
  {
    Plane(info.stride * info.height, info.stride, layout.stride * info.height, layout.stride, info.height / 2,
          Copied(info, layout), CHROMA_PADDING)
  }

  lemma HalfRows(stride: nat, height: nat)
    requires height % 2 == 0
    ensures height / 2 * stride == stride * height / 2
  {
    var half := height / 2;
    assert height == half + half;
    Distribute(half, half, stride);
    assert stride * height == height * stride;
  }

  /** Both planes are read and written within bounds. */
  lemma PlanesFit(info: Ring.Info, layout: Layout, source: seq<Byte>, size: nat)
    requires Ring.GeometryIsSane(info) && Accepts(layout, info)
    requires info.bytesUsed <= |source| && layout.totalSize <= size
    ensures Fits(LumaPlane(info, layout), source, size) && Fits(ChromaPlane(info, layout), source, size)
    ensures At(0, layout.stride, info.height) == layout.uvOffset
  {
    SourceLayout(info);
    HalfRows(info.stride, info.height);
    HalfRows(layout.stride, info.height);
    assert info.height * info.stride == info.stride * info.height;
    assert info.height * layout.stride == layout.stride * info.height;
  }

  predicate PlaneDone(p: Plane, source: seq<Byte>, d: seq<Byte>)
    requires Fits(p, source, |d|)
  {
    forall row :: 0 <= row < p.rows ==> RowDone(p, source, d, row)
  }

  /** The live branch of fill, once a frame of the wanted size has been read. */
  method CopyFrame(dst: array<Byte>, layout: Layout, source: seq<Byte>, info: Ring.Info)
    requires Ring.GeometryIsSane(info) && Accepts(layout, info)
    requires info.bytesUsed <= |source| && layout.totalSize <= dst.Length
    modifies dst
    ensures Fits(LumaPlane(info, layout), source, dst.Length) && Fits(ChromaPlane(info, layout), source, dst.Length)
    ensures PlaneDone(LumaPlane(info, layout), source, dst[..])
    ensures PlaneDone(ChromaPlane(info, layout), source, dst[..])
    ensures dst[layout.totalSize..] == old(dst[layout.totalSize..])
  {
    ghost var start := dst[..];
    PlanesFit(info, layout, source, dst.Length);
    SourceLayout(info);
    HalfRows(layout.stride, info.height);
    CopyPlane(dst, source, LumaPlane(info, layout));
    ghost var luma := dst[..];
    SuffixStays(start, luma, layout.uvOffset, layout.totalSize);
    CopyPlane(dst, source, ChromaPlane(info, layout));
    ghost var p := LumaPlane(info, layout);
    forall row | 0 <= row < p.rows ensures RowDone(p, source, dst[..], row) {
      RowsFit(0, layout.stride, row, info.height);
      RowStays(p, source, luma, dst[..], row, layout.uvOffset, dst.Length - layout.uvOffset);
    }
  }

  lemma DoneByte(p: Plane, source: seq<Byte>, d: seq<Byte>, row: nat, col: nat)
    requires Fits(p, source, |d|) && PlaneDone(p, source, d) && row < p.rows && col < p.stride
    ensures At(p.base, p.stride, row) + col < |d|
    ensures col < p.copy ==> At(p.sourceBase, p.sourceStride, row) + col < |source|
    ensures d[At(p.base, p.stride, row) + col]
         == if col < p.copy then source[At(p.sourceBase, p.sourceStride, row) + col] else p.pad
  {
    RowIsInside(p, source, |d|, row);
    assert RowDone(p, source, d, row);
    var at := At(p.base, p.stride, row);
    assert d[at + col] == d[at..at + p.stride][col];
  }

  /**
   * Whatever the two strides are, every visible luma byte of the copy is the source byte at the same
   * row and column: no shear, and no byte from outside the frame.
   */
  lemma EveryLumaByte(info: Ring.Info, layout: Layout, source: seq<Byte>, d: seq<Byte>, row: nat, col: nat)
    requires Ring.GeometryIsSane(info) && Accepts(layout, info) && info.bytesUsed <= |source|
    requires Fits(LumaPlane(info, layout), source, |d|) && PlaneDone(LumaPlane(info, layout), source, d)
    requires col < info.width && row < info.height
    ensures At(0, layout.stride, row) + col < |d| && At(0, info.stride, row) + col < info.bytesUsed
    ensures d[At(0, layout.stride, row) + col] == source[At(0, info.stride, row) + col]
  {
    SourceLayout(info);
    DoneByte(LumaPlane(info, layout), source, d, row, col);
    RowsFit(0, info.stride, row, info.height);
    assert info.height * info.stride == info.stride * info.height;
  }

  /** ... and so is every visible chroma byte. */
  lemma EveryChromaByte(info: Ring.Info, layout: Layout, source: seq<Byte>, d: seq<Byte>, row: nat, col: nat)
    requires Ring.GeometryIsSane(info) && Accepts(layout, info) && info.bytesUsed <= |source|
    requires Fits(ChromaPlane(info, layout), source, |d|) && PlaneDone(ChromaPlane(info, layout), source, d)
    requires col < info.width && row < info.height / 2
    ensures var from := At(Source(info).uvOffset, info.stride, row) + col;
            var to := At(layout.uvOffset, layout.stride, row) + col;
            to < |d| && from < info.bytesUsed && d[to] == source[from]
  {
    SourceLayout(info);
    HalfRows(info.stride, info.height);
    DoneByte(ChromaPlane(info, layout), source, d, row, col);
    RowsFit(info.stride * info.height, info.stride, row, info.height / 2);
  }
}
