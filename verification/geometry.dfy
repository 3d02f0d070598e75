/** The arithmetic around the perspective warp (geometry.py): the padded
    bounding box and translation of `warpPerspectiveWithPadding`, and the
    output size and alpha rule of `transparency`. The OpenCV calls themselves
    (`perspectiveTransform`, `warpPerspective`, `resize`) are not part of this
    model: their results are inputs. */
module Geometry {
  import opened Numeric

  datatype Point = Point(x: real, y: real)

  /** A homogeneous 2-D point. */
  datatype Vec3 = Vec3(x: real, y: real, w: real)

  /** A 3×3 matrix, entry `mRC` in row R and column C. */
  datatype Mat3 = Mat3(m00: real, m01: real, m02: real,
                       m10: real, m11: real, m12: real,
                       m20: real, m21: real, m22: real)

  const IDENTITY: Mat3 := Mat3(1.0, 0.0, 0.0, 0.0, 1.0, 0.0, 0.0, 0.0, 1.0)

  /** A row `(r0, r1, r2)` against a column `(c0, c1, c2)`. */
  function Dot(r0: real, r1: real, r2: real, c0: real, c1: real, c2: real): real {
    r0 * c0 + r1 * c1 + r2 * c2
  }

  function Apply(m: Mat3, v: Vec3): Vec3 {
    Vec3(Dot(m.m00, m.m01, m.m02, v.x, v.y, v.w),
         Dot(m.m10, m.m11, m.m12, v.x, v.y, v.w),
         Dot(m.m20, m.m21, m.m22, v.x, v.y, v.w))
  }

  /** The matrix product `a · b` (`np.dot(a, b)`). */
  function MatMul(a: Mat3, b: Mat3): (r: Mat3)
    ensures a == IDENTITY ==> r == b
    ensures b == IDENTITY ==> r == a
  {
    Mat3(Dot(a.m00, a.m01, a.m02, b.m00, b.m10, b.m20),
         Dot(a.m00, a.m01, a.m02, b.m01, b.m11, b.m21),
         Dot(a.m00, a.m01, a.m02, b.m02, b.m12, b.m22),
         Dot(a.m10, a.m11, a.m12, b.m00, b.m10, b.m20),
         Dot(a.m10, a.m11, a.m12, b.m01, b.m11, b.m21),
         Dot(a.m10, a.m11, a.m12, b.m02, b.m12, b.m22),
         Dot(a.m20, a.m21, a.m22, b.m00, b.m10, b.m20),
         Dot(a.m20, a.m21, a.m22, b.m01, b.m11, b.m21),
         Dot(a.m20, a.m21, a.m22, b.m02, b.m12, b.m22))
  }

  /** One row of `a · b` against `v` is that row of `a` against `b · v`. */
  lemma RowAssoc(a0: real, a1: real, a2: real,
                 b00: real, b01: real, b02: real, b10: real, b11: real, b12: real,
                 b20: real, b21: real, b22: real, x: real, y: real, w: real)
    ensures Dot(Dot(a0, a1, a2, b00, b10, b20), Dot(a0, a1, a2, b01, b11, b21), Dot(a0, a1, a2, b02, b12, b22), x, y, w)
         == Dot(a0, a1, a2, Dot(b00, b01, b02, x, y, w), Dot(b10, b11, b12, x, y, w), Dot(b20, b21, b22, x, y, w))
  {
  }

  /** Applying a product applies its right factor first. */
  lemma ApplyMatMul(a: Mat3, b: Mat3, v: Vec3)
    ensures Apply(MatMul(a, b), v) == Apply(a, Apply(b, v))
  {
    RowAssoc(a.m00, a.m01, a.m02, b.m00, b.m01, b.m02, b.m10, b.m11, b.m12, b.m20, b.m21, b.m22, v.x, v.y, v.w);
    RowAssoc(a.m10, a.m11, a.m12, b.m00, b.m01, b.m02, b.m10, b.m11, b.m12, b.m20, b.m21, b.m22, v.x, v.y, v.w);
    RowAssoc(a.m20, a.m21, a.m22, b.m00, b.m01, b.m02, b.m10, b.m11, b.m12, b.m20, b.m21, b.m22, v.x, v.y, v.w);
  }

  /** The translation by (dx, dy) in homogeneous form; (−dx, −dy) goes to
      the origin, and `TranslationMoves` shows every point moves alike. */
  function Translation(dx: real, dy: real): (t: Mat3)
    ensures Apply(t, Vec3(-dx, -dy, 1.0)) == Vec3(0.0, 0.0, 1.0)
  {
    Mat3(1.0, 0.0, dx, 0.0, 1.0, dy, 0.0, 0.0, 1.0)
  }

  /** The translation moves every homogeneous point (x, y, w) by (dx·w, dy·w)
      and keeps its w: a true shift, not merely a map of one point. */
  lemma TranslationMoves(dx: real, dy: real, v: Vec3)
    ensures Apply(Translation(dx, dy), v) == Vec3(v.x + dx * v.w, v.y + dy * v.w, v.w)
  {
    assert 1.0 * v.x + 0.0 * v.y == v.x;
    assert 0.0 * v.x + 1.0 * v.y == v.y;
    assert 0.0 * v.x + 0.0 * v.y + 1.0 * v.w == v.w;
  }

  // ---------------------------------------------------------------------------
  // warpPerspectiveWithPadding

  /** The image corners in the order the source lists them:
      (0,0), (0,h), (w,h), (w,0). */
  function Corners(width: int, height: int): (c: seq<Point>)
    ensures |c| == 4
    ensures c[0] == Point(0.0, 0.0) && c[2] == Point(width as real, height as real)
    ensures c[1].x == 0.0 && c[1].y == height as real && c[3].x == width as real && c[3].y == 0.0
  {
    [Point(0.0, 0.0), Point(0.0, height as real), Point(width as real, height as real), Point(width as real, 0.0)]
  }

  function Xs(ps: seq<Point>): (xs: seq<real>)
    ensures |xs| == |ps| && forall k :: 0 <= k < |ps| ==> xs[k] == ps[k].x
  {
    seq(|ps|, k requires 0 <= k < |ps| => ps[k].x)
  }

  function Ys(ps: seq<Point>): (ys: seq<real>)
    ensures |ys| == |ps| && forall k :: 0 <= k < |ps| ==> ys[k] == ps[k].y
  {
    seq(|ps|, k requires 0 <= k < |ps| => ps[k].y)
  }

  /** The integer bounding box of the warped corners. */
  datatype Box = Box(xMin: int, yMin: int, xMax: int, yMax: int)

  /** The bounding box is taken from the warped corners (the result of
      `cv2.perspectiveTransform`), widened by half a pixel on each side and
      truncated toward zero, as `np.int32` does: each edge is the extremum
      of the warped corners, moved half a pixel outwards, truncated. Every
      warped corner lies within half a pixel of the box, and the box is
      never empty. */
  function BoundingBox(warped: seq<Point>): (b: Box)
    requires |warped| == 4
    ensures b.xMin <= b.xMax && b.yMin <= b.yMax
    ensures forall k :: 0 <= k < 4 ==>
      b.xMin as real - 0.5 < warped[k].x < b.xMax as real + 0.5 &&
      b.yMin as real - 0.5 < warped[k].y < b.yMax as real + 0.5
    ensures TruncatesTo(Min(Xs(warped)) - 0.5, b.xMin) && TruncatesTo(Max(Xs(warped)) + 0.5, b.xMax)
    ensures TruncatesTo(Min(Ys(warped)) - 0.5, b.yMin) && TruncatesTo(Max(Ys(warped)) + 0.5, b.yMax)
  {
    var xs, ys := Xs(warped), Ys(warped);
    TruncMonotone(Min(xs) - 0.5, Max(xs) + 0.5);
    TruncMonotone(Min(ys) - 0.5, Max(ys) + 0.5);
    Box(Trunc(Min(xs) - 0.5), Trunc(Min(ys) - 0.5), Trunc(Max(xs) + 0.5), Trunc(Max(ys) + 0.5))
  }

  /** The box is never more than a pixel and a half wider than the warped
      corners on either side. */
  lemma BoundingBoxTight(warped: seq<Point>)
    requires |warped| == 4
    ensures BoundingBox(warped).xMin as real > Min(Xs(warped)) - 1.5
    ensures BoundingBox(warped).xMax as real < Max(Xs(warped)) + 1.5
    ensures BoundingBox(warped).yMin as real > Min(Ys(warped)) - 1.5
    ensures BoundingBox(warped).yMax as real < Max(Ys(warped)) + 1.5
  {
  }

  /** What `warpPerspectiveWithPadding` computes before the final warp: the
      bounding box, the translation that moves its top-left corner to the
      origin, the composed transform and the output size `(width, height)`. */
  datatype Padding = Padding(box: Box, translation: Mat3, full: Mat3, width: int, height: int)

  function PadWarp(warped: seq<Point>, transformation: Mat3): (p: Padding)
    requires |warped| == 4
    ensures p.box == BoundingBox(warped)
    ensures 0 <= p.width && 0 <= p.height
    ensures p.width == p.box.xMax - p.box.xMin && p.height == p.box.yMax - p.box.yMin
    ensures p.translation == Translation(-1.0 * p.box.xMin as real, -1.0 * p.box.yMin as real)
    ensures Apply(p.translation, Vec3(p.box.xMin as real, p.box.yMin as real, 1.0)) == Vec3(0.0, 0.0, 1.0)
    ensures p.full == MatMul(p.translation, transformation)
  {
    var b := BoundingBox(warped);
    var translation := Translation(-1.0 * b.xMin as real, -1.0 * b.yMin as real);
    Padding(b, translation, MatMul(translation, transformation), b.xMax - b.xMin, b.yMax - b.yMin)
  }

  /** Every point is sent where the source's transform sends it, then moved
      by the translation: the composition is in the right order. */
  lemma PadWarpComposes(warped: seq<Point>, transformation: Mat3, v: Vec3)
    requires |warped| == 4
    ensures var p := PadWarp(warped, transformation);
      Apply(p.full, v) == Apply(p.translation, Apply(transformation, v))
  {
    var p := PadWarp(warped, transformation);
    ApplyMatMul(p.translation, transformation, v);
  }

  /** With the identity transformation the warped corners are the corners
      themselves: the box is the image and the output size is the image size. */
  lemma PadWarpIdentitySize(width: int, height: int)
    requires 0 <= width && 0 <= height
    ensures PadWarp(Corners(width, height), IDENTITY).box == Box(0, 0, width, height)
    ensures PadWarp(Corners(width, height), IDENTITY).width == width
    ensures PadWarp(Corners(width, height), IDENTITY).height == height
  {
    var p := PadWarp(Corners(width, height), IDENTITY);
    CornersBox(width, height);
    assert p.box == Box(0, 0, width, height);
  }

  /** ... and no translation is applied: the full transform is the identity. */
  lemma PadWarpIdentityTransform(width: int, height: int)
    requires 0 <= width && 0 <= height
    ensures PadWarp(Corners(width, height), IDENTITY).translation == IDENTITY
    ensures PadWarp(Corners(width, height), IDENTITY).full == IDENTITY
  {
    var p := PadWarp(Corners(width, height), IDENTITY);
    CornersBox(width, height);
    assert p.box.xMin == 0 && p.box.yMin == 0;
    ZeroTranslation(p.box);
  }

  /** The bounding box of the unwarped corners is the image itself. */
  lemma CornersBox(width: int, height: int)
    requires 0 <= width && 0 <= height
    ensures BoundingBox(Corners(width, height)) == Box(0, 0, width, height)
  {
    var c := Corners(width, height);
    CornerExtrema(Xs(c), width);
    CornerExtrema(Ys(c), height);
    HalfPixelBox(width);
    HalfPixelBox(height);
  }

  /** The extrema of the corner coordinates along one axis. */
  lemma CornerExtrema(vs: seq<real>, size: int)
    requires 0 <= size
    requires |vs| == 4 && vs[0] == 0.0 && vs[2] == size as real
    requires forall k :: 0 <= k < 4 ==> 0.0 <= vs[k] <= size as real
    ensures Min(vs) == 0.0 && Max(vs) == size as real
  {
    assert Min(vs) <= vs[0];
    assert vs[2] <= Max(vs);
  }

  /** Widening [0, size] by half a pixel and truncating gives back [0, size]. */
  lemma HalfPixelBox(size: int)
    requires 0 <= size
    ensures Trunc(0.0 - 0.5) == 0 && Trunc(size as real + 0.5) == size
  {
  }

  /** A box whose top-left corner is the origin needs no translation, and the
      product of the identity with itself is the identity. */
  lemma ZeroTranslation(b: Box)
    requires b.xMin == 0 && b.yMin == 0
    ensures Translation(-1.0 * b.xMin as real, -1.0 * b.yMin as real) == IDENTITY
    ensures MatMul(Translation(-1.0 * b.xMin as real, -1.0 * b.yMin as real), IDENTITY) == IDENTITY
  {
    var t := Translation(-1.0 * b.xMin as real, -1.0 * b.yMin as real);
    assert t == IDENTITY;
    assert MatMul(IDENTITY, IDENTITY) == IDENTITY;
  }

  // ---------------------------------------------------------------------------
  // transparency

  /** A pixel is its list of channel values; an image is rows of pixels. */
  type Pixel = seq<int>
  type Image = seq<seq<Pixel>>

  /** True when the image has `rows` rows of `cols` pixels of `channels`
      values each. */
  ghost predicate HasShape(img: Image, rows: int, cols: int, channels: int) {
    |img| == rows &&
    (forall i :: 0 <= i < rows ==> |img[i]| == cols) &&
    (forall i, j :: 0 <= i < rows && 0 <= j < cols ==> |img[i][j]| == channels)
  }

  /** The `dsize` given to `cv2.resize`: a tenth of the width and of the
      height, truncated. */
  function ResizeTarget(rows: nat, cols: nat): (dsize: (int, int))
    ensures dsize == (cols / 10, rows / 10)
  {
    (Trunc(cols as real / 10.0), Trunc(rows as real / 10.0))
  }

  /** `np.sum(img, axis=-1)` for one pixel. */
  function ChannelSum(p: Pixel): int {
    if p == [] then 0 else p[0] + ChannelSum(p[1..])
  }

  /** The alpha value `transparency` gives a pixel: 255 when its channel sum
      is positive, 0 otherwise. */
  function Alpha(p: Pixel): (a: int)
    ensures a == 255 <==> ChannelSum(p) > 0
    ensures a == 0 <==> ChannelSum(p) <= 0
  {
    if ChannelSum(p) > 0 then 255 else 0
  }

  /** True for 8-bit unsigned channel values. */
  predicate IsByte(v: int) {
    0 <= v <= 255
  }

  /** For unsigned channels, a pixel is opaque exactly when some channel is
      not zero: only the all-black padding becomes transparent. */
  lemma {:induction false} AlphaOpaqueIffNonzero(p: Pixel)
    requires forall k :: 0 <= k < |p| ==> IsByte(p[k])
    ensures Alpha(p) == 255 <==> exists k :: 0 <= k < |p| && p[k] != 0
    decreases |p|
  {
    ChannelSumNonNeg(p);
    if p != [] {
      AlphaOpaqueIffNonzero(p[1..]);
      ChannelSumNonNeg(p[1..]);
      if exists k :: 0 <= k < |p[1..]| && p[1..][k] != 0 {
        var k :| 0 <= k < |p[1..]| && p[1..][k] != 0;
        assert p[k + 1] != 0;
      }
      if exists k :: 0 <= k < |p| && p[k] != 0 {
        var k :| 0 <= k < |p| && p[k] != 0;
        if k > 0 { assert p[1..][k - 1] != 0; }
      }
    }
  }

  lemma {:induction false} ChannelSumNonNeg(p: Pixel)
    requires forall k :: 0 <= k < |p| ==> IsByte(p[k])
    ensures 0 <= ChannelSum(p)
    decreases |p|
  {
    if p != [] {
      ChannelSumNonNeg(p[1..]);
    }
  }

  /** `np.dstack((img, alpha))`: each pixel gains one channel, its alpha. */
  function Transparency(resized: Image): (res: Image)
    ensures |res| == |resized|
    ensures forall i :: 0 <= i < |res| ==> |res[i]| == |resized[i]|
    ensures forall i, j :: 0 <= i < |res| && 0 <= j < |res[i]| ==>
      res[i][j] == resized[i][j] + [Alpha(resized[i][j])]
  {
    seq(|resized|, i requires 0 <= i < |resized| =>
      seq(|resized[i]|, j requires 0 <= j < |resized[i]| => resized[i][j] + [Alpha(resized[i][j])]))
  }

  /** `transparency` on a three-channel image resized to its `dsize`: the
      result is `int(w/10)` wide and `int(h/10)` high with four channels, the
      first three equal to the resized image, and alpha 255 exactly where
      some colour channel is not zero. */
  lemma TransparencyShape(rows: nat, cols: nat, resized: Image)
    requires HasShape(resized, ResizeTarget(rows, cols).1, ResizeTarget(rows, cols).0, 3)
    requires forall i, j, k :: 0 <= i < |resized| && 0 <= j < |resized[i]| && 0 <= k < 3 ==> IsByte(resized[i][j][k])
    ensures var res := Transparency(resized);
      && HasShape(res, rows / 10, cols / 10, 4)
      && (forall i, j :: 0 <= i < rows / 10 && 0 <= j < cols / 10 ==>
            res[i][j][..3] == resized[i][j] &&
            (res[i][j][3] == 255 <==> exists k :: 0 <= k < 3 && resized[i][j][k] != 0) &&
            (res[i][j][3] == 0 <==> forall k :: 0 <= k < 3 ==> resized[i][j][k] == 0))
  {
    var res := Transparency(resized);
    forall i, j | 0 <= i < rows / 10 && 0 <= j < cols / 10
      ensures res[i][j][..3] == resized[i][j]
      ensures res[i][j][3] == 255 <==> exists k :: 0 <= k < 3 && resized[i][j][k] != 0
      ensures res[i][j][3] == 0 <==> forall k :: 0 <= k < 3 ==> resized[i][j][k] == 0
    {
      AlphaOpaqueIffNonzero(resized[i][j]);
    }
  }
}
