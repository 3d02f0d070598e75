/** Metric-to-pixel scaling, canvas sizing and the shift of rotated positions
    to non-negative values (coords_transform.py). */
module CoordsTransform {
  import opened Numeric
  import opened Frame
  import opened Wrappers

  /** Centimetres per pixel of the camera: 1/0.8723 (x) and 1/0.8769 (y). */
  const X_RESOLUTION: real := 10000.0 / 8723.0
  const Y_RESOLUTION: real := 10000.0 / 8769.0
  /** The downscale factor `from_meters_to_pixels` is called with. */
  const DEFAULT_SCALE: real := 10.0
  /** Canvas margin, in rescaled image sizes. */
  const MARGIN: real := 2.5

  /** A NumPy array shape (rows, columns, channels). */
  datatype Shape = Shape(rows: int, cols: int, channels: int)

  /** Pixels per metre from the x resolution, after downscaling. */
  function XFactor(scale: real): (f: real)
    requires scale > 0.0
    ensures f > 0.0
    ensures f * scale == X_RESOLUTION * 100.0
  {
    X_RESOLUTION * 100.0 / scale
  }

  /** Pixels per metre from the y resolution, after downscaling. */
  function YFactor(scale: real): (f: real)
    requires scale > 0.0
    ensures f > 0.0
    ensures f * scale == Y_RESOLUTION * 100.0
  {
    Y_RESOLUTION * 100.0 / scale
  }

  /** One metric offset scaled and truncated to a whole pixel offset. */
  function PixelOffset(mts: real, factor: real): (p: int)
    requires 0.0 <= factor
    ensures 0.0 <= mts ==> 0 <= p && p as real <= mts * factor < p as real + 1.0
  {
    assert 0.0 <= mts ==> 0.0 <= mts * factor;
    Trunc(mts * factor)
  }

  /** A larger metric offset never yields a smaller pixel offset. */
  lemma PixelOffsetMonotone(a: real, b: real, factor: real)
    requires a <= b && 0.0 <= factor
    ensures PixelOffset(a, factor) <= PixelOffset(b, factor)
  {
    MulMonotone(a, b, factor);
    TruncMonotone(a * factor, b * factor);
  }

  /** A whole column of metric offsets scaled to pixel offsets, row by row. */
  function ScaleColumn(mts: seq<real>, factor: real): (ppm: seq<int>)
    requires 0.0 <= factor
    ensures |ppm| == |mts|
    ensures forall i :: 0 <= i < |mts| ==> ppm[i] == PixelOffset(mts[i], factor)
  {
    seq(|mts|, i requires 0 <= i < |mts| => PixelOffset(mts[i], factor))
  }

  /** Scaling a column keeps the order of its rows: rows further from the
      origin in metres are never closer to it in pixels. */
  lemma ScaleColumnMonotone(mts: seq<real>, factor: real, i: int, j: int)
    requires 0.0 <= factor && 0 <= i < |mts| && 0 <= j < |mts|
    requires mts[i] <= mts[j]
    ensures ScaleColumn(mts, factor)[i] <= ScaleColumn(mts, factor)[j]
  {
    PixelOffsetMonotone(mts[i], mts[j], factor);
  }

  /** The modal image size divided by the downscale factor, truncated. */
  function RescaledDim(modal: int, scale: real): (r: int)
    requires scale > 0.0
    ensures 0 <= modal ==> 0 <= r && r as real <= modal as real / scale < r as real + 1.0
  {
    Trunc(modal as real / scale)
  }

  /** The canvas shape: rows from the largest y offset plus 2.5 rescaled
      widths, columns from the largest x offset plus 2.5 rescaled heights,
      three colour channels, each size the largest offset plus its margin
      truncated toward zero. Every offset fits, and so does the 2.5-image
      margin beyond it, up to the truncation of less than one pixel. */
  function CanvasSize(xPpm: seq<int>, yPpm: seq<int>, rescaledWidth: int, rescaledHeight: int): (s: Shape)
    requires |xPpm| > 0 && |yPpm| > 0
    ensures s.channels == 3
    ensures 0 <= rescaledWidth ==> forall i :: 0 <= i < |yPpm| ==> yPpm[i] <= s.rows
    ensures 0 <= rescaledHeight ==> forall i :: 0 <= i < |xPpm| ==> xPpm[i] <= s.cols
    ensures forall i :: 0 <= i < |yPpm| ==> yPpm[i] as real + rescaledWidth as real * MARGIN < s.rows as real + 1.0
    ensures forall i :: 0 <= i < |xPpm| ==> xPpm[i] as real + rescaledHeight as real * MARGIN < s.cols as real + 1.0
    ensures TruncatesTo(MaxInt(yPpm) as real + rescaledWidth as real * MARGIN, s.rows)
    ensures TruncatesTo(MaxInt(xPpm) as real + rescaledHeight as real * MARGIN, s.cols)
  {
    var rows := MaxInt(yPpm) as real + rescaledWidth as real * MARGIN;
    var cols := MaxInt(xPpm) as real + rescaledHeight as real * MARGIN;
    TruncOfInt(MaxInt(yPpm));
    TruncOfInt(MaxInt(xPpm));
    assert 0 <= rescaledWidth ==> MaxInt(yPpm) <= Trunc(rows) by {
      if 0 <= rescaledWidth { TruncMonotone(MaxInt(yPpm) as real, rows); }
    }
    assert 0 <= rescaledHeight ==> MaxInt(xPpm) <= Trunc(cols) by {
      if 0 <= rescaledHeight { TruncMonotone(MaxInt(xPpm) as real, cols); }
    }
    Shape(Trunc(rows), Trunc(cols), 3)
  }

  /** Moving any record further out along x never shrinks the canvas's
      columns, and likewise for y and rows. */
  lemma CanvasSizeMonotone(xPpm: seq<int>, yPpm: seq<int>, xPpm': seq<int>, yPpm': seq<int>, w: int, h: int)
    requires |xPpm| == |xPpm'| > 0 && |yPpm| == |yPpm'| > 0
    requires forall i :: 0 <= i < |xPpm| ==> xPpm[i] <= xPpm'[i]
    requires forall i :: 0 <= i < |yPpm| ==> yPpm[i] <= yPpm'[i]
    ensures CanvasSize(xPpm, yPpm, w, h).rows <= CanvasSize(xPpm', yPpm', w, h).rows
    ensures CanvasSize(xPpm, yPpm, w, h).cols <= CanvasSize(xPpm', yPpm', w, h).cols
  {
    MaxIntMonotone(xPpm, xPpm');
    MaxIntMonotone(yPpm, yPpm');
    TruncMonotone(MaxInt(yPpm) as real + w as real * MARGIN, MaxInt(yPpm') as real + w as real * MARGIN);
    TruncMonotone(MaxInt(xPpm) as real + h as real * MARGIN, MaxInt(xPpm') as real + h as real * MARGIN);
  }

  /** The growth is not strict: at the default scale a record moved one
      centimetre further out keeps the same pixel offset (both truncate to 0),
      so the canvas does not grow. */
  lemma SubPixelMoveKeepsOffset()
    ensures PixelOffset(0.01, YFactor(DEFAULT_SCALE)) == PixelOffset(0.0, YFactor(DEFAULT_SCALE)) == 0
  {
    var f := YFactor(DEFAULT_SCALE);
    assert f * 10.0 == Y_RESOLUTION * 100.0;
    assert f < 12.0;
  }

  /** `from_meters_to_pixels`: adds the `x_ppm` and `y_ppm` columns in place
      and returns the canvas shape. The axes cross: x offsets use the y
      resolution and y offsets the x resolution. On an empty table the mode
      of the size columns cannot be taken, so no shape is produced and the
      table is left as it was. */
  method FromMetersToPixels(df: ImageFrame, modalWidth: int, modalHeight: int, scale: real)
    returns (size: Option<Shape>)
    requires df.Valid() && df.HasMetres() && scale > 0.0
    modifies df
    ensures df.Valid() && df.HasMetres()
    ensures df.index == old(df.index) && df.longitude == old(df.longitude)
    ensures df.latitude == old(df.latitude) && df.yaw == old(df.yaw)
    ensures df.xMts == old(df.xMts) && df.yMts == old(df.yMts)
    ensures df.xRot == old(df.xRot) && df.yRot == old(df.yRot)
    ensures old(df.Length()) == 0 ==> size.None? && df.xPpm == old(df.xPpm) && df.yPpm == old(df.yPpm)
    ensures old(df.Length()) > 0 ==>
      && df.HasPixels()
      && df.xPpm == ScaleColumn(df.xMts, YFactor(scale))
      && df.yPpm == ScaleColumn(df.yMts, XFactor(scale))
      && size == Some(CanvasSize(df.xPpm, df.yPpm, RescaledDim(modalWidth, scale), RescaledDim(modalHeight, scale)))
  {
    if df.Length() == 0 {
      return None;
    }
    var rescaledWidth := RescaledDim(modalWidth, scale);
    var rescaledHeight := RescaledDim(modalHeight, scale);
    df.xPpm := ScaleColumn(df.xMts, YFactor(scale));
    df.yPpm := ScaleColumn(df.yMts, XFactor(scale));
    size := Some(CanvasSize(df.xPpm, df.yPpm, rescaledWidth, rescaledHeight));
  }

  /** True when some entry of the column is negative. */
  predicate AnyNegative(col: seq<real>) {
    exists i :: 0 <= i < |col| && col[i] < 0.0
  }

  /** `move_pixels_to_zero` on one column: when an entry is negative, every
      entry is reduced by the column minimum and truncated to an integer;
      otherwise the column is left alone. Afterwards no entry is negative and,
      if the column was shifted, its minimum is 0. */
  function ShiftToZero(col: seq<real>): (r: seq<real>)
    ensures |r| == |col|
    ensures forall i :: 0 <= i < |r| ==> 0.0 <= r[i]
    ensures !AnyNegative(col) ==> r == col
    ensures AnyNegative(col) ==> exists i :: 0 <= i < |r| && r[i] == 0.0
    ensures AnyNegative(col) ==> forall i :: 0 <= i < |r| ==> Integral(r[i])
    ensures AnyNegative(col) ==> forall i :: 0 <= i < |r| ==> r[i] <= col[i] - Min(col) < r[i] + 1.0
  {
    if AnyNegative(col) then
      var m := Min(col);
      var r := seq(|col|, i requires 0 <= i < |col| => Trunc(col[i] - m) as real);
      var k :| 0 <= k < |col| && col[k] == m;
      assert r[k] == 0.0;
      assert forall i :: 0 <= i < |col| ==> r[i] <= col[i] - m < r[i] + 1.0 by {
        forall i | 0 <= i < |col| ensures r[i] <= col[i] - m < r[i] + 1.0 {
          assert 0.0 <= col[i] - m;
        }
      }
      r
    else
      col
  }

  /** Shifting a second time changes nothing. */
  lemma ShiftIdempotent(col: seq<real>)
    ensures ShiftToZero(ShiftToZero(col)) == ShiftToZero(col)
  {
    assert !AnyNegative(ShiftToZero(col));
  }

  /** On a column of whole numbers the shift keeps every pairwise difference,
      so the rotated layout is only translated. */
  lemma ShiftPreservesDifferences(col: seq<real>, i: int, j: int)
    requires forall k :: 0 <= k < |col| ==> Integral(col[k])
    requires 0 <= i < |col| && 0 <= j < |col|
    ensures ShiftToZero(col)[i] - ShiftToZero(col)[j] == col[i] - col[j]
  {
    if AnyNegative(col) {
      var m, r := Min(col), ShiftToZero(col);
      var k :| 0 <= k < |col| && col[k] == m;
      IntegralDiff(col[i], m);
      IntegralDiff(col[j], m);
      IntegralBetween(col[i] - m, r[i]);
      IntegralBetween(col[j] - m, r[j]);
    }
  }

  lemma IntegralDiff(a: real, b: real)
    requires Integral(a) && Integral(b)
    ensures Integral(a - b)
  {
    assert a - b == (a.Floor - b.Floor) as real;
  }

  /** A whole number within less than one above another is that number. */
  lemma IntegralBetween(x: real, r: real)
    requires Integral(x) && Integral(r) && r <= x < r + 1.0
    ensures r == x
  {
    assert r.Floor <= x.Floor < r.Floor + 1;
  }

  /** Off whole numbers the truncation does not keep differences: the column
      [-0.5, 0.7] becomes [0, 1], so its spread changes from 1.2 to 1. */
  lemma ShiftTruncatesFractions()
    ensures ShiftToZero([-0.5, 0.7]) == [0.0, 1.0]
  {
    var col := [-0.5, 0.7];
    assert AnyNegative(col) by { assert col[0] < 0.0; }
    assert Min(col) == -0.5 by { assert col[1..] == [0.7]; }
  }

  /** `move_pixels_to_zero`: applies the shift to `x_rot` and to `y_rot`,
      each column on its own test, and touches no other column. */
  method MovePixelsToZero(df: ImageFrame)
    requires df.Valid()
    modifies df
    ensures df.Valid()
    ensures df.xRot == ShiftToZero(old(df.xRot))
    ensures df.yRot == ShiftToZero(old(df.yRot))
    ensures df.index == old(df.index) && df.longitude == old(df.longitude)
    ensures df.latitude == old(df.latitude) && df.yaw == old(df.yaw)
    ensures df.xMts == old(df.xMts) && df.yMts == old(df.yMts)
    ensures df.xPpm == old(df.xPpm) && df.yPpm == old(df.yPpm)
  {
    if AnyNegative(df.xRot) {
      df.xRot := ShiftToZero(df.xRot);
    }
    if AnyNegative(df.yRot) {
      df.yRot := ShiftToZero(df.yRot);
    }
  }
}
