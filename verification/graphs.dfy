/** The placement rule of `generate_mosaic` (graphs.py): a zeroed canvas of
    the computed shape, then one paint request per table row, in row order,
    at the row's pixel offset, nudged 50 pixels to the right when the image's
    yaw is positive. The compositing itself (`add_transparent_image` of the
    `utils` module) is not part of this model: the mosaic records the paint
    requests it would issue. */
module Graphs {
  import opened Wrappers
  import opened Frame
  import opened CoordsTransform

  /** The fixed rightward nudge for images with a positive yaw. */
  const NUDGE: int := 50

  /** One call of `add_transparent_image`: which image goes where. */
  datatype Placement = Placement(path: string, x: int, y: int)

  /** The `transfer` the loop adds to the x offset of one row. */
  function Transfer(yaw: real): (t: int)
    ensures t == NUDGE <==> yaw > 0.0
    ensures t == 0 <==> yaw <= 0.0
  {
    if yaw > 0.0 then NUDGE else 0
  }

  /** The paint requests for a table, one per row in row order. Each goes to
      the row's (x_ppm, y_ppm), with x moved right by exactly 50 pixels when
      the yaw is strictly positive and left unchanged otherwise; y is never
      moved. */
  function Placements(index: seq<string>, xPpm: seq<int>, yPpm: seq<int>, yaw: seq<real>): (ps: seq<Placement>)
    requires |xPpm| == |index| && |yPpm| == |index| && |yaw| == |index|
    ensures |ps| == |index|
    ensures forall i :: 0 <= i < |ps| ==> ps[i].path == index[i] && ps[i].y == yPpm[i]
    ensures forall i :: 0 <= i < |ps| ==> (ps[i].x == xPpm[i] + NUDGE <==> yaw[i] > 0.0)
    ensures forall i :: 0 <= i < |ps| ==> (ps[i].x == xPpm[i] <==> yaw[i] <= 0.0)
  {
    seq(|index|, i requires 0 <= i < |index| => Placement(index[i], xPpm[i] + Transfer(yaw[i]), yPpm[i]))
  }

  /** The nudge depends only on the sign of the yaw, not on its size: two rows
      whose yaws have the same sign are moved by the same amount. */
  lemma NudgeIgnoresMagnitude(index: seq<string>, xPpm: seq<int>, yPpm: seq<int>, yaw: seq<real>, i: int, j: int)
    requires |xPpm| == |index| && |yPpm| == |index| && |yaw| == |index|
    requires 0 <= i < |index| && 0 <= j < |index|
    requires (yaw[i] > 0.0) == (yaw[j] > 0.0)
    ensures var ps := Placements(index, xPpm, yPpm, yaw);
      ps[i].x - xPpm[i] == ps[j].x - xPpm[j]
  {
  }

  /** The placements of a longer table extend those of its prefix: rows are
      placed one after another and a later row never changes an earlier
      placement. */
  lemma PlacementsPrefix(index: seq<string>, xPpm: seq<int>, yPpm: seq<int>, yaw: seq<real>, n: nat)
    requires |xPpm| == |index| && |yPpm| == |index| && |yaw| == |index|
    requires n <= |index|
    ensures Placements(index[..n], xPpm[..n], yPpm[..n], yaw[..n]) == Placements(index, xPpm, yPpm, yaw)[..n]
  {
  }

  /** What `generate_mosaic` produces here: the canvas it allocates and the
      paint requests it makes on it. */
  datatype Mosaic = Mosaic(canvas: array3<int>, placements: seq<Placement>)

  /** `np.zeros(max_size_bg, dtype="uint8")`: a fresh canvas of the given
      shape with every entry 0. */
  method NewCanvas(size: Shape) returns (bg: array3<int>)
    requires 0 <= size.rows && 0 <= size.cols && 0 <= size.channels
    ensures fresh(bg)
    ensures bg.Length0 == size.rows && bg.Length1 == size.cols && bg.Length2 == size.channels
    ensures forall i, j, k :: 0 <= i < bg.Length0 && 0 <= j < bg.Length1 && 0 <= k < bg.Length2 ==>
      bg[i, j, k] == 0
  {
    bg := new int[size.rows, size.cols, size.channels]((i, j, k) => 0);
  }

  /** `generate_mosaic(df, max_size_bg)`. A shape with a negative dimension
      cannot be allocated, so no mosaic is made; otherwise the canvas starts
      all zeros and there is one placement per row, in row order, as
      `Placements` describes. The table is not changed. */
  method GenerateMosaic(df: ImageFrame, size: Shape) returns (m: Option<Mosaic>)
    requires df.Valid() && df.HasPixels()
    ensures m.None? <==> size.rows < 0 || size.cols < 0 || size.channels < 0
    ensures m.Some? ==>
      && fresh(m.value.canvas)
      && m.value.canvas.Length0 == size.rows
      && m.value.canvas.Length1 == size.cols
      && m.value.canvas.Length2 == size.channels
      && (forall i, j, k :: 0 <= i < size.rows && 0 <= j < size.cols && 0 <= k < size.channels ==>
            m.value.canvas[i, j, k] == 0)
      && m.value.placements == Placements(df.index, df.xPpm, df.yPpm, df.yaw)
  {
    if size.rows < 0 || size.cols < 0 || size.channels < 0 {
      return None;
    }
    var bg := NewCanvas(size);
    var placed: seq<Placement> := [];
    var i := 0;
    while i < df.Length()
      invariant 0 <= i <= df.Length()
      invariant placed == Placements(df.index, df.xPpm, df.yPpm, df.yaw)[..i]
    {
      var transfer: int;
      if df.yaw[i] > 0.0 {
        transfer := NUDGE;
      } else {
        transfer := 0;
      }
      placed := placed + [Placement(df.index[i], df.xPpm[i] + transfer, df.yPpm[i])];
      i := i + 1;
    }
    assert placed == Placements(df.index, df.xPpm, df.yPpm, df.yaw);
    return Some(Mosaic(bg, placed));
  }
}
