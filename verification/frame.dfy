/** The pandas dataframe the pipeline threads through its stages: one row per
    image, indexed by the image path, with the derived columns that later
    stages add or overwrite in place. */
module Frame {

  /** The metadata the core reads from one image (one row of the table). */
  datatype Record = Record(path: string, longitude: real, latitude: real, yaw: real)

  class ImageFrame {
    /** The row index (`img_path`). */
    var index: seq<string>
    var longitude: seq<real>
    var latitude: seq<real>
    var yaw: seq<real>
    /** Metric offsets from the dataset origin. */
    var xMts: seq<real>
    var yMts: seq<real>
    /** Pixel offsets on the shared canvas. */
    var xPpm: seq<int>
    var yPpm: seq<int>
    /** Rotated pixel positions, shifted to be non-negative. */
    var xRot: seq<real>
    var yRot: seq<real>

    /** Every base column has one entry per row. */
    ghost predicate Valid()
      reads this
    {
      |longitude| == |index| && |latitude| == |index| && |yaw| == |index|
    }

    function Length(): nat
      reads this
    {
      |index|
    }

    /** True once the metric offset columns exist for every row. */
    ghost predicate HasMetres()
      reads this
    {
      |xMts| == |index| && |yMts| == |index|
    }

    /** True once the pixel offset columns exist for every row. */
    ghost predicate HasPixels()
      reads this
    {
      |xPpm| == |index| && |yPpm| == |index|
    }

    /** Builds the table from the records, one row per record in list order,
        indexed by path; the derived columns do not exist yet. */
    constructor (records: seq<Record>)
      ensures Valid() && Length() == |records|
      ensures forall i :: 0 <= i < |records| ==>
        index[i] == records[i].path && longitude[i] == records[i].longitude &&
        latitude[i] == records[i].latitude && yaw[i] == records[i].yaw
      ensures xMts == yMts == xRot == yRot == [] && xPpm == yPpm == []
    {
      index := seq(|records|, i requires 0 <= i < |records| => records[i].path);
      longitude := seq(|records|, i requires 0 <= i < |records| => records[i].longitude);
      latitude := seq(|records|, i requires 0 <= i < |records| => records[i].latitude);
      yaw := seq(|records|, i requires 0 <= i < |records| => records[i].yaw);
      xMts, yMts, xRot, yRot := [], [], [], [];
      xPpm, yPpm := [], [];
    }
  }
}
