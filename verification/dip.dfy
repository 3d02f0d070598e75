/** The pipeline driver `main` of DIP.py: the image paths in sorted order,
    one metadata record per path, the dataset origin, metric and pixel
    offsets, the canvas size, the north-up flip of the y offsets and the
    mosaic. Globbing, directory creation, plotting and the metadata reading
    are not part of this model: the paths and the per-image readings are
    inputs, and `coords_to_meters` is a parameter. */
module Dip {
  import opened Wrappers
  import opened Numeric
  import opened Frame
  import opened CoordsTransform
  import opened Graphs

  // ---------------------------------------------------------------------------
  // Record ordering: `sorted(glob.glob(...))`

  /** Python's string order: lexicographic by character code, a proper
      prefix coming first. */
  predicate PathLe(a: string, b: string)
    decreases |a|
  {
    if a == [] then true
    else if b == [] then false
    else if a[0] != b[0] then a[0] < b[0]
    else PathLe(a[1..], b[1..])
  }

  lemma {:induction false} PathLeTotal(a: string, b: string)
    ensures PathLe(a, b) || PathLe(b, a)
    decreases |a|
  {
    if a != [] && b != [] && a[0] == b[0] {
      PathLeTotal(a[1..], b[1..]);
    }
  }

  lemma {:induction false} PathLeRefl(a: string)
    ensures PathLe(a, a)
    decreases |a|
  {
    if a != [] {
      PathLeRefl(a[1..]);
    }
  }

  lemma {:induction false} PathLeTrans(a: string, b: string, c: string)
    requires PathLe(a, b) && PathLe(b, c)
    ensures PathLe(a, c)
    decreases |a|
  {
    if a != [] && b != [] && c != [] && a[0] == b[0] && b[0] == c[0] {
      PathLeTrans(a[1..], b[1..], c[1..]);
    }
  }

  lemma {:induction false} PathLeAntisym(a: string, b: string)
    requires PathLe(a, b) && PathLe(b, a)
    ensures a == b
    decreases |a|
  {
    if a != [] {
      PathLeAntisym(a[1..], b[1..]);
      assert a == [a[0]] + a[1..] && b == [b[0]] + b[1..];
    }
  }

  predicate Sorted(s: seq<string>) {
    forall i, j :: 0 <= i < j < |s| ==> PathLe(s[i], s[j])
  }

  /** Every element of `s` is at least `x`. */
  predicate AllAtLeast(x: string, s: seq<string>) {
    forall j :: 0 <= j < |s| ==> PathLe(x, s[j])
  }

  /** A lower bound of each element of a multiset is a lower bound of any
      sequence with that multiset. */
  lemma LowerBoundByMultiset(x: string, s: seq<string>, t: seq<string>)
    requires multiset(s) == multiset(t)
    requires AllAtLeast(x, t)
    ensures AllAtLeast(x, s)
  {
    forall j | 0 <= j < |s|
      ensures PathLe(x, s[j])
    {
      assert s[j] in multiset(t);
      var k :| 0 <= k < |t| && t[k] == s[j];
    }
  }

  /** Inserts `p` before the first element it does not exceed. */
  function Insert(p: string, s: seq<string>): (r: seq<string>)
    requires Sorted(s)
    ensures multiset(r) == multiset(s) + multiset{p}
    ensures Sorted(r)
  {
    if s == [] then [p]
    else if PathLe(p, s[0]) then
      assert AllAtLeast(p, s) by {
        forall j | 0 <= j < |s| ensures PathLe(p, s[j]) {
          if j > 0 { PathLeTrans(p, s[0], s[j]); }
        }
      }
      [p] + s
    else
      var rest := Insert(p, s[1..]);
      assert AllAtLeast(s[0], rest) by {
        PathLeTotal(p, s[0]);
        assert AllAtLeast(s[0], s[1..] + [p]);
        assert multiset(s[1..] + [p]) == multiset(rest);
        LowerBoundByMultiset(s[0], rest, s[1..] + [p]);
      }
      assert s == [s[0]] + s[1..];
      [s[0]] + rest
  }

  /** `sorted`: the paths in ascending order, as a permutation of the input. */
  function SortPaths(s: seq<string>): (r: seq<string>)
    ensures Sorted(r)
    ensures multiset(r) == multiset(s)
    ensures |r| == |s|
  {
    if s == [] then []
    else
      assert s == [s[0]] + s[1..];
      Insert(s[0], SortPaths(s[1..]))
  }

  /** There is only one ascending arrangement of a collection of paths. */
  lemma {:induction false} SortedUnique(a: seq<string>, b: seq<string>)
    requires Sorted(a) && Sorted(b)
    requires multiset(a) == multiset(b)
    ensures a == b
    decreases |a|
  {
    assert |a| == |multiset(a)| == |multiset(b)| == |b|;
    if a != [] {
      SortedHeadsEqual(a, b);
      TailMultiset(a);
      TailMultiset(b);
      TailSorted(a);
      TailSorted(b);
      SortedUnique(a[1..], b[1..]);
      assert a == [a[0]] + a[1..] && b == [b[0]] + b[1..];
    }
  }

  /** Two ascending arrangements of the same paths start alike. */
  lemma SortedHeadsEqual(a: seq<string>, b: seq<string>)
    requires Sorted(a) && Sorted(b) && |a| > 0 && |b| > 0
    requires multiset(a) == multiset(b)
    ensures a[0] == b[0]
  {
    assert a[0] in multiset(b);
    var k :| 0 <= k < |b| && b[k] == a[0];
    assert b[0] in multiset(a);
    var l :| 0 <= l < |a| && a[l] == b[0];
    assert PathLe(b[0], a[0]) by { if k > 0 { assert PathLe(b[0], b[k]); } else { PathLeRefl(a[0]); } }
    assert PathLe(a[0], b[0]) by { if l > 0 { assert PathLe(a[0], a[l]); } else { PathLeRefl(a[0]); } }
    PathLeAntisym(a[0], b[0]);
  }

  lemma TailMultiset(a: seq<string>)
    requires |a| > 0
    ensures multiset(a[1..]) == multiset(a) - multiset{a[0]}
  {
    assert a == [a[0]] + a[1..];
  }

  lemma TailSorted(a: seq<string>)
    requires Sorted(a) && |a| > 0
    ensures Sorted(a[1..])
  {
    forall i, j | 0 <= i < j < |a[1..]| ensures PathLe(a[1..][i], a[1..][j]) {
      assert PathLe(a[i + 1], a[j + 1]);
    }
  }

  /** The processing order depends only on which paths exist, never on the
      order in which the directory listing returned them. */
  lemma SortIgnoresListingOrder(a: seq<string>, b: seq<string>)
    requires multiset(a) == multiset(b)
    ensures SortPaths(a) == SortPaths(b)
  {
    SortedUnique(SortPaths(a), SortPaths(b));
  }

  // ---------------------------------------------------------------------------
  // Origin and north-up flip

  /** `(df.longitude.min(), df.latitude.min())`: each component is the
      minimum of its own column, so it lies at or below every record. */
  function Origin(longitudes: seq<real>, latitudes: seq<real>): (o: (real, real))
    requires |longitudes| > 0 && |latitudes| > 0
    ensures o.0 in longitudes && o.1 in latitudes
    ensures forall i :: 0 <= i < |longitudes| ==> o.0 <= longitudes[i]
    ensures forall i :: 0 <= i < |latitudes| ==> o.1 <= latitudes[i]
  {
    (Min(longitudes), Min(latitudes))
  }

  /** The minima are taken column by column, so the origin need not be the
      position of any image: with images at (0, 1) and (1, 0) it is (0, 0). */
  lemma OriginNeedNotBeARecord()
    ensures Origin([0.0, 1.0], [1.0, 0.0]) == (0.0, 0.0)
    ensures forall i :: 0 <= i < 2 ==> ([0.0, 1.0][i], [1.0, 0.0][i]) != (0.0, 0.0)
  {
    assert Min([1.0]) == 1.0;
    assert Min([0.0]) == 0.0;
    assert [0.0, 1.0][1..] == [1.0];
    assert [1.0, 0.0][1..] == [0.0];
  }

  /** `(df.y_ppm - df.y_ppm.max()) * -1`: y measured down from the northmost
      image. No offset is negative, the northmost images get 0 and no other
      does, and the order of any two offsets is reversed while the distance
      between them is kept. */
  function FlipY(yPpm: seq<int>): (r: seq<int>)
    requires |yPpm| > 0
    ensures |r| == |yPpm|
    ensures forall i :: 0 <= i < |r| ==> 0 <= r[i]
    ensures forall i :: 0 <= i < |r| ==> (r[i] == 0 <==> yPpm[i] == MaxInt(yPpm))
    ensures exists i :: 0 <= i < |r| && r[i] == 0
    ensures forall i, j :: 0 <= i < |r| && 0 <= j < |r| ==> (yPpm[i] < yPpm[j] <==> r[j] < r[i])
    ensures forall i, j :: 0 <= i < |r| && 0 <= j < |r| ==> r[i] - r[j] == yPpm[j] - yPpm[i]
  {
    var m := MaxInt(yPpm);
    var r := seq(|yPpm|, i requires 0 <= i < |yPpm| => (yPpm[i] - m) * -1);
    var k :| 0 <= k < |yPpm| && yPpm[k] == m;
    assert r[k] == 0;
    r
  }

  /** On offsets that already start at 0, flipping twice gives them back. */
  lemma FlipYTwice(yPpm: seq<int>)
    requires |yPpm| > 0
    requires forall i :: 0 <= i < |yPpm| ==> 0 <= yPpm[i]
    requires 0 in yPpm
    ensures FlipY(FlipY(yPpm)) == yPpm
  {
    var r := FlipY(yPpm);
    FlipYKeepsMax(yPpm);
    forall i | 0 <= i < |yPpm|
      ensures FlipY(r)[i] == yPpm[i]
    {
      assert r[i] == MaxInt(yPpm) - yPpm[i];
    }
  }

  /** Flipping offsets that start at 0 keeps their maximum. */
  lemma FlipYKeepsMax(yPpm: seq<int>)
    requires |yPpm| > 0
    requires forall i :: 0 <= i < |yPpm| ==> 0 <= yPpm[i]
    requires 0 in yPpm
    ensures MaxInt(FlipY(yPpm)) == MaxInt(yPpm)
  {
    var m := MaxInt(yPpm);
    var r := FlipY(yPpm);
    var z :| 0 <= z < |yPpm| && yPpm[z] == 0;
    assert r[z] == m;
    var q :| 0 <= q < |r| && r[q] == MaxInt(r);
    assert r[q] == m - yPpm[q];
  }

  /** The canvas is sized from the offsets before the flip; when those are
      non-negative every flipped offset still fits within its rows. */
  lemma FlippedFitsCanvas(xPpm: seq<int>, yPpm: seq<int>, rescaledWidth: int, rescaledHeight: int)
    requires |xPpm| > 0 && |yPpm| > 0 && 0 <= rescaledWidth
    requires forall i :: 0 <= i < |yPpm| ==> 0 <= yPpm[i]
    ensures forall i :: 0 <= i < |yPpm| ==>
      FlipY(yPpm)[i] <= CanvasSize(xPpm, yPpm, rescaledWidth, rescaledHeight).rows
  {
    var s := CanvasSize(xPpm, yPpm, rescaledWidth, rescaledHeight);
    var k :| 0 <= k < |yPpm| && yPpm[k] == MaxInt(yPpm);
    assert MaxInt(yPpm) <= s.rows;
  }

  // ---------------------------------------------------------------------------
  // main

  /** What the pipeline reads from one image's metadata. */
  datatype Reading = Reading(longitude: real, latitude: real, yaw: real)

  /** The records `main` collects, one per path in the given order. */
  function RecordsOf(paths: seq<string>, readingOf: string -> Reading): (rs: seq<Record>)
    ensures |rs| == |paths|
    ensures forall i :: 0 <= i < |paths| ==>
      rs[i] == Record(paths[i], readingOf(paths[i]).longitude, readingOf(paths[i]).latitude, readingOf(paths[i]).yaw)
  {
    seq(|paths|, i requires 0 <= i < |paths| =>
      Record(paths[i], readingOf(paths[i]).longitude, readingOf(paths[i]).latitude, readingOf(paths[i]).yaw))
  }

  /** Each row holds the reading of the image its index names. */
  predicate ReadingsAgree(index: seq<string>, longitudes: seq<real>, latitudes: seq<real>, yaws: seq<real>,
                          readingOf: string -> Reading)
  {
    |longitudes| == |index| && |latitudes| == |index| && |yaws| == |index| &&
    forall i :: 0 <= i < |index| ==>
      longitudes[i] == readingOf(index[i]).longitude &&
      latitudes[i] == readingOf(index[i]).latitude &&
      yaws[i] == readingOf(index[i]).yaw
  }

  /** The metric offsets of every row from the origin, as the row-wise
      `coords_to_meters` gives them. */
  function Offsets(origin: (real, real), longitudes: seq<real>, latitudes: seq<real>,
                   coordsToMeters: ((real, real), real, real) -> (real, real)): (xy: (seq<real>, seq<real>))
    requires |latitudes| == |longitudes|
    ensures |xy.0| == |longitudes| && |xy.1| == |longitudes|
    ensures forall i :: 0 <= i < |longitudes| ==>
      (xy.0[i], xy.1[i]) == coordsToMeters(origin, longitudes[i], latitudes[i])
  {
    (seq(|longitudes|, i requires 0 <= i < |longitudes| => coordsToMeters(origin, longitudes[i], latitudes[i]).0),
     seq(|longitudes|, i requires 0 <= i < |longitudes| => coordsToMeters(origin, longitudes[i], latitudes[i]).1))
  }

  /** The metadata list of `main`, appended to one path at a time. */
  method CollectRecords(paths: seq<string>, readingOf: string -> Reading) returns (records: seq<Record>)
    ensures records == RecordsOf(paths, readingOf)
  {
    records := [];
    var i := 0;
    while i < |paths|
      invariant 0 <= i <= |paths|
      invariant records == RecordsOf(paths[..i], readingOf)
    {
      var reading := readingOf(paths[i]);
      records := records + [Record(paths[i], reading.longitude, reading.latitude, reading.yaw)];
      i := i + 1;
    }
    assert paths[..i] == paths;
  }

  /** `pd.DataFrame(img_md_lst).set_index("img_path")`: one row per path, in
      the given order, holding that image's reading. */
  method BuildFrame(paths: seq<string>, readingOf: string -> Reading) returns (df: ImageFrame)
    ensures fresh(df) && df.Valid()
    ensures df.index == paths
    ensures ReadingsAgree(df.index, df.longitude, df.latitude, df.yaw, readingOf)
    ensures df.xMts == df.yMts == df.xRot == df.yRot == [] && df.xPpm == df.yPpm == []
  {
    var records := CollectRecords(paths, readingOf);
    df := new ImageFrame(records);
    assert df.index == paths;
  }

  /** Line 30 of `main`: the metric offset columns, from the column-wise
      origin of the table. */
  method AddMetricOffsets(df: ImageFrame, coordsToMeters: ((real, real), real, real) -> (real, real))
    requires df.Valid() && df.Length() > 0
    modifies df
    ensures df.Valid() && df.HasMetres()
    ensures df.index == old(df.index) && df.longitude == old(df.longitude)
    ensures df.latitude == old(df.latitude) && df.yaw == old(df.yaw)
    ensures df.xPpm == old(df.xPpm) && df.yPpm == old(df.yPpm)
    ensures df.xRot == old(df.xRot) && df.yRot == old(df.yRot)
    ensures (df.xMts, df.yMts) == Offsets(Origin(df.longitude, df.latitude), df.longitude, df.latitude, coordsToMeters)
  {
    var zero := Origin(df.longitude, df.latitude);
    var offsets := Offsets(zero, df.longitude, df.latitude, coordsToMeters);
    df.xMts, df.yMts := offsets.0, offsets.1;
  }

  /** Line 32 of `main`: the y pixel offsets are flipped in place; every other
      column is kept. */
  method FlipPixels(df: ImageFrame)
    requires df.Valid() && df.HasPixels() && df.Length() > 0
    modifies df
    ensures df.Valid() && df.HasPixels()
    ensures df.yPpm == FlipY(old(df.yPpm))
    ensures df.index == old(df.index) && df.longitude == old(df.longitude)
    ensures df.latitude == old(df.latitude) && df.yaw == old(df.yaw)
    ensures df.xMts == old(df.xMts) && df.yMts == old(df.yMts)
    ensures df.xPpm == old(df.xPpm)
    ensures df.xRot == old(df.xRot) && df.yRot == old(df.yRot)
  {
    df.yPpm := FlipY(df.yPpm);
  }

  /** `main`. Without images no table can be indexed and nothing is produced.
      Otherwise the table has one row per path in sorted order; the metric
      offsets are taken from the column-wise origin; the canvas is sized from
      the pixel offsets before the flip; the y offsets are then flipped while
      the x offsets are kept; and the mosaic is made from the flipped table. */
  method RunPipeline(paths: seq<string>, readingOf: string -> Reading,
                     coordsToMeters: ((real, real), real, real) -> (real, real),
                     modalWidth: int, modalHeight: int)
    returns (df: ImageFrame?, size: Option<Shape>, mosaic: Option<Mosaic>)
    ensures |paths| == 0 ==> df == null && size.None? && mosaic.None?
    ensures |paths| > 0 ==>
      && df != null && fresh(df) && df.Valid() && df.HasMetres() && df.HasPixels()
      && df.index == SortPaths(paths)
      && ReadingsAgree(df.index, df.longitude, df.latitude, df.yaw, readingOf)
      && (df.xMts, df.yMts) == Offsets(Origin(df.longitude, df.latitude), df.longitude, df.latitude, coordsToMeters)
      && var unflippedY := ScaleColumn(df.yMts, XFactor(DEFAULT_SCALE));
      && df.xPpm == ScaleColumn(df.xMts, YFactor(DEFAULT_SCALE))
      && df.yPpm == FlipY(unflippedY)
      && size == Some(CanvasSize(df.xPpm, unflippedY,
                                 RescaledDim(modalWidth, DEFAULT_SCALE), RescaledDim(modalHeight, DEFAULT_SCALE)))
      && (mosaic.Some? <==> size.value.rows >= 0 && size.value.cols >= 0)
      && (mosaic.Some? ==> mosaic.value.placements == Placements(df.index, df.xPpm, df.yPpm, df.yaw))
  {
    var imgPaths := SortPaths(paths);
    if |imgPaths| == 0 {
      return null, None, None;
    }
    df := BuildFrame(imgPaths, readingOf);
    AddMetricOffsets(df, coordsToMeters);
    size := FromMetersToPixels(df, modalWidth, modalHeight, DEFAULT_SCALE);
    FlipPixels(df);
    mosaic := GenerateMosaic(df, size.value);
  }
}
