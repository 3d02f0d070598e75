/** The decision logic of metadata extraction (metadata.py): degrees/minutes/
    seconds to signed decimal degrees, the tag-list scans over the XMP
    description, and the order in which the per-image dictionaries are merged.
    Reading EXIF and XMP from the file is not part of this model: the XMP
    description arrives as an ordered list of (key, raw value) pairs, and the
    conversion of a raw value to a number is a parameter that may fail. */
module Metadata {
  import opened Wrappers

  // ---------------------------------------------------------------------------
  // decimal_coords

  /** The unsigned value of degrees, minutes and seconds. */
  function DmsMagnitude(degrees: real, minutes: real, seconds: real): real {
    degrees + minutes / 60.0 + seconds / 3600.0
  }

  /** True for the hemisphere references that make a coordinate negative. */
  predicate IsNegativeRef(ref: string) {
    ref == "S" || ref == "W"
  }

  /** `decimal_coords`: the signed decimal-degree value of a GPS coordinate.
      Only the exact references "S" and "W" negate; any other reference,
      including an unexpected one, leaves the value positive. */
  function DecimalCoords(degrees: real, minutes: real, seconds: real, ref: string): (r: real)
    ensures IsNegativeRef(ref) ==> r == -DmsMagnitude(degrees, minutes, seconds)
    ensures !IsNegativeRef(ref) ==> r == DmsMagnitude(degrees, minutes, seconds)
  {
    var decimalDegrees := DmsMagnitude(degrees, minutes, seconds);
    if ref == "S" || ref == "W" then -decimalDegrees else decimalDegrees
  }

  /** The same reading north and south of the equator (or east and west of
      the meridian) gives opposite values. */
  lemma HemispheresOpposite(degrees: real, minutes: real, seconds: real)
    ensures DecimalCoords(degrees, minutes, seconds, "S") == -DecimalCoords(degrees, minutes, seconds, "N")
    ensures DecimalCoords(degrees, minutes, seconds, "W") == -DecimalCoords(degrees, minutes, seconds, "E")
  {
  }

  /** For a well-formed reading (minutes and seconds below one degree), the
      decimal value lies within the whole degree it names, on the side of zero
      its reference selects. */
  lemma DecimalCoordsWithinDegree(degrees: real, minutes: real, seconds: real, ref: string)
    requires 0.0 <= degrees && 0.0 <= minutes && 0.0 <= seconds
    requires minutes * 60.0 + seconds < 3600.0
    ensures IsNegativeRef(ref) ==> -(degrees + 1.0) < DecimalCoords(degrees, minutes, seconds, ref) <= -degrees
    ensures !IsNegativeRef(ref) ==> degrees <= DecimalCoords(degrees, minutes, seconds, ref) < degrees + 1.0
  {
    assert minutes / 60.0 + seconds / 3600.0 == (minutes * 60.0 + seconds) / 3600.0;
  }

  // ---------------------------------------------------------------------------
  // The XMP description and its tag lists

  /** One entry of the XMP `rdf:Description`: a key and its raw value. */
  type Item = (string, string)

  /** A value conversion (`float(v)`, or `round(float(Fraction(v)), 6)`):
      `None` where the conversion raises. */
  type Parser = string -> Option<real>

  const AGL_TAGS: seq<string> := ["Camera:AboveGroundAltitude", "@drone-dji:RelativeAltitude"]
  const YAW_TAGS: seq<string> := ["drone-parrot:DroneYawDegree", "@drone-dji:FlightYawDegree"]
  const PITCH_TAGS: seq<string> := ["drone-parrot:DronePitchDegree", "@drone-dji:FlightPitchDegree"]
  const ROLL_TAGS: seq<string> := ["drone-parrot:DroneRollDegree", "@drone-dji:FlightRollDegree"]

  /** True when a key belongs to one of the orientation tag lists. */
  predicate IsOrientationKey(key: string) {
    key in YAW_TAGS || key in PITCH_TAGS || key in ROLL_TAGS
  }

  // ---------------------------------------------------------------------------
  // get_yaw_pitch_roll

  datatype Ypr = Ypr(yaw: Option<real>, pitch: Option<real>, roll: Option<real>)

  const NO_YPR: Ypr := Ypr(None, None, None)

  /** One pass of the loop body: three independent tests, yaw then pitch then
      roll, each overwriting its field; `None` when a conversion raises. */
  function StepYpr(acc: Ypr, item: Item, parse: Parser): (r: Option<Ypr>)
    ensures r.None? <==> IsOrientationKey(item.0) && parse(item.1).None?
    ensures !IsOrientationKey(item.0) ==> r == Some(acc)
    ensures r.Some? && item.0 in YAW_TAGS ==> r.value.yaw == parse(item.1)
    ensures r.Some? && item.0 in PITCH_TAGS ==> r.value.pitch == parse(item.1)
    ensures r.Some? && item.0 in ROLL_TAGS ==> r.value.roll == parse(item.1)
    ensures r.Some? && item.0 !in YAW_TAGS ==> r.value.yaw == acc.yaw
    ensures r.Some? && item.0 !in PITCH_TAGS ==> r.value.pitch == acc.pitch
    ensures r.Some? && item.0 !in ROLL_TAGS ==> r.value.roll == acc.roll
  {
    var (key, value) := item;
    if IsOrientationKey(key) && parse(value).None? then None
    else Some(Ypr(
      if key in YAW_TAGS then parse(value) else acc.yaw,
      if key in PITCH_TAGS then parse(value) else acc.pitch,
      if key in ROLL_TAGS then parse(value) else acc.roll))
  }

  /** The loop over a prefix of the description: the fields found so far, or
      `None` once a conversion has raised. */
  function ScanYpr(items: seq<Item>, parse: Parser): (r: Option<Ypr>)
    ensures r.None? <==> ScanRaises(items, parse)
    decreases |items|
  {
    if items == [] then Some(NO_YPR)
    else
      ScanRaisesSnoc(items, parse);
      match ScanYpr(items[..|items| - 1], parse)
      case None => None
      case Some(acc) => StepYpr(acc, items[|items| - 1], parse)
  }

  /** A description raises when its prefix does or its last entry does. */
  lemma ScanRaisesSnoc(items: seq<Item>, parse: Parser)
    requires items != []
    ensures ScanRaises(items, parse) <==>
      ScanRaises(items[..|items| - 1], parse) ||
      (IsOrientationKey(items[|items| - 1].0) && parse(items[|items| - 1].1).None?)
  {
    var init := items[..|items| - 1];
    if ScanRaises(init, parse) {
      var i :| 0 <= i < |init| && IsOrientationKey(init[i].0) && parse(init[i].1).None?;
      assert items[i] == init[i];
    }
    if ScanRaises(items, parse) {
      var i :| 0 <= i < |items| && IsOrientationKey(items[i].0) && parse(items[i].1).None?;
      if i < |init| {
        assert init[i] == items[i];
      }
    }
  }

  /** `get_yaw_pitch_roll` as a value: a missing description path or any
      failed conversion yields all three fields `None`, discarding values
      already found; otherwise each field is the last match of its tags. */
  function YawPitchRoll(description: Option<seq<Item>>, parse: Parser): (ypr: Ypr)
    ensures description.None? ==> ypr == NO_YPR
    ensures description.Some? && ScanRaises(description.value, parse) ==> ypr == NO_YPR
    ensures description.Some? && !ScanRaises(description.value, parse) ==>
      ypr == Ypr(LastMatch(description.value, YAW_TAGS, parse),
                 LastMatch(description.value, PITCH_TAGS, parse),
                 LastMatch(description.value, ROLL_TAGS, parse))
  {
    match description
    case None => NO_YPR
    case Some(items) =>
      ScanYprCharacterised(items, parse);
      match ScanYpr(items, parse)
      case None => NO_YPR
      case Some(ypr) => ypr
  }

  /** Reference definition: the converted value of the LAST entry whose key is
      in `tags`, or `None` when no key is. */
  function LastMatch(items: seq<Item>, tags: seq<string>, parse: Parser): Option<real>
    decreases |items|
  {
    if items == [] then None
    else if items[|items| - 1].0 in tags then parse(items[|items| - 1].1)
    else LastMatch(items[..|items| - 1], tags, parse)
  }

  /** True when some orientation entry's value fails to convert. */
  predicate ScanRaises(items: seq<Item>, parse: Parser) {
    exists i :: 0 <= i < |items| && IsOrientationKey(items[i].0) && parse(items[i].1).None?
  }

  /** When the scan does not raise, each field is the value of the last
      entry carrying one of its tags. */
  lemma {:induction false} ScanYprCharacterised(items: seq<Item>, parse: Parser)
    ensures ScanYpr(items, parse).Some? ==>
      ScanYpr(items, parse).value == Ypr(LastMatch(items, YAW_TAGS, parse),
                                         LastMatch(items, PITCH_TAGS, parse),
                                         LastMatch(items, ROLL_TAGS, parse))
    decreases |items|
  {
    if items != [] {
      ScanYprCharacterised(items[..|items| - 1], parse);
    }
  }

  /** A later matching entry overwrites an earlier one: the value kept is that
      of the last entry carrying one of the tags. */
  lemma {:induction false} LastMatchAt(items: seq<Item>, tags: seq<string>, parse: Parser, i: int)
    requires 0 <= i < |items| && items[i].0 in tags
    requires forall j :: i < j < |items| ==> items[j].0 !in tags
    ensures LastMatch(items, tags, parse) == parse(items[i].1)
    decreases |items|
  {
    if i < |items| - 1 {
      var init := items[..|items| - 1];
      assert init[i] == items[i];
      forall j | i < j < |init| ensures init[j].0 !in tags {
        assert init[j] == items[j];
      }
      LastMatchAt(init, tags, parse, i);
    }
  }

  /** A field whose tags never appear stays `None`. */
  lemma {:induction false} LastMatchAbsent(items: seq<Item>, tags: seq<string>, parse: Parser)
    requires forall j :: 0 <= j < |items| ==> items[j].0 !in tags
    ensures LastMatch(items, tags, parse) == None
    decreases |items|
  {
    if items != [] {
      var init := items[..|items| - 1];
      forall j | 0 <= j < |init| ensures init[j].0 !in tags {
        assert init[j] == items[j];
      }
      LastMatchAbsent(init, tags, parse);
    }
  }

  /** `get_yaw_pitch_roll`: walks the description once, testing each key
      against the three tag lists; a failed conversion abandons the scan. */
  method GetYawPitchRoll(description: Option<seq<Item>>, parse: Parser) returns (ypr: Ypr)
    ensures ypr == YawPitchRoll(description, parse)
  {
    if description.None? {
      return NO_YPR;
    }
    var items := description.value;
    ypr := NO_YPR;
    var i := 0;
    while i < |items|
      invariant 0 <= i <= |items|
      invariant ScanYpr(items[..i], parse) == Some(ypr)
    {
      var (key, value) := items[i];
      assert items[..i + 1][..i] == items[..i];
      if key in YAW_TAGS {
        var v := parse(value);
        if v.None? {
          ScanYprCharacterised(items, parse);
          return NO_YPR;
        }
        ypr := ypr.(yaw := v);
      }
      if key in PITCH_TAGS {
        var v := parse(value);
        if v.None? {
          ScanYprCharacterised(items, parse);
          return NO_YPR;
        }
        ypr := ypr.(pitch := v);
      }
      if key in ROLL_TAGS {
        var v := parse(value);
        if v.None? {
          ScanYprCharacterised(items, parse);
          return NO_YPR;
        }
        ypr := ypr.(roll := v);
      }
      i := i + 1;
    }
    assert items[..|items|] == items;
  }

  // ---------------------------------------------------------------------------
  // get_above_ground_level

  /** The result of `get_above_ground_level`: Python `None` when no key
      matched, otherwise the dictionary `{"relative_alt": v}`. */
  datatype Agl = NoAgl | Agl(relativeAlt: Option<real>)

  /** The loop over the description: it returns at the first key in the tag
      list, with the converted value or, when the conversion raises, `None`;
      when no key matches the loop ends without a return. */
  function AglScan(items: seq<Item>, parse: Parser): (r: Agl)
    ensures r.NoAgl? ==> forall j :: 0 <= j < |items| ==> items[j].0 !in AGL_TAGS
    decreases |items|
  {
    if items == [] then NoAgl
    else if items[0].0 in AGL_TAGS then Agl(parse(items[0].1))
    else
      var rest := AglScan(items[1..], parse);
      assert rest.NoAgl? ==> forall j :: 1 <= j < |items| ==> items[j].0 !in AGL_TAGS by {
        if rest.NoAgl? {
          forall j | 1 <= j < |items| ensures items[j].0 !in AGL_TAGS {
            assert items[j] == items[1..][j - 1];
          }
        }
      }
      rest
  }

  /** `get_above_ground_level` as a value; a missing description path raises
      inside the `try` and yields `{"relative_alt": None}`. */
  function AboveGroundLevel(description: Option<seq<Item>>, parse: Parser): (alt: Agl)
    ensures description.None? ==> alt == Agl(None)
    ensures alt.NoAgl? ==> description.Some? && forall j :: 0 <= j < |description.value| ==> description.value[j].0 !in AGL_TAGS
  {
    match description
    case None => Agl(None)
    case Some(items) => AglScan(items, parse)
  }

  /** The first matching key decides the result. */
  lemma {:induction false} AglFirstMatchWins(items: seq<Item>, parse: Parser, i: int)
    requires 0 <= i < |items| && items[i].0 in AGL_TAGS
    requires forall j :: 0 <= j < i ==> items[j].0 !in AGL_TAGS
    ensures AglScan(items, parse) == Agl(parse(items[i].1))
    decreases i
  {
    if i > 0 {
      AglFirstMatchWins(items[1..], parse, i - 1);
    }
  }

  /** Entries after a match are never looked at. */
  lemma {:induction false} AglIgnoresLater(items: seq<Item>, more: seq<Item>, parse: Parser)
    requires exists i :: 0 <= i < |items| && items[i].0 in AGL_TAGS
    ensures AglScan(items + more, parse) == AglScan(items, parse)
    decreases |items|
  {
    if items[0].0 !in AGL_TAGS {
      var i :| 0 <= i < |items| && items[i].0 in AGL_TAGS;
      assert items[1..][i - 1] == items[i];
      assert (items + more)[1..] == items[1..] + more;
      AglIgnoresLater(items[1..], more, parse);
    }
  }

  /** With no matching key the function returns Python `None`, not a
      dictionary. */
  lemma {:induction false} AglNoMatch(items: seq<Item>, parse: Parser)
    requires forall j :: 0 <= j < |items| ==> items[j].0 !in AGL_TAGS
    ensures AglScan(items, parse) == NoAgl
    decreases |items|
  {
    if items != [] {
      AglNoMatch(items[1..], parse);
    }
  }

  /** `get_above_ground_level`: returns at the first key in the tag list. */
  method GetAboveGroundLevel(description: Option<seq<Item>>, parse: Parser) returns (alt: Agl)
    ensures alt == AboveGroundLevel(description, parse)
  {
    if description.None? {
      return Agl(None);
    }
    var items := description.value;
    var i := 0;
    while i < |items|
      invariant 0 <= i <= |items|
      invariant AglScan(items[i..], parse) == AglScan(items, parse)
    {
      var (key, value) := items[i];
      if key in AGL_TAGS {
        return Agl(parse(value));
      }
      assert items[i..][1..] == items[i + 1..];
      i := i + 1;
    }
    return NoAgl;
  }

  // ---------------------------------------------------------------------------
  // Merging the per-image dictionaries

  /** A dictionary value: text, a number, or Python `None`. */
  datatype Value = Text(text: string) | Number(number: real) | NoneValue

  /** The dictionary keys the extraction functions produce. */
  datatype Key = ImgPath | Latitude | Longitude | Altitude | Width | Height
               | RelativeAlt | Yaw | Pitch | Roll

  type Fields = map<Key, Value>

  function FromOption(v: Option<real>): Value {
    match v
    case None => NoneValue
    case Some(x) => Number(x)
  }

  function YprFields(ypr: Ypr): (f: Fields)
    ensures f.Keys == {Yaw, Pitch, Roll}
  {
    map[Yaw := FromOption(ypr.yaw), Pitch := FromOption(ypr.pitch), Roll := FromOption(ypr.roll)]
  }

  /** `{**relative_alt, **ypr}` as the `xmp` function writes it: unpacking
      the `None` that `get_above_ground_level` returns when no tag matches
      raises a `TypeError`, which the surrounding `except KeyError` does not
      catch. `None` here stands for that exception. */
  function XmpFields(alt: Agl, ypr: Ypr): (f: Option<Fields>)
    ensures f.None? <==> alt.NoAgl?
    ensures f.Some? ==> f.value.Keys == {RelativeAlt, Yaw, Pitch, Roll}
  {
    match alt
    case NoAgl => None
    case Agl(v) => Some(map[RelativeAlt := FromOption(v)] + YprFields(ypr))
  }

  /** A description that carries orientation tags but no above-ground tag
      makes the XMP merge raise: the image's metadata cannot be built. */
  lemma MissingAglTagBreaksXmpMerge(parse: Parser)
    ensures XmpFields(AboveGroundLevel(Some([("@drone-dji:FlightYawDegree", "12.5")]), parse),
                      YawPitchRoll(Some([("@drone-dji:FlightYawDegree", "12.5")]), parse)).None?
  {
    var items: seq<Item> := [("@drone-dji:FlightYawDegree", "12.5")];
    AglNoMatch(items, parse);
  }

  /** The evidently intended `get_above_ground_level`: always a dictionary,
      whose `relative_alt` is `None` when no key matches. */
  function AboveGroundLevelFixed(description: Option<seq<Item>>, parse: Parser): (alt: Option<real>)
    ensures description.Some? && (forall j :: 0 <= j < |description.value| ==> description.value[j].0 !in AGL_TAGS)
      ==> alt == None
    ensures AboveGroundLevel(description, parse).Agl? ==> alt == AboveGroundLevel(description, parse).relativeAlt
  {
    if description.Some? && (forall j :: 0 <= j < |description.value| ==> description.value[j].0 !in AGL_TAGS) then
      AglNoMatch(description.value, parse);
      None
    else
      match AboveGroundLevel(description, parse)
      case NoAgl => None
      case Agl(v) => v
  }

  /** The merge with the intended above-ground result: it never raises and
      always holds the four XMP fields; where the written merge succeeds the
      two agree. */
  function XmpFieldsFixed(alt: Option<real>, ypr: Ypr): (f: Fields)
    ensures f.Keys == {RelativeAlt, Yaw, Pitch, Roll}
    ensures f[RelativeAlt] == FromOption(alt)
    ensures XmpFields(Agl(alt), ypr) == Some(f)
  {
    map[RelativeAlt := FromOption(alt)] + YprFields(ypr)
  }

  /** `get_metadata_from_an_img`: starts from `{"img_path": path}` and
      updates it with the coordinates, then the dimensions, then the XMP
      fields, so a key present in a later source overrides earlier ones. */
  function MergeMetadata(path: string, coords: Fields, dims: Fields, xmp: Fields): (r: Fields)
    ensures r.Keys == {ImgPath} + coords.Keys + dims.Keys + xmp.Keys
    ensures forall k :: k in xmp ==> r[k] == xmp[k]
    ensures forall k :: k in dims && k !in xmp ==> r[k] == dims[k]
    ensures forall k :: k in coords && k !in dims && k !in xmp ==> r[k] == coords[k]
    ensures ImgPath !in coords && ImgPath !in dims && ImgPath !in xmp ==> r[ImgPath] == Text(path)
  {
    var fileInfo := map[ImgPath := Text(path)];
    var fileInfo := fileInfo + coords;
    var fileInfo := fileInfo + dims;
    fileInfo + xmp
  }

  /** The dictionary `get_image_coordinates` returns. */
  function CoordFields(latitude: Option<real>, longitude: Option<real>, altitude: Option<real>): (f: Fields)
    ensures f.Keys == {Latitude, Longitude, Altitude}
  {
    map[Latitude := FromOption(latitude), Longitude := FromOption(longitude), Altitude := FromOption(altitude)]
  }

  /** The dictionary `get_dimensions` returns. */
  function DimFields(width: Option<real>, height: Option<real>): (f: Fields)
    ensures f.Keys == {Width, Height}
  {
    map[Width := FromOption(width), Height := FromOption(height)]
  }

  /** `get_metadata_from_an_img` on one image's readings, all of them
      inputs: the EXIF coordinates and dimensions, the above-ground altitude
      (the value `AboveGroundLevelFixed` yields) and the orientation (the
      value `YawPitchRoll` yields). This is the intended merge: it goes
      through `XmpFieldsFixed`, while the merge as written fails whenever
      `XmpFields` is `None`, as `MissingAglTagBreaksXmpMerge` shows. The key
      sets of the four sources are disjoint, so every reading survives the
      merge under its own key. */
  function ImageMetadata(path: string, latitude: Option<real>, longitude: Option<real>, altitude: Option<real>,
                         width: Option<real>, height: Option<real>, relativeAlt: Option<real>, ypr: Ypr): (r: Fields)
    ensures r.Keys == {ImgPath, Latitude, Longitude, Altitude, Width, Height, RelativeAlt, Yaw, Pitch, Roll}
  {
    var coords := CoordFields(latitude, longitude, altitude);
    var dims := DimFields(width, height);
    var xmp := XmpFieldsFixed(relativeAlt, ypr);
    var r := MergeMetadata(path, coords, dims, xmp);
    r
  }

  lemma ImageMetadataValues(path: string, latitude: Option<real>, longitude: Option<real>, altitude: Option<real>,
                         width: Option<real>, height: Option<real>, relativeAlt: Option<real>, ypr: Ypr)
    ensures var r := ImageMetadata(path, latitude, longitude, altitude, width, height, relativeAlt, ypr);
      && r[ImgPath] == Text(path) && r[Longitude] == FromOption(longitude)
      && r[Latitude] == FromOption(latitude) && r[Altitude] == FromOption(altitude)
      && r[Width] == FromOption(width) && r[Height] == FromOption(height)
      && r[RelativeAlt] == FromOption(relativeAlt)
      && r[Yaw] == FromOption(ypr.yaw) && r[Pitch] == FromOption(ypr.pitch) && r[Roll] == FromOption(ypr.roll)
  {
    var coords := CoordFields(latitude, longitude, altitude);
    var dims := DimFields(width, height);
    var xmp := XmpFieldsFixed(relativeAlt, ypr);
    assert Yaw in xmp && Pitch in xmp && Roll in xmp && RelativeAlt in xmp;
    assert Width in dims && Width !in xmp && Height in dims && Height !in xmp;
    assert Latitude in coords && Latitude !in dims && Latitude !in xmp;
    assert Longitude in coords && Longitude !in dims && Longitude !in xmp;
    assert Altitude in coords && Altitude !in dims && Altitude !in xmp;
    assert ImgPath !in coords && ImgPath !in dims && ImgPath !in xmp;
  }

}
