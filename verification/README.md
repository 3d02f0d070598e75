# Drone image mosaic: bookkeeping core in Dafny

This project models the layer of small, exact bookkeeping in the drone-image
mosaic pipeline (Drone-Images-Plotter). The layer covers:

- the metadata decoding of `metadata.py`:
  - degrees/minutes/seconds to signed decimal degrees;
  - the yaw/pitch/roll and above-ground-level tag scans over the XMP description;
  - the merge order of the per-image dictionary;
- metric-to-pixel scaling, canvas sizing and the shift of rotated positions in `coords_transform.py`;
- the padded bounding box and translation of the perspective warp, and the alpha rule of `transparency`, in `geometry.py`;
- the placement rule of the mosaic loop in `graphs.py`;
- the driver `main` in `DIP.py`:
  - sorted processing order;
  - the column-wise dataset origin;
  - canvas sizing before the north-up flip;
  - the flip `y' = max − y`.

Modelling choices:

- Floating-point values are exact reals.
- Python's `int(...)`, `astype("int")` and `np.int32` are truncation toward zero (`Numeric.Trunc`).
- The pandas dataframe is the class `Frame.ImageFrame`, with one `seq` per column. Stages that add or overwrite columns in place are methods that modify it.
- Foreign computations are inputs or parameters:
  - OpenCV's `perspectiveTransform` and `resize`;
  - `coords_to_meters`;
  - the reading of EXIF/XMP;
  - the conversion of an XMP value string to a number.

Files:

| file | module | source |
|---|---|---|
| wrappers.dfy | `Wrappers` | `Option` |
| numeric.dfy | `Numeric` | truncation, column minimum/maximum |
| frame.dfy | `Frame` | the dataframe |
| coords_transform.dfy | `CoordsTransform` | coords_transform.py |
| metadata.dfy | `Metadata` | metadata.py |
| geometry.dfy | `Geometry` | geometry.py |
| graphs.dfy | `Graphs` | graphs.py |
| dip.dfy | `Dip` | DIP.py |

## Model

| member | source | states |
|---|---|---|
| Numeric.Trunc | coords_transform.py:59-60 | `int()` truncates toward zero: r ≤ x < r+1 for x ≥ 0 and r−1 < x ≤ r for x < 0 |
| Numeric.Min | DIP.py:29 | the column minimum is an entry of the column and no entry is smaller |
| Numeric.Max | coords_transform.py:74 | the column maximum is an entry of the column and no entry is larger |
| Numeric.MaxInt | DIP.py:32 | the maximum of an integer column is an entry of it and no entry is larger |
| CoordsTransform.XFactor | coords_transform.py:63-68 | the pixels-per-metre factor built from the x resolution is positive and equals (100/0.8723)/scale |
| CoordsTransform.YFactor | coords_transform.py:64-68 | the factor built from the y resolution is positive and equals (100/0.8769)/scale |
| CoordsTransform.PixelOffset | coords_transform.py:71-72 | a non-negative metric offset gives a non-negative pixel offset p with p ≤ metres·factor < p+1 |
| CoordsTransform.PixelOffsetMonotone | coords_transform.py:71-72 | a larger metric offset never gives a smaller pixel offset |
| CoordsTransform.ScaleColumn | coords_transform.py:71-72 | the new column has one pixel offset per row, each that row's metres scaled and truncated |
| CoordsTransform.ScaleColumnMonotone | coords_transform.py:71-72 | scaling a column keeps the order of any two rows |
| CoordsTransform.RescaledDim | coords_transform.py:59-60 | for a non-negative modal size, r ≤ modal/scale < r+1 and r ≥ 0 |
| CoordsTransform.CanvasSize | coords_transform.py:74 | the shape has 3 channels; with non-negative rescaled sizes, rows ≥ every y offset and columns ≥ every x offset; every offset plus its 2.5× rescaled margin is less than rows + 1 (resp. columns + 1); rows is max(y_ppm) + 2.5·rescaled width truncated toward zero, and columns is max(x_ppm) + 2.5·rescaled height truncated toward zero |
| CoordsTransform.CanvasSizeMonotone | coords_transform.py:74 | moving records further out never shrinks the canvas along either axis |
| CoordsTransform.SubPixelMoveKeepsOffset | coords_transform.py:71-74 | a 1 cm move at the default scale leaves the pixel offset at 0, so canvas growth is not strict |
| CoordsTransform.FromMetersToPixels | coords_transform.py:49-75 | the new x_ppm uses the y-resolution factor and y_ppm the x-resolution factor; the returned shape is `CanvasSize` of the new columns; an empty table gives no shape; other columns are unchanged |
| CoordsTransform.ShiftToZero | coords_transform.py:81-89 | afterwards no entry is negative; an already non-negative column is unchanged; a shifted column holds a 0 and only whole numbers, and each entry is its old value minus the column minimum, truncated (r ≤ old − min < r + 1) |
| CoordsTransform.ShiftIdempotent | coords_transform.py:81-89 | a second shift changes nothing |
| CoordsTransform.ShiftPreservesDifferences | coords_transform.py:84 | on whole-number columns every pairwise difference is kept |
| CoordsTransform.ShiftTruncatesFractions | coords_transform.py:83-84 | the column [−0.5, 0.7] is shifted to [0, 1]: off whole numbers the truncation changes differences |
| CoordsTransform.MovePixelsToZero | coords_transform.py:79-89 | x_rot and y_rot are shifted independently, each by the same rule; all other columns are unchanged |
| Metadata.DecimalCoords | metadata.py:30-35 | the value is d + m/60 + s/3600, negated exactly when the reference is "S" or "W" |
| Metadata.HemispheresOpposite | metadata.py:32-34 | the "S" value is minus the "N" value, and the "W" value is minus the "E" value |
| Metadata.DecimalCoordsWithinDegree | metadata.py:32-35 | with minutes and seconds below one degree, the value lies within the named degree, on the side of zero the reference selects |
| Metadata.StepYpr | metadata.py:98-104 | one loop pass raises exactly when the key is an orientation tag whose value fails to convert; any other key leaves the fields unchanged; a yaw, pitch or roll tag overwrites its own field with the converted value, and a field whose tags the key is not among keeps its value |
| Metadata.ScanYpr | metadata.py:97-105 | the scan raises exactly when some orientation entry fails to convert |
| Metadata.ScanYprCharacterised | metadata.py:97-105 | when the scan does not raise, each field is the last match of its tag list |
| Metadata.LastMatchAt | metadata.py:98-104 | a later matching entry overwrites an earlier one: the last entry carrying a tag decides |
| Metadata.LastMatchAbsent | metadata.py:91-105 | a field whose tags never appear stays None |
| Metadata.YawPitchRoll | metadata.py:87-108 | a missing description or any failed conversion yields all three fields None and discards values already found; otherwise each field is its last match |
| Metadata.GetYawPitchRoll | metadata.py:87-108 | the loop with three independent tests per key and an early exit on failure computes `YawPitchRoll` |
| Metadata.AglFirstMatchWins | metadata.py:73-80 | the first entry whose key is an above-ground tag decides the result |
| Metadata.AglIgnoresLater | metadata.py:73-80 | entries after a matching one never change the result |
| Metadata.AglNoMatch | metadata.py:73-83 | with no matching key the result is Python `None`, not `{"relative_alt": None}` |
| Metadata.AglScan | metadata.py:73-80 | the loop ends without a dictionary only when no key is an above-ground tag |
| Metadata.AboveGroundLevel | metadata.py:65-83 | a missing description path gives `{"relative_alt": None}`; Python `None` comes only from a present description with no above-ground key |
| Metadata.GetAboveGroundLevel | metadata.py:65-83 | the loop returning at the first match computes `AboveGroundLevel`; a missing description path gives `{"relative_alt": None}` |
| Metadata.XmpFields | metadata.py:126-128 | the written merge `{**relative_alt, **ypr}` fails exactly when the above-ground result is `None`; otherwise it holds the four XMP keys |
| Metadata.MissingAglTagBreaksXmpMerge | metadata.py:126-131 | a description with an orientation tag and no above-ground tag makes the merge fail |
| Metadata.AboveGroundLevelFixed | metadata.py:65-83 | the intended result is None when no key matches, and agrees with the written one wherever that is a dictionary |
| Metadata.XmpFieldsFixed | metadata.py:128 | the intended merge always holds the four XMP keys and agrees with the written merge wherever that succeeds |
| Metadata.YprFields | metadata.py:91 | the orientation dictionary has exactly the keys yaw, pitch and roll |
| Metadata.MergeMetadata | metadata.py:138-141 | the keys are the union of all sources; xmp overrides dimensions, which override coordinates, which override img_path |
| Metadata.CoordFields | metadata.py:41 | the coordinate dictionary has exactly latitude, longitude and altitude |
| Metadata.DimFields | metadata.py:11 | the dimension dictionary has exactly width and height |
| Metadata.ImageMetadata | metadata.py:135-142 | the merged dictionary has exactly the ten keys |
| Metadata.ImageMetadataValues | metadata.py:135-142 | every reading survives the merge under its own key |
| Geometry.MatMul | geometry.py:59 | the identity is a unit of the product on both sides |
| Geometry.ApplyMatMul | geometry.py:59 | applying a product applies its right factor first |
| Geometry.Translation | geometry.py:58 | the translation by (dx, dy) maps (−dx, −dy) to the origin |
| Geometry.TranslationMoves | geometry.py:58 | the translation moves every homogeneous point (x, y, w) to (x + dx·w, y + dy·w, w) |
| Geometry.Corners | geometry.py:53 | the corners are (0,0), (0,h), (w,h), (w,0) in that order |
| Geometry.BoundingBox | geometry.py:56-57 | min ≤ max on both axes; every warped corner lies within half a pixel of the box; each minimum edge is the warped minimum − 0.5 and each maximum edge the warped maximum + 0.5, truncated toward zero |
| Geometry.BoundingBoxTight | geometry.py:56-57 | each box edge is less than 1.5 pixels beyond the warped extremum |
| Geometry.PadWarp | geometry.py:51-60 | the output size is non-negative and equals (xMax−xMin, yMax−yMin); the translation maps (xMin, yMin) to (0, 0); the full transform is translation · transformation |
| Geometry.PadWarpComposes | geometry.py:59 | every point goes through the source transformation first, then the translation |
| Geometry.PadWarpIdentitySize | geometry.py:53-60 | with the identity transformation the box is (0, 0, w, h) and the output size is (w, h) |
| Geometry.PadWarpIdentityTransform | geometry.py:53-59 | with the identity transformation both the translation and the full transform are the identity |
| Geometry.CornersBox | geometry.py:53-57 | the bounding box of the unwarped corners is the image itself |
| Geometry.ResizeTarget | geometry.py:67-69 | the resize target is (w/10, h/10), truncated |
| Geometry.Alpha | geometry.py:72-73 | alpha is 255 exactly when the channel sum is positive, and 0 otherwise |
| Geometry.AlphaOpaqueIffNonzero | geometry.py:72-73 | for 8-bit channels, a pixel is opaque exactly when some channel is nonzero |
| Geometry.Transparency | geometry.py:74 | each pixel gains one channel, its alpha; the rows and columns are kept |
| Geometry.TransparencyShape | geometry.py:65-76 | the result is h/10 × w/10 × 4; the first three channels equal the resized image; alpha is 255 iff some channel is nonzero and 0 iff all are zero |
| Graphs.Transfer | graphs.py:68-71 | the nudge is 50 exactly when the yaw is positive and 0 exactly when it is not |
| Graphs.Placements | graphs.py:62-73 | one placement per row, in row order; x is x_ppm + 50 exactly when yaw > 0 and x_ppm exactly when yaw ≤ 0; y is y_ppm |
| Graphs.NudgeIgnoresMagnitude | graphs.py:68-73 | two rows whose yaws have the same sign are nudged by the same amount |
| Graphs.PlacementsPrefix | graphs.py:62-73 | later rows never change the placements of earlier rows |
| Graphs.NewCanvas | graphs.py:60 | the canvas has the requested shape and every entry is 0 |
| Graphs.GenerateMosaic | graphs.py:57-73 | a negative dimension gives no mosaic; otherwise a fresh all-zero canvas of the shape and exactly the `Placements` of the table |
| Frame.ImageFrame.constructor | DIP.py:23 | one row per record, in list order, indexed by path |
| Dip.PathLeTotal | DIP.py:14 | any two paths are comparable in string order |
| Dip.PathLeRefl | DIP.py:14 | the string order is reflexive |
| Dip.PathLeTrans | DIP.py:14 | the string order is transitive |
| Dip.PathLeAntisym | DIP.py:14 | paths that are each ≤ the other are equal |
| Dip.Insert | DIP.py:14 | inserting into a sorted list gives a sorted list with that one path added |
| Dip.SortPaths | DIP.py:14 | the result is sorted and a permutation of the input |
| Dip.SortedUnique | DIP.py:14 | two sorted arrangements of the same paths are equal |
| Dip.SortIgnoresListingOrder | DIP.py:14 | the processing order does not depend on the order the listing returned |
| Dip.RecordsOf | DIP.py:22 | one record per path, in path order, holding that path's reading |
| Dip.CollectRecords | DIP.py:22 | appending one record per path computes `RecordsOf` |
| Dip.BuildFrame | DIP.py:22-23 | the table is indexed by the paths in order, and each row holds its image's reading |
| Dip.Origin | DIP.py:29 | each origin component is a value of its column and ≤ every record's value |
| Dip.OriginNeedNotBeARecord | DIP.py:29 | with images at (0,1) and (1,0) the origin is (0,0), which is no image's position |
| Dip.Offsets | DIP.py:30 | each row's metric offsets are `coords_to_meters` of the origin and that row |
| Dip.AddMetricOffsets | DIP.py:29-30 | x_mts and y_mts are the `Offsets` from the column-wise origin; other columns are kept |
| Dip.FlipY | DIP.py:32 | after the flip all values are ≥ 0; exactly the rows holding the maximum get 0; the order of any two rows is reversed and their distance kept (r[i] − r[j] = y[j] − y[i]), so each row is max − y |
| Dip.FlipYTwice | DIP.py:32 | on non-negative offsets that include 0, flipping twice restores them |
| Dip.FlipYKeepsMax | DIP.py:32 | on non-negative offsets that include 0, the flip keeps the maximum |
| Dip.FlippedFitsCanvas | DIP.py:31-32 | for non-negative offsets, every flipped y still fits in the rows of the canvas sized before the flip |
| Dip.FlipPixels | DIP.py:32 | y_ppm is flipped in place; x_ppm and all other columns are untouched |
| Dip.RunPipeline | DIP.py:11-35 | no images gives nothing; otherwise the rows follow the sorted paths, offsets come from the origin, the canvas is sized from the unflipped y, y is flipped, x is kept, and the mosaic places every row |

## Left out

- Haversine distance, `coords_to_meters`, the 2-D `rotate` and `computeUnRotMatrix`: trigonometry and matrix inversion on floats. `coords_to_meters` is a parameter of `Dip.RunPipeline`.
- `cv2.perspectiveTransform`, `cv2.warpPerspective` and `cv2.resize`: foreign calls. The warped corners and the resized image are inputs, and the final warp is not modelled.
- Reading EXIF and XMP from the file (`get_dimensions`, `get_image_coordinates`, `xmp`), `xmltodict` parsing and `round(..., 6)`.
  - The XMP description is a list of (key, value) pairs.
  - Converting a value, including its rounding, is a `Parser` parameter that may fail.
  - The EXIF readings are inputs of `Metadata.ImageMetadata`.
  - `xmp` returning nothing when there is no XMP segment is not modelled.
- The `utils` module: `resize_image`, `rotate_image`, `generate_image_transparency` and `add_transparent_image`. Its source is not part of this model.
  - Graphs.GenerateMosaic: records the paint requests, in order, instead of painting pixels into the canvas.
  - Overlap and compositing order on the canvas are therefore not modelled.
  - The final transparency pass, the file write and the PIL crop are not modelled.
- `coordinate_plot`, `remove_extra_white_spaces`, the `__main__` block of geometry.py, directory creation, globbing and progress printing: plotting, image processing and file-system plumbing.
- pandas details:
  - The modal width and height are inputs of `from_meters_to_pixels`; `mode()` and its behaviour on ties are not modelled.
  - NaN handling in `min`/`max` is not modelled.
  - `Dip.RunPipeline` reads only longitude, latitude and yaw per image; the other metadata columns are not carried in the table.
- Fixed-width integers: values are unbounded, so an `int32` overflow in `np.int32` or in pixel offsets is not modelled. Channel sums do not overflow in NumPy either, because `np.sum` widens `uint8`.
- CoordsTransform.FromMetersToPixels: requires a positive scale. The source is only called with its default of 10.
- Geometry.Transparency: works on images as nested sequences rather than NumPy arrays, and does not model `cv2.resize` with a zero target size.
- Canvas growth is only non-strict, because pixel offsets are truncated; `CoordsTransform.SubPixelMoveKeepsOffset` exhibits a move that keeps the offset.
- CoordsTransform.ShiftPreservesDifferences: pairwise differences are kept only on whole-number columns. Rotated positions are generally fractional, and there the truncation changes differences: `CoordsTransform.ShiftTruncatesFractions` shows `[-0.5, 0.7]` becoming `[0, 1]`.

## Findings

| source | as written | input that shows it | evidently intended | confidence | as-written member | corrected member |
|---|---|---|---|---|---|---|
| metadata.py:73-83, 128 | when no key of the description is an above-ground tag, `get_above_ground_level` falls off the end of its loop and returns `None`; `xmp` then evaluates `{**None, **ypr}`, which raises `TypeError`, and its `except KeyError` does not catch it | a description holding only `("@drone-dji:FlightYawDegree", "12.5")` | `{"relative_alt": None}`, as the function's initial dictionary and its error path already return | not executed | Metadata.XmpFields, Metadata.MissingAglTagBreaksXmpMerge | Metadata.AboveGroundLevelFixed, Metadata.XmpFieldsFixed |
