# Batch ROI export: a Dafny model

This project models the measurement-row engine of `scripts/extract_tagged_rois.py`. That is
the OMERO script that exports one CSV row per ROI shape, plane and channel of a batch of
images. The model covers six parts:

- **Channel validation.** The 1-based `Channels` parameter becomes 0-based channel indexes.
  Out-of-range entries are logged and dropped.
- **`get_export_data`.** ROIs are sorted by id. Each shape's Z and T are expanded to every
  plane when they are unset and `Export_All_Planes` is on. The service is asked for statistics
  once per resolved (z, t) plane. One row dict is built per kept channel, and the rows run
  ROI → shape → z → t → channel.
- **`add_shape_coords`.** It sets the per-class geometry fields:
  - X/Y, width and height, radii, and line end points;
  - rectangle, mask and ellipse areas;
  - line length, polyline length and polygon (shoelace) area;
  - the `points[...]` unwrapping of the `INSIGHT_POINT_LIST_RE` pattern;
  - the final area scaling by the pixel sizes.
- **Run-wide unit choice in `batch_roi_export`.** If any image lacks a pixel size, the whole
  run counts in pixels. Otherwise it uses the unit of the first image. Rows of all images are
  joined in turn.
- **The CSV layout of `write_csv`.** The header is `COLUMN_NAMES` joined by commas, with the
  unit added to `length` and `area` by `str.replace`. Each row has one cell per column, and
  `""` marks a missing key.
- **`get_z_range` / `get_t_range`.**

Design choices:
- A row dict is a `map<Field, Cell>`. `Field` lists the dict keys the script writes, and
  `Columns` is `COLUMN_NAMES` as fields.
- The loops are imperative methods proved equal to specification functions. The nested
  loops of `get_export_data` share one combinator, `Concat`: a loop's items are the
  concatenation of its steps' items, or the first failing step's error. The layout lemmas
  are proved about the specification functions.
- The statistics service, `sqrt`, `pi` and `float()` are parameters: `StatsService` and the
  `Numerics` record.
- Python exceptions become `Err` values of `Result`: a failing service, a statistics array
  shorter than the channel list, and an unparsable point list. Once one is raised, the image
  and the run stop, as the script does.
- The log is returned as a sequence of `Diagnostic` values.

## Model

| member | source | states |
|---|---|---|
| Channels.ValidChannels | scripts/extract_tagged_rois.py:304-311 | the kept channels are no more than the requested ones, and every kept index is below sizeC |
| Channels.RejectionsCount | scripts/extract_tagged_rois.py:304-308 | the log names exactly the rejected inputs, duplicates included: an accepted index is never logged, and a rejected one is logged once per occurrence |
| Channels.ResolveChannels | scripts/extract_tagged_rois.py:304-311 | the append loop yields exactly ValidChannels and logs exactly Rejections |
| Channels.ValidChannelsAppend | scripts/extract_tagged_rois.py:306-311 | each channel is filtered on its own: the filter distributes over concatenation, so input order is kept |
| Channels.ValidChannelsPartition | scripts/extract_tagged_rois.py:304-311 | kept and logged entries together number the inputs; every occurrence of an accepted index is kept (shifted down by one) and never logged, and every occurrence of a rejected one is logged and never kept |
| Channels.ValidChannelsCount | scripts/extract_tagged_rois.py:306-311 | index v occurs among the kept ones exactly as often as v+1 was requested if v < sizeC, and never otherwise (duplicates kept) |
| Channels.ValidChannelsExample | scripts/extract_tagged_rois.py:304-311 | [0, 1, 9] with 4 channels keeps [0] and logs 0 and 9 |
| Planes.AllPlanes | scripts/extract_tagged_rois.py:335 | `range(n)` as resolved plane indexes 0..n-1 |
| Planes.PlaneIndexesShape | scripts/extract_tagged_rois.py:332-340 | the plane list is [index] unless the index is unset and all planes are on, in which case it has size entries |
| Planes.PlaneIndexesMembers | scripts/extract_tagged_rois.py:332-340 | plane k is listed iff it is the shape's index, or the index is unset, all planes are on and k < size |
| Planes.PlaneIndexesUnresolved | scripts/extract_tagged_rois.py:332-340 | an unresolved plane is listed iff the index is unset and all planes are off |
| Planes.PlaneIndexesDistinct | scripts/extract_tagged_rois.py:332-340 | no plane is listed twice |
| Planes.PlaneDisplay | scripts/extract_tagged_rois.py:358-359 | a resolved plane is shown 1-based as index + 1, and an unresolved one as blank |
| Sections.SectionRange | scripts/extract_tagged_rois.py:683-707 | no choice gives None; "all" gives (1, size+1); an index gives (min(index, size),) and wins over start/end; start/end are capped, ordered, give a 1-tuple iff equal and cover exactly lo..hi; otherwise None |
| Sections.SectionRangeCapped | scripts/extract_tagged_rois.py:692-699 | every plane a range covers is at most the size |
| Sections.TRangeMirrorsZRange | scripts/extract_tagged_rois.py:709-733 | get_t_range answers as get_z_range does on the same choices |
| Numerics.SqrtOfSquare | scripts/extract_tagged_rois.py:399 | sqrt of a square of a non-negative r is r |
| PointList.CloseIndex | scripts/extract_tagged_rois.py:26 | `[^\]]+` stops at the first `]` |
| PointList.SearchFrom | scripts/extract_tagged_rois.py:402 | `search` reports a position where `points[...]` matches |
| PointList.SearchFromLeftmost | scripts/extract_tagged_rois.py:402 | that position is the leftmost match; None means there is no match |
| PointList.Group | scripts/extract_tagged_rois.py:26 | group 1 is non-empty, has no `]`, and sits between `points[` and `]` |
| PointList.UnwrapPointList | scripts/extract_tagged_rois.py:401-404 | `points[g]` yields g |
| PointList.PlainPointListKept | scripts/extract_tagged_rois.py:401-404 | a point list without the wrapper is used as is |
| PointList.Split | scripts/extract_tagged_rois.py:407 | `split(" ")` gives at least one part, none containing the separator |
| PointList.JoinSplit | scripts/extract_tagged_rois.py:407 | joining the parts of a split gives back the text |
| PointList.SplitJoin | scripts/extract_tagged_rois.py:407 | splitting separator-free parts joined by the separator gives them back |
| PointList.SplitNoSeparator | scripts/extract_tagged_rois.py:407 | a text without the separator splits into itself |
| PointList.SplitAtSeparator | scripts/extract_tagged_rois.py:407 | the first part of a split ends at the first separator |
| PointList.FirstIndex | scripts/extract_tagged_rois.py:408 | the first occurrence of a character, or the length |
| PointList.SplitOnce | scripts/extract_tagged_rois.py:408 | `split(",", 1)` gives one part iff there is no comma, else two parts around the first comma |
| PointList.StripLeftSpec | scripts/extract_tagged_rois.py:408 | the left strip of `", "` keeps a suffix that starts with neither a space nor a comma, removes nothing but spaces and commas, and leaves a text that does not start with one unchanged |
| PointList.StripRightSpec | scripts/extract_tagged_rois.py:408 | the same on the right: a prefix is kept and only spaces and commas after it are removed |
| PointList.StripSpec | scripts/extract_tagged_rois.py:408 | `strip(", ")` is the part of the text between a run of spaces and commas at the start and one at the end; neither of its ends is a space or comma, and a text whose ends are neither is kept |
| PointList.ParseNumbersSpec | scripts/extract_tagged_rois.py:408 | a coordinate parses iff each of its stripped parts does, giving one number per part |
| PointList.ParseTokensSpec | scripts/extract_tagged_rois.py:407-409 | the list comprehension parses iff every token does, giving one coordinate per token in order |
| PointList.ParseCoordsShape | scripts/extract_tagged_rois.py:407-409 | a parsed point list has at least one coordinate of one or two numbers |
| Geometry.SegmentLengthSpec | scripts/extract_tagged_rois.py:395-399 | length >= 0, length² = (dx·sx)² + (dy·sy)² with sx = px if px is set else 1 (sy likewise), and the length is symmetric in the end points |
| Geometry.SegmentLengths | scripts/extract_tagged_rois.py:410-416 | one length per consecutive pair |
| Geometry.SegmentLengthsAt | scripts/extract_tagged_rois.py:411-416 | length k is that of segment k → k+1 |
| Geometry.PathLengthGrows | scripts/extract_tagged_rois.py:410-417 | a single point has length 0, and each extra point adds exactly one segment |
| Geometry.SumNonNegative | scripts/extract_tagged_rois.py:417 | a sum of non-negative lengths is non-negative |
| Geometry.PathLengthNonNegative | scripts/extract_tagged_rois.py:417 | a polyline length is >= 0 |
| Geometry.PathLengthReverse | scripts/extract_tagged_rois.py:410-417 | reversing the points leaves the polyline length unchanged |
| Geometry.ShoelaceArea | scripts/extract_tagged_rois.py:423-428 | the polygon area is >= 0 |
| Geometry.ChainSumReverse | scripts/extract_tagged_rois.py:423-427 | reversing an open chain negates its cross sum |
| Geometry.PolygonAreaReverse | scripts/extract_tagged_rois.py:423-428 | reversing the vertices negates the wrapped cross sum and keeps the area |
| Geometry.RingSumOfFour | scripts/extract_tagged_rois.py:424-427 | the last vertex wraps to the first |
| Geometry.PolygonAreaExample | scripts/extract_tagged_rois.py:418-428 | a 4 × 3 rectangle has area 12 in either orientation |
| Geometry.PolylineLength | scripts/extract_tagged_rois.py:406-417 | the `lengths` loop and `sum` give PolylineValue: the int 0 for a single point, otherwise the scaled path length as a float, or an error for a coordinate without y |
| Geometry.PolylinePrefixStep | scripts/extract_tagged_rois.py:411-416 | one pass of the loop appends the next segment's length |
| Geometry.PolygonArea | scripts/extract_tagged_rois.py:418-428 | the `total +=` loop gives PolygonValue: the shoelace area, or an error for a coordinate without y |
| Geometry.PolygonPrefixStep | scripts/extract_tagged_rois.py:424-427 | one pass of the loop adds the cross term of vertex c and its successor |
| Geometry.NextIndexMod | scripts/extract_tagged_rois.py:426 | `(c + 1) % len` is c + 1, or 0 for the last vertex |
| Geometry.AddShapeCoords | scripts/extract_tagged_rois.py:375-430 | the in-place updates give WithShapeCoords: text, then class fields, then area scaling |
| Geometry.AddVariantEntries | scripts/extract_tagged_rois.py:379-428 | the isinstance chain gives WithVariantEntries |
| Geometry.ShapeCoordsFailure | scripts/extract_tagged_rois.py:400-428 | only a polyline or polygon can fail |
| Geometry.ShapeCoordsFields | scripts/extract_tagged_rois.py:377-430 | keys added are exactly 'Text' (when there is a text) and the class's fields; other keys are untouched, and 'Text' holds the text |
| Geometry.VariantEntriesFields | scripts/extract_tagged_rois.py:379-428 | the class fields are added and nothing else changes |
| Geometry.FixedEntriesFields | scripts/extract_tagged_rois.py:379-399 | rectangle/mask: X, Y, Width, Height, area; ellipse: X, Y, RadiusX, RadiusY, area; point/label: X, Y; line: X1, Y1, X2, Y2, length; other classes: none |
| Geometry.PointListEntriesFields | scripts/extract_tagged_rois.py:400-428 | a polyline or polygon adds 'Points' and its length or area |
| Geometry.PointListEntriesShape | scripts/extract_tagged_rois.py:400-428 | 'Points' is the quoted unwrapped text and the measure is that of the parsed coordinates: a float, except the int 0 as the length of a one-point polyline |
| Geometry.ShapeCoordsMerge | scripts/extract_tagged_rois.py:368-369 | on a row without an area, add_shape_coords lays the same entries over any row |
| Geometry.ShapeCoordsArea | scripts/extract_tagged_rois.py:379-430 | an area is set iff the class is rectangle, mask, ellipse or polygon |
| Geometry.AreaInVariantFields | scripts/extract_tagged_rois.py:382-428 | the area field belongs to exactly those classes |
| Geometry.ShapeAreaValue | scripts/extract_tagged_rois.py:382-389 | area = Width·Height, or π·rx·ry, then scaled once |
| Geometry.LineLengthValue | scripts/extract_tagged_rois.py:390-399 | the line length is the scaled segment length |
| Geometry.PointListValues | scripts/extract_tagged_rois.py:400-430 | 'Points' is the quoted unwrapped text; a polygon's area is a float that the final area step scales once, and a polyline's length (already built from scaled segments) is left alone by that step |
| Geometry.ScaleAreaFields | scripts/extract_tagged_rois.py:429-430 | the final area step keeps the row's keys and changes no cell other than the area |
| Geometry.RectangleAreaExample | scripts/extract_tagged_rois.py:382-385 | W=10, H=5, px=py=0.5 gives area 12.5 |
| Geometry.LineLengthExample | scripts/extract_tagged_rois.py:395-399 | (0,0)-(4,0) with px=2 gives length 8 |
| Geometry.ZeroPixelSizeExample | scripts/extract_tagged_rois.py:396-398 | a zero pixel size leaves the area unscaled (truthiness) but zeroes a line length (`is None`) |
| Rows.LabelHasNoComma | scripts/extract_tagged_rois.py:327-329 | the 'text' cell holds no comma, and a text is wrapped in two quotes |
| Rows.StripTrailingSpec | scripts/extract_tagged_rois.py:330 | `rstrip('I')` removes exactly the trailing run of 'I' |
| Rows.LowerSpec | scripts/extract_tagged_rois.py:330 | `lower()` keeps the length, turns each upper-case letter into the same letter in lower case, and changes no other character |
| Rows.StripClassSuffix | scripts/extract_tagged_rois.py:330 | one 'I' is removed from a class name that does not otherwise end in 'I' |
| Rows.RectangleTypeName | scripts/extract_tagged_rois.py:330 | a RectangleI shape has type "rectangle" |
| Rows.StatsCells | scripts/extract_tagged_rois.py:361-366 | the six statistics cells: all blank without statistics; an error iff some array is too short for channel position c |
| Rows.LabelCells | scripts/extract_tagged_rois.py:351-360 | exactly the nine label keys |
| Rows.BaseRow | scripts/extract_tagged_rois.py:351-367 | the row dict holds the label and statistics keys and no area |
| Rows.InsertByIdSpec | scripts/extract_tagged_rois.py:322 | inserting into a sorted list keeps it sorted by id and adds exactly that ROI |
| Rows.SortByIdSpec | scripts/extract_tagged_rois.py:322 | `rois.sort(key=id)` yields a permutation sorted by id |
| Rows.ImageContext | scripts/extract_tagged_rois.py:292-311 | every kept channel index names a channel of the image |
| Rows.ExportRow | scripts/extract_tagged_rois.py:351-369 | builds PlaneRow: the row dict, then add_shape_coords |
| Rows.ExportChannels | scripts/extract_tagged_rois.py:350-370 | the channel loop gives the channel steps in order |
| Rows.ExportPlane | scripts/extract_tagged_rois.py:345-370 | asks the service only when z and t are both resolved, then runs the channel loop |
| Rows.ExportTs | scripts/extract_tagged_rois.py:344-370 | the t loop |
| Rows.ExportZs | scripts/extract_tagged_rois.py:343-370 | the z loop |
| Rows.ExportShape | scripts/extract_tagged_rois.py:332-370 | the plane lists, then the z loop |
| Rows.ExportRoi | scripts/extract_tagged_rois.py:326-370 | the shape loop |
| Rows.ExportRois | scripts/extract_tagged_rois.py:325-370 | the ROI loop |
| Rows.GetExportData | scripts/extract_tagged_rois.py:287-372 | rows and log equal ExportData and ExportLog |
| Layout.PlaneRowParts | scripts/extract_tagged_rois.py:351-369 | a row's keys are the label keys, the statistics keys and the geometry keys; each cell comes from its own part |
| Layout.LabelCellsValues | scripts/extract_tagged_rois.py:352-360 | the cells hold the image, ROI and shape ids, type, label and plane display; the channel name comes from the original index chIndexes[c] |
| Layout.NoStatsBlank | scripts/extract_tagged_rois.py:361-366 | with no statistics, every statistics cell is "" |
| Layout.ChannelRowsAt | scripts/extract_tagged_rois.py:350-370 | one row per kept channel, and row c uses statistics position c |
| Layout.PlaneRowsLayout | scripts/extract_tagged_rois.py:345-370 | per plane: one service answer, no statistics when z or t is unresolved, one row per channel in channel order |
| Layout.TRowsCount | scripts/extract_tagged_rois.py:344-370 | the t loop of one z gives \|ts\| blocks of \|chIndexes\| rows |
| Layout.TRowAt | scripts/extract_tagged_rois.py:344-370 | row c of t-block ti is the channel-c row of plane (z, ts[ti]) |
| Layout.ShapeRowsCount | scripts/extract_tagged_rois.py:332-370 | a shape gives \|zList\|·\|tList\|·\|chIndexes\| rows |
| Layout.ShapeRowAt | scripts/extract_tagged_rois.py:343-370 | rows run z (outer), then t, then channel: the row at zi·(\|ts\|·n) + ti·n + c is the channel-c row of plane (zs[zi], ts[ti]) |
| Layout.UnresolvedPlaneRow | scripts/extract_tagged_rois.py:345-366 | on a plane with z or t unresolved, every statistics cell is "" and the unresolved axis is "" |
| Layout.PlaneRowsRoiId | scripts/extract_tagged_rois.py:354 | every row of a plane carries its ROI's id |
| Layout.TRowsRoiId | scripts/extract_tagged_rois.py:354 | every row of a t loop carries its ROI's id |
| Layout.ShapeRowsRoiId | scripts/extract_tagged_rois.py:354 | every row of a shape carries its ROI's id |
| Layout.RoiRowsRoiId | scripts/extract_tagged_rois.py:354 | every row of a ROI carries its id |
| Layout.RoiRowsOrdered | scripts/extract_tagged_rois.py:325-370 | with ROIs sorted by id, the ROI ids of the rows never decrease |
| Layout.ExportDataOrdered | scripts/extract_tagged_rois.py:320-372 | an image's rows come in ascending ROI id |
| Layout.TRequestsMembers | scripts/extract_tagged_rois.py:344-349 | within one z, plane (z, t) is requested iff z is resolved and t is a resolved entry of the t list |
| Layout.TRequestsDistinct | scripts/extract_tagged_rois.py:344-349 | within one z, no plane is requested twice |
| Layout.ZRequestsMembers | scripts/extract_tagged_rois.py:343-349 | plane (z, t) is requested iff z is on the z list and t on the t list, both resolved |
| Layout.ZRequestsDistinct | scripts/extract_tagged_rois.py:343-349 | no plane is requested twice |
| Layout.StatsRequestsMembers | scripts/extract_tagged_rois.py:343-349 | the service is asked about a shape's plane iff both its indexes are on the shape's plane lists; an unresolved axis is never sent |
| Layout.StatsRequestsDistinct | scripts/extract_tagged_rois.py:343-349 | at most one request per (shape, z, t) |
| Csv.ReplaceJoined | scripts/extract_tagged_rois.py:227-228 | `str.replace(",a,", ",b,")` on comma-joined names rewrites only the inner name a |
| Csv.NoMatchJoined | scripts/extract_tagged_rois.py:227-228 | when no inner name is a, the replace changes nothing |
| Csv.ColumnNamesFacts | scripts/extract_tagged_rois.py:32-59 | no name holds a comma, and "length" and "area" are inner names, each occurring once |
| Csv.HeaderIsHeadings | scripts/extract_tagged_rois.py:224-228 | the header is the column names with the unit added to length and area only, "pixels" when there is no symbol |
| Csv.HeaderSplits | scripts/extract_tagged_rois.py:224-228 | the header splits back into its 28 headings |
| Csv.Headings | scripts/extract_tagged_rois.py:224-228 | one heading per column |
| Csv.IntText | scripts/extract_tagged_rois.py:232 | `str` of an int holds no comma |
| Csv.RowCells | scripts/extract_tagged_rois.py:232 | one cell per column |
| Csv.RowCellsByColumn | scripts/extract_tagged_rois.py:232 | cell i is "" when the key of column i is missing, otherwise the text of its value |
| Csv.TextValueNotWritten | scripts/extract_tagged_rois.py:232 | the 'Text' key set by add_shape_coords is not a column, so it never changes a line |
| Csv.RowLineSplits | scripts/extract_tagged_rois.py:233 | a line of comma-free cells splits back into its cells |
| Csv.CsvLinesLayout | scripts/extract_tagged_rois.py:229-233 | one line per row plus the header, which comes first; line i+1 is row i |
| Csv.WriteLines | scripts/extract_tagged_rois.py:224-233 | the append loop gives CsvLines of the header and the rows |
| Batch.ChooseRunUnit | scripts/extract_tagged_rois.py:262-270 | the `any_none` loop gives RunUnitOf |
| Batch.RunUnitTogether | scripts/extract_tagged_rois.py:264-270 | the unit is set iff every image has a pixel size; the symbol is set iff the unit is; both then come from the first image |
| Batch.MissingSizeMeansPixels | scripts/extract_tagged_rois.py:262-298 | one image without a pixel size makes the run unitless, so get_export_data reads no pixel size for any image (both scales None) and the header says "pixels" |
| Batch.ImageSteps | scripts/extract_tagged_rois.py:274-275 | one step per image |
| Batch.RunRowsMembers | scripts/extract_tagged_rois.py:273-275 | a row of the run is a row of one of its images, and every image's rows are in the run |
| Batch.ExportImages | scripts/extract_tagged_rois.py:273-275 | the image loop gives RunRows and RunLog |
| Batch.ImageLoopStep | scripts/extract_tagged_rois.py:274-275 | one pass extends rows and log by the image's, or ends the run with its failure |
| Batch.RunLogStep | scripts/extract_tagged_rois.py:274-275 | before any failure, the log grows by each image's log |
| Batch.RunLogAfterFailure | scripts/extract_tagged_rois.py:274-275 | nothing is logged after the first failing image |
| Batch.BatchExport | scripts/extract_tagged_rois.py:258-275 | "Processing n images..." is logged first; no images gives None; otherwise the unit is chosen and the rows are joined with the run's symbol |

## Left out

- The OMERO connection, `getObjects` and `listChildren`. Images arrive as a sequence, each
  with its pixel sizes in the run's unit and its ROIs. `getPixelSizeX(units=True)` arrives
  as the `sizes` parameter.
- `getShapeStatsRestricted` is the `StatsService` parameter. Its behaviour lives in a
  library outside this script.
- The channel count `getSizeC()` is taken as the number of channel labels.
- The pixel sizes are real numbers or None. The truthiness of the length objects returned
  by `getPixelSizeX(units=...)` (line 296) is taken as "present".
- Floating point. Coordinates, sizes and statistics are `real`. `sqrt`, `pi` and `float()`
  are fields of `Numerics`, which requires only that sqrt is a square root and pi is
  positive. `str()` of a float is the `showReal` parameter of the CSV functions.
- The file write, `createFileAnnfromLocalFile`, `link_annotation`, the "Exported %s shapes"
  message and the file-name defaults of `write_csv`. These are file-system and catalog I/O.
- The global `log_strings` and its UTF-8 encoding. Diagnostics are returned as a sequence.
- The image-export half of the script (`save_plane`, rendering, `compress`, OME-TIFF,
  `batch_image_export`). It does no ROI measurement.
- `get_roi_export_data` (lines 71-156) and the first `add_shape_coords` (lines 158-213).
  Both are shadowed or duplicated by the functions modelled.
- Label quoting beyond the comma replacement. The model shows that the label, image name
  and channel name hold no comma, but it does not state CSV quoting rules.
- Layout.StatsRequestsMembers: the sequence of statistics requests is stated as a
  specification function, StatsRequests, in loop order. Only ExportPlane returns its own
  request (as a ghost value); the loops above it do not collect a trace.
- Layout.StatsRequestsDistinct: rests on the same StatsRequests trace, which no loop
  collects; it says that trace repeats no (shape, z, t).
- Rows.SortByIdSpec: states sorted and a permutation, but not the stability of Python's
  sort. ROIs with equal ids do not occur in OMERO.
- Rows.LowerSpec: models `lower()` on ASCII letters only. Class names are ASCII.
- Python exceptions are modelled as `Err` values, not as stack traces. These are a failing
  service, a statistics array shorter than the channel list, and a point that `float()`
  cannot parse or that has no y.
- Csv.HeaderIsHeadings: requires a unit symbol without a comma. The script accepts any
  symbol, but a symbol holding ",area," would be rewritten again by the second `replace`.
  OMERO unit symbols hold no comma.
- Csv.HeaderSplits: requires the same comma-free symbol, since a comma in the symbol would
  split into extra headings.
