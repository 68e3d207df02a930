/** The rows of one image (scripts/extract_tagged_rois.py, get_export_data): ROIs by
    id, then shapes, then z, then t, then channel, one measurement row each. */
module Rows {
  import opened Common
  import opened Numerics
  import opened RowData
  import opened Channels
  import opened Planes
  import opened Geometry

  datatype Roi = Roi(id: int, shapes: seq<Shape>)

  /** An image as the export reads it. There is one channel label per channel, so
      the channel count sizeC is the number of labels. The pixel sizes are those
      the library reports in the run's unit (None when the image has none). */
  datatype Image = Image(
    id: int,
    name: string,
    channelLabels: seq<string>,
    sizeZ: nat,
    sizeT: nat,
    pixelSizeX: Option<real>,
    pixelSizeY: Option<real>,
    rois: seq<Roi>)

  function SizeC(image: Image): nat
  {
    |image.channelLabels|
  }

  /** The script parameters the export reads: Channels (absent means [1]) and
      Export_All_Planes. */
  datatype ExportParams = ExportParams(channels: Option<seq<int>>, allPlanes: bool)

  function RequestedChannels(params: ExportParams): seq<int>
  {
    if params.channels.Some? then params.channels.value else [1]
  }

  /** The statistics of one shape on one plane: parallel arrays, one entry per
      requested channel. */
  datatype PlaneStats = PlaneStats(
    pointsCount: seq<int>,
    min: seq<real>,
    max: seq<real>,
    sum: seq<real>,
    mean: seq<real>,
    stdDev: seq<real>)

  /** getShapeStatsRestricted([shapeId], z, t, chIndexes): a list of statistics
      (the first describes the shape), or a failure of the service. */
  type StatsService = (int, nat, nat, seq<nat>) -> Result<seq<PlaneStats>>

  /** What stays fixed while the rows of one image are built. */
  datatype Context = Context(
    image: Image,
    chIndexes: seq<nat>,
    allPlanes: bool,
    scale: Scale,
    service: StatsService,
    num: Numerics)

  /** Every kept channel index names a channel of the image. */
  predicate ValidContext(cx: Context)
  {
    forall k :: 0 <= k < |cx.chIndexes| ==> cx.chIndexes[k] < SizeC(cx.image)
  }

  /** The pixel sizes a run uses: none when the run counts in pixels (`units` is
      None), the image's own otherwise. */
  function ImageScale(image: Image, units: Option<string>): (s: Scale)
    ensures units.None? ==> s == Scale(None, None)
    ensures units.Some? ==> s == Scale(image.pixelSizeX, image.pixelSizeY)
  {
    if units.None? then Scale(None, None) else Scale(image.pixelSizeX, image.pixelSizeY)
  }

  // ---------------------------------------------------------------------------
  // The cells of one row

  /** The 'text' cell: "" without a text, otherwise the text with commas turned
      into periods, in double quotes. */
  function Label(text: Option<string>): string
  {
    if text.None? then "" else Quote(ReplaceChar(text.value, ',', '.'))
  }

  /** The label never holds a comma, so it stays one CSV cell. */
  lemma LabelHasNoComma(text: Option<string>)
    ensures ',' !in Label(text)
    ensures text.Some? ==> |Label(text)| == |text.value| + 2
  {
    if text.Some? {
      var inner := ReplaceChar(text.value, ',', '.');
      assert forall i :: 0 <= i < |inner| ==> inner[i] != ',';
      assert Label(text) == ['"'] + inner + ['"'];
    }
  }

  /** The image name as written: commas turned into periods, in double quotes. */
  function ImageTitle(image: Image): string
  {
    Quote(ReplaceChar(image.name, ',', '.'))
  }

  /** The channel name of a 0-based channel index, commas turned into periods. */
  function ChannelName(image: Image, chIndex: nat): string
    requires chIndex < SizeC(image)
  {
    ReplaceChar(image.channelLabels[chIndex], ',', '.')
  }

  /** The class name of the shape's object. */
  function ClassName(kind: ShapeKind): string
  {
    match kind
    case Rectangle(_, _, _, _) => "RectangleI"
    case Mask(_, _, _, _) => "MaskI"
    case Ellipse(_, _, _, _) => "EllipseI"
    case Point(_, _) => "PointI"
    case Label(_, _) => "LabelI"
    case Line(_, _, _, _) => "LineI"
    case Polygon(_) => "PolygonI"
    case Polyline(_) => "PolylineI"
    case Other(name) => name
  }

  /** `s.rstrip(c)`: s without its trailing run of c. */
  function StripTrailing(s: string, c: char): (r: string)
  {
    if s != [] && Last(s) == c then StripTrailing(DropLast(s), c) else s
  }

  /** `str.lower()` on ASCII letters. */
  function Lower(s: string): (r: string)
  {
    if s == [] then []
    else [if 'A' <= s[0] <= 'Z' then (s[0] as int + 32) as char else s[0]] + Lower(s[1..])
  }

  /** rstrip removes exactly the trailing run of c: what is left is a prefix
      that does not end in c, followed in s by nothing but c. */
  lemma {:induction false} StripTrailingSpec(s: string, c: char)
    ensures var r := StripTrailing(s, c);
      && |r| <= |s| && r == s[..|r|]
      && (r == [] || Last(r) != c)
      && forall i :: |r| <= i < |s| ==> s[i] == c
    decreases |s|
  {
    if s != [] && Last(s) == c {
      StripTrailingSpec(DropLast(s), c);
      var r := StripTrailing(DropLast(s), c);
      assert DropLast(s)[..|r|] == s[..|r|];
    }
  }

  /** lower() keeps the length, turns each upper-case ASCII letter into the
      same letter in lower case, and changes nothing else. */
  lemma {:induction false} LowerSpec(s: string)
    ensures |Lower(s)| == |s|
    ensures forall i :: 0 <= i < |s| ==> !('A' <= Lower(s)[i] <= 'Z')
    ensures forall i :: 0 <= i < |s| && 'A' <= s[i] <= 'Z' ==>
      'a' <= Lower(s)[i] <= 'z' && Lower(s)[i] as int - 'a' as int == s[i] as int - 'A' as int
    ensures forall i :: 0 <= i < |s| && !('A' <= s[i] <= 'Z') ==> Lower(s)[i] == s[i]
    decreases |s|
  {
    if s != [] {
      LowerSpec(s[1..]);
      forall i | 1 <= i < |s|
        ensures Lower(s)[i] == Lower(s[1..])[i - 1] && s[i] == s[1..][i - 1]
      {
      }
    }
  }

  /** The 'type' cell: the class name without its trailing 'I', in lower case. */
  function TypeName(kind: ShapeKind): string
  {
    Lower(StripTrailing(ClassName(kind), 'I'))
  }

  /** Stripping the class suffix removes exactly one 'I' when the name before it
      does not end in 'I'. */
  lemma StripClassSuffix(name: string)
    requires name != [] && Last(name) != 'I'
    ensures StripTrailing(name + "I", 'I') == name
  {
    assert DropLast(name + "I") == name;
  }

  /** The 'type' cell of a rectangle. */
  lemma RectangleTypeName(kind: ShapeKind)
    requires kind.Rectangle?
    ensures TypeName(kind) == "rectangle"
  {
    assert ClassName(kind) == "Rectangle" + "I";
    StripClassSuffix("Rectangle");
    LowerRectangle();
  }

  lemma LowerRectangle()
    ensures Lower("Rectangle") == "rectangle"
  {
    var r := Lower("Rectangle");
    assert r[0] == 'r';
  }

  /** The 'z' or 't' cell: the 1-based plane, or "" when unresolved. */
  function PlaneCell(p: Option<nat>): Cell
  {
    match PlaneDisplay(p)
    case Some(v) => IntCell(v)
    case None => Blank
  }

  /** The statistics cells of channel position c: blank without statistics,
      otherwise entry c of each array of the first statistics record. */
  function StatsCells(stats: seq<PlaneStats>, c: nat): (r: Result<Row>)
    ensures r.Ok? ==> r.value.Keys == StatFields
    ensures stats == [] ==> r.Ok? && forall f :: f in r.value ==> r.value[f] == Blank
    ensures r.Err? <==> stats != [] && !(c < |stats[0].pointsCount| && c < |stats[0].min| && c < |stats[0].max|
                                         && c < |stats[0].sum| && c < |stats[0].mean| && c < |stats[0].stdDev|)
  {
    if stats == [] then
      Ok(map[StatPoints := Blank, Min := Blank, Max := Blank, Sum := Blank, Mean := Blank, StdDev := Blank])
    else
      var s := stats[0];
      if c < |s.pointsCount| && c < |s.min| && c < |s.max| && c < |s.sum| && c < |s.mean| && c < |s.stdDev|
      then Ok(map[StatPoints := IntCell(s.pointsCount[c]), Min := RealCell(s.min[c]), Max := RealCell(s.max[c]),
                  Sum := RealCell(s.sum[c]), Mean := RealCell(s.mean[c]), StdDev := RealCell(s.stdDev[c])])
      else Err(StatsIndexOutOfRange(c))
  }

  /** The keys of the statistics cells. */
  const StatFields: set<Field> := {StatPoints, Min, Max, Sum, Mean, StdDev}

  /** The keys every row starts with besides the statistics. */
  const LabelFields: set<Field> := {ImageId, ImageName, RoiId, ShapeId, Type, Text, Z, T, Channel}

  /** The identifying cells of one shape, plane and channel position c. */
  function LabelCells(cx: Context, roi: Roi, shape: Shape, z: Option<nat>, t: Option<nat>, c: nat): (r: Row)
    requires ValidContext(cx) && c < |cx.chIndexes|
    ensures r.Keys == LabelFields
  {
    map[ImageId := IntCell(cx.image.id), ImageName := StrCell(ImageTitle(cx.image)),
        RoiId := IntCell(roi.id), ShapeId := IntCell(shape.id), Type := StrCell(TypeName(shape.kind)),
        Text := StrCell(Label(shape.text)), Z := PlaneCell(z), T := PlaneCell(t),
        Channel := StrCell(ChannelName(cx.image, cx.chIndexes[c]))]
  }

  /** The row of one shape, plane and channel position c, before add_shape_coords. */
  function BaseRow(cx: Context, roi: Roi, shape: Shape, z: Option<nat>, t: Option<nat>,
                   c: nat, statCells: Row): (r: Row)
    requires ValidContext(cx) && c < |cx.chIndexes|
    requires statCells.Keys == StatFields
    ensures r.Keys == LabelFields + StatFields
    ensures Area !in r
  {
    var r := LabelCells(cx, roi, shape, z, t, c) + statCells;
    assert Area !in LabelFields && Area !in StatFields;
    r
  }

  /** The finished row of channel position c: the base row with the shape's
      geometry entries (ShapeEntries) laid over it. */
  function PlaneRow(cx: Context, roi: Roi, shape: Shape, entries: Result<Row>, z: Option<nat>, t: Option<nat>,
                    stats: seq<PlaneStats>, c: nat): Result<Row>
    requires ValidContext(cx) && c < |cx.chIndexes|
  {
    var statCells :- StatsCells(stats, c);
    AddEntries(BaseRow(cx, roi, shape, z, t, c, statCells), entries)
  }

  // ---------------------------------------------------------------------------
  // The loops, each as the list of its steps (see Concat)

  /** A single row as the items of one step. */
  function AsBlock(row: Result<Row>): (r: Result<seq<Row>>)
    ensures r.Ok? <==> row.Ok?
    ensures r.Ok? ==> r.value == [row.value]
  {
    if row.Ok? then Ok([row.value]) else Err(row.error)
  }

  /** The channel loop of one plane: one step per kept channel. */
  function ChannelSteps(cx: Context, roi: Roi, shape: Shape, entries: Result<Row>, z: Option<nat>, t: Option<nat>,
                        stats: seq<PlaneStats>): (r: seq<Result<seq<Row>>>)
    requires ValidContext(cx)
    ensures |r| == |cx.chIndexes|
  {
    seq(|cx.chIndexes|, c requires 0 <= c < |cx.chIndexes| => AsBlock(PlaneRow(cx, roi, shape, entries, z, t, stats, c)))
  }

  /** The statistics of one plane: the service is asked only when both z and t
      are resolved; otherwise there are none. */
  function PlaneStatsFor(cx: Context, shape: Shape, z: Option<nat>, t: Option<nat>): Result<seq<PlaneStats>>
  {
    if z.None? || t.None? then Ok([])
    else cx.service(shape.id, z.value, t.value, cx.chIndexes)
  }

  /** The rows of one (z, t) plane: one statistics request, then every channel. */
  function PlaneRows(cx: Context, roi: Roi, shape: Shape, entries: Result<Row>, z: Option<nat>, t: Option<nat>): Result<seq<Row>>
    requires ValidContext(cx)
  {
    var stats :- PlaneStatsFor(cx, shape, z, t);
    Concat(ChannelSteps(cx, roi, shape, entries, z, t, stats))
  }

  /** The t loop for one z. */
  function TSteps(cx: Context, roi: Roi, shape: Shape, entries: Result<Row>, z: Option<nat>, ts: seq<Option<nat>>): (r: seq<Result<seq<Row>>>)
    requires ValidContext(cx)
    ensures |r| == |ts|
  {
    seq(|ts|, j requires 0 <= j < |ts| => PlaneRows(cx, roi, shape, entries, z, ts[j]))
  }

  /** The z loop, each z with the whole t loop. */
  function ZSteps(cx: Context, roi: Roi, shape: Shape, entries: Result<Row>, zs: seq<Option<nat>>, ts: seq<Option<nat>>): (r: seq<Result<seq<Row>>>)
    requires ValidContext(cx)
    ensures |r| == |zs|
  {
    seq(|zs|, i requires 0 <= i < |zs| => Concat(TSteps(cx, roi, shape, entries, zs[i], ts)))
  }

  /** The z list and the t list of a shape. */
  function ZList(cx: Context, shape: Shape): seq<Option<nat>>
  {
    PlaneIndexes(shape.theZ, cx.allPlanes, cx.image.sizeZ)
  }

  function TList(cx: Context, shape: Shape): seq<Option<nat>>
  {
    PlaneIndexes(shape.theT, cx.allPlanes, cx.image.sizeT)
  }

  /** The rows of one shape. */
  function ShapeRows(cx: Context, roi: Roi, shape: Shape): Result<seq<Row>>
    requires ValidContext(cx)
  {
    Concat(ZSteps(cx, roi, shape, ShapeEntries(shape, cx.scale, cx.num), ZList(cx, shape), TList(cx, shape)))
  }

  /** The shape loop of one ROI. */
  function ShapeSteps(cx: Context, roi: Roi): (r: seq<Result<seq<Row>>>)
    requires ValidContext(cx)
    ensures |r| == |roi.shapes|
  {
    seq(|roi.shapes|, k requires 0 <= k < |roi.shapes| => ShapeRows(cx, roi, roi.shapes[k]))
  }

  /** The ROI loop. */
  function RoiSteps(cx: Context, rois: seq<Roi>): (r: seq<Result<seq<Row>>>)
    requires ValidContext(cx)
    ensures |r| == |rois|
  {
    seq(|rois|, k requires 0 <= k < |rois| => Concat(ShapeSteps(cx, rois[k])))
  }

  // ---------------------------------------------------------------------------
  // ROIs by id

  predicate SortedById(rois: seq<Roi>)
  {
    forall i, j :: 0 <= i < j < |rois| ==> rois[i].id <= rois[j].id
  }

  /** Insert a ROI after every ROI whose id is not larger. */
  function InsertById(roi: Roi, sorted: seq<Roi>): seq<Roi>
  {
    if sorted == [] then [roi]
    else if Last(sorted).id <= roi.id then sorted + [roi]
    else InsertById(roi, DropLast(sorted)) + [Last(sorted)]
  }

  /** Inserting into a sorted list keeps it sorted and adds exactly the ROI. */
  lemma {:induction false} InsertByIdSpec(roi: Roi, sorted: seq<Roi>)
    requires SortedById(sorted)
    ensures SortedById(InsertById(roi, sorted))
    ensures multiset(InsertById(roi, sorted)) == multiset(sorted) + multiset{roi}
  {
    if sorted == [] {
    } else if Last(sorted).id <= roi.id {
      SortedSnoc(sorted, roi);
    } else {
      var init, last := DropLast(sorted), Last(sorted);
      assert init + [last] == sorted;
      assert SortedById(init);
      InsertByIdSpec(roi, init);
      var front := InsertById(roi, init);
      forall i | 0 <= i < |front|
        ensures front[i].id <= last.id
      {
        assert front[i] in multiset(front);
        if front[i] != roi {
          assert front[i] in multiset(init);
          var k :| 0 <= k < |init| && init[k] == front[i];
          assert sorted[k] == init[k];
        }
      }
      SortedSnoc(front, last);
    }
  }

  /** A sorted list stays sorted when an item with an id at least its last one is appended. */
  lemma SortedSnoc(sorted: seq<Roi>, roi: Roi)
    requires SortedById(sorted)
    requires forall i :: 0 <= i < |sorted| ==> sorted[i].id <= roi.id
    ensures SortedById(sorted + [roi])
  {
  }

  /** `rois.sort(key=lambda r: r.id.val)`: the ROIs by ascending id. */
  function SortById(rois: seq<Roi>): seq<Roi>
  {
    if rois == [] then []
    else InsertById(Last(rois), SortById(DropLast(rois)))
  }

  /** The sorted list is ordered by id and holds the same ROIs, as often. */
  lemma {:induction false} SortByIdSpec(rois: seq<Roi>)
    ensures SortedById(SortById(rois))
    ensures multiset(SortById(rois)) == multiset(rois)
  {
    if rois != [] {
      SortByIdSpec(DropLast(rois));
      InsertByIdSpec(Last(rois), SortById(DropLast(rois)));
      assert DropLast(rois) + [Last(rois)] == rois;
    }
  }

  // ---------------------------------------------------------------------------
  // get_export_data

  /** The context get_export_data builds for an image. */
  function ImageContext(image: Image, params: ExportParams, units: Option<string>,
                        service: StatsService, num: Numerics): (cx: Context)
    ensures ValidContext(cx)
  {
    Context(image, ValidChannels(RequestedChannels(params), SizeC(image)), params.allPlanes,
            ImageScale(image, units), service, num)
  }

  /** The rows of one image. */
  function ExportData(image: Image, params: ExportParams, units: Option<string>,
                      service: StatsService, num: Numerics): Result<seq<Row>>
  {
    Concat(RoiSteps(ImageContext(image, params, units, service, num), SortById(image.rois)))
  }

  /** The log of one image: its id, then one line per rejected channel. */
  function ExportLog(image: Image, params: ExportParams): seq<Diagnostic>
  {
    [ImageStart(image.id)] + Rejections(RequestedChannels(params), SizeC(image))
  }

  // ---------------------------------------------------------------------------
  // The statistics requests

  /** The (z, t) planes the service is asked about for one z and the first n
      entries of the t list: those where both are resolved. */
  function TRequests(z: Option<nat>, ts: seq<Option<nat>>, n: nat): (r: seq<Request>)
    requires n <= |ts|
  {
    if n == 0 then []
    else TRequests(z, ts, n - 1) + PlaneRequest(z, ts[n - 1])
  }

  /** A statistics request for plane (z, t) of a shape. */
  datatype Request = Request(z: nat, t: nat)

  /** The request of one plane: none unless both z and t are resolved. */
  function PlaneRequest(z: Option<nat>, t: Option<nat>): seq<Request>
  {
    if z.Some? && t.Some? then [Request(z.value, t.value)] else []
  }

  /** The requests for the first n entries of the z list, each with the whole t list. */
  function ZRequests(zs: seq<Option<nat>>, ts: seq<Option<nat>>, n: nat): (r: seq<Request>)
    requires n <= |zs|
  {
    if n == 0 then []
    else ZRequests(zs, ts, n - 1) + TRequests(zs[n - 1], ts, |ts|)
  }

  /** The statistics requests of one shape, in the order they are made. */
  function StatsRequests(cx: Context, shape: Shape): seq<Request>
  {
    var zs := ZList(cx, shape);
    ZRequests(zs, TList(cx, shape), |zs|)
  }

  // ---------------------------------------------------------------------------
  // The loops of get_export_data

  /** The row of channel position c: the statistics cells, the base row, then
      add_shape_coords. */
  method ExportRow(cx: Context, roi: Roi, shape: Shape, z: Option<nat>, t: Option<nat>,
                   stats: seq<PlaneStats>, c: nat) returns (row: Result<Row>)
    requires ValidContext(cx) && c < |cx.chIndexes|
    ensures row == PlaneRow(cx, roi, shape, ShapeEntries(shape, cx.scale, cx.num), z, t, stats, c)
  {
    var statCells := StatsCells(stats, c);
    if statCells.Err? {
      return Err(statCells.error);
    }
    var base := BaseRow(cx, roi, shape, z, t, c, statCells.value);
    row := AddShapeCoords(shape, base, cx.scale, cx.num);
    ShapeCoordsMerge(base, shape, cx.scale, cx.num);
  }

  /** The channel loop of one plane: one row per kept channel. */
  method ExportChannels(cx: Context, roi: Roi, shape: Shape, z: Option<nat>, t: Option<nat>,
                        stats: seq<PlaneStats>) returns (rows: Result<seq<Row>>)
    requires ValidContext(cx)
    ensures rows == Concat(ChannelSteps(cx, roi, shape, ShapeEntries(shape, cx.scale, cx.num), z, t, stats))
  {
    ghost var steps := ChannelSteps(cx, roi, shape, ShapeEntries(shape, cx.scale, cx.num), z, t, stats);
    var acc: seq<Row> := [];
    var c := 0;
    while c < |cx.chIndexes|
      invariant c <= |cx.chIndexes|
      invariant Concat(steps[..c]) == Ok(acc)
    {
      var row := ExportRow(cx, roi, shape, z, t, stats, c);
      assert AsBlock(row) == steps[c];
      if row.Err? {
        ConcatFailure(steps, c);
        return Err(row.error);
      }
      ConcatStep(steps, c, acc);
      acc := acc + [row.value];
      c := c + 1;
    }
    assert steps[..c] == steps;
    rows := Ok(acc);
  }

  /** One (z, t) plane: the statistics request when both are resolved, then the
      channel loop. */
  method ExportPlane(cx: Context, roi: Roi, shape: Shape, z: Option<nat>, t: Option<nat>)
    returns (rows: Result<seq<Row>>, ghost requests: seq<Request>)
    requires ValidContext(cx)
    ensures rows == PlaneRows(cx, roi, shape, ShapeEntries(shape, cx.scale, cx.num), z, t)
    ensures requests == PlaneRequest(z, t)
  {
    var stats: seq<PlaneStats> := [];
    requests := [];
    if z.Some? && t.Some? {
      var answer := cx.service(shape.id, z.value, t.value, cx.chIndexes);
      requests := [Request(z.value, t.value)];
      if answer.Err? {
        return Err(answer.error), requests;
      }
      stats := answer.value;
    }
    rows := ExportChannels(cx, roi, shape, z, t, stats);
  }

  /** The t loop for one z. */
  method ExportTs(cx: Context, roi: Roi, shape: Shape, z: Option<nat>, ts: seq<Option<nat>>)
    returns (rows: Result<seq<Row>>)
    requires ValidContext(cx)
    ensures rows == Concat(TSteps(cx, roi, shape, ShapeEntries(shape, cx.scale, cx.num), z, ts))
  {
    ghost var steps := TSteps(cx, roi, shape, ShapeEntries(shape, cx.scale, cx.num), z, ts);
    var acc: seq<Row> := [];
    var j := 0;
    while j < |ts|
      invariant j <= |ts|
      invariant Concat(steps[..j]) == Ok(acc)
    {
      var more, _ := ExportPlane(cx, roi, shape, z, ts[j]);
      assert more == steps[j];
      if more.Err? {
        ConcatFailure(steps, j);
        return Err(more.error);
      }
      ConcatStep(steps, j, acc);
      acc := acc + more.value;
      j := j + 1;
    }
    assert steps[..j] == steps;
    rows := Ok(acc);
  }

  /** The plane lists of one shape: a single possibly unresolved index per
      axis, or every plane of the axis when the index is unset and all planes are
      exported. */
  method ExportShape(cx: Context, roi: Roi, shape: Shape) returns (rows: Result<seq<Row>>)
    requires ValidContext(cx)
    ensures rows == ShapeRows(cx, roi, shape)
  {
    var zs := [shape.theZ];
    if shape.theZ.None? && cx.allPlanes {
      zs := AllPlanes(cx.image.sizeZ);
    }
    var ts := [shape.theT];
    if shape.theT.None? && cx.allPlanes {
      ts := AllPlanes(cx.image.sizeT);
    }
    assert zs == ZList(cx, shape) && ts == TList(cx, shape);
    rows := ExportZs(cx, roi, shape, zs, ts);
  }

  /** The z loop of one shape. */
  method ExportZs(cx: Context, roi: Roi, shape: Shape, zs: seq<Option<nat>>, ts: seq<Option<nat>>)
    returns (rows: Result<seq<Row>>)
    requires ValidContext(cx)
    ensures rows == Concat(ZSteps(cx, roi, shape, ShapeEntries(shape, cx.scale, cx.num), zs, ts))
  {
    ghost var steps := ZSteps(cx, roi, shape, ShapeEntries(shape, cx.scale, cx.num), zs, ts);
    var acc: seq<Row> := [];
    var i := 0;
    while i < |zs|
      invariant i <= |zs|
      invariant Concat(steps[..i]) == Ok(acc)
    {
      var more := ExportTs(cx, roi, shape, zs[i], ts);
      assert more == steps[i];
      if more.Err? {
        ConcatFailure(steps, i);
        return Err(more.error);
      }
      ConcatStep(steps, i, acc);
      acc := acc + more.value;
      i := i + 1;
    }
    assert steps[..i] == steps;
    rows := Ok(acc);
  }

  /** The shape loop of one ROI. */
  method ExportRoi(cx: Context, roi: Roi) returns (rows: Result<seq<Row>>)
    requires ValidContext(cx)
    ensures rows == Concat(ShapeSteps(cx, roi))
  {
    ghost var steps := ShapeSteps(cx, roi);
    var acc: seq<Row> := [];
    var j := 0;
    while j < |roi.shapes|
      invariant j <= |roi.shapes|
      invariant Concat(steps[..j]) == Ok(acc)
    {
      var more := ExportShape(cx, roi, roi.shapes[j]);
      assert more == steps[j];
      if more.Err? {
        ConcatFailure(steps, j);
        return Err(more.error);
      }
      ConcatStep(steps, j, acc);
      acc := acc + more.value;
      j := j + 1;
    }
    assert steps[..j] == steps;
    rows := Ok(acc);
  }

  /** get_export_data: the log lines of the image and its rows. */
  method GetExportData(image: Image, params: ExportParams, units: Option<string>,
                       service: StatsService, num: Numerics) returns (rows: Result<seq<Row>>, log: seq<Diagnostic>)
    ensures rows == ExportData(image, params, units, service, num)
    ensures log == ExportLog(image, params)
  {
    log := [ImageStart(image.id)];
    var scale := ImageScale(image, units);
    var chIndexes, rejected := ResolveChannels(RequestedChannels(params), SizeC(image));
    log := log + rejected;
    var cx := Context(image, chIndexes, params.allPlanes, scale, service, num);
    assert cx == ImageContext(image, params, units, service, num);
    var rois := SortById(image.rois);
    rows := ExportRois(cx, rois);
  }

  /** The ROI loop. */
  method ExportRois(cx: Context, rois: seq<Roi>) returns (rows: Result<seq<Row>>)
    requires ValidContext(cx)
    ensures rows == Concat(RoiSteps(cx, rois))
  {
    ghost var steps := RoiSteps(cx, rois);
    var acc: seq<Row> := [];
    var i := 0;
    while i < |rois|
      invariant i <= |rois|
      invariant Concat(steps[..i]) == Ok(acc)
    {
      var more := ExportRoi(cx, rois[i]);
      assert more == steps[i];
      if more.Err? {
        ConcatFailure(steps, i);
        return Err(more.error);
      }
      ConcatStep(steps, i, acc);
      acc := acc + more.value;
      i := i + 1;
    }
    assert steps[..i] == steps;
    rows := Ok(acc);
  }
}
