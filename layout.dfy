/** What get_export_data (scripts/extract_tagged_rois.py) promises about the rows
    it builds: the cells of each row, how many rows a shape gives and in which
    order, blank statistics for unresolved planes, and ROIs by ascending id. */
module Layout {
  import opened Common
  import opened Numerics
  import opened RowData
  import opened Planes
  import opened Geometry
  import opened Rows

  // ---------------------------------------------------------------------------
  // One row

  /** The fields add_shape_coords may set are neither label nor statistics fields. */
  lemma VariantFieldsApart(kind: ShapeKind)
    ensures forall f :: f in VariantFields(kind) ==> f !in LabelFields && f !in StatFields
    ensures TextValue !in LabelFields && TextValue !in StatFields
  {
    match kind
    case Rectangle(_, _, _, _) =>
    case Mask(_, _, _, _) =>
    case Ellipse(_, _, _, _) =>
    case Point(_, _) =>
    case Label(_, _) =>
    case Line(_, _, _, _) =>
    case Polyline(_) =>
    case Polygon(_) =>
    case Other(_) =>
  }

  /** The geometry entries of a shape never hide a label or statistics cell. */
  lemma EntriesApart(shape: Shape, scale: Scale, num: Numerics)
    requires ShapeEntries(shape, scale, num).Ok?
    ensures forall f :: f in ShapeEntries(shape, scale, num).value ==> f !in LabelFields && f !in StatFields
  {
    ShapeCoordsFields(map[], shape, scale, num);
    VariantFieldsApart(shape.kind);
  }

  /** Three maps with disjoint keys laid over each other: each key keeps the
      value of the map that holds it. */
  lemma LayeredLookup(labels: Row, stats: Row, entries: Row)
    requires labels.Keys !! stats.Keys
    requires forall f :: f in entries ==> f !in labels && f !in stats
    ensures var row := labels + stats + entries;
      && row.Keys == labels.Keys + stats.Keys + entries.Keys
      && (forall f :: f in labels ==> row[f] == labels[f])
      && (forall f :: f in stats ==> row[f] == stats[f])
      && (forall f :: f in entries ==> row[f] == entries[f])
  {
  }

  /** The row of channel position c is made of three disjoint parts: the label
      cells (LabelCells), the statistics cells of position c, and the shape's
      geometry entries. */
  lemma PlaneRowParts(cx: Context, roi: Roi, shape: Shape, z: Option<nat>, t: Option<nat>,
                      stats: seq<PlaneStats>, c: nat)
    requires ValidContext(cx) && c < |cx.chIndexes|
    requires PlaneRow(cx, roi, shape, ShapeEntries(shape, cx.scale, cx.num), z, t, stats, c).Ok?
    ensures var row := PlaneRow(cx, roi, shape, ShapeEntries(shape, cx.scale, cx.num), z, t, stats, c).value;
      var labels := LabelCells(cx, roi, shape, z, t, c);
      var entries := ShapeEntries(shape, cx.scale, cx.num).value;
      var statCells := StatsCells(stats, c).value;
      && row.Keys == LabelFields + StatFields + entries.Keys
      && (forall f :: f in LabelFields ==> row[f] == labels[f])
      && (forall f :: f in StatFields ==> row[f] == statCells[f])
      && (forall f :: f in entries ==> row[f] == entries[f])
  {
    var entries := ShapeEntries(shape, cx.scale, cx.num);
    var statCells := StatsCells(stats, c).value;
    var labels := LabelCells(cx, roi, shape, z, t, c);
    PlaneRowIs(cx, roi, shape, z, t, stats, c);
    EntriesApart(shape, cx.scale, cx.num);
    LayeredLookup(labels, statCells, entries.value);
  }

  lemma PlaneRowIs(cx: Context, roi: Roi, shape: Shape, z: Option<nat>, t: Option<nat>,
                   stats: seq<PlaneStats>, c: nat)
    requires ValidContext(cx) && c < |cx.chIndexes|
    requires PlaneRow(cx, roi, shape, ShapeEntries(shape, cx.scale, cx.num), z, t, stats, c).Ok?
    ensures StatsCells(stats, c).Ok? && ShapeEntries(shape, cx.scale, cx.num).Ok?
    ensures PlaneRow(cx, roi, shape, ShapeEntries(shape, cx.scale, cx.num), z, t, stats, c).value
      == LabelCells(cx, roi, shape, z, t, c) + StatsCells(stats, c).value + ShapeEntries(shape, cx.scale, cx.num).value
    ensures LabelFields !! StatFields
  {
    var statCells := StatsCells(stats, c).value;
    var base := BaseRow(cx, roi, shape, z, t, c, statCells);
    assert base == LabelCells(cx, roi, shape, z, t, c) + statCells;
    assert PlaneRow(cx, roi, shape, ShapeEntries(shape, cx.scale, cx.num), z, t, stats, c)
      == AddEntries(base, ShapeEntries(shape, cx.scale, cx.num));
    LabelStatApart();
  }

  lemma LabelStatApart()
    ensures LabelFields !! StatFields
  {
  }

  /** The label cells: image, ROI and shape ids, the shape's class and label,
      the plane as displayed, and the name of the kept channel chIndexes[c]. */
  lemma LabelCellsValues(cx: Context, roi: Roi, shape: Shape, z: Option<nat>, t: Option<nat>, c: nat)
    requires ValidContext(cx) && c < |cx.chIndexes|
    ensures var r := LabelCells(cx, roi, shape, z, t, c);
      && r[ImageId] == IntCell(cx.image.id)
      && r[RoiId] == IntCell(roi.id)
      && r[ShapeId] == IntCell(shape.id)
      && r[Type] == StrCell(TypeName(shape.kind))
      && r[Text] == StrCell(Rows.Label(shape.text))
      && r[Z] == PlaneCell(z)
      && r[T] == PlaneCell(t)
      && r[Channel] == StrCell(ChannelName(cx.image, cx.chIndexes[c]))
  {
  }

  /** Without statistics every statistics cell is blank. */
  lemma NoStatsBlank(cx: Context, roi: Roi, shape: Shape, z: Option<nat>, t: Option<nat>, c: nat)
    requires ValidContext(cx) && c < |cx.chIndexes|
    requires PlaneRow(cx, roi, shape, ShapeEntries(shape, cx.scale, cx.num), z, t, [], c).Ok?
    ensures var row := PlaneRow(cx, roi, shape, ShapeEntries(shape, cx.scale, cx.num), z, t, [], c).value;
      forall f :: f in StatFields ==> row[f] == Blank
  {
    PlaneRowParts(cx, roi, shape, z, t, [], c);
  }

  // ---------------------------------------------------------------------------
  // The rows of one plane, one z and one shape

  /** The channel loop gives one row per kept channel, in channel order. */
  lemma ChannelRowsAt(cx: Context, roi: Roi, shape: Shape, entries: Result<Row>, z: Option<nat>, t: Option<nat>,
                      stats: seq<PlaneStats>)
    requires ValidContext(cx)
    requires Concat(ChannelSteps(cx, roi, shape, entries, z, t, stats)).Ok?
    ensures var rows := Concat(ChannelSteps(cx, roi, shape, entries, z, t, stats)).value;
      && |rows| == |cx.chIndexes|
      && forall c :: 0 <= c < |rows| ==> PlaneRow(cx, roi, shape, entries, z, t, stats, c) == Ok(rows[c])
  {
    var steps := ChannelSteps(cx, roi, shape, entries, z, t, stats);
    forall c | 0 <= c < |steps| && steps[c].Ok?
      ensures |steps[c].value| == 1
    {
      assert steps[c] == AsBlock(PlaneRow(cx, roi, shape, entries, z, t, stats, c));
    }
    ConcatSingles(steps);
    forall c | 0 <= c < |steps|
      ensures PlaneRow(cx, roi, shape, entries, z, t, stats, c) == Ok(Concat(steps).value[c])
    {
      assert steps[c] == AsBlock(PlaneRow(cx, roi, shape, entries, z, t, stats, c));
    }
  }

  /** A plane gives one row per kept channel, in channel order, built from the
      plane's statistics; an unresolved plane has none. */
  lemma PlaneRowsLayout(cx: Context, roi: Roi, shape: Shape, entries: Result<Row>, z: Option<nat>, t: Option<nat>)
    requires ValidContext(cx)
    requires PlaneRows(cx, roi, shape, entries, z, t).Ok?
    ensures var rows := PlaneRows(cx, roi, shape, entries, z, t).value;
      var stats := PlaneStatsFor(cx, shape, z, t);
      && stats.Ok?
      && (z.None? || t.None? ==> stats.value == [])
      && |rows| == |cx.chIndexes|
      && forall c :: 0 <= c < |rows| ==> PlaneRow(cx, roi, shape, entries, z, t, stats.value, c) == Ok(rows[c])
  {
    var stats := PlaneStatsFor(cx, shape, z, t).value;
    assert PlaneRows(cx, roi, shape, entries, z, t) == Concat(ChannelSteps(cx, roi, shape, entries, z, t, stats));
    ChannelRowsAt(cx, roi, shape, entries, z, t, stats);
  }

  /** Each step of the t loop gives one row per kept channel. */
  lemma TStepLength(cx: Context, roi: Roi, shape: Shape, entries: Result<Row>, z: Option<nat>, ts: seq<Option<nat>>)
    requires ValidContext(cx)
    ensures var steps := TSteps(cx, roi, shape, entries, z, ts);
      forall j :: 0 <= j < |steps| && steps[j].Ok? ==> |steps[j].value| == |cx.chIndexes|
  {
    var steps := TSteps(cx, roi, shape, entries, z, ts);
    forall j | 0 <= j < |steps| && steps[j].Ok?
      ensures |steps[j].value| == |cx.chIndexes|
    {
      assert steps[j] == PlaneRows(cx, roi, shape, entries, z, ts[j]);
      PlaneRowsLayout(cx, roi, shape, entries, z, ts[j]);
    }
  }

  /** The t loop of one z gives |ts| blocks of one row per channel. */
  lemma TRowsCount(cx: Context, roi: Roi, shape: Shape, entries: Result<Row>, z: Option<nat>, ts: seq<Option<nat>>)
    requires ValidContext(cx)
    requires Concat(TSteps(cx, roi, shape, entries, z, ts)).Ok?
    ensures |Concat(TSteps(cx, roi, shape, entries, z, ts)).value| == Blocks(|ts|, |cx.chIndexes|)
  {
    TStepLength(cx, roi, shape, entries, z, ts);
    ConcatUniform(TSteps(cx, roi, shape, entries, z, ts), |cx.chIndexes|);
  }

  /** Row c of block ti of the t loop is the row of channel position c on plane (z, ts[ti]). */
  lemma TRowAt(cx: Context, roi: Roi, shape: Shape, entries: Result<Row>, z: Option<nat>, ts: seq<Option<nat>>,
               ti: nat, c: nat)
    requires ValidContext(cx)
    requires Concat(TSteps(cx, roi, shape, entries, z, ts)).Ok?
    requires ti < |ts| && c < |cx.chIndexes|
    ensures var rows := Concat(TSteps(cx, roi, shape, entries, z, ts)).value;
      && PlaneStatsFor(cx, shape, z, ts[ti]).Ok?
      && BlockPos(ti, |cx.chIndexes|, c) < |rows|
      && PlaneRow(cx, roi, shape, entries, z, ts[ti], PlaneStatsFor(cx, shape, z, ts[ti]).value, c)
         == Ok(rows[BlockPos(ti, |cx.chIndexes|, c)])
  {
    var steps := TSteps(cx, roi, shape, entries, z, ts);
    TStepLength(cx, roi, shape, entries, z, ts);
    ConcatAt(steps, |cx.chIndexes|, ti, c);
    assert steps[ti] == PlaneRows(cx, roi, shape, entries, z, ts[ti]);
    PlaneRowsLayout(cx, roi, shape, entries, z, ts[ti]);
  }

  /** Each step of the z loop gives |ts| blocks of |chIndexes| rows. */
  lemma ZStepLength(cx: Context, roi: Roi, shape: Shape, entries: Result<Row>, zs: seq<Option<nat>>, ts: seq<Option<nat>>)
    requires ValidContext(cx)
    ensures var steps := ZSteps(cx, roi, shape, entries, zs, ts);
      forall i :: 0 <= i < |steps| && steps[i].Ok? ==> |steps[i].value| == Blocks(|ts|, |cx.chIndexes|)
  {
    var steps := ZSteps(cx, roi, shape, entries, zs, ts);
    forall i | 0 <= i < |steps| && steps[i].Ok?
      ensures |steps[i].value| == Blocks(|ts|, |cx.chIndexes|)
    {
      assert steps[i] == Concat(TSteps(cx, roi, shape, entries, zs[i], ts));
      TRowsCount(cx, roi, shape, entries, zs[i], ts);
    }
  }

  /** A shape gives |zs| * |ts| * |chIndexes| rows. */
  lemma ShapeRowsCount(cx: Context, roi: Roi, shape: Shape)
    requires ValidContext(cx)
    requires ShapeRows(cx, roi, shape).Ok?
    ensures |ShapeRows(cx, roi, shape).value| == |ZList(cx, shape)| * (|TList(cx, shape)| * |cx.chIndexes|)
  {
    var entries := ShapeEntries(shape, cx.scale, cx.num);
    var zs, ts := ZList(cx, shape), TList(cx, shape);
    ZStepLength(cx, roi, shape, entries, zs, ts);
    ConcatUniform(ZSteps(cx, roi, shape, entries, zs, ts), Blocks(|ts|, |cx.chIndexes|));
    BlocksProduct(|ts|, |cx.chIndexes|);
    BlocksProduct(|zs|, |ts| * |cx.chIndexes|);
  }

  /** Where the row of channel position c on plane (zs[zi], ts[ti]) of a shape
      sits: z is the outer loop, then t, then channel. */
  function ShapeRowPos(cx: Context, shape: Shape, zi: nat, ti: nat, c: nat): nat
  {
    BlockPos(zi, Blocks(|TList(cx, shape)|, |cx.chIndexes|), BlockPos(ti, |cx.chIndexes|, c))
  }

  /** The rows of a shape run z (outer), then t, then channel: the row at
      ShapeRowPos is the row of channel position c on plane (zs[zi], ts[ti]),
      built from that plane's statistics. */
  lemma ShapeRowAt(cx: Context, roi: Roi, shape: Shape, zi: nat, ti: nat, c: nat)
    requires ValidContext(cx)
    requires ShapeRows(cx, roi, shape).Ok?
    requires zi < |ZList(cx, shape)| && ti < |TList(cx, shape)| && c < |cx.chIndexes|
    ensures var z, t := ZList(cx, shape)[zi], TList(cx, shape)[ti];
      var rows := ShapeRows(cx, roi, shape).value;
      && PlaneStatsFor(cx, shape, z, t).Ok?
      && ShapeRowPos(cx, shape, zi, ti, c) < |rows|
      && PlaneRow(cx, roi, shape, ShapeEntries(shape, cx.scale, cx.num), z, t, PlaneStatsFor(cx, shape, z, t).value, c)
         == Ok(rows[ShapeRowPos(cx, shape, zi, ti, c)])
  {
    var entries := ShapeEntries(shape, cx.scale, cx.num);
    var zs, ts, n := ZList(cx, shape), TList(cx, shape), |cx.chIndexes|;
    var steps := ZSteps(cx, roi, shape, entries, zs, ts);
    ZStepLength(cx, roi, shape, entries, zs, ts);
    IndexInBlock(ti, |ts|, n, c);
    ConcatAt(steps, Blocks(|ts|, n), zi, BlockPos(ti, n, c));
    assert steps[zi] == Concat(TSteps(cx, roi, shape, entries, zs[zi], ts));
    TRowAt(cx, roi, shape, entries, zs[zi], ts, ti, c);
  }

  /** A row on an unresolved plane shows "" for that axis and for every
      statistic: the service is not asked for it. */
  lemma UnresolvedPlaneRow(cx: Context, roi: Roi, shape: Shape, zi: nat, ti: nat, c: nat)
    requires ValidContext(cx)
    requires ShapeRows(cx, roi, shape).Ok?
    requires zi < |ZList(cx, shape)| && ti < |TList(cx, shape)| && c < |cx.chIndexes|
    requires ZList(cx, shape)[zi].None? || TList(cx, shape)[ti].None?
    ensures ShapeRowPos(cx, shape, zi, ti, c) < |ShapeRows(cx, roi, shape).value|
    ensures var row := ShapeRows(cx, roi, shape).value[ShapeRowPos(cx, shape, zi, ti, c)];
      && LabelFields + StatFields <= row.Keys
      && (forall f :: f in StatFields ==> row[f] == Blank)
      && (ZList(cx, shape)[zi].None? ==> row[Z] == Blank)
      && (TList(cx, shape)[ti].None? ==> row[T] == Blank)
  {
    var z, t := ZList(cx, shape)[zi], TList(cx, shape)[ti];
    ShapeRowAt(cx, roi, shape, zi, ti, c);
    PlaneRowParts(cx, roi, shape, z, t, [], c);
    LabelCellsValues(cx, roi, shape, z, t, c);
  }

  // ---------------------------------------------------------------------------
  // ROIs by ascending id

  /** The ROI id of a row (0 when it has none; every exported row has one). */
  function RoiIdOf(row: Row): int
  {
    if RoiId in row && row[RoiId].IntCell? then row[RoiId].i else 0
  }

  predicate NondecreasingRoiIds(rows: seq<Row>)
  {
    forall i, j :: 0 <= i < j < |rows| ==> RoiIdOf(rows[i]) <= RoiIdOf(rows[j])
  }

  /** Every row of a plane carries the id of its ROI. */
  lemma PlaneRowsRoiId(cx: Context, roi: Roi, shape: Shape, z: Option<nat>, t: Option<nat>, row: Row)
    requires ValidContext(cx)
    requires PlaneRows(cx, roi, shape, ShapeEntries(shape, cx.scale, cx.num), z, t).Ok?
    requires row in PlaneRows(cx, roi, shape, ShapeEntries(shape, cx.scale, cx.num), z, t).value
    ensures RoiIdOf(row) == roi.id
  {
    var rows := PlaneRows(cx, roi, shape, ShapeEntries(shape, cx.scale, cx.num), z, t).value;
    PlaneRowsLayout(cx, roi, shape, ShapeEntries(shape, cx.scale, cx.num), z, t);
    var c :| 0 <= c < |rows| && rows[c] == row;
    PlaneRowParts(cx, roi, shape, z, t, PlaneStatsFor(cx, shape, z, t).value, c);
    LabelCellsValues(cx, roi, shape, z, t, c);
  }

  /** Every row of the t loop of one z carries the id of its ROI. */
  lemma TRowsRoiId(cx: Context, roi: Roi, shape: Shape, z: Option<nat>, ts: seq<Option<nat>>, row: Row)
    requires ValidContext(cx)
    requires Concat(TSteps(cx, roi, shape, ShapeEntries(shape, cx.scale, cx.num), z, ts)).Ok?
    requires row in Concat(TSteps(cx, roi, shape, ShapeEntries(shape, cx.scale, cx.num), z, ts)).value
    ensures RoiIdOf(row) == roi.id
  {
    var steps := TSteps(cx, roi, shape, ShapeEntries(shape, cx.scale, cx.num), z, ts);
    ConcatMembers(steps, row);
    var j :| 0 <= j < |steps| && steps[j].Ok? && row in steps[j].value;
    assert steps[j] == PlaneRows(cx, roi, shape, ShapeEntries(shape, cx.scale, cx.num), z, ts[j]);
    PlaneRowsRoiId(cx, roi, shape, z, ts[j], row);
  }

  /** Every row of a shape carries the id of its ROI. */
  lemma ShapeRowsRoiId(cx: Context, roi: Roi, shape: Shape, row: Row)
    requires ValidContext(cx)
    requires ShapeRows(cx, roi, shape).Ok? && row in ShapeRows(cx, roi, shape).value
    ensures RoiIdOf(row) == roi.id
  {
    var entries := ShapeEntries(shape, cx.scale, cx.num);
    var zs, ts := ZList(cx, shape), TList(cx, shape);
    var steps := ZSteps(cx, roi, shape, entries, zs, ts);
    ConcatMembers(steps, row);
    var i :| 0 <= i < |steps| && steps[i].Ok? && row in steps[i].value;
    assert steps[i] == Concat(TSteps(cx, roi, shape, entries, zs[i], ts));
    TRowsRoiId(cx, roi, shape, zs[i], ts, row);
  }

  /** Every row of a ROI carries its id. */
  lemma RoiRowsRoiId(cx: Context, roi: Roi, row: Row)
    requires ValidContext(cx)
    requires Concat(ShapeSteps(cx, roi)).Ok? && row in Concat(ShapeSteps(cx, roi)).value
    ensures RoiIdOf(row) == roi.id
  {
    var steps := ShapeSteps(cx, roi);
    ConcatMembers(steps, row);
    var k :| 0 <= k < |steps| && steps[k].Ok? && row in steps[k].value;
    assert steps[k] == ShapeRows(cx, roi, roi.shapes[k]);
    ShapeRowsRoiId(cx, roi, roi.shapes[k], row);
  }

  /** The rows of the ROI loop come in ROI order: with the ROIs sorted by id, the
      ROI ids of the rows never decrease. */
  lemma {:induction false} RoiRowsOrdered(cx: Context, rois: seq<Roi>)
    requires ValidContext(cx) && SortedById(rois)
    requires Concat(RoiSteps(cx, rois)).Ok?
    ensures NondecreasingRoiIds(Concat(RoiSteps(cx, rois)).value)
    decreases |rois|
  {
    if rois != [] {
      var steps := RoiSteps(cx, rois);
      var front := DropLast(rois);
      assert RoiSteps(cx, front) == DropLast(steps);
      var before := Concat(DropLast(steps)).value;
      var last := Last(steps).value;
      RoiRowsOrdered(cx, front);
      assert Concat(steps).value == before + last;
      forall x | x in before
        ensures RoiIdOf(x) <= Last(rois).id
      {
        ConcatMembers(DropLast(steps), x);
        var k :| 0 <= k < |front| && DropLast(steps)[k].Ok? && x in DropLast(steps)[k].value;
        RoiRowsRoiId(cx, front[k], x);
      }
      forall x | x in last
        ensures RoiIdOf(x) == Last(rois).id
      {
        RoiRowsRoiId(cx, Last(rois), x);
      }
      OrderedAppend(before, last, Last(rois).id);
    }
  }

  /** Rows of ROI ids at most id, then rows of ROI id: the ids still never decrease. */
  lemma OrderedAppend(before: seq<Row>, last: seq<Row>, id: int)
    requires NondecreasingRoiIds(before)
    requires forall x :: x in before ==> RoiIdOf(x) <= id
    requires forall x :: x in last ==> RoiIdOf(x) == id
    ensures NondecreasingRoiIds(before + last)
  {
    var all := before + last;
    forall i, j | 0 <= i < j < |all|
      ensures RoiIdOf(all[i]) <= RoiIdOf(all[j])
    {
      if j < |before| {
        assert all[i] == before[i] && all[j] == before[j];
      } else if i >= |before| {
        assert all[i] == last[i - |before|] && all[j] == last[j - |before|];
      } else {
        assert all[i] == before[i] && all[j] == last[j - |before|];
      }
    }
  }

  /** The rows of an image come in ascending ROI id. */
  lemma ExportDataOrdered(image: Image, params: ExportParams, units: Option<string>,
                          service: StatsService, num: Numerics)
    requires ExportData(image, params, units, service, num).Ok?
    ensures NondecreasingRoiIds(ExportData(image, params, units, service, num).value)
  {
    SortByIdSpec(image.rois);
    RoiRowsOrdered(ImageContext(image, params, units, service, num), SortById(image.rois));
  }

  // ---------------------------------------------------------------------------
  // The statistics requests of a shape

  predicate Distinct<T(==)>(s: seq<T>)
  {
    forall i, j :: 0 <= i < j < |s| ==> s[i] != s[j]
  }

  lemma DistinctAppend<T>(a: seq<T>, b: seq<T>)
    requires Distinct(a) && Distinct(b)
    requires forall x :: x in a ==> x !in b
    ensures Distinct(a + b)
  {
    var ab := a + b;
    forall i, j | 0 <= i < j < |ab|
      ensures ab[i] != ab[j]
    {
      if j < |a| {
        assert ab[i] == a[i] && ab[j] == a[j];
      } else if i >= |a| {
        assert ab[i] == b[i - |a|] && ab[j] == b[j - |a|];
      } else {
        assert ab[i] == a[i] && ab[j] == b[j - |a|];
        assert a[i] in a;
      }
    }
  }

  /** For one z, the service is asked about (z, t) for each resolved t among the
      first n entries of the t list, and only when z is resolved. */
  lemma {:induction false} TRequestsMembers(z: Option<nat>, ts: seq<Option<nat>>, n: nat, r: Request)
    requires n <= |ts|
    ensures r in TRequests(z, ts, n) <==> z == Some(r.z) && Some(r.t) in ts[..n]
  {
    if n > 0 {
      TRequestsMembers(z, ts, n - 1, r);
      assert ts[..n] == ts[..n - 1] + [ts[n - 1]];
    }
  }

  lemma {:induction false} TRequestsDistinct(z: Option<nat>, ts: seq<Option<nat>>, n: nat)
    requires n <= |ts| && Distinct(ts)
    ensures Distinct(TRequests(z, ts, n))
  {
    if n > 0 {
      TRequestsDistinct(z, ts, n - 1);
      var p := PlaneRequest(z, ts[n - 1]);
      forall x | x in TRequests(z, ts, n - 1)
        ensures x !in p
      {
        TRequestsMembers(z, ts, n - 1, x);
        if p != [] {
          var k :| 0 <= k < n - 1 && ts[k] == Some(x.t);
          assert ts[k] != ts[n - 1];
        }
      }
      DistinctAppend(TRequests(z, ts, n - 1), p);
    }
  }

  /** The service is asked about (z, t) exactly when z is on the first n entries
      of the z list and t on the t list. */
  lemma {:induction false} ZRequestsMembers(zs: seq<Option<nat>>, ts: seq<Option<nat>>, n: nat, r: Request)
    requires n <= |zs|
    ensures r in ZRequests(zs, ts, n) <==> Some(r.z) in zs[..n] && Some(r.t) in ts
  {
    if n > 0 {
      ZRequestsMembers(zs, ts, n - 1, r);
      TRequestsMembers(zs[n - 1], ts, |ts|, r);
      assert ts[..|ts|] == ts;
      assert zs[..n] == zs[..n - 1] + [zs[n - 1]];
    }
  }

  lemma {:induction false} ZRequestsDistinct(zs: seq<Option<nat>>, ts: seq<Option<nat>>, n: nat)
    requires n <= |zs| && Distinct(zs) && Distinct(ts)
    ensures Distinct(ZRequests(zs, ts, n))
  {
    if n > 0 {
      ZRequestsDistinct(zs, ts, n - 1);
      TRequestsDistinct(zs[n - 1], ts, |ts|);
      var front, last := ZRequests(zs, ts, n - 1), TRequests(zs[n - 1], ts, |ts|);
      forall x | x in front
        ensures x !in last
      {
        ZRequestsMembers(zs, ts, n - 1, x);
        TRequestsMembers(zs[n - 1], ts, |ts|, x);
        var k :| 0 <= k < n - 1 && zs[k] == Some(x.z);
        assert zs[k] != zs[n - 1];
      }
      DistinctAppend(front, last);
    }
  }

  /** The service is asked about plane (z, t) of a shape exactly when z is on
      the shape's z list and t on its t list, both resolved: an unresolved axis
      is never sent. */
  lemma StatsRequestsMembers(cx: Context, shape: Shape, r: Request)
    ensures r in StatsRequests(cx, shape) <==> Some(r.z) in ZList(cx, shape) && Some(r.t) in TList(cx, shape)
  {
    var zs := ZList(cx, shape);
    ZRequestsMembers(zs, TList(cx, shape), |zs|, r);
    assert zs[..|zs|] == zs;
  }

  /** ... and at most once per plane. */
  lemma StatsRequestsDistinct(cx: Context, shape: Shape)
    ensures Distinct(StatsRequests(cx, shape))
  {
    var zs, ts := ZList(cx, shape), TList(cx, shape);
    PlaneIndexesDistinct(shape.theZ, cx.allPlanes, cx.image.sizeZ);
    PlaneIndexesDistinct(shape.theT, cx.allPlanes, cx.image.sizeT);
    ZRequestsDistinct(zs, ts, |zs|);
  }
}
