/** batch_roi_export (scripts/extract_tagged_rois.py) up to the CSV: the unit the
    whole run measures in, the rows of every image in turn, and the header unit. */
module Batch {
  import opened Common
  import opened Numerics
  import opened RowData
  import opened Geometry
  import opened Rows
  import opened Csv

  /** What `getPixelSizeX(units=True)` reports about an image: the unit of its
      pixel size and that unit's symbol. */
  datatype PixelSize = PixelSize(unit: string, symbol: string)

  /** The unit of the run (`units`, handed to get_export_data) and its symbol
      (handed to write_csv); both None when the run counts in pixels. */
  datatype RunUnit = RunUnit(units: Option<string>, symbol: Option<string>)

  /** Some image has no pixel size (`getPixelSizeX() is None`). */
  predicate AnyMissing(sizes: seq<Option<PixelSize>>)
  {
    exists k :: 0 <= k < |sizes| && sizes[k].None?
  }

  /** The run's unit: pixels when any image lacks a pixel size, otherwise the
      unit of the first image. */
  function RunUnitOf(sizes: seq<Option<PixelSize>>): RunUnit
    requires |sizes| > 0
  {
    if AnyMissing(sizes) then RunUnit(None, None)
    else RunUnit(Some(sizes[0].value.unit), Some(sizes[0].value.symbol))
  }

  /** The `any_none` loop and the choice that follows it; the caller has already
      returned when there are no images. */
  method ChooseRunUnit(sizes: seq<Option<PixelSize>>) returns (run: RunUnit)
    requires |sizes| > 0
    ensures run == RunUnitOf(sizes)
  {
    var anyNone := false;
    for i := 0 to |sizes|
      invariant anyNone <==> exists k :: 0 <= k < i && sizes[k].None?
    {
      if sizes[i].None? {
        anyNone := true;
      }
    }
    var first := sizes[0];
    if anyNone {
      run := RunUnit(None, None);
    } else {
      run := RunUnit(Some(first.value.unit), Some(first.value.symbol));
    }
  }

  /** The unit and the symbol are chosen together: both are set exactly when
      every image has a pixel size, and both then come from the first image. */
  lemma RunUnitTogether(sizes: seq<Option<PixelSize>>)
    requires |sizes| > 0
    ensures RunUnitOf(sizes).units.Some? <==> forall k :: 0 <= k < |sizes| ==> sizes[k].Some?
    ensures RunUnitOf(sizes).symbol.Some? <==> RunUnitOf(sizes).units.Some?
    ensures RunUnitOf(sizes).units.Some? ==>
      RunUnitOf(sizes).units.value == sizes[0].value.unit && RunUnitOf(sizes).symbol.value == sizes[0].value.symbol
  {
  }

  /** One image without a pixel size puts every image of the run in pixels: no
      length or area of any image is scaled, and the header says "pixels". */
  lemma MissingSizeMeansPixels(sizes: seq<Option<PixelSize>>, k: nat, image: Image)
    requires k < |sizes| && sizes[k].None?
    ensures ImageScale(image, RunUnitOf(sizes).units) == Scale(None, None)
    ensures UnitSymbol(RunUnitOf(sizes).symbol) == "pixels"
  {
    assert AnyMissing(sizes);
  }

  // ---------------------------------------------------------------------------
  // The image loop

  /** One step per image: its rows. */
  function ImageSteps(images: seq<Image>, params: ExportParams, units: Option<string>,
                      service: StatsService, num: Numerics): (r: seq<Result<seq<Row>>>)
    ensures |r| == |images|
  {
    seq(|images|, k requires 0 <= k < |images| => ExportData(images[k], params, units, service, num))
  }

  /** The rows of the run: every image's rows in turn, or the failure of the
      first image whose export raises. */
  function RunRows(images: seq<Image>, params: ExportParams, units: Option<string>,
                   service: StatsService, num: Numerics): Result<seq<Row>>
  {
    Concat(ImageSteps(images, params, units, service, num))
  }

  /** The log of the image loop: every image's log up to and including the
      first image whose export raises. */
  function RunLog(images: seq<Image>, params: ExportParams, units: Option<string>,
                  service: StatsService, num: Numerics): seq<Diagnostic>
  {
    if images == [] then []
    else
      var front := DropLast(images);
      if RunRows(front, params, units, service, num).Err? then RunLog(front, params, units, service, num)
      else RunLog(front, params, units, service, num) + ExportLog(Last(images), params)
  }

  /** A row of the run is a row of one of its images, and every row of every
      image is in the run (when no image fails). */
  lemma RunRowsMembers(images: seq<Image>, params: ExportParams, units: Option<string>,
                       service: StatsService, num: Numerics, row: Row)
    requires RunRows(images, params, units, service, num).Ok?
    ensures row in RunRows(images, params, units, service, num).value <==>
      exists k :: 0 <= k < |images| && ExportData(images[k], params, units, service, num).Ok?
                  && row in ExportData(images[k], params, units, service, num).value
  {
    var steps := ImageSteps(images, params, units, service, num);
    ConcatMembers(steps, row);
    assert forall k :: 0 <= k < |images| ==> steps[k] == ExportData(images[k], params, units, service, num);
  }

  /** What a run yields: the rows and the unit symbol for the header. */
  datatype Run = Run(rows: Result<seq<Row>>, symbol: Option<string>)

  /** batch_roi_export before writing: nothing when there are no images. */
  function RunOf(images: seq<Image>, sizes: seq<Option<PixelSize>>, params: ExportParams,
                 service: StatsService, num: Numerics): Option<Run>
    requires |sizes| == |images|
  {
    if images == [] then None
    else
      var unit := RunUnitOf(sizes);
      Some(Run(RunRows(images, params, unit.units, service, num), unit.symbol))
  }

  function RunLogOf(images: seq<Image>, sizes: seq<Option<PixelSize>>, params: ExportParams,
                    service: StatsService, num: Numerics): seq<Diagnostic>
    requires |sizes| == |images|
  {
    [ProcessingImages(|images|)] +
      if images == [] then [] else RunLog(images, params, RunUnitOf(sizes).units, service, num)
  }

  /** batch_roi_export up to the CSV; `sizes[k]` is what image k reports about
      its pixel size. */
  method BatchExport(images: seq<Image>, sizes: seq<Option<PixelSize>>, params: ExportParams,
                     service: StatsService, num: Numerics) returns (run: Option<Run>, log: seq<Diagnostic>)
    requires |sizes| == |images|
    ensures run == RunOf(images, sizes, params, service, num)
    ensures log == RunLogOf(images, sizes, params, service, num)
  {
    log := [ProcessingImages(|images|)];
    if |images| == 0 {
      return None, log;
    }
    var unit := ChooseRunUnit(sizes);
    var rows, imagesLog := ExportImages(images, params, unit.units, service, num);
    log := log + imagesLog;
    run := Some(Run(rows, unit.symbol));
  }

  /** The image loop: `export_data.extend(get_export_data(...))` per image. */
  method ExportImages(images: seq<Image>, params: ExportParams, units: Option<string>,
                      service: StatsService, num: Numerics) returns (rows: Result<seq<Row>>, log: seq<Diagnostic>)
    ensures rows == RunRows(images, params, units, service, num)
    ensures log == RunLog(images, params, units, service, num)
  {
    var acc: seq<Row> := [];
    log := [];
    var k := 0;
    while k < |images|
      invariant k <= |images|
      invariant RunRows(images[..k], params, units, service, num) == Ok(acc)
      invariant log == RunLog(images[..k], params, units, service, num)
    {
      var more, imageLog := GetExportData(images[k], params, units, service, num);
      ImageLoopStep(images, params, units, service, num, k, acc, log, more, imageLog);
      log := log + imageLog;
      if more.Err? {
        return Err(more.error), log;
      }
      acc := acc + more.value;
      k := k + 1;
    }
    assert images[..k] == images;
    rows := Ok(acc);
  }

  /** One turn of the image loop, after the images before k succeeded: a
      failure ends the run and its log, or the image's rows and log are appended. */
  lemma ImageLoopStep(images: seq<Image>, params: ExportParams, units: Option<string>,
                      service: StatsService, num: Numerics, k: nat, acc: seq<Row>, log: seq<Diagnostic>,
                      more: Result<seq<Row>>, imageLog: seq<Diagnostic>)
    requires k < |images|
    requires RunRows(images[..k], params, units, service, num) == Ok(acc)
    requires log == RunLog(images[..k], params, units, service, num)
    requires more == ExportData(images[k], params, units, service, num)
    requires imageLog == ExportLog(images[k], params)
    ensures more.Err? ==>
      && RunRows(images, params, units, service, num) == Err(more.error)
      && RunLog(images, params, units, service, num) == log + imageLog
    ensures more.Ok? ==>
      && RunRows(images[..k + 1], params, units, service, num) == Ok(acc + more.value)
      && RunLog(images[..k + 1], params, units, service, num) == log + imageLog
  {
    var steps := ImageSteps(images, params, units, service, num);
    ImageStepsPrefix(images, params, units, service, num, k);
    ImageStepsPrefix(images, params, units, service, num, k + 1);
    assert steps[k] == more;
    RunLogStep(images, params, units, service, num, k);
    if more.Err? {
      ConcatFailure(steps, k);
      ConcatStepFailure(steps, k);
      RunLogAfterFailure(images, params, units, service, num, k);
    } else {
      ConcatStep(steps, k, acc);
    }
  }

  /** The steps of a prefix of the images are the prefix of the steps. */
  lemma ImageStepsPrefix(images: seq<Image>, params: ExportParams, units: Option<string>,
                         service: StatsService, num: Numerics, k: nat)
    requires k <= |images|
    ensures ImageSteps(images[..k], params, units, service, num) == ImageSteps(images, params, units, service, num)[..k]
  {
  }

  /** The log after image k when the images before it succeeded. */
  lemma RunLogStep(images: seq<Image>, params: ExportParams, units: Option<string>,
                   service: StatsService, num: Numerics, k: nat)
    requires k < |images|
    requires Concat(ImageSteps(images, params, units, service, num)[..k]).Ok?
    ensures RunLog(images[..k + 1], params, units, service, num)
         == RunLog(images[..k], params, units, service, num) + ExportLog(images[k], params)
  {
    assert DropLast(images[..k + 1]) == images[..k];
    ImageStepsPrefix(images, params, units, service, num, k);
  }

  /** Once image k fails, the images after it add nothing to the log. */
  lemma {:induction false} RunLogAfterFailure(images: seq<Image>, params: ExportParams, units: Option<string>,
                                              service: StatsService, num: Numerics, k: nat)
    requires k < |images|
    requires Concat(ImageSteps(images, params, units, service, num)[..k + 1]).Err?
    ensures RunLog(images, params, units, service, num) == RunLog(images[..k + 1], params, units, service, num)
    decreases |images|
  {
    if k + 1 < |images| {
      var front := DropLast(images);
      assert front[..k + 1] == images[..k + 1];
      ImageStepsPrefix(images, params, units, service, num, k + 1);
      ImageStepsPrefix(front, params, units, service, num, k + 1);
      ImageStepsPrefix(images, params, units, service, num, |front|);
      assert ImageSteps(front, params, units, service, num)[..k + 1] == ImageSteps(images, params, units, service, num)[..k + 1];
      RunLogAfterFailure(front, params, units, service, num, k);
      ConcatPrefixFailure(ImageSteps(front, params, units, service, num), k + 1);
    } else {
      assert images[..k + 1] == images;
    }
  }
}
