/** The keys and cells of one measurement row (the `row_data` dict of
    scripts/extract_tagged_rois.py) and the fixed column list COLUMN_NAMES. */
module RowData {

  /** The dict keys the script writes. `TextValue` is the key 'Text' that
      add_shape_coords sets; it is not a column, so it never reaches the CSV. */
  datatype Field =
    | ImageId | ImageName | RoiId | ShapeId | Type | Text | Z | T | Channel
    | Area | Length | StatPoints | Min | Max | Sum | Mean | StdDev
    | X | Y | Width | Height | RadiusX | RadiusY | X1 | Y1 | X2 | Y2 | PointsText
    | TextValue

  /** A cell value: a Python int, a float, or a str ("" stands for a blank). */
  datatype Cell = IntCell(i: int) | RealCell(r: real) | StrCell(s: string)

  const Blank: Cell := StrCell("")

  type Row = map<Field, Cell>

  /** COLUMN_NAMES, as fields, in CSV order. */
  const Columns: seq<Field> := [
    ImageId, ImageName, RoiId, ShapeId, Type, Text, Z, T, Channel,
    Area, Length, StatPoints, Min, Max, Sum, Mean, StdDev,
    X, Y, Width, Height, RadiusX, RadiusY, X1, Y1, X2, Y2, PointsText]

  /** The dict key of each field. */
  function Name(f: Field): string
  {
    match f
    case ImageId => "image_id"
    case ImageName => "image_name"
    case RoiId => "roi_id"
    case ShapeId => "shape_id"
    case Type => "type"
    case Text => "text"
    case Z => "z"
    case T => "t"
    case Channel => "channel"
    case Area => "area"
    case Length => "length"
    case StatPoints => "points"
    case Min => "min"
    case Max => "max"
    case Sum => "sum"
    case Mean => "mean"
    case StdDev => "std_dev"
    case X => "X"
    case Y => "Y"
    case Width => "Width"
    case Height => "Height"
    case RadiusX => "RadiusX"
    case RadiusY => "RadiusY"
    case X1 => "X1"
    case Y1 => "Y1"
    case X2 => "X2"
    case Y2 => "Y2"
    case PointsText => "Points"
    case TextValue => "Text"
  }
}
