/** Per-variant geometry of one shape (scripts/extract_tagged_rois.py,
    add_shape_coords): coordinates, area and length, with the pixel-size
    scaling of the run. */
module Geometry {
  import opened Common
  import opened Numerics
  import opened PointList
  import opened RowData

  /** The pixel size of the image in the run's unit, per axis; None when the
      run uses pixels or the image reports no size. */
  datatype Scale = Scale(px: Option<real>, py: Option<real>)

  /** The shape classes the script tells apart; `Other` is any further class. */
  datatype ShapeKind =
    | Rectangle(x: real, y: real, width: real, height: real)
    | Mask(x: real, y: real, width: real, height: real)
    | Ellipse(x: real, y: real, radiusX: real, radiusY: real)
    | Point(x: real, y: real)
    | Label(x: real, y: real)
    | Line(x1: real, y1: real, x2: real, y2: real)
    | Polygon(points: string)
    | Polyline(points: string)
    | Other(className: string)

  datatype Shape = Shape(
    id: int,
    text: Option<string>,
    theZ: Option<nat>,
    theT: Option<nat>,
    kind: ShapeKind)

  datatype Vertex = Vertex(x: real, y: real)

  // ---------------------------------------------------------------------------
  // Lengths

  /** A pixel difference scaled by the axis pixel size, when that size is not None. */
  function Scaled(d: real, size: Option<real>): real
  {
    if size.Some? then d * size.value else d
  }

  /** The length of the segment a-b, each axis scaled on its own. */
  function SegmentLength(a: Vertex, b: Vertex, scale: Scale, num: Numerics): real
  {
    num.sqrt(SquaredDistance(a, b, scale))
  }

  /** dx*dx + dy*dy for the scaled differences of a and b. */
  function SquaredDistance(a: Vertex, b: Vertex, scale: Scale): real
  {
    Scaled(a.x - b.x, scale.px) * Scaled(a.x - b.x, scale.px)
      + Scaled(a.y - b.y, scale.py) * Scaled(a.y - b.y, scale.py)
  }

  /** A segment's length is the non-negative root of the sum of the squared
      scaled differences, and does not depend on which end comes first. */
  lemma SegmentLengthSpec(a: Vertex, b: Vertex, scale: Scale, num: Numerics)
    requires num.Valid()
    ensures var r := SegmentLength(a, b, scale, num);
      var sx := if scale.px.Some? then scale.px.value else 1.0;
      var sy := if scale.py.Some? then scale.py.value else 1.0;
      && r >= 0.0
      && r * r == ((a.x - b.x) * sx) * ((a.x - b.x) * sx) + ((a.y - b.y) * sy) * ((a.y - b.y) * sy)
    ensures SegmentLength(b, a, scale, num) == SegmentLength(a, b, scale, num)
  {
    var sx := Scaled(a.x - b.x, scale.px);
    var sy := Scaled(a.y - b.y, scale.py);
    assert sx * sx >= 0.0 && sy * sy >= 0.0;
    assert Scaled(b.x - a.x, scale.px) * Scaled(b.x - a.x, scale.px)
        == Scaled(a.x - b.x, scale.px) * Scaled(a.x - b.x, scale.px);
    assert Scaled(b.y - a.y, scale.py) * Scaled(b.y - a.y, scale.py)
        == Scaled(a.y - b.y, scale.py) * Scaled(a.y - b.y, scale.py);
    assert SquaredDistance(b, a, scale) == SquaredDistance(a, b, scale);
  }

  /** The segment lengths of a polyline, one per consecutive pair of vertices. */
  function SegmentLengths(vs: seq<Vertex>, scale: Scale, num: Numerics): (r: seq<real>)
    ensures |r| == if |vs| < 2 then 0 else |vs| - 1
  {
    if |vs| < 2 then []
    else SegmentLengths(DropLast(vs), scale, num) + [SegmentLength(vs[|vs| - 2], Last(vs), scale, num)]
  }

  /** Python's `sum`. */
  function Sum(xs: seq<real>): real
  {
    if xs == [] then 0.0 else Sum(DropLast(xs)) + Last(xs)
  }

  /** The length of a polyline: the sum of its segment lengths. */
  function PathLength(vs: seq<Vertex>, scale: Scale, num: Numerics): real
  {
    Sum(SegmentLengths(vs, scale, num))
  }

  /** A single vertex has length zero; each further vertex adds exactly the
      segment from the previous last vertex. */
  lemma PathLengthGrows(vs: seq<Vertex>, v: Vertex, scale: Scale, num: Numerics)
    ensures PathLength([v], scale, num) == 0.0
    ensures |vs| >= 1 ==>
      PathLength(vs + [v], scale, num) == PathLength(vs, scale, num) + SegmentLength(Last(vs), v, scale, num)
  {
    if |vs| >= 1 {
      var ws := vs + [v];
      assert DropLast(ws) == vs;
      assert ws[|ws| - 2] == Last(vs);
    }
  }

  lemma {:induction false} SumNonNegative(xs: seq<real>)
    requires forall k :: 0 <= k < |xs| ==> xs[k] >= 0.0
    ensures Sum(xs) >= 0.0
    decreases |xs|
  {
    if xs != [] {
      SumNonNegative(DropLast(xs));
    }
  }

  lemma PathLengthNonNegative(vs: seq<Vertex>, scale: Scale, num: Numerics)
    requires num.Valid()
    ensures PathLength(vs, scale, num) >= 0.0
  {
    var ls := SegmentLengths(vs, scale, num);
    forall k | 0 <= k < |ls| ensures ls[k] >= 0.0 {
      SegmentLengthsAt(vs, scale, num, k);
      SegmentLengthSpec(vs[k], vs[k + 1], scale, num);
    }
    SumNonNegative(ls);
  }

  lemma {:induction false} SegmentLengthsAt(vs: seq<Vertex>, scale: Scale, num: Numerics, k: nat)
    requires k + 1 < |vs|
    ensures SegmentLengths(vs, scale, num)[k] == SegmentLength(vs[k], vs[k + 1], scale, num)
    decreases |vs|
  {
    if k + 2 < |vs| {
      SegmentLengthsAt(DropLast(vs), scale, num, k);
    }
  }

  /** `s[::-1]` */
  function Reverse<T>(s: seq<T>): (r: seq<T>)
    ensures |r| == |s|
  {
    if s == [] then [] else [Last(s)] + Reverse(DropLast(s))
  }

  lemma {:induction false} ReverseAt<T>(s: seq<T>, i: nat)
    requires i < |s|
    ensures Reverse(s)[i] == s[|s| - 1 - i]
    decreases |s|
  {
    if i > 0 {
      ReverseAt(DropLast(s), i - 1);
    }
  }

  /** Measuring from the first vertex: the first segment plus the rest. */
  lemma {:induction false} PathLengthFront(v: Vertex, ws: seq<Vertex>, scale: Scale, num: Numerics)
    requires |ws| >= 1
    ensures PathLength([v] + ws, scale, num) == SegmentLength(v, ws[0], scale, num) + PathLength(ws, scale, num)
    decreases |ws|
  {
    var vs := [v] + ws;
    if |ws| == 1 {
      assert DropLast(vs) == [v];
    } else {
      PathLengthFront(v, DropLast(ws), scale, num);
      assert DropLast(vs) == [v] + DropLast(ws);
      assert vs[|vs| - 2] == ws[|ws| - 2];
    }
  }

  /** A polyline is as long walked backwards as forwards. */
  lemma {:induction false} PathLengthReverse(vs: seq<Vertex>, scale: Scale, num: Numerics)
    requires num.Valid()
    ensures PathLength(Reverse(vs), scale, num) == PathLength(vs, scale, num)
    decreases |vs|
  {
    if |vs| >= 2 {
      var init := DropLast(vs);
      PathLengthReverse(init, scale, num);
      ReverseAt(init, 0);
      PathLengthFront(Last(vs), Reverse(init), scale, num);
      SegmentLengthSpec(Last(vs), Last(init), scale, num);
    } else if |vs| == 1 {
      assert Reverse(vs) == vs;
    }
  }

  // ---------------------------------------------------------------------------
  // The shoelace formula

  /** The term x_i * y_{i+1} - x_{i+1} * y_i of the shoelace sum. */
  function Cross(a: Vertex, b: Vertex): real
  {
    a.x * b.y - b.x * a.y
  }

  /** The shoelace terms of the open chain v0-v1-...-v(n-1). */
  function ChainSum(vs: seq<Vertex>): real
  {
    if |vs| < 2 then 0.0 else ChainSum(DropLast(vs)) + Cross(vs[|vs| - 2], Last(vs))
  }

  /** The shoelace sum over the closed ring: the chain and the closing edge from
      the last vertex back to the first (the index wraps). */
  function RingSum(vs: seq<Vertex>): real
  {
    if vs == [] then 0.0 else ChainSum(vs) + Cross(Last(vs), vs[0])
  }

  /** `abs(0.5 * total)` */
  function ShoelaceArea(vs: seq<Vertex>): (area: real)
    ensures area >= 0.0
  {
    var t := 0.5 * RingSum(vs);
    if t < 0.0 then -t else t
  }

  lemma {:induction false} ChainSumFront(v: Vertex, ws: seq<Vertex>)
    requires |ws| >= 1
    ensures ChainSum([v] + ws) == Cross(v, ws[0]) + ChainSum(ws)
    decreases |ws|
  {
    var vs := [v] + ws;
    if |ws| == 1 {
      assert DropLast(vs) == [v];
    } else {
      ChainSumFront(v, DropLast(ws));
      assert DropLast(vs) == [v] + DropLast(ws);
      assert vs[|vs| - 2] == ws[|ws| - 2];
    }
  }

  /** Walking the chain backwards negates its shoelace sum. */
  lemma {:induction false} ChainSumReverse(vs: seq<Vertex>)
    ensures ChainSum(Reverse(vs)) == -ChainSum(vs)
    decreases |vs|
  {
    if |vs| >= 2 {
      var init := DropLast(vs);
      ChainSumReverse(init);
      ReverseAt(init, 0);
      ChainSumFront(Last(vs), Reverse(init));
    } else if |vs| == 1 {
      assert Reverse(vs) == vs;
    }
  }

  /** Reversing the vertex order negates the ring sum, so the polygon area does
      not depend on the winding direction. */
  lemma PolygonAreaReverse(vs: seq<Vertex>)
    ensures RingSum(Reverse(vs)) == -RingSum(vs)
    ensures ShoelaceArea(Reverse(vs)) == ShoelaceArea(vs)
  {
    if vs != [] {
      ChainSumReverse(vs);
      ReverseAt(vs, 0);
      ReverseAt(vs, |vs| - 1);
    }
  }

  /** The ring sum of four vertices, written out. */
  lemma RingSumOfFour(a: Vertex, b: Vertex, c: Vertex, d: Vertex)
    ensures RingSum([a, b, c, d]) == Cross(a, b) + Cross(b, c) + Cross(c, d) + Cross(d, a)
  {
    assert ChainSum([a]) == 0.0;
    assert ChainSum([a, b]) == Cross(a, b) by { assert DropLast([a, b]) == [a]; }
    assert ChainSum([a, b, c]) == Cross(a, b) + Cross(b, c) by { assert DropLast([a, b, c]) == [a, b]; }
    assert ChainSum([a, b, c, d]) == Cross(a, b) + Cross(b, c) + Cross(c, d) by {
      assert DropLast([a, b, c, d]) == [a, b, c];
    }
  }

  /** The 4 by 3 rectangle has area 12 in either winding. */
  lemma PolygonAreaExample()
    ensures ShoelaceArea([Vertex(0.0, 0.0), Vertex(4.0, 0.0), Vertex(4.0, 3.0), Vertex(0.0, 3.0)]) == 12.0
    ensures ShoelaceArea([Vertex(0.0, 3.0), Vertex(4.0, 3.0), Vertex(4.0, 0.0), Vertex(0.0, 0.0)]) == 12.0
  {
    RingSumOfFour(Vertex(0.0, 0.0), Vertex(4.0, 0.0), Vertex(4.0, 3.0), Vertex(0.0, 3.0));
    RingSumOfFour(Vertex(0.0, 3.0), Vertex(4.0, 3.0), Vertex(4.0, 0.0), Vertex(0.0, 0.0));
  }

  // ---------------------------------------------------------------------------
  // From parsed coordinates to vertices, as the two loops of add_shape_coords read them

  /** Every coordinate has a second number, so `coord[1]` does not raise. */
  predicate AllPairs(coords: seq<seq<real>>)
  {
    forall k :: 0 <= k < |coords| ==> |coords[k]| >= 2
  }

  function Vertices(coords: seq<seq<real>>): (vs: seq<Vertex>)
    requires AllPairs(coords)
    ensures |vs| == |coords|
    ensures forall k :: 0 <= k < |coords| ==> vs[k] == Vertex(coords[k][0], coords[k][1])
  {
    seq(|coords|, k requires 0 <= k < |coords| => Vertex(coords[k][0], coords[k][1]))
  }

  /** The polyline length cell of the script: segments only exist from two points
      on, and each needs both numbers of both ends. Without segments, `sum` of the
      empty list is the int 0; otherwise it is a float. */
  function PolylineValue(coords: seq<seq<real>>, scale: Scale, num: Numerics): Result<Cell>
  {
    if |coords| < 2 then Ok(IntCell(0))
    else if AllPairs(coords) then Ok(RealCell(PathLength(Vertices(coords), scale, num)))
    else Err(MissingCoordinate)
  }

  /** Python's `sum` of a list of floats: the int 0 for the empty list. */
  function SumCell(xs: seq<real>): Cell
  {
    if xs == [] then IntCell(0) else RealCell(Sum(xs))
  }

  /** The polygon area of the script, before scaling. */
  function PolygonValue(coords: seq<seq<real>>): Result<real>
  {
    if AllPairs(coords) then Ok(ShoelaceArea(Vertices(coords))) else Err(MissingCoordinate)
  }

  /** One more coordinate adds one segment, from the previous last one. */
  lemma SegmentLengthsStep(coords: seq<seq<real>>, i: nat, scale: Scale, num: Numerics)
    requires i + 1 < |coords| && AllPairs(coords[..i + 2])
    ensures AllPairs(coords[..i + 1])
    ensures SegmentLengths(Vertices(coords[..i + 2]), scale, num)
         == SegmentLengths(Vertices(coords[..i + 1]), scale, num)
            + [SegmentLength(Vertex(coords[i][0], coords[i][1]), Vertex(coords[i + 1][0], coords[i + 1][1]), scale, num)]
  {
    var vs := Vertices(coords[..i + 2]);
    assert DropLast(vs) == Vertices(coords[..i + 1]);
  }

  /** One more coordinate adds one shoelace term, from the previous last one. */
  lemma ChainSumStep(coords: seq<seq<real>>, c: nat)
    requires c + 1 < |coords| && AllPairs(coords[..c + 2])
    ensures AllPairs(coords[..c + 1])
    ensures ChainSum(Vertices(coords[..c + 2]))
         == ChainSum(Vertices(coords[..c + 1]))
            + Cross(Vertex(coords[c][0], coords[c][1]), Vertex(coords[c + 1][0], coords[c + 1][1]))
  {
    var vs := Vertices(coords[..c + 2]);
    assert DropLast(vs) == Vertices(coords[..c + 1]);
  }

  /** The polyline loop: append one segment length per consecutive pair, then sum. */
  method PolylineLength(coords: seq<seq<real>>, scale: Scale, num: Numerics) returns (r: Result<Cell>)
    requires forall k :: 0 <= k < |coords| ==> |coords[k]| >= 1
    ensures r == PolylineValue(coords, scale, num)
  {
    var lengths: seq<real> := [];
    var i := 0;
    while i < |coords| - 1
      invariant 0 <= i && (|coords| >= 2 ==> i <= |coords| - 1)
      invariant |coords| < 2 ==> i == 0
      invariant PolylinePrefix(coords, i, lengths, scale, num)
    {
      if |coords[i]| < 2 || |coords[i + 1]| < 2 {
        assert !AllPairs(coords);
        return Err(MissingCoordinate);
      }
      var dx := coords[i][0] - coords[i + 1][0];
      var dy := coords[i][1] - coords[i + 1][1];
      dx := Scaled(dx, scale.px);
      dy := Scaled(dy, scale.py);
      assert dx * dx + dy * dy == SquaredDistance(Vertex(coords[i][0], coords[i][1]), Vertex(coords[i + 1][0], coords[i + 1][1]), scale);
      PolylinePrefixStep(coords, i, lengths, scale, num);
      lengths := lengths + [num.sqrt(dx * dx + dy * dy)];
      i := i + 1;
    }
    if |coords| >= 2 {
      assert coords[..|coords|] == coords;
      assert |lengths| == |coords| - 1;
    }
    r := Ok(SumCell(lengths));
  }

  /** The polyline loop state after i steps: the segment lengths of the first i+1 coordinates. */
  predicate PolylinePrefix(coords: seq<seq<real>>, i: nat, lengths: seq<real>, scale: Scale, num: Numerics)
  {
    if i == 0 then lengths == []
    else (i < |coords| && AllPairs(coords[..i + 1])
      && lengths == SegmentLengths(Vertices(coords[..i + 1]), scale, num))
  }

  lemma PolylinePrefixStep(coords: seq<seq<real>>, i: nat, lengths: seq<real>, scale: Scale, num: Numerics)
    requires i + 1 < |coords| && |coords[i]| >= 2 && |coords[i + 1]| >= 2
    requires PolylinePrefix(coords, i, lengths, scale, num)
    ensures PolylinePrefix(coords, i + 1,
      lengths + [SegmentLength(Vertex(coords[i][0], coords[i][1]), Vertex(coords[i + 1][0], coords[i + 1][1]), scale, num)],
      scale, num)
  {
    assert AllPairs(coords[..i + 2]);
    SegmentLengthsStep(coords, i, scale, num);
    if i == 0 {
      assert |coords[..1]| == 1;
    }
  }

  /** The polygon loop: accumulate one shoelace term per vertex, the last one
      wrapping to the first vertex, then halve and take the absolute value. */
  method PolygonArea(coords: seq<seq<real>>) returns (r: Result<real>)
    requires forall k :: 0 <= k < |coords| ==> |coords[k]| >= 1
    ensures r == PolygonValue(coords)
  {
    var n := |coords|;
    var total := 0.0;
    var c := 0;
    while c < n
      invariant 0 <= c <= n
      invariant PolygonPrefix(coords, c, total)
    {
      NextIndexMod(c, n);
      var coord := coords[c];
      var next := coords[(c + 1) % n];
      if |next| < 2 || |coord| < 2 {
        assert !AllPairs(coords);
        return Err(MissingCoordinate);
      }
      PolygonPrefixStep(coords, c, total);
      CrossOfCoords(coord, next);
      total := total + ((coord[0] * next[1]) - (next[0] * coord[1]));
      c := c + 1;
    }
    assert PolygonPrefix(coords, n, total);
    var half := 0.5 * total;
    r := Ok(if half < 0.0 then -half else half);
  }

  lemma CrossOfCoords(coord: seq<real>, next: seq<real>)
    requires |coord| >= 2 && |next| >= 2
    ensures Cross(Vertex(coord[0], coord[1]), Vertex(next[0], next[1])) == (coord[0] * next[1]) - (next[0] * coord[1])
  {
  }

  /** The vertex after vertex c of a ring of n: the next one, or the first after the last. */
  function NextIndex(c: nat, n: nat): nat
  {
    if c + 1 < n then c + 1 else 0
  }

  lemma NextIndexMod(c: nat, n: nat)
    requires c < n
    ensures (c + 1) % n == NextIndex(c, n)
  {
    if c + 1 == n {
      assert (c + 1) % n == n % n == 0;
    }
  }

  /** The polygon loop state after c steps: the shoelace terms of the first c
      vertices, the last term closing the ring once every vertex is seen. */
  predicate PolygonPrefix(coords: seq<seq<real>>, c: nat, total: real)
  {
    if c == 0 then total == 0.0
    else if c < |coords| then AllPairs(coords[..c + 1]) && total == ChainSum(Vertices(coords[..c + 1]))
    else c == |coords| && AllPairs(coords) && total == RingSum(Vertices(coords))
  }

  lemma PolygonPrefixStep(coords: seq<seq<real>>, c: nat, total: real)
    requires c < |coords| && |coords[c]| >= 2 && |coords[NextIndex(c, |coords|)]| >= 2
    requires PolygonPrefix(coords, c, total)
    ensures var next := coords[NextIndex(c, |coords|)];
      PolygonPrefix(coords, c + 1, total + Cross(Vertex(coords[c][0], coords[c][1]), Vertex(next[0], next[1])))
  {
    if c + 1 < |coords| {
      ChainStep(coords, c, total);
    } else {
      RingStep(coords, c, total);
    }
  }

  lemma ChainStep(coords: seq<seq<real>>, c: nat, total: real)
    requires c + 1 < |coords| && |coords[c]| >= 2 && |coords[c + 1]| >= 2
    requires PolygonPrefix(coords, c, total)
    ensures PolygonPrefix(coords, c + 1,
      total + Cross(Vertex(coords[c][0], coords[c][1]), Vertex(coords[c + 1][0], coords[c + 1][1])))
  {
    assert AllPairs(coords[..c + 2]);
    ChainSumStep(coords, c);
    if c == 0 {
      assert |coords[..1]| == 1;
    }
  }

  lemma RingStep(coords: seq<seq<real>>, c: nat, total: real)
    requires c + 1 == |coords| && |coords[c]| >= 2 && |coords[0]| >= 2
    requires PolygonPrefix(coords, c, total)
    ensures PolygonPrefix(coords, c + 1,
      total + Cross(Vertex(coords[c][0], coords[c][1]), Vertex(coords[0][0], coords[0][1])))
  {
    assert coords[..c + 1] == coords;
  }

  // ---------------------------------------------------------------------------
  // The dict entries of one shape

  /** Python truthiness of a pixel size: present and non-zero. */
  predicate Truthy(size: Option<real>)
  {
    size.Some? && size.value != 0.0
  }

  /** The final step: the area, if any, times px*py when both are truthy. */
  function ScaleArea(row: Row, scale: Scale): Row
  {
    if Area in row && row[Area].RealCell? && Truthy(scale.px) && Truthy(scale.py)
    then row[Area := RealCell(ScaledArea(row[Area].r, scale))]
    else row
  }

  /** A pixel area in the run's unit: times px*py when both are truthy, as it is otherwise. */
  function ScaledArea(a: real, scale: Scale): real
  {
    if Truthy(scale.px) && Truthy(scale.py) then a * scale.px.value * scale.py.value else a
  }

  lemma ScaledAreaOf(a: real, scale: Scale)
    requires Truthy(scale.px) && Truthy(scale.py)
    ensures ScaledArea(a, scale) == a * scale.px.value * scale.py.value
  {
  }

  /** The 'Text' entry, written when the shape has a text value. */
  function WithText(row: Row, shape: Shape): Row
  {
    if shape.text.Some? then row[TextValue := StrCell(shape.text.value)] else row
  }

  /** The entries of the shape's variant, written in the order the script writes
      them; the point-list variants can fail. */
  function WithVariantEntries(row: Row, shape: Shape, scale: Scale, num: Numerics): Result<Row>
  {
    if shape.kind.Polyline? || shape.kind.Polygon? then PointListEntries(row, shape.kind, scale, num)
    else Ok(FixedEntries(row, shape.kind, scale, num))
  }

  /** The entries of the classes whose geometry is given by numbers. */
  function FixedEntries(row: Row, kind: ShapeKind, scale: Scale, num: Numerics): Row
  {
    match kind
    case Rectangle(x, y, w, h) =>
      row[X := RealCell(x)][Y := RealCell(y)]
         [Width := RealCell(w)][Height := RealCell(h)][Area := RealCell(kind.width * kind.height)]
    case Mask(x, y, w, h) =>
      row[X := RealCell(x)][Y := RealCell(y)]
         [Width := RealCell(w)][Height := RealCell(h)][Area := RealCell(kind.width * kind.height)]
    case Ellipse(x, y, rx, ry) =>
      row[X := RealCell(x)][Y := RealCell(y)]
         [RadiusX := RealCell(rx)][RadiusY := RealCell(ry)][Area := RealCell(num.pi * kind.radiusX * kind.radiusY)]
    case Point(x, y) => row[X := RealCell(x)][Y := RealCell(y)]
    case Label(x, y) => row[X := RealCell(x)][Y := RealCell(y)]
    case Line(x1, y1, x2, y2) =>
      row[X1 := RealCell(x1)][X2 := RealCell(x2)][Y1 := RealCell(y1)][Y2 := RealCell(y2)]
         [Length := RealCell(SegmentLength(Vertex(x1, y1), Vertex(x2, y2), scale, num))]
    case _ => row
  }

  /** The key a point list's measurement goes to. */
  function PointListField(kind: ShapeKind): Field
  {
    if kind.Polyline? then Length else Area
  }

  /** The entries of a polygon or polyline: the quoted point text, then the
      length or the area of the parsed coordinates. */
  function PointListEntries(row: Row, kind: ShapeKind, scale: Scale, num: Numerics): Result<Row>
    requires kind.Polyline? || kind.Polygon?
  {
    var pointList := PointListText(kind.points);
    var coords :- ParseCoords(pointList, num);
    var value :- Measure(kind, coords, scale, num);
    Ok(row[PointsText := StrCell(Quote(pointList))][PointListField(kind) := value])
  }

  /** The polyline length cell or the polygon area cell of the parsed coordinates. */
  function Measure(kind: ShapeKind, coords: seq<seq<real>>, scale: Scale, num: Numerics): Result<Cell>
  {
    if kind.Polyline? then PolylineValue(coords, scale, num)
    else
      var area :- PolygonValue(coords);
      Ok(RealCell(area))
  }

  /** The row after add_shape_coords. */
  function WithShapeCoords(row: Row, shape: Shape, scale: Scale, num: Numerics): Result<Row>
  {
    var r :- WithVariantEntries(WithText(row, shape), shape, scale, num);
    Ok(ScaleArea(r, scale))
  }

  /** add_shape_coords: the optional text, the entries of the shape's class, and
      the area scaled by both pixel sizes when both are truthy. */
  method AddShapeCoords(shape: Shape, row: Row, scale: Scale, num: Numerics) returns (result: Result<Row>)
    ensures result == WithShapeCoords(row, shape, scale, num)
  {
    var r := row;
    if shape.text.Some? {
      r := r[TextValue := StrCell(shape.text.value)];
    }
    assert r == WithText(row, shape);
    var entries := AddVariantEntries(shape, r, scale, num);
    if entries.Err? {
      return Err(entries.error);
    }
    r := entries.value;
    if Area in r && r[Area].RealCell? && Truthy(scale.px) && Truthy(scale.py) {
      var area := r[Area].r;
      ScaledAreaOf(area, scale);
      r := r[Area := RealCell(area * scale.px.value * scale.py.value)];
      assert r == ScaleArea(entries.value, scale);
    }
    result := Ok(r);
  }

  /** The class tests of add_shape_coords, one after the other, each filling in
      the entries of its variant. */
  method AddVariantEntries(shape: Shape, row: Row, scale: Scale, num: Numerics) returns (result: Result<Row>)
    ensures result == WithVariantEntries(row, shape, scale, num)
  {
    var r := row;
    if shape.kind.Rectangle? || shape.kind.Ellipse? || shape.kind.Point? || shape.kind.Label? || shape.kind.Mask? {
      r := r[X := RealCell(shape.kind.x)][Y := RealCell(shape.kind.y)];
    }
    if shape.kind.Rectangle? || shape.kind.Mask? {
      r := r[Width := RealCell(shape.kind.width)][Height := RealCell(shape.kind.height)];
      r := r[Area := RealCell(shape.kind.width * shape.kind.height)];
    }
    if shape.kind.Ellipse? {
      r := r[RadiusX := RealCell(shape.kind.radiusX)][RadiusY := RealCell(shape.kind.radiusY)];
      r := r[Area := RealCell(num.pi * shape.kind.radiusX * shape.kind.radiusY)];
    }
    if shape.kind.Line? {
      r := r[X1 := RealCell(shape.kind.x1)][X2 := RealCell(shape.kind.x2)][Y1 := RealCell(shape.kind.y1)][Y2 := RealCell(shape.kind.y2)];
      var dx := shape.kind.x1 - shape.kind.x2;
      dx := Scaled(dx, scale.px);
      var dy := shape.kind.y1 - shape.kind.y2;
      dy := Scaled(dy, scale.py);
      assert dx * dx + dy * dy == SquaredDistance(Vertex(shape.kind.x1, shape.kind.y1), Vertex(shape.kind.x2, shape.kind.y2), scale);
      r := r[Length := RealCell(num.sqrt(dx * dx + dy * dy))];
    }
    var pointList := "";
    if shape.kind.Polygon? || shape.kind.Polyline? {
      pointList := PointListText(shape.kind.points);
      r := r[PointsText := StrCell(Quote(pointList))];
    }
    if shape.kind.Polyline? {
      var coords := ParseCoords(pointList, num);
      if coords.Err? {
        return Err(coords.error);
      }
      ParseCoordsShape(pointList, num);
      var length := PolylineLength(coords.value, scale, num);
      if length.Err? {
        return Err(length.error);
      }
      r := r[Length := length.value];
    }
    if shape.kind.Polygon? {
      var coords := ParseCoords(pointList, num);
      if coords.Err? {
        return Err(coords.error);
      }
      ParseCoordsShape(pointList, num);
      var area := PolygonArea(coords.value);
      if area.Err? {
        return Err(area.error);
      }
      r := r[Area := RealCell(area.value)];
    }
    ghost var spec := WithVariantEntries(row, shape, scale, num);
    if shape.kind.Rectangle? || shape.kind.Mask? || shape.kind.Ellipse? {
      assert spec.Ok? && r[Area] == spec.value[Area];
    }
    result := Ok(r);
  }

  // ---------------------------------------------------------------------------
  // What add_shape_coords promises

  /** The geometry keys each class sets, as a reference table. */
  function VariantFields(kind: ShapeKind): set<Field>
  {
    match kind
    case Rectangle(_, _, _, _) => {X, Y, Width, Height, Area}
    case Mask(_, _, _, _) => {X, Y, Width, Height, Area}
    case Ellipse(_, _, _, _) => {X, Y, RadiusX, RadiusY, Area}
    case Point(_, _) => {X, Y}
    case Label(_, _) => {X, Y}
    case Line(_, _, _, _) => {X1, Y1, X2, Y2, Length}
    case Polyline(_) => {PointsText, Length}
    case Polygon(_) => {PointsText, Area}
    case Other(_) => {}
  }

  /** The classes that set an area. */
  predicate HasArea(kind: ShapeKind)
  {
    kind.Rectangle? || kind.Mask? || kind.Ellipse? || kind.Polygon?
  }

  /** Only a point list can make add_shape_coords fail. */
  lemma ShapeCoordsFailure(row: Row, shape: Shape, scale: Scale, num: Numerics)
    ensures WithShapeCoords(row, shape, scale, num).Err? ==> shape.kind.Polyline? || shape.kind.Polygon?
  {
  }

  /** The row gains exactly the text key (when there is a text) and the keys of
      the shape's class; every other entry keeps its value, except an area the
      row already held, which the final scaling may rescale. */
  lemma ShapeCoordsFields(row: Row, shape: Shape, scale: Scale, num: Numerics)
    requires WithShapeCoords(row, shape, scale, num).Ok?
    ensures var r := WithShapeCoords(row, shape, scale, num).value;
      && r.Keys == row.Keys + (if shape.text.Some? then {TextValue} else {}) + VariantFields(shape.kind)
      && (forall f :: f in row && f !in VariantFields(shape.kind) && f != TextValue && f != Area ==> r[f] == row[f])
      && (shape.text.Some? ==> r[TextValue] == StrCell(shape.text.value))
  {
    var t := WithText(row, shape);
    TextFields(row, shape);
    VariantEntriesFields(t, shape, scale, num);
    var v := WithVariantEntries(t, shape, scale, num).value;
    assert WithShapeCoords(row, shape, scale, num).value == ScaleArea(v, scale);
    ScaleAreaFields(v, scale);
    if shape.text.Some? {
      TextNotVariantField(shape.kind);
      assert t[TextValue] == StrCell(shape.text.value);
      assert v[TextValue] == t[TextValue];
    }
  }

  lemma TextFields(row: Row, shape: Shape)
    ensures WithText(row, shape).Keys == row.Keys + (if shape.text.Some? then {TextValue} else {})
    ensures forall f :: f in row && f != TextValue ==> WithText(row, shape)[f] == row[f]
  {
  }

  lemma TextNotVariantField(kind: ShapeKind)
    ensures TextValue !in VariantFields(kind) && Area != TextValue
  {
  }

  /** The final scaling touches the area entry only. */
  lemma ScaleAreaFields(row: Row, scale: Scale)
    ensures ScaleArea(row, scale).Keys == row.Keys
    ensures forall f :: f in row && f != Area ==> ScaleArea(row, scale)[f] == row[f]
  {
  }

  lemma VariantEntriesFields(row: Row, shape: Shape, scale: Scale, num: Numerics)
    requires WithVariantEntries(row, shape, scale, num).Ok?
    ensures var r := WithVariantEntries(row, shape, scale, num).value;
      && r.Keys == row.Keys + VariantFields(shape.kind)
      && (forall f :: f in row && f !in VariantFields(shape.kind) ==> r[f] == row[f])
  {
    if shape.kind.Polyline? || shape.kind.Polygon? {
      assert WithVariantEntries(row, shape, scale, num) == PointListEntries(row, shape.kind, scale, num);
      PointListVariantFields(shape.kind);
      PointListEntriesFields(row, shape.kind, scale, num);
    } else {
      FixedEntriesFields(row, shape.kind, scale, num);
    }
  }

  lemma PointListVariantFields(kind: ShapeKind)
    requires kind.Polyline? || kind.Polygon?
    ensures VariantFields(kind) == {PointsText, PointListField(kind)}
  {
  }

  lemma FixedEntriesFields(row: Row, kind: ShapeKind, scale: Scale, num: Numerics)
    requires !kind.Polyline? && !kind.Polygon?
    ensures var r := FixedEntries(row, kind, scale, num);
      && r.Keys == row.Keys + VariantFields(kind)
      && (forall f :: f in row && f !in VariantFields(kind) ==> r[f] == row[f])
  {
  }

  lemma PointListEntriesFields(row: Row, kind: ShapeKind, scale: Scale, num: Numerics)
    requires kind.Polyline? || kind.Polygon?
    requires PointListEntries(row, kind, scale, num).Ok?
    ensures var r := PointListEntries(row, kind, scale, num).value;
      && r.Keys == row.Keys + {PointsText, PointListField(kind)}
      && (forall f :: f in row && f != PointsText && f != PointListField(kind) ==> r[f] == row[f])
  {
    var text := PointListText(kind.points);
    var v := PointListEntriesShape(row, kind, scale, num);
    TwoUpdates(row, PointsText, PointListField(kind), StrCell(Quote(text)), v);
  }

  /** A successful point list: the coordinates parse, their measure exists, and
      the row gains the quoted text and the measure. The measure is a float,
      except for a polyline of a single point, whose length is the int 0. */
  lemma PointListEntriesShape(row: Row, kind: ShapeKind, scale: Scale, num: Numerics) returns (v: Cell)
    requires kind.Polyline? || kind.Polygon?
    requires PointListEntries(row, kind, scale, num).Ok?
    ensures var coords := ParseCoords(PointListText(kind.points), num);
      && coords.Ok?
      && Measure(kind, coords.value, scale, num) == Ok(v)
      && PointListEntries(row, kind, scale, num).value
           == row[PointsText := StrCell(Quote(PointListText(kind.points)))][PointListField(kind) := v]
      && (kind.Polyline? && |coords.value| < 2 ==> v == IntCell(0))
      && (kind.Polygon? || |coords.value| >= 2 ==> v.RealCell?)
  {
    var coords := ParseCoords(PointListText(kind.points), num);
    assert coords.Ok?;
    var m := Measure(kind, coords.value, scale, num);
    assert m.Ok?;
    v := m.value;
  }

  lemma TwoUpdates(row: Row, f: Field, g: Field, a: Cell, b: Cell)
    ensures row[f := a][g := b].Keys == row.Keys + {f, g}
    ensures forall h :: h in row && h != f && h != g ==> row[f := a][g := b][h] == row[h]
  {
  }

  // ---------------------------------------------------------------------------
  // What add_shape_coords adds does not depend on the row it is given

  /** The entries add_shape_coords adds to a row. */
  function ShapeEntries(shape: Shape, scale: Scale, num: Numerics): Result<Row>
  {
    WithShapeCoords(map[], shape, scale, num)
  }

  /** `row` with `entries` laid over it, or the failure that produced them. */
  function AddEntries(row: Row, entries: Result<Row>): (r: Result<Row>)
    ensures r.Ok? <==> entries.Ok?
    ensures r.Err? ==> r.error == entries.error
  {
    if entries.Ok? then Ok(row + entries.value) else Err(entries.error)
  }

  /** add_shape_coords on a row without an area lays the same entries over it,
      whatever else the row holds. */
  lemma ShapeCoordsMerge(row: Row, shape: Shape, scale: Scale, num: Numerics)
    requires Area !in row
    ensures WithShapeCoords(row, shape, scale, num) == AddEntries(row, ShapeEntries(shape, scale, num))
  {
    var t0 := WithText(map[], shape);
    TextMerge(row, shape);
    VariantEntriesMerge(row, t0, shape, scale, num);
    var v0 := WithVariantEntries(t0, shape, scale, num);
    var v := WithVariantEntries(WithText(row, shape), shape, scale, num);
    assert v == AddEntries(row, v0);
    if v0.Ok? {
      assert v == Ok(row + v0.value);
      ScaleAreaMerge(row, v0.value, scale);
      assert ShapeEntries(shape, scale, num) == Ok(ScaleArea(v0.value, scale));
      assert WithShapeCoords(row, shape, scale, num) == Ok(ScaleArea(row + v0.value, scale));
    } else {
      assert ShapeEntries(shape, scale, num) == Err(v0.error);
      assert WithShapeCoords(row, shape, scale, num) == Err(v0.error);
    }
  }

  lemma TextMerge(row: Row, shape: Shape)
    ensures WithText(row, shape) == row + WithText(map[], shape)
  {
  }

  lemma VariantEntriesMerge(a: Row, b: Row, shape: Shape, scale: Scale, num: Numerics)
    ensures WithVariantEntries(a + b, shape, scale, num) == AddEntries(a, WithVariantEntries(b, shape, scale, num))
  {
    if shape.kind.Polyline? || shape.kind.Polygon? {
      PointListEntriesMerge(a, b, shape.kind, scale, num);
    } else {
      FixedEntriesMerge(a, b, shape.kind, scale, num);
    }
  }

  lemma UpdateMerge(a: Row, b: Row, f: Field, c: Cell)
    ensures (a + b)[f := c] == a + b[f := c]
  {
  }

  lemma FixedEntriesMerge(a: Row, b: Row, kind: ShapeKind, scale: Scale, num: Numerics)
    ensures FixedEntries(a + b, kind, scale, num) == a + FixedEntries(b, kind, scale, num)
  {
    var r := FixedEntries(a + b, kind, scale, num);
    var q := a + FixedEntries(b, kind, scale, num);
    assert r.Keys == q.Keys;
  }

  lemma PointListEntriesMerge(a: Row, b: Row, kind: ShapeKind, scale: Scale, num: Numerics)
    requires kind.Polyline? || kind.Polygon?
    ensures PointListEntries(a + b, kind, scale, num) == AddEntries(a, PointListEntries(b, kind, scale, num))
  {
    var pointList := PointListText(kind.points);
    var coords := ParseCoords(pointList, num);
    if coords.Ok? {
      var value := Measure(kind, coords.value, scale, num);
      if value.Ok? {
        var p := StrCell(Quote(pointList));
        UpdateMerge(a, b, PointsText, p);
        UpdateMerge(a, b[PointsText := p], PointListField(kind), value.value);
      }
    }
  }

  lemma ScaleAreaMerge(a: Row, b: Row, scale: Scale)
    requires Area !in a
    ensures ScaleArea(a + b, scale) == a + ScaleArea(b, scale)
  {
  }


  /** A fresh row holds an area afterwards exactly when the class sets one, so a
      line, a point or a label never carries an area. */
  lemma ShapeCoordsArea(row: Row, shape: Shape, scale: Scale, num: Numerics)
    requires Area !in row
    requires WithShapeCoords(row, shape, scale, num).Ok?
    ensures Area in WithShapeCoords(row, shape, scale, num).value <==> HasArea(shape.kind)
  {
    ShapeCoordsFields(row, shape, scale, num);
    AreaInVariantFields(shape.kind);
  }

  lemma AreaInVariantFields(kind: ShapeKind)
    ensures Area in VariantFields(kind) <==> HasArea(kind)
  {
  }

  /** The scaled area: Width * Height for rectangles and masks, pi * rx * ry for
      ellipses, times px * py exactly once and only when both are truthy. */
  lemma ShapeAreaValue(row: Row, shape: Shape, scale: Scale, num: Numerics)
    requires shape.kind.Rectangle? || shape.kind.Mask? || shape.kind.Ellipse?
    ensures WithShapeCoords(row, shape, scale, num).Ok?
    ensures var a := if shape.kind.Ellipse? then num.pi * shape.kind.radiusX * shape.kind.radiusY
                     else shape.kind.width * shape.kind.height;
      WithShapeCoords(row, shape, scale, num).value[Area]
        == RealCell(ScaledArea(a, scale))
  {
  }

  /** A line's length is its scaled segment length; the pixel sizes apply as soon
      as they are present, even when zero. */
  lemma LineLengthValue(row: Row, shape: Shape, scale: Scale, num: Numerics)
    requires shape.kind.Line?
    ensures WithShapeCoords(row, shape, scale, num).Ok?
    ensures WithShapeCoords(row, shape, scale, num).value[Length]
      == RealCell(SegmentLength(Vertex(shape.kind.x1, shape.kind.y1), Vertex(shape.kind.x2, shape.kind.y2), scale, num))
  {
  }

  /** Polygons and polylines record the point text, unwrapped from `points[...]`
      and quoted, and their area or length from the parsed coordinates. */
  lemma PointListValues(row: Row, shape: Shape, scale: Scale, num: Numerics)
    requires shape.kind.Polygon? || shape.kind.Polyline?
    requires WithShapeCoords(row, shape, scale, num).Ok?
    ensures var text := PointListText(shape.kind.points);
      var r := WithShapeCoords(row, shape, scale, num).value;
      && ParseCoords(text, num).Ok?
      && r[PointsText] == StrCell(Quote(text))
      && Measure(shape.kind, ParseCoords(text, num).value, scale, num).Ok?
      && var m := Measure(shape.kind, ParseCoords(text, num).value, scale, num).value;
         && (shape.kind.Polyline? ==> r[Length] == m)
         && (shape.kind.Polygon? ==> m.RealCell? && r[Area] == RealCell(ScaledArea(m.r, scale)))
  {
    var t := WithText(row, shape);
    var text := PointListText(shape.kind.points);
    var u := PointListShapeCoords(row, shape, scale, num);
    var v := PointListEntriesShape(t, shape.kind, scale, num);
    var f := PointListField(shape.kind);
    assert u[PointsText] == StrCell(Quote(text)) && u[f] == v;
    ScaleAreaFields(u, scale);
    if shape.kind.Polygon? {
      ScaleAreaValue(u, scale);
    }
  }

  /** A point list's row before the final scaling. */
  lemma PointListShapeCoords(row: Row, shape: Shape, scale: Scale, num: Numerics) returns (u: Row)
    requires shape.kind.Polygon? || shape.kind.Polyline?
    requires WithShapeCoords(row, shape, scale, num).Ok?
    ensures PointListEntries(WithText(row, shape), shape.kind, scale, num) == Ok(u)
    ensures WithShapeCoords(row, shape, scale, num) == Ok(ScaleArea(u, scale))
  {
    var t := WithText(row, shape);
    assert WithVariantEntries(t, shape, scale, num) == PointListEntries(t, shape.kind, scale, num);
    u := PointListEntries(t, shape.kind, scale, num).value;
  }

  /** The final scaling of an area held as a number. */
  lemma ScaleAreaValue(row: Row, scale: Scale)
    requires Area in row && row[Area].RealCell?
    ensures ScaleArea(row, scale)[Area] == RealCell(ScaledArea(row[Area].r, scale))
  {
  }

  /** W=10, H=5 and px=py=0.5 give an area of 12.5. */
  lemma RectangleAreaExample(row: Row, num: Numerics)
    ensures var shape := Shape(1, None, None, None, Rectangle(0.0, 0.0, 10.0, 5.0));
      WithShapeCoords(row, shape, Scale(Some(0.5), Some(0.5)), num) == Ok(ScaleArea(
        row[X := RealCell(0.0)][Y := RealCell(0.0)][Width := RealCell(10.0)][Height := RealCell(5.0)]
           [Area := RealCell(50.0)], Scale(Some(0.5), Some(0.5))))
    ensures var shape := Shape(1, None, None, None, Rectangle(0.0, 0.0, 10.0, 5.0));
      WithShapeCoords(row, shape, Scale(Some(0.5), Some(0.5)), num).value[Area] == RealCell(12.5)
  {
    var shape := Shape(1, None, None, None, Rectangle(0.0, 0.0, 10.0, 5.0));
    ShapeAreaValue(row, shape, Scale(Some(0.5), Some(0.5)), num);
  }

  /** The line (0,0)-(4,0) with px=2 is 8 long. */
  lemma LineLengthExample(row: Row, num: Numerics)
    requires num.Valid()
    ensures var shape := Shape(1, None, None, None, Line(0.0, 0.0, 4.0, 0.0));
      WithShapeCoords(row, shape, Scale(Some(2.0), None), num).value[Length] == RealCell(8.0)
  {
    var shape := Shape(1, None, None, None, Line(0.0, 0.0, 4.0, 0.0));
    LineLengthValue(row, shape, Scale(Some(2.0), None), num);
    assert SquaredDistance(Vertex(0.0, 0.0), Vertex(4.0, 0.0), Scale(Some(2.0), None)) == 64.0;
    SqrtOfSquare(num, 64.0, 8.0);
  }

  /** Zero pixel sizes: the area is left unscaled, but the length is scaled to 0. */
  lemma ZeroPixelSizeExample(row: Row, num: Numerics)
    requires num.Valid()
    ensures var zero := Scale(Some(0.0), Some(0.0));
      && WithShapeCoords(row, Shape(1, None, None, None, Rectangle(0.0, 0.0, 10.0, 5.0)), zero, num).value[Area]
           == RealCell(50.0)
      && WithShapeCoords(row, Shape(1, None, None, None, Line(0.0, 0.0, 4.0, 0.0)), zero, num).value[Length]
           == RealCell(0.0)
  {
    var zero := Scale(Some(0.0), Some(0.0));
    ShapeAreaValue(row, Shape(1, None, None, None, Rectangle(0.0, 0.0, 10.0, 5.0)), zero, num);
    LineLengthValue(row, Shape(1, None, None, None, Line(0.0, 0.0, 4.0, 0.0)), zero, num);
    assert SquaredDistance(Vertex(0.0, 0.0), Vertex(4.0, 0.0), zero) == 0.0;
    SqrtOfSquare(num, 0.0, 0.0);
  }
}
