/** The server's group-theory design: a square grid of cells 40 units apart,
    centred on an 800-unit page, each holding one of two regular polygons in a
    checkerboard pattern. A vertex at angle 2πi/n is kept symbolic. */
module GroupTheory {
  import opened Wrappers
  import opened Geometry
  import opened KolamParams

  /** The spacing of the cells, `scale_factor`. */
  const Scale: int := 40

  /** The error `2 * math.pi / sides` raises for `sides == 0`. */
  const DivisionByZero: string := "float division by zero"

  const Origin: Point := Point(0.0, 0.0)

  /** The vertices `get_polygon_points(sides, radius)` computes: vertex `i` at
      angle 2πi/sides on the circle of the given radius about the origin. */
  function PolygonPoints(sides: int, radius: int): Result<seq<PolarPoint>> {
    if sides == 0 then Failure(DivisionByZero)
    else Success(seq(if sides < 0 then 0 else sides, i => PolarPoint(Origin, radius as real, i, sides)))
  }

  /** `get_polygon_points`: the step angle is computed first, so a polygon of
      no sides fails; a negative number of sides gives an empty range. */
  method GetPolygonPoints(sides: int, radius: int) returns (r: Result<seq<PolarPoint>>)
    ensures r == PolygonPoints(sides, radius)
  {
    if sides == 0 {
      return Failure(DivisionByZero);
    }
    var localPoints: seq<PolarPoint> := [];
    var n := if sides < 0 then 0 else sides;
    for i := 0 to n
      invariant |localPoints| == i
      invariant forall j :: 0 <= j < i ==> localPoints[j] == PolarPoint(Origin, radius as real, j, sides)
    {
      localPoints := localPoints + [PolarPoint(Origin, radius as real, i, sides)];
    }
    assert localPoints == PolygonPoints(sides, radius).value;
    return Success(localPoints);
  }

  /** A polygon has one vertex per side, the vertices at successive multiples
      of 2π/sides; it fails exactly when there are no sides, and is empty when
      the number of sides is negative. */
  lemma PolygonPointsShape(sides: int, radius: int)
    ensures PolygonPoints(sides, radius).Failure? <==> sides == 0
    ensures sides > 0 ==> |PolygonPoints(sides, radius).value| == sides
    ensures sides < 0 ==> PolygonPoints(sides, radius) == Success([])
    ensures sides != 0 ==> forall i :: 0 <= i < |PolygonPoints(sides, radius).value| ==>
      PolygonPoints(sides, radius).value[i] == PolarPoint(Origin, radius as real, i, sides)
  {
    if sides < 0 {
      assert |PolygonPoints(sides, radius).value| == 0;
    }
  }

  /** The page coordinate of row or column `i`: the grid is centred on 400. */
  function Offset(g: int, i: int): real {
    400.0 - ((g - 1) * Scale) as real / 2.0 + (i * Scale) as real
  }

  /** The first and the last cell, and more generally cells `i` and
      `g - 1 - i`, lie symmetrically about the centre of the page. */
  lemma OffsetsSymmetric(g: int, i: int)
    ensures Offset(g, i) + Offset(g, g - 1 - i) == 800.0
    ensures Offset(g, i + 1) - Offset(g, i) == Scale as real
  {
    assert ((g - 1 - i) * Scale) as real == ((g - 1) * Scale) as real - (i * Scale) as real;
    assert ((i + 1) * Scale) as real == (i * Scale) as real + Scale as real;
  }

  /** A local vertex moved to a cell: `offset + p * scale_factor / 3`. */
  function Place(v: PolarPoint, ox: real, oy: real): PolarPoint {
    PolarPoint(Point(ox + v.centre.x * Scale as real / 3.0, oy + v.centre.y * Scale as real / 3.0),
               v.radius * Scale as real / 3.0, v.k, v.n)
  }

  function PlaceAll(vs: seq<PolarPoint>, ox: real, oy: real): (r: seq<PolarPoint>)
    ensures |r| == |vs|
    ensures forall j :: 0 <= j < |vs| ==> r[j] == Place(vs[j], ox, oy)
  {
    seq(|vs|, j requires 0 <= j < |vs| => Place(vs[j], ox, oy))
  }

  /** The polygon of cell (r, c): the first polygon on cells whose row and
      column sum to an even number, the second on the others. */
  function CellPolygon(g: int, r: int, c: int, p1: seq<PolarPoint>, p2: seq<PolarPoint>): seq<PolarPoint> {
    PlaceAll(if (r + c) % 2 == 0 then p1 else p2, Offset(g, c), Offset(g, r))
  }

  /** `if points_for_svg:`: an empty polygon is not drawn. */
  function Drawn(pts: seq<PolarPoint>): seq<seq<PolarPoint>> {
    if |pts| > 0 then [pts] else []
  }

  /** The polygon each cell of a `g` by `g` grid receives. */
  function Cells(g: int, p1: seq<PolarPoint>, p2: seq<PolarPoint>): (int, int) -> seq<PolarPoint> {
    (r, c) => CellPolygon(g, r, c, p1, p2)
  }

  /** The polygons drawn for the first `cols` cells of row `r`. */
  function RowPolygons(r: int, cols: int, cell: (int, int) -> seq<PolarPoint>): seq<seq<PolarPoint>>
    decreases cols
  {
    if cols <= 0 then [] else RowPolygons(r, cols - 1, cell) + Drawn(cell(r, cols - 1))
  }

  /** The polygons drawn for the first `rows` rows of `g` cells each. */
  function GridPolygons(g: int, rows: int, cell: (int, int) -> seq<PolarPoint>): seq<seq<PolarPoint>>
    decreases rows
  {
    if rows <= 0 then [] else GridPolygons(g, rows - 1, cell) + RowPolygons(rows - 1, g, cell)
  }

  /** What `generate_grouptheory_kolam_svg` draws on its 800-unit page, after
      the background: the polygons in row-major order. */
  datatype Drawing = Drawing(size: int, polygons: seq<seq<PolarPoint>>)

  function GroupTheorySvg(p: KolamParameters): Result<Drawing> {
    var first := PolygonPoints(p.polygon1Sides, p.polygon1Radius);
    var second := PolygonPoints(p.polygon2Sides, p.polygon2Radius);
    if first.Failure? then Failure(first.error)
    else if second.Failure? then Failure(second.error)
    else Success(Drawing(800, GridPolygons(p.gridSize, p.gridSize, Cells(p.gridSize, first.value, second.value))))
  }

  /** `generate_grouptheory_kolam_svg`: both polygons are computed before the
      grid is walked, so either one failing fails the whole drawing. */
  method GenerateGroupTheorySvg(p: KolamParameters) returns (r: Result<Drawing>)
    ensures r == GroupTheorySvg(p)
  {
    var first := GetPolygonPoints(p.polygon1Sides, p.polygon1Radius);
    if first.Failure? {
      return Failure(first.error);
    }
    var second := GetPolygonPoints(p.polygon2Sides, p.polygon2Radius);
    if second.Failure? {
      return Failure(second.error);
    }
    var g := p.gridSize;
    var cell := Cells(g, first.value, second.value);
    var polygons: seq<seq<PolarPoint>> := [];
    for row := 0 to if g < 0 then 0 else g
      invariant polygons == GridPolygons(g, row, cell)
    {
      polygons := DrawRow(polygons, g, row, first.value, second.value);
    }
    return Success(Drawing(800, polygons));
  }

  /** One pass of the row loop: each cell's polygon, when it has vertices,
      is added after what was drawn before. */
  method DrawRow(before: seq<seq<PolarPoint>>, g: int, row: int, p1: seq<PolarPoint>, p2: seq<PolarPoint>)
    returns (polygons: seq<seq<PolarPoint>>)
    ensures polygons == before + RowPolygons(row, g, Cells(g, p1, p2))
  {
    polygons := before;
    for col := 0 to if g < 0 then 0 else g
      invariant polygons == before + RowPolygons(row, col, Cells(g, p1, p2))
    {
      var local := if (row + col) % 2 == 0 then p1 else p2;
      var pointsForSvg := PlacePolygon(local, Offset(g, col), Offset(g, row));
      assert pointsForSvg == Cells(g, p1, p2)(row, col);
      if |pointsForSvg| > 0 {
        polygons := polygons + [pointsForSvg];
      }
    }
  }

  /** The innermost loop: every vertex of the polygon moved to the cell. */
  method PlacePolygon(local: seq<PolarPoint>, ox: real, oy: real) returns (pointsForSvg: seq<PolarPoint>)
    ensures pointsForSvg == PlaceAll(local, ox, oy)
  {
    pointsForSvg := [];
    for j := 0 to |local|
      invariant |pointsForSvg| == j
      invariant forall m :: 0 <= m < j ==> pointsForSvg[m] == Place(local[m], ox, oy)
    {
      pointsForSvg := pointsForSvg + [Place(local[j], ox, oy)];
    }
  }

  // ---------------------------------------------------------------------------
  // The layout when both polygons have vertices

  lemma {:induction false} MulStep(a: int, b: int, g: int)
    requires 0 <= a < b && g >= 0
    ensures a * g + g <= b * g
    decreases b - a
  {
    if b > a + 1 {
      MulStep(a, b - 1, g);
    }
    assert (b - 1) * g + g == b * g;
  }

  /** Every cell of the grid has a polygon with vertices. */
  ghost predicate AllDrawn(cell: (int, int) -> seq<PolarPoint>) {
    forall r, c :: |cell(r, c)| > 0
  }

  /** A cell whose polygon has vertices draws exactly that polygon. */
  lemma RowStep(r: int, cols: int, cell: (int, int) -> seq<PolarPoint>)
    requires AllDrawn(cell) && cols > 0
    ensures RowPolygons(r, cols, cell) == RowPolygons(r, cols - 1, cell) + [cell(r, cols - 1)]
  {
    assert |cell(r, cols - 1)| > 0;
  }

  /** When every cell draws, row `r` holds `cols` polygons, the one in column
      `c` being that cell's. */
  lemma {:induction false} RowLayout(r: int, cols: int, cell: (int, int) -> seq<PolarPoint>)
    requires AllDrawn(cell) && cols >= 0
    ensures |RowPolygons(r, cols, cell)| == cols
    ensures forall c :: 0 <= c < cols ==> RowPolygons(r, cols, cell)[c] == cell(r, c)
    decreases cols
  {
    if cols > 0 {
      RowLayout(r, cols - 1, cell);
      RowStep(r, cols, cell);
    }
  }

  /** When every cell draws, the grid holds `rows * g` polygons. */
  lemma {:induction false} GridCount(g: int, rows: int, cell: (int, int) -> seq<PolarPoint>)
    requires AllDrawn(cell) && g >= 0 && rows >= 0
    ensures |GridPolygons(g, rows, cell)| == rows * g
    decreases rows
  {
    if rows > 0 {
      GridCount(g, rows - 1, cell);
      RowLayout(rows - 1, g, cell);
      assert (rows - 1) * g + g == rows * g;
    }
  }

  /** ... and cell (r, c) is drawn at index `r * g + c`. */
  lemma {:induction false} GridCell(g: int, rows: int, r: int, c: int, cell: (int, int) -> seq<PolarPoint>)
    requires AllDrawn(cell) && g >= 0
    requires 0 <= r < rows && 0 <= c < g
    ensures 0 <= r * g + c < |GridPolygons(g, rows, cell)|
    ensures GridPolygons(g, rows, cell)[r * g + c] == cell(r, c)
    decreases rows
  {
    var prev := GridPolygons(g, rows - 1, cell);
    var row := RowPolygons(rows - 1, g, cell);
    var k := r * g + c;
    assert GridPolygons(g, rows, cell) == prev + row;
    if r < rows - 1 {
      GridCell(g, rows - 1, r, c, cell);
      assert 0 <= k < |prev|;
      assert (prev + row)[k] == prev[k];
    } else {
      GridCount(g, rows - 1, cell);
      RowLayout(rows - 1, g, cell);
      assert k == |prev| + c;
      assert (prev + row)[|prev| + c] == row[c];
    }
  }

  /** The checkerboard: on a `g` by `g` grid whose polygons both have
      vertices, there are `g * g` polygons; the one at index `r * g + c` has
      the vertex count of the first polygon exactly when `r + c` is even,
      and all its vertices lie on a circle about the cell's own offsets. */
  lemma Checkerboard(p: KolamParameters, r: int, c: int)
    requires p.polygon1Sides > 0 && p.polygon2Sides > 0 && p.gridSize >= 0
    requires 0 <= r < p.gridSize && 0 <= c < p.gridSize
    ensures GroupTheorySvg(p).Success?
    ensures var polys := GroupTheorySvg(p).value.polygons;
      var g := p.gridSize;
      |polys| == g * g &&
      0 <= r * g + c < g * g &&
      |polys[r * g + c]| == (if (r + c) % 2 == 0 then p.polygon1Sides else p.polygon2Sides) &&
      forall v :: v in polys[r * g + c] ==> v.centre == Point(Offset(g, c), Offset(g, r))
  {
    var g := p.gridSize;
    var p1 := PolygonPoints(p.polygon1Sides, p.polygon1Radius).value;
    var p2 := PolygonPoints(p.polygon2Sides, p.polygon2Radius).value;
    var cell := Cells(g, p1, p2);
    assert |p1| == p.polygon1Sides && |p2| == p.polygon2Sides;
    PolygonCentred(p.polygon1Sides, p.polygon1Radius);
    PolygonCentred(p.polygon2Sides, p.polygon2Radius);
    var polys := GridPolygons(g, g, cell);
    assert GroupTheorySvg(p) == Success(Drawing(800, polys));
    CellsDrawn(g, p1, p2);
    GridCount(g, g, cell);
    GridCell(g, g, r, c, cell);
    CellShape(g, r, c, p1, p2);
    assert polys[r * g + c] == cell(r, c);
  }

  /** Every vertex of a polygon is about the origin. */
  lemma PolygonCentred(sides: int, radius: int)
    requires sides != 0
    ensures forall v :: v in PolygonPoints(sides, radius).value ==> v.centre == Origin
  {
  }

  /** With both polygons non-empty, every cell draws. */
  lemma CellsDrawn(g: int, p1: seq<PolarPoint>, p2: seq<PolarPoint>)
    requires |p1| > 0 && |p2| > 0
    ensures AllDrawn(Cells(g, p1, p2))
  {
    forall r, c ensures |Cells(g, p1, p2)(r, c)| > 0 {
      assert |Cells(g, p1, p2)(r, c)| == |if (r + c) % 2 == 0 then p1 else p2|;
    }
  }

  /** Cell (r, c) holds as many vertices as its polygon, each about the
      cell's offsets. */
  lemma CellShape(g: int, r: int, c: int, p1: seq<PolarPoint>, p2: seq<PolarPoint>)
    requires forall v :: v in p1 ==> v.centre == Origin
    requires forall v :: v in p2 ==> v.centre == Origin
    ensures |Cells(g, p1, p2)(r, c)| == |if (r + c) % 2 == 0 then p1 else p2|
    ensures forall v :: v in Cells(g, p1, p2)(r, c) ==> v.centre == Point(Offset(g, c), Offset(g, r))
  {
    var pts := Cells(g, p1, p2)(r, c);
    var local := if (r + c) % 2 == 0 then p1 else p2;
    assert pts == PlaceAll(local, Offset(g, c), Offset(g, r));
    forall v | v in pts ensures v.centre == Point(Offset(g, c), Offset(g, r)) {
      var j :| 0 <= j < |pts| && pts[j] == v;
      assert v == Place(local[j], Offset(g, c), Offset(g, r));
      assert local[j] in local;
    }
  }

  lemma {:induction false} EmptyRow(r: int, cols: int, cell: (int, int) -> seq<PolarPoint>)
    requires forall r', c' :: cell(r', c') == []
    ensures RowPolygons(r, cols, cell) == []
    decreases cols
  {
    if cols > 0 {
      EmptyRow(r, cols - 1, cell);
    }
  }

  /** When neither polygon has a vertex, nothing but the background is drawn. */
  lemma {:induction false} EmptyPolygonsDrawNothing(g: int, rows: int)
    ensures GridPolygons(g, rows, Cells(g, [], [])) == []
    decreases rows
  {
    if rows > 0 {
      EmptyPolygonsDrawNothing(g, rows - 1);
      forall r', c' ensures Cells(g, [], [])(r', c') == [] {
        assert |Cells(g, [], [])(r', c')| == 0;
      }
      EmptyRow(rows - 1, g, Cells(g, [], []));
    }
  }
}
