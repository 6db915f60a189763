/** The fallback renderer of the Kolam page. When no ready-made SVG markup is
    supplied it draws, on a 400 by 400 canvas, a centred square dot lattice and
    one stroke figure chosen by the symmetry type, stacked once per iteration
    with falling opacity. The 2-D drawing context is modelled as a log of the
    calls made on it plus the part of its state those calls change. */
module KolamCanvas {
  import opened Wrappers
  import opened Geometry

  /** The renderer's parameters. */
  datatype Parameters = Parameters(
    gridType: string,
    rows: int,
    columns: int,
    dotSpacing: int,
    strokeType: string,
    symmetryType: string,
    iterations: int)

  const CanvasSize: real := 400.0
  const Centre: Point := Point(200.0, 200.0)
  const DotRadius: real := 2.0
  const White: string := "#ffffff"
  const Teal: string := "#164e63"

  /** A vertex of a path: an exact point, or a point on a circle at angle 2πk/n. */
  datatype Vertex = At(p: Point) | OnCircle(q: PolarPoint)

  /** One call on the 2-D drawing context. */
  datatype Command =
    | ClearRect(x: real, y: real, w: real, h: real)
    | FillRect(x: real, y: real, w: real, h: real)
    | SetFillStyle(colour: string)
    | SetStrokeStyle(colour: string)
    | SetLineWidth(width: int)
    | SetLineDash(dash: seq<int>)
    | SetGlobalAlpha(alpha: real)
    | Save
    | Restore
    | BeginPath
    | MoveTo(v: Vertex)
    | LineTo(v: Vertex)
    | Arc(centre: Point, radius: real)  // always the full circle, from angle 0 to 2π
    | Rect(x: real, y: real, w: real, h: real)
    | Fill
    | Stroke

  /** The part of the drawing state that the renderer sets. */
  datatype Style = Style(fillStyle: string, strokeStyle: string, lineWidth: int, lineDash: seq<int>, globalAlpha: real)

  /** The current style and the stack that `save()` pushes onto and `restore()` pops. */
  datatype State = State(style: Style, saved: seq<Style>)

  /** A freshly sized canvas: black fill and stroke, width 1, solid line, opaque. */
  const InitialState: State := State(Style("#000000", "#000000", 1, [], 1.0), [])

  /** The effect of one call on the drawing state. As on an HTML canvas, an alpha
      outside [0, 1] is ignored, and `restore()` with nothing saved does nothing. */
  function Apply(s: State, c: Command): State {
    match c
    case SetFillStyle(col) => s.(style := s.style.(fillStyle := col))
    case SetStrokeStyle(col) => s.(style := s.style.(strokeStyle := col))
    case SetLineWidth(w) => s.(style := s.style.(lineWidth := w))
    case SetLineDash(d) => s.(style := s.style.(lineDash := d))
    case SetGlobalAlpha(a) => if 0.0 <= a <= 1.0 then s.(style := s.style.(globalAlpha := a)) else s
    case Save => s.(saved := s.saved + [s.style])
    case Restore =>
      if s.saved == [] then s else State(s.saved[|s.saved| - 1], s.saved[..|s.saved| - 1])
    case _ => s
  }

  /** The state after the calls `cs`, made in order from `s`. */
  function Run(s: State, cs: seq<Command>): State
    decreases |cs|
  {
    if cs == [] then s else Run(Apply(s, cs[0]), cs[1..])
  }

  /** The style in force at each `stroke()` among the calls `cs`, in order:
      the width, dash and opacity with which each stroked figure appears. */
  function StrokeStyles(s: State, cs: seq<Command>): seq<Style>
    decreases |cs|
  {
    if cs == [] then []
    else (if cs[0].Stroke? then [s.style] else []) + StrokeStyles(Apply(s, cs[0]), cs[1..])
  }

  lemma {:induction false} RunAppend(s: State, a: seq<Command>, b: seq<Command>)
    ensures Run(s, a + b) == Run(Run(s, a), b)
    ensures StrokeStyles(s, a + b) == StrokeStyles(s, a) + StrokeStyles(Run(s, a), b)
    decreases |a|
  {
    if a == [] {
      assert a + b == b;
    } else {
      assert (a + b)[0] == a[0];
      assert (a + b)[1..] == a[1..] + b;
      RunAppend(Apply(s, a[0]), a[1..], b);
    }
  }

  /** The number of calls in `cs` of the kind `kind` picks out. */
  function Tally(cs: seq<Command>, kind: Command -> bool): nat {
    if cs == [] then 0 else (if kind(cs[0]) then 1 else 0) + Tally(cs[1..], kind)
  }

  lemma {:induction false} TallyAppend(a: seq<Command>, b: seq<Command>, kind: Command -> bool)
    ensures Tally(a + b, kind) == Tally(a, kind) + Tally(b, kind)
  {
    if a == [] {
      assert a + b == b;
    } else {
      assert (a + b)[1..] == a[1..] + b;
      TallyAppend(a[1..], b, kind);
    }
  }

  predicate IsArc(c: Command) { c.Arc? }
  predicate IsMoveTo(c: Command) { c.MoveTo? }
  predicate IsLineTo(c: Command) { c.LineTo? }

  /** Calls that neither change the drawing state nor stroke. */
  predicate Inert(c: Command) {
    c.ClearRect? || c.FillRect? || c.BeginPath? || c.MoveTo? || c.LineTo? || c.Arc? || c.Rect? || c.Fill?
  }

  lemma {:induction false} InertCalls(s: State, cs: seq<Command>)
    requires forall c :: c in cs ==> Inert(c)
    ensures Run(s, cs) == s && StrokeStyles(s, cs) == []
    decreases |cs|
  {
    if cs != [] {
      assert cs[0] in cs;
      assert forall c :: c in cs[1..] ==> c in cs;
      InertCalls(s, cs[1..]);
    }
  }

  function Weight(c: Command, kind: Command -> bool): nat {
    if kind(c) then 1 else 0
  }

  lemma TallyPair(x: Command, y: Command, kind: Command -> bool)
    ensures Tally([x, y], kind) == Weight(x, kind) + Weight(y, kind)
  {
    var t := [y];
    assert t[1..] == [];
    assert Tally(t, kind) == Weight(y, kind);
    assert [x, y][1..] == t;
  }

  lemma TallyTriple(x: Command, y: Command, z: Command, kind: Command -> bool)
    ensures Tally([x, y, z], kind) == Weight(x, kind) + Weight(y, kind) + Weight(z, kind)
  {
    assert [x, y, z][1..] == [y, z];
    TallyPair(y, z, kind);
  }

  /** The drawing context of one canvas: the calls made on it so far, and its state. */
  class Canvas {
    var log: seq<Command>
    var state: State

    ghost predicate Valid()
      reads this
    {
      state == Run(InitialState, log)
    }

    constructor ()
      ensures Valid() && log == []
    {
      log := [];
      state := InitialState;
    }

    /** Make one call on the context. */
    method Issue(c: Command)
      requires Valid()
      modifies this
      ensures Valid() && log == old(log) + [c]
    {
      RunAppend(InitialState, log, [c]);
      log := log + [c];
      state := Apply(state, c);
    }
  }

  // ---------------------------------------------------------------------------
  // The dot lattice

  /** How often `for (let i = -n / 2; i <= n / 2; i++)` runs its body. */
  function LoopCount(n: int): nat {
    if n < 0 then 0 else n + 1
  }

  /** The dot at outer step `a` and inner step `b`: offset `a - rows/2` spacings
      along x and `b - columns/2` spacings along y from the centre. */
  function LatticePoint(p: Parameters, a: int, b: int): Point {
    Point(Centre.x + (a as real - p.rows as real / 2.0) * p.dotSpacing as real,
          Centre.y + (b as real - p.columns as real / 2.0) * p.dotSpacing as real)
  }

  function Dot(pt: Point): seq<Command> {
    [BeginPath, Arc(pt, DotRadius), Fill]
  }

  /** The first `n` dots of the inner loop at outer step `a`. */
  function DotColumn(p: Parameters, a: int, n: nat): (r: seq<Command>)
    ensures forall c :: c in r ==> Inert(c)
  {
    if n == 0 then [] else DotColumn(p, a, n - 1) + Dot(LatticePoint(p, a, n - 1))
  }

  /** The dots of the first `m` outer steps. */
  function DotGrid(p: Parameters, m: nat): (r: seq<Command>)
    ensures forall c :: c in r ==> Inert(c)
  {
    if m == 0 then [] else DotGrid(p, m - 1) + DotColumn(p, m - 1, LoopCount(p.columns))
  }

  /** The calls that draw the lattice; only the square grid type has one. */
  function LatticeCommands(p: Parameters): seq<Command> {
    if p.gridType == "square" then DotGrid(p, LoopCount(p.rows)) else []
  }

  /** Draws the grid dots (one `beginPath`, `arc`, `fill` per dot). */
  method DrawDots(ctx: Canvas, p: Parameters)
    requires ctx.Valid()
    modifies ctx
    ensures ctx.Valid() && ctx.log == old(ctx.log) + LatticeCommands(p)
  {
    if p.gridType == "square" {
      var spacing := p.dotSpacing as real;
      var i: real := -(p.rows as real) / 2.0;
      var a := 0;
      while i <= p.rows as real / 2.0
        invariant i == a as real - p.rows as real / 2.0
        invariant 0 <= a <= LoopCount(p.rows)
        invariant ctx.Valid() && ctx.log == old(ctx.log) + DotGrid(p, a)
        decreases p.rows - a
      {
        var j: real := -(p.columns as real) / 2.0;
        var b := 0;
        while j <= p.columns as real / 2.0
          invariant j == b as real - p.columns as real / 2.0
          invariant 0 <= b <= LoopCount(p.columns)
          invariant ctx.Valid() && ctx.log == old(ctx.log) + DotGrid(p, a) + DotColumn(p, a, b)
          decreases p.columns - b
        {
          var x := Centre.x + i * spacing;
          var y := Centre.y + j * spacing;
          assert Point(x, y) == LatticePoint(p, a, b);
          DrawDot(ctx, Point(x, y));
          LogAssoc(old(ctx.log) + DotGrid(p, a), DotColumn(p, a, b), Dot(LatticePoint(p, a, b)));
          j := j + 1.0;
          b := b + 1;
        }
        assert b == LoopCount(p.columns);
        LogAssoc(old(ctx.log), DotGrid(p, a), DotColumn(p, a, b));
        i := i + 1.0;
        a := a + 1;
      }
    }
  }

  /** The body of the inner loop: one filled dot. */
  method DrawDot(ctx: Canvas, pt: Point)
    requires ctx.Valid()
    modifies ctx
    ensures ctx.Valid() && ctx.log == old(ctx.log) + Dot(pt)
  {
    ctx.Issue(BeginPath);
    ctx.Issue(Arc(pt, DotRadius));
    ctx.Issue(Fill);
  }

  lemma {:induction false} DotColumnCount(p: Parameters, a: int, n: nat)
    ensures Tally(DotColumn(p, a, n), IsArc) == n
  {
    if n > 0 {
      DotColumnCount(p, a, n - 1);
      TallyAppend(DotColumn(p, a, n - 1), Dot(LatticePoint(p, a, n - 1)), IsArc);
      var d := Dot(LatticePoint(p, a, n - 1));
      assert Tally(d, IsArc) == 1 by {
        var arc := Arc(LatticePoint(p, a, n - 1), DotRadius);
        assert [Fill][1..] == [];
        assert Tally([Fill], IsArc) == 0;
        assert [arc, Fill][1..] == [Fill];
        assert Tally([arc, Fill], IsArc) == 1;
        assert d[1..] == [arc, Fill];
      }
    }
  }

  lemma {:induction false} DotColumnMembers(p: Parameters, a: int, n: nat, pt: Point)
    ensures Arc(pt, DotRadius) in DotColumn(p, a, n) <==>
      exists b :: 0 <= b < n && pt == LatticePoint(p, a, b)
  {
    if n > 0 {
      DotColumnMembers(p, a, n - 1, pt);
      assert DotColumn(p, a, n) == DotColumn(p, a, n - 1) + Dot(LatticePoint(p, a, n - 1));
      if pt == LatticePoint(p, a, n - 1) {
        assert 0 <= n - 1 < n;
      }
      if exists b :: 0 <= b < n && pt == LatticePoint(p, a, b) {
        var b :| 0 <= b < n && pt == LatticePoint(p, a, b);
        if b == n - 1 {
          assert Arc(pt, DotRadius) in Dot(LatticePoint(p, a, n - 1));
        } else {
          assert Arc(pt, DotRadius) in DotColumn(p, a, n - 1);
        }
      }
    }
  }

  lemma {:induction false} DotGridCount(p: Parameters, m: nat)
    ensures Tally(DotGrid(p, m), IsArc) == m * LoopCount(p.columns)
  {
    if m > 0 {
      var k := LoopCount(p.columns);
      DotGridCount(p, m - 1);
      DotColumnCount(p, m - 1, k);
      TallyAppend(DotGrid(p, m - 1), DotColumn(p, m - 1, k), IsArc);
      assert (m - 1) * k + k == m * k;
    }
  }

  lemma {:induction false} DotGridMembers(p: Parameters, m: nat, pt: Point)
    ensures Arc(pt, DotRadius) in DotGrid(p, m) <==>
      exists a, b :: 0 <= a < m && 0 <= b < LoopCount(p.columns) && pt == LatticePoint(p, a, b)
  {
    if m > 0 {
      var k := LoopCount(p.columns);
      DotGridMembers(p, m - 1, pt);
      DotColumnMembers(p, m - 1, k, pt);
      assert DotGrid(p, m) == DotGrid(p, m - 1) + DotColumn(p, m - 1, k);
      if Arc(pt, DotRadius) in DotColumn(p, m - 1, k) {
        var b :| 0 <= b < k && pt == LatticePoint(p, m - 1, b);
        assert 0 <= m - 1 < m;
      }
      if exists a, b :: 0 <= a < m && 0 <= b < k && pt == LatticePoint(p, a, b) {
        var a, b :| 0 <= a < m && 0 <= b < k && pt == LatticePoint(p, a, b);
        if a == m - 1 {
          assert Arc(pt, DotRadius) in DotColumn(p, m - 1, k);
        } else {
          assert Arc(pt, DotRadius) in DotGrid(p, m - 1);
        }
      }
    }
  }

  /** The square grid draws exactly (rows + 1)(columns + 1) dots; any other grid type none. */
  lemma LatticeDotCount(p: Parameters)
    requires p.rows >= 0 && p.columns >= 0
    ensures Tally(LatticeCommands(p), IsArc) ==
      if p.gridType == "square" then (p.rows + 1) * (p.columns + 1) else 0
  {
    DotGridCount(p, LoopCount(p.rows));
  }

  /** A dot is drawn at `pt` iff the grid is square and `pt` is the centre moved by
      `a - rows/2` spacings along x and `b - columns/2` along y, for whole numbers
      `0 <= a <= rows` and `0 <= b <= columns`. */
  lemma LatticeDots(p: Parameters, pt: Point)
    ensures Arc(pt, DotRadius) in LatticeCommands(p) <==>
      p.gridType == "square" &&
      exists a, b :: 0 <= a <= p.rows && 0 <= b <= p.columns && pt == LatticePoint(p, a, b)
  {
    DotGridMembers(p, LoopCount(p.rows), pt);
    if p.gridType == "square" && Arc(pt, DotRadius) in LatticeCommands(p) {
      var a, b :| 0 <= a < LoopCount(p.rows) && 0 <= b < LoopCount(p.columns) && pt == LatticePoint(p, a, b);
      assert 0 <= a <= p.rows && 0 <= b <= p.columns;
    }
  }

  /** The lattice is symmetric under mirroring in the vertical and in the
      horizontal line through the centre. */
  lemma LatticeMirrorSymmetric(p: Parameters, u: real, v: real)
    ensures Arc(Point(Centre.x + u, Centre.y + v), DotRadius) in LatticeCommands(p) <==>
            Arc(Point(Centre.x - u, Centre.y + v), DotRadius) in LatticeCommands(p)
    ensures Arc(Point(Centre.x + u, Centre.y + v), DotRadius) in LatticeCommands(p) <==>
            Arc(Point(Centre.x + u, Centre.y - v), DotRadius) in LatticeCommands(p)
  {
    var here := Point(Centre.x + u, Centre.y + v);
    var acrossX := Point(Centre.x - u, Centre.y + v);
    var acrossY := Point(Centre.x + u, Centre.y - v);
    LatticeDots(p, here);
    LatticeDots(p, acrossX);
    LatticeDots(p, acrossY);
    if Arc(here, DotRadius) in LatticeCommands(p) {
      var a, b :| 0 <= a <= p.rows && 0 <= b <= p.columns && here == LatticePoint(p, a, b);
      MirrorStep(p, a, b);
      assert acrossX == LatticePoint(p, p.rows - a, b);
      assert acrossY == LatticePoint(p, a, p.columns - b);
    }
    if Arc(acrossX, DotRadius) in LatticeCommands(p) {
      var a, b :| 0 <= a <= p.rows && 0 <= b <= p.columns && acrossX == LatticePoint(p, a, b);
      MirrorStep(p, a, b);
      assert here == LatticePoint(p, p.rows - a, b);
    }
    if Arc(acrossY, DotRadius) in LatticeCommands(p) {
      var a, b :| 0 <= a <= p.rows && 0 <= b <= p.columns && acrossY == LatticePoint(p, a, b);
      MirrorStep(p, a, b);
      assert here == LatticePoint(p, a, p.columns - b);
    }
  }

  lemma MirrorStep(p: Parameters, a: int, b: int)
    ensures LatticePoint(p, p.rows - a, b) ==
      Point(2.0 * Centre.x - LatticePoint(p, a, b).x, LatticePoint(p, a, b).y)
    ensures LatticePoint(p, a, p.columns - b) ==
      Point(LatticePoint(p, a, b).x, 2.0 * Centre.y - LatticePoint(p, a, b).y)
  {
    var s := p.dotSpacing as real;
    assert ((p.rows - a) as real - p.rows as real / 2.0) * s == -((a as real - p.rows as real / 2.0) * s);
    assert ((p.columns - b) as real - p.columns as real / 2.0) * s == -((b as real - p.columns as real / 2.0) * s);
  }

  // ---------------------------------------------------------------------------
  // Stroke style

  function LineWidth(strokeType: string): int {
    if strokeType == "thick" then 3 else 2
  }

  function LineDash(strokeType: string): seq<int> {
    if strokeType == "dashed" then [5, 5]
    else if strokeType == "dotted" then [2, 3]
    else []
  }

  function StyleCommands(strokeType: string): seq<Command> {
    [SetStrokeStyle(Teal), SetLineWidth(LineWidth(strokeType)), SetLineDash(LineDash(strokeType))]
  }

  /** Sets the stroke colour, the width and the dash pattern. */
  method ApplyStrokeStyle(ctx: Canvas, strokeType: string)
    requires ctx.Valid()
    modifies ctx
    ensures ctx.Valid() && ctx.log == old(ctx.log) + StyleCommands(strokeType)
  {
    ctx.Issue(SetStrokeStyle(Teal));
    ctx.Issue(SetLineWidth(if strokeType == "thick" then 3 else 2));
    if strokeType == "dashed" {
      ctx.Issue(SetLineDash([5, 5]));
    } else if strokeType == "dotted" {
      ctx.Issue(SetLineDash([2, 3]));
    } else {
      ctx.Issue(SetLineDash([]));
    }
  }

  /** The width is 3 exactly for "thick" and 2 otherwise; the dash is [5, 5] for
      "dashed", [2, 3] for "dotted" and solid otherwise. */
  lemma StrokeStyleChoice(s: State, strokeType: string)
    ensures Run(s, StyleCommands(strokeType)).style.lineWidth == 3 <==> strokeType == "thick"
    ensures Run(s, StyleCommands(strokeType)).style.lineWidth == 2 <==> strokeType != "thick"
    ensures Run(s, StyleCommands(strokeType)).style.lineDash ==
      if strokeType == "dashed" then [5, 5] else if strokeType == "dotted" then [2, 3] else []
    ensures Run(s, StyleCommands(strokeType)).style.strokeStyle == Teal
    ensures Run(s, StyleCommands(strokeType)) == s.(style := s.style.(
      strokeStyle := Teal, lineWidth := LineWidth(strokeType), lineDash := LineDash(strokeType)))
    ensures StrokeStyles(s, StyleCommands(strokeType)) == []
  {
    var cs := StyleCommands(strokeType);
    var s1 := Apply(s, cs[0]);
    var s2 := Apply(s1, cs[1]);
    var s3 := Apply(s2, cs[2]);
    assert Run(s3, cs[3..]) == s3;
    assert Run(s2, cs[2..]) == s3;
    assert Run(s1, cs[1..]) == s3;
    assert StrokeStyles(s3, cs[3..]) == [];
    assert StrokeStyles(s2, cs[2..]) == [];
    assert StrokeStyles(s1, cs[1..]) == [];
  }

  // ---------------------------------------------------------------------------
  // The stroke figures

  /** `Math.min(rows, columns)`. */
  function MinExtent(p: Parameters): int {
    if p.rows <= p.columns then p.rows else p.columns
  }

  /** The radius of the 4-fold and radial figures: min(rows, columns) · spacing / 3. */
  function FigureRadius(p: Parameters): real {
    (MinExtent(p) * p.dotSpacing) as real / 3.0
  }

  /** The half-size of the default box: min(rows, columns) · spacing / 4. */
  function BoxHalfSize(p: Parameters): real {
    (MinExtent(p) * p.dotSpacing) as real / 4.0
  }

  /** cos(qπ/2) and sin(qπ/2), which are exact. */
  function QuarterCos(q: int): real {
    if q % 4 == 0 then 1.0 else if q % 4 == 2 then -1.0 else 0.0
  }

  function QuarterSin(q: int): real {
    if q % 4 == 1 then 1.0 else if q % 4 == 3 then -1.0 else 0.0
  }

  /** The point at angle qπ/2 and the given distance from the centre. */
  function AxisPoint(radius: real, q: int): Point {
    Point(Centre.x + QuarterCos(q) * radius, Centre.y + QuarterSin(q) * radius)
  }

  /** The first `n` wedges of the 4-fold figure: centre, then the axis point at
      angle kπ/2, then the one at (k + 1)π/2. */
  function Wedges(radius: real, n: nat): (r: seq<Command>)
    ensures forall c :: c in r ==> Inert(c)
  {
    if n == 0 then [] else
      Wedges(radius, n - 1) +
      [MoveTo(At(Centre)), LineTo(At(AxisPoint(radius, n - 1))), LineTo(At(AxisPoint(radius, n)))]
  }

  /** The first `n` of the eight spokes of the radial figure. */
  function Spokes(radius: real, n: nat): (r: seq<Command>)
    ensures forall c :: c in r ==> Inert(c)
  {
    if n == 0 then []
    else Spokes(radius, n - 1) + [MoveTo(At(Centre)), LineTo(OnCircle(PolarPoint(Centre, radius, n - 1, 8)))]
  }

  /** The first `n` rings of the radial figure, at radii spacing, 2·spacing, … */
  function Rings(spacing: int, n: nat): (r: seq<Command>)
    ensures forall c :: c in r ==> Inert(c)
  {
    if n == 0 then [] else
      Rings(spacing, n - 1) +
      [MoveTo(At(Point(Centre.x + (n * spacing) as real, Centre.y))), Arc(Centre, (n * spacing) as real)]
  }

  /** The number of rings the ring loop draws (when it terminates). */
  function RingCount(p: Parameters): nat {
    if p.dotSpacing > 0 && MinExtent(p) >= 0 then MinExtent(p) / 3 else 0
  }

  /** The ring loop `for (r = spacing; r <= radius; r += spacing)` ends
      normally: the spacing is positive, or negative and already beyond the
      radius, so no ring is drawn and no negative radius reaches `arc`. */
  predicate RingLoopSafe(p: Parameters) {
    p.dotSpacing > 0 || (p.dotSpacing < 0 && MinExtent(p) > 3)
  }

  /** What the renderer demands of its parameters: a radial figure that is drawn
      at least once needs a ring loop that ends normally. */
  predicate Drawable(p: Parameters) {
    p.symmetryType == "radial" && p.iterations > 0 ==> RingLoopSafe(p)
  }

  function BoxWithCross(size: real): seq<Command> {
    [Rect(Centre.x - size, Centre.y - size, size * 2.0, size * 2.0),
     MoveTo(At(Point(Centre.x - size, Centre.y - size))),
     LineTo(At(Point(Centre.x + size, Centre.y + size))),
     MoveTo(At(Point(Centre.x + size, Centre.y - size))),
     LineTo(At(Point(Centre.x - size, Centre.y + size)))]
  }

  /** The path of the figure chosen by the symmetry type. */
  function FigureCommands(p: Parameters): seq<Command> {
    if p.symmetryType == "4-fold" then Wedges(FigureRadius(p), 4)
    else if p.symmetryType == "radial" then Spokes(FigureRadius(p), 8) + Rings(p.dotSpacing, RingCount(p))
    else BoxWithCross(BoxHalfSize(p))
  }

  /** One call of `drawPattern`: begin a path, trace the figure, stroke it. */
  function PatternCommands(p: Parameters): seq<Command> {
    [BeginPath] + FigureCommands(p) + [Stroke]
  }

  lemma ScaledCompare(k: int, m: int, s: int)
    requires s > 0
    ensures 3 * (k * s) <= m * s <==> 3 * k <= m
  {
    assert m * s - 3 * (k * s) == (m - 3 * k) * s;
    if 3 * k <= m {
      assert (m - 3 * k) * s >= 0;
    } else {
      assert (3 * k - m) * s > 0;
    }
  }

  /** The ring loop's guard `r <= radius` at its (n + 1)-th test, where
      r = (n + 1) · spacing, holds exactly while fewer than RingCount(p) rings are drawn. */
  lemma RingGuard(p: Parameters, n: nat)
    requires RingLoopSafe(p)
    requires p.dotSpacing < 0 ==> n == 0
    ensures ((n + 1) * p.dotSpacing) as real <= FigureRadius(p) <==> n < RingCount(p)
  {
    var m, s := MinExtent(p), p.dotSpacing;
    var x, y := (n + 1) * s, m * s;
    assert FigureRadius(p) == y as real / 3.0;
    assert x as real <= y as real / 3.0 <==> 3 * x <= y;
    if s > 0 {
      ScaledCompare(n + 1, m, s);
    } else {
      assert n == 0 && x == s;
      assert y - 3 * s == (m - 3) * s;
      assert (m - 3) * s < 0;
    }
  }

  /** As written, the ring loop's guard never fails with spacing 0, or with a
      negative spacing and min(rows, columns) at most 3: every test of
      `r <= radius` passes. With spacing 0 the loop never ends; with a negative
      spacing the first ring's `arc` throws on its negative radius. */
  lemma RingGuardNeverFails(p: Parameters, n: nat)
    requires !RingLoopSafe(p)
    ensures ((n + 1) * p.dotSpacing) as real <= FigureRadius(p)
  {
    var m, s := MinExtent(p), p.dotSpacing;
    var x, y := (n + 1) * s, m * s;
    assert FigureRadius(p) == y as real / 3.0;
    if s < 0 {
      assert x - s == n * s;
      assert n * s <= 0;
      assert y - 3 * s == (m - 3) * s;
      assert (m - 3) * s >= 0;
    }
    assert 3 * x <= y;
  }

  /** The guard the ring loop evidently intends, `spacing > 0 && r <= radius`:
      its (n + 1)-th test holds iff n is below RingCount(p), for every input.
      So the intended loop always ends, and it draws exactly the rings the
      figure is made of. */
  lemma IntendedRingGuard(p: Parameters, n: nat)
    ensures (p.dotSpacing > 0 && ((n + 1) * p.dotSpacing) as real <= FigureRadius(p)) <==> n < RingCount(p)
  {
    if p.dotSpacing > 0 {
      RingGuard(p, n);
    }
  }

  /** The 4-fold figure: four wedges from the centre through consecutive axis points. */
  method DrawWedges(ctx: Canvas, p: Parameters)
    requires ctx.Valid()
    modifies ctx
    ensures ctx.Valid() && ctx.log == old(ctx.log) + Wedges(FigureRadius(p), 4)
  {
    var radius := (MinExtent(p) * p.dotSpacing) as real / 3.0;
    for i := 0 to 4
      invariant ctx.Valid() && ctx.log == old(ctx.log) + Wedges(radius, i)
    {
      ctx.Issue(MoveTo(At(Centre)));
      ctx.Issue(LineTo(At(AxisPoint(radius, i))));
      ctx.Issue(LineTo(At(AxisPoint(radius, i + 1))));
    }
  }

  /** The radial figure: eight spokes, then the concentric rings. */
  method DrawRadial(ctx: Canvas, p: Parameters)
    requires ctx.Valid()
    requires RingLoopSafe(p)
    modifies ctx
    ensures ctx.Valid()
    ensures ctx.log == old(ctx.log) + Spokes(FigureRadius(p), 8) + Rings(p.dotSpacing, RingCount(p))
  {
    var radius := (MinExtent(p) * p.dotSpacing) as real / 3.0;
    var spokes := 8;
    for i := 0 to spokes
      invariant ctx.Valid() && ctx.log == old(ctx.log) + Spokes(radius, i)
    {
      ghost var before := ctx.log;
      ctx.Issue(MoveTo(At(Centre)));
      ctx.Issue(LineTo(OnCircle(PolarPoint(Centre, radius, i, spokes))));
      assert ctx.log == before + [MoveTo(At(Centre)), LineTo(OnCircle(PolarPoint(Centre, radius, i, 8)))];
      LogAssoc(old(ctx.log), Spokes(radius, i), [MoveTo(At(Centre)), LineTo(OnCircle(PolarPoint(Centre, radius, i, 8)))]);
    }
    ghost var spokesDone := ctx.log;
    assert radius == FigureRadius(p);
    var r := p.dotSpacing;
    ghost var n: nat := 0;
    while r as real <= radius
      invariant r == (n + 1) * p.dotSpacing
      invariant n <= RingCount(p)
      invariant p.dotSpacing < 0 ==> n == 0
      invariant ctx.Valid() && ctx.log == spokesDone + Rings(p.dotSpacing, n)
      decreases RingCount(p) - n
    {
      RingGuard(p, n);
      ghost var before := ctx.log;
      ctx.Issue(MoveTo(At(Point(Centre.x + r as real, Centre.y))));
      ctx.Issue(Arc(Centre, r as real));
      ghost var ring := [MoveTo(At(Point(Centre.x + r as real, Centre.y))), Arc(Centre, r as real)];
      assert ctx.log == before + ring;
      LogAssoc(spokesDone, Rings(p.dotSpacing, n), ring);
      r := r + p.dotSpacing;
      n := n + 1;
    }
    RingGuard(p, n);
  }

  /** The default figure: a square of half-size `size` about the centre and its diagonals. */
  method DrawBoxWithCross(ctx: Canvas, p: Parameters)
    requires ctx.Valid()
    modifies ctx
    ensures ctx.Valid() && ctx.log == old(ctx.log) + BoxWithCross(BoxHalfSize(p))
  {
    var size := (MinExtent(p) * p.dotSpacing) as real / 4.0;
    ctx.Issue(Rect(Centre.x - size, Centre.y - size, size * 2.0, size * 2.0));
    ctx.Issue(MoveTo(At(Point(Centre.x - size, Centre.y - size))));
    ctx.Issue(LineTo(At(Point(Centre.x + size, Centre.y + size))));
    ctx.Issue(MoveTo(At(Point(Centre.x + size, Centre.y - size))));
    ctx.Issue(LineTo(At(Point(Centre.x - size, Centre.y + size))));
  }

  /** Runs `drawPattern` once. */
  method DrawPattern(ctx: Canvas, p: Parameters)
    requires ctx.Valid()
    requires p.symmetryType == "radial" ==> RingLoopSafe(p)
    modifies ctx
    ensures ctx.Valid() && ctx.log == old(ctx.log) + PatternCommands(p)
  {
    ctx.Issue(BeginPath);
    ghost var begun := ctx.log;
    if p.symmetryType == "4-fold" {
      DrawWedges(ctx, p);
    } else if p.symmetryType == "radial" {
      DrawRadial(ctx, p);
      LogAssoc(begun, Spokes(FigureRadius(p), 8), Rings(p.dotSpacing, RingCount(p)));
    } else {
      DrawBoxWithCross(ctx, p);
    }
    assert ctx.log == begun + FigureCommands(p);
    ctx.Issue(Stroke);
    LogAssoc(old(ctx.log), [BeginPath], FigureCommands(p));
    LogAssoc(old(ctx.log), [BeginPath] + FigureCommands(p), [Stroke]);
  }

  // ---------------------------------------------------------------------------
  // The figures, stated

  /** Every vertex of the 4-fold figure is the centre or one of the four points
      at distance `radius` on the axes through it. */
  predicate OnAxes(radius: real, v: Vertex) {
    v in {At(Centre), At(Point(Centre.x + radius, Centre.y)), At(Point(Centre.x, Centre.y + radius)),
          At(Point(Centre.x - radius, Centre.y)), At(Point(Centre.x, Centre.y - radius))}
  }

  lemma {:induction false} WedgesCount(radius: real, n: nat)
    ensures |Wedges(radius, n)| == 3 * n
    ensures Tally(Wedges(radius, n), IsMoveTo) == n
  {
    if n > 0 {
      var w := [MoveTo(At(Centre)), LineTo(At(AxisPoint(radius, n - 1))), LineTo(At(AxisPoint(radius, n)))];
      WedgesCount(radius, n - 1);
      TallyAppend(Wedges(radius, n - 1), w, IsMoveTo);
      TallyTriple(w[0], w[1], w[2], IsMoveTo);
      assert w == [w[0], w[1], w[2]];
    }
  }

  lemma {:induction false} WedgesSlices(radius: real, n: nat)
    ensures |Wedges(radius, n)| == 3 * n
    ensures forall k :: 0 <= k < n ==> (Wedges(radius, n)[3 * k..3 * k + 3] ==
      [MoveTo(At(Centre)), LineTo(At(AxisPoint(radius, k))), LineTo(At(AxisPoint(radius, k + 1)))])
  {
    WedgesCount(radius, n);
    if n > 0 {
      WedgesSlices(radius, n - 1);
      var prev := Wedges(radius, n - 1);
      var w := [MoveTo(At(Centre)), LineTo(At(AxisPoint(radius, n - 1))), LineTo(At(AxisPoint(radius, n)))];
      assert Wedges(radius, n) == prev + w;
      forall k | 0 <= k < n
        ensures Wedges(radius, n)[3 * k..3 * k + 3] ==
          [MoveTo(At(Centre)), LineTo(At(AxisPoint(radius, k))), LineTo(At(AxisPoint(radius, k + 1)))]
      {
        if k < n - 1 {
          assert 3 * k + 3 <= |prev|;
          assert (prev + w)[3 * k..3 * k + 3] == prev[3 * k..3 * k + 3];
        } else {
          assert 3 * k == |prev|;
          assert (prev + w)[|prev|..|prev| + 3] == w;
        }
      }
    }
  }

  lemma {:induction false} WedgesOnAxes(radius: real, n: nat)
    ensures forall c :: c in Wedges(radius, n) ==> (c.MoveTo? || c.LineTo?) && OnAxes(radius, c.v)
  {
    if n > 0 {
      WedgesOnAxes(radius, n - 1);
      AxisPointOnAxes(radius, n - 1);
      AxisPointOnAxes(radius, n);
    }
  }

  lemma AxisPointOnAxes(radius: real, q: int)
    ensures OnAxes(radius, At(AxisPoint(radius, q)))
  {
  }

  /** The 4-fold figure is four subpaths; subpath k runs from the centre to the axis
      point at angle kπ/2 and on to the one at (k + 1)π/2, at radius
      min(rows, columns) · spacing / 3, so it uses no vertex off the two axes. */
  lemma FourFoldFigure(p: Parameters)
    requires p.symmetryType == "4-fold"
    ensures |FigureCommands(p)| == 12
    ensures Tally(FigureCommands(p), IsMoveTo) == 4
    ensures forall k :: 0 <= k < 4 ==> (FigureCommands(p)[3 * k..3 * k + 3] ==
      [MoveTo(At(Centre)), LineTo(At(AxisPoint(FigureRadius(p), k))), LineTo(At(AxisPoint(FigureRadius(p), k + 1)))])
    ensures forall c :: c in FigureCommands(p) ==> (c.MoveTo? || c.LineTo?) && OnAxes(FigureRadius(p), c.v)
  {
    WedgesCount(FigureRadius(p), 4);
    WedgesSlices(FigureRadius(p), 4);
    WedgesOnAxes(FigureRadius(p), 4);
  }

  lemma {:induction false} SpokesShape(radius: real, n: nat)
    ensures |Spokes(radius, n)| == 2 * n
    ensures Tally(Spokes(radius, n), IsLineTo) == n && Tally(Spokes(radius, n), IsArc) == 0
    ensures forall k :: 0 <= k < n ==> (Spokes(radius, n)[2 * k..2 * k + 2] ==
      [MoveTo(At(Centre)), LineTo(OnCircle(PolarPoint(Centre, radius, k, 8)))])
  {
    if n > 0 {
      var spoke := [MoveTo(At(Centre)), LineTo(OnCircle(PolarPoint(Centre, radius, n - 1, 8)))];
      SpokesShape(radius, n - 1);
      TallyAppend(Spokes(radius, n - 1), spoke, IsLineTo);
      TallyAppend(Spokes(radius, n - 1), spoke, IsArc);
      TallyPair(spoke[0], spoke[1], IsLineTo);
      TallyPair(spoke[0], spoke[1], IsArc);
      assert spoke == [spoke[0], spoke[1]];
      forall k | 0 <= k < n
        ensures Spokes(radius, n)[2 * k..2 * k + 2] == [MoveTo(At(Centre)), LineTo(OnCircle(PolarPoint(Centre, radius, k, 8)))]
      {
        if k < n - 1 {
          assert Spokes(radius, n)[2 * k..2 * k + 2] == Spokes(radius, n - 1)[2 * k..2 * k + 2];
        } else {
          assert Spokes(radius, n)[2 * k..2 * k + 2] == spoke;
        }
      }
    }
  }

  lemma {:induction false} RingsShape(spacing: int, n: nat)
    ensures |Rings(spacing, n)| == 2 * n
    ensures Tally(Rings(spacing, n), IsArc) == n && Tally(Rings(spacing, n), IsLineTo) == 0
    ensures forall k :: 0 <= k < n ==> Rings(spacing, n)[2 * k + 1] == Arc(Centre, ((k + 1) * spacing) as real)
  {
    if n > 0 {
      var ring := [MoveTo(At(Point(Centre.x + (n * spacing) as real, Centre.y))), Arc(Centre, (n * spacing) as real)];
      RingsShape(spacing, n - 1);
      TallyAppend(Rings(spacing, n - 1), ring, IsLineTo);
      TallyAppend(Rings(spacing, n - 1), ring, IsArc);
      TallyPair(ring[0], ring[1], IsLineTo);
      TallyPair(ring[0], ring[1], IsArc);
      assert ring == [ring[0], ring[1]];
    }
  }

  /** The radius of ring k (counting from 0): (k + 1) spacings. */
  function RingRadius(p: Parameters, k: int): real {
    ((k + 1) * p.dotSpacing) as real
  }

  /** The radial figure is eight spokes from the centre to the points at angles
      2πk/8, however large the spacing, followed by one ring per multiple of the
      spacing that is at most the radius: RingCount(p) = min(rows, columns) / 3
      rings for a positive spacing, the last within the radius and the next beyond it. */
  lemma RadialFigure(p: Parameters)
    requires p.symmetryType == "radial"
    ensures |FigureCommands(p)| == 16 + 2 * RingCount(p)
    ensures Tally(FigureCommands(p), IsLineTo) == 8
    ensures forall k :: 0 <= k < 8 ==> (FigureCommands(p)[2 * k..2 * k + 2] ==
      [MoveTo(At(Centre)), LineTo(OnCircle(PolarPoint(Centre, FigureRadius(p), k, 8)))])
    ensures Tally(FigureCommands(p), IsArc) == RingCount(p)
    ensures forall k :: 0 <= k < RingCount(p) ==>
      FigureCommands(p)[16 + 2 * k + 1] == Arc(Centre, RingRadius(p, k))
    ensures p.dotSpacing > 0 ==> RingCount(p) == if MinExtent(p) < 0 then 0 else MinExtent(p) / 3
    ensures p.dotSpacing > 0 ==>
      (forall k :: 0 <= k < RingCount(p) ==> RingRadius(p, k) <= FigureRadius(p)) &&
      RingRadius(p, RingCount(p)) > FigureRadius(p)
  {
    var spokes, rings := Spokes(FigureRadius(p), 8), Rings(p.dotSpacing, RingCount(p));
    SpokesShape(FigureRadius(p), 8);
    RingsShape(p.dotSpacing, RingCount(p));
    TallyAppend(spokes, rings, IsLineTo);
    TallyAppend(spokes, rings, IsArc);
    assert FigureCommands(p) == spokes + rings;
    forall k | 0 <= k < 8
      ensures FigureCommands(p)[2 * k..2 * k + 2] == spokes[2 * k..2 * k + 2]
    {
    }
    forall k | 0 <= k < RingCount(p)
      ensures FigureCommands(p)[16 + 2 * k + 1] == rings[2 * k + 1]
    {
    }
    if p.dotSpacing > 0 {
      forall k | 0 <= k < RingCount(p)
        ensures RingRadius(p, k) <= FigureRadius(p)
      {
        RingGuard(p, k);
      }
      RingGuard(p, RingCount(p));
    }
  }

  /** Every symmetry type other than "4-fold" and "radial" draws the same figure:
      the square of half-size min(rows, columns) · spacing / 4 about the centre,
      then its two diagonals. */
  lemma DefaultFigure(p: Parameters, q: Parameters)
    requires p.symmetryType !in {"4-fold", "radial"} && q.symmetryType !in {"4-fold", "radial"}
    requires p.rows == q.rows && p.columns == q.columns && p.dotSpacing == q.dotSpacing
    ensures FigureCommands(p) == FigureCommands(q)
    ensures FigureCommands(p) == BoxWithCross(BoxHalfSize(p))
    ensures FigureCommands(p)[0] == Rect(Centre.x - BoxHalfSize(p), Centre.y - BoxHalfSize(p), 2.0 * BoxHalfSize(p), 2.0 * BoxHalfSize(p))
  {
  }

  lemma FigureInert(p: Parameters)
    ensures forall c :: c in FigureCommands(p) ==> Inert(c)
  {
  }

  /** One `drawPattern` leaves the drawing state as it found it and strokes once,
      in the style in force. */
  lemma PatternStrokesOnce(p: Parameters, s: State)
    ensures Run(s, PatternCommands(p)) == s
    ensures StrokeStyles(s, PatternCommands(p)) == [s.style]
  {
    FigureInert(p);
    InertCalls(s, [BeginPath] + FigureCommands(p));
    RunAppend(s, [BeginPath] + FigureCommands(p), [Stroke]);
    assert [Stroke][1..] == [];
  }

  // ---------------------------------------------------------------------------
  // The layers

  /** The opacity layer i asks for: 1 − 0.2·i. */
  function LayerAlpha(i: int): real {
    1.0 - i as real * 0.2
  }

  /** The opacity layer i is drawn with when the canvas starts opaque: the requested
      one while it lies in [0, 1], else the canvas ignores the request. */
  function LayerOpacity(i: nat): real {
    if LayerAlpha(i) >= 0.0 then LayerAlpha(i) else 1.0
  }

  function Layer(p: Parameters, i: int): seq<Command> {
    [Save, SetGlobalAlpha(LayerAlpha(i))] + PatternCommands(p) + [Restore]
  }

  /** The first `n` layers. */
  function Layers(p: Parameters, n: int): seq<Command>
    decreases n
  {
    if n <= 0 then [] else Layers(p, n - 1) + Layer(p, n - 1)
  }

  /** Draws the pattern once per iteration, each time inside save/restore and at its own opacity. */
  method DrawLayers(ctx: Canvas, p: Parameters)
    requires ctx.Valid()
    requires Drawable(p)
    modifies ctx
    ensures ctx.Valid() && ctx.log == old(ctx.log) + Layers(p, p.iterations)
  {
    var i := 0;
    while i < p.iterations
      invariant 0 <= i <= if p.iterations < 0 then 0 else p.iterations
      invariant ctx.Valid() && ctx.log == old(ctx.log) + Layers(p, i)
      decreases p.iterations - i
    {
      DrawLayer(ctx, p, i);
      LogAssoc(old(ctx.log), Layers(p, i), Layer(p, i));
      LayersSnoc(p, i);
      i := i + 1;
    }
  }

  lemma LayersSnoc(p: Parameters, i: nat)
    ensures Layers(p, i + 1) == Layers(p, i) + Layer(p, i)
  {
  }

  lemma LogAssoc(x: seq<Command>, y: seq<Command>, z: seq<Command>)
    ensures (x + y) + z == x + (y + z)
  {
  }

  /** The body of the layer loop: the pattern inside save/restore at opacity 1 − 0.2·i. */
  method DrawLayer(ctx: Canvas, p: Parameters, i: int)
    requires ctx.Valid()
    requires p.symmetryType == "radial" ==> RingLoopSafe(p)
    modifies ctx
    ensures ctx.Valid() && ctx.log == old(ctx.log) + Layer(p, i)
  {
    ctx.Issue(Save);
    ctx.Issue(SetGlobalAlpha(1.0 - i as real * 0.2));
    ghost var opening := [Save, SetGlobalAlpha(LayerAlpha(i))];
    assert ctx.log == old(ctx.log) + opening;
    DrawPattern(ctx, p);
    ctx.Issue(Restore);
    LogAssoc(old(ctx.log), opening, PatternCommands(p));
    LogAssoc(old(ctx.log), opening + PatternCommands(p), [Restore]);
  }

  /** A layer restores the state it started from, and strokes once, with the
      opacity it asked for when that lies in [0, 1] and the starting one otherwise. */
  lemma LayerEffect(p: Parameters, s: State, i: nat)
    ensures Run(s, Layer(p, i)) == s
    ensures StrokeStyles(s, Layer(p, i)) ==
      [s.style.(globalAlpha := if LayerAlpha(i) >= 0.0 then LayerAlpha(i) else s.style.globalAlpha)]
  {
    var s1 := Apply(s, Save);
    var s2 := Apply(s1, SetGlobalAlpha(LayerAlpha(i)));
    var opening := [Save, SetGlobalAlpha(LayerAlpha(i))];
    assert opening[1..][1..] == [];
    assert Run(s1, opening[1..]) == s2;
    assert Run(s, opening) == s2;
    assert StrokeStyles(s1, opening[1..]) == [];
    assert StrokeStyles(s, opening) == [];
    PatternStrokesOnce(p, s2);
    RunAppend(s, opening, PatternCommands(p));
    RunAppend(s, opening + PatternCommands(p), [Restore]);
    assert [Restore][1..] == [];
  }

  lemma {:induction false} LayersEffect(p: Parameters, s: State, n: int)
    requires s.style.globalAlpha == 1.0
    ensures Run(s, Layers(p, n)) == s
    ensures |StrokeStyles(s, Layers(p, n))| == if n < 0 then 0 else n
    ensures forall i :: 0 <= i < |StrokeStyles(s, Layers(p, n))| ==>
      StrokeStyles(s, Layers(p, n))[i] == s.style.(globalAlpha := LayerOpacity(i))
    decreases n
  {
    if n > 0 {
      LayersEffect(p, s, n - 1);
      LayerEffect(p, s, n - 1);
      RunAppend(s, Layers(p, n - 1), Layer(p, n - 1));
    }
  }

  // ---------------------------------------------------------------------------
  // The component

  function BackgroundCommands(): seq<Command> {
    [ClearRect(0.0, 0.0, CanvasSize, CanvasSize), SetFillStyle(White),
     FillRect(0.0, 0.0, CanvasSize, CanvasSize), SetFillStyle(Teal)]
  }

  /** Everything the effect draws, in order. */
  function RenderCommands(p: Parameters): seq<Command> {
    BackgroundCommands() + LatticeCommands(p) + StyleCommands(p.strokeType) + Layers(p, p.iterations)
  }

  /** What the component shows: the supplied markup, or a canvas of the given size
      with the calls made on it. */
  datatype View = Markup(html: string) | Picture(width: real, height: real, commands: seq<Command>)

  /** JavaScript truthiness of `string | null`: not null and not empty. */
  predicate Truthy(svg: Option<string>) {
    svg.Some? && svg.value != ""
  }

  /** The component: a non-empty SVG string is shown verbatim and nothing is drawn;
      otherwise the canvas is cleared and the lattice, the style and the layers drawn. */
  method Render(p: Parameters, kolamSvg: Option<string>) returns (v: View)
    requires !Truthy(kolamSvg) ==> Drawable(p)
    ensures Truthy(kolamSvg) ==> v == Markup(kolamSvg.value)
    ensures !Truthy(kolamSvg) ==> v == Picture(CanvasSize, CanvasSize, RenderCommands(p))
  {
    if kolamSvg.Some? && kolamSvg.value != "" {
      return Markup(kolamSvg.value);
    }
    var ctx := new Canvas();
    ctx.Issue(ClearRect(0.0, 0.0, CanvasSize, CanvasSize));
    ctx.Issue(SetFillStyle(White));
    ctx.Issue(FillRect(0.0, 0.0, CanvasSize, CanvasSize));
    ctx.Issue(SetFillStyle(Teal));
    assert ctx.log == BackgroundCommands();
    DrawDots(ctx, p);
    ApplyStrokeStyle(ctx, p.strokeType);
    DrawLayers(ctx, p);
    v := Picture(CanvasSize, CanvasSize, ctx.log);
  }

  /** The style set once before the layers is the style of every stroke: the i-th
      stroke is layer i, in the chosen width and dash, at opacity 1 − 0.2·i while that
      is not negative; and after the last layer the opacity is back to 1. */
  lemma RenderStrokeStyles(p: Parameters)
    ensures |StrokeStyles(InitialState, RenderCommands(p))| == if p.iterations < 0 then 0 else p.iterations
    ensures forall i :: 0 <= i < |StrokeStyles(InitialState, RenderCommands(p))| ==>
      StrokeStyles(InitialState, RenderCommands(p))[i] ==
        Style(Teal, Teal, LineWidth(p.strokeType), LineDash(p.strokeType), LayerOpacity(i))
    ensures Run(InitialState, RenderCommands(p)) ==
      State(Style(Teal, Teal, LineWidth(p.strokeType), LineDash(p.strokeType), 1.0), [])
  {
    var bg, dots, style := BackgroundCommands(), LatticeCommands(p), StyleCommands(p.strokeType);
    var layers := Layers(p, p.iterations);
    var s1 := Run(InitialState, bg);
    BackgroundEffect();
    InertCalls(s1, dots);
    RunAppend(InitialState, bg, dots);
    assert Run(InitialState, bg + dots) == s1 && StrokeStyles(InitialState, bg + dots) == [];
    var s3 := Run(s1, style);
    StrokeStyleChoice(s1, p.strokeType);
    assert s3 == State(Style(Teal, Teal, LineWidth(p.strokeType), LineDash(p.strokeType), 1.0), []);
    RunAppend(InitialState, bg + dots, style);
    assert Run(InitialState, bg + dots + style) == s3 && StrokeStyles(InitialState, bg + dots + style) == [];
    LayersEffect(p, s3, p.iterations);
    RunAppend(InitialState, bg + dots + style, layers);
    assert StrokeStyles(InitialState, RenderCommands(p)) == StrokeStyles(s3, layers);
    assert Run(InitialState, RenderCommands(p)) == Run(s3, layers);
  }

  /** Clearing and filling the background leaves the fill colour teal and
      strokes nothing. */
  lemma BackgroundEffect()
    ensures Run(InitialState, BackgroundCommands()) == State(Style(Teal, "#000000", 1, [], 1.0), [])
    ensures StrokeStyles(InitialState, BackgroundCommands()) == []
  {
    var bg := BackgroundCommands();
    var t1 := Apply(InitialState, bg[0]);
    var t2 := Apply(t1, bg[1]);
    var t3 := Apply(t2, bg[2]);
    var t4 := Apply(t3, bg[3]);
    assert Run(t4, bg[4..]) == t4 && StrokeStyles(t4, bg[4..]) == [];
    assert Run(t3, bg[3..]) == t4 && StrokeStyles(t3, bg[3..]) == [];
    assert Run(t2, bg[2..]) == t4 && StrokeStyles(t2, bg[2..]) == [];
    assert Run(t1, bg[1..]) == t4 && StrokeStyles(t1, bg[1..]) == [];
  }

  /** Opacity falls by 0.2 per layer until it reaches 0 at layer 5; from layer 6 on
      the request is negative, ignored, and the layer is opaque. */
  lemma LayerOpacityFalls(i: nat, j: nat)
    ensures i < j <= 5 ==> LayerOpacity(j) < LayerOpacity(i)
    ensures i <= 4 ==> LayerOpacity(i) >= 0.2
    ensures i >= 6 ==> LayerOpacity(i) == 1.0
  {
  }

  /** The ranges the parameter form offers: rows and columns 3 to 20 (number
      fields, whose bounds the browser does not enforce on typed values), spacing
      10 to 50 in steps of 5 and iterations 1 to 5 (sliders, which do). */
  predicate FormBounds(p: Parameters) {
    3 <= p.rows <= 20 && 3 <= p.columns <= 20 &&
    10 <= p.dotSpacing <= 50 && p.dotSpacing % 5 == 0 &&
    1 <= p.iterations <= 5
  }

  /** Within the form's bounds the renderer always terminates, draws at least one
      ring for a radial figure, and its layers fade strictly, none below 0.2. */
  lemma FormBoundsFade(p: Parameters)
    requires FormBounds(p)
    ensures Drawable(p) && RingCount(p) >= 1
    ensures |StrokeStyles(InitialState, RenderCommands(p))| == p.iterations
    ensures forall i, j :: 0 <= i < j < p.iterations ==>
      StrokeStyles(InitialState, RenderCommands(p))[j].globalAlpha <
      StrokeStyles(InitialState, RenderCommands(p))[i].globalAlpha
    ensures forall i :: 0 <= i < p.iterations ==>
      StrokeStyles(InitialState, RenderCommands(p))[i].globalAlpha >= 0.2
  {
    RenderStrokeStyles(p);
    forall i: nat, j: nat | i < j < p.iterations
      ensures LayerOpacity(j) < LayerOpacity(i)
    {
      LayerOpacityFalls(i, j);
    }
    forall i: nat | i < p.iterations
      ensures LayerOpacity(i) >= 0.2
    {
      LayerOpacityFalls(i, i);
    }
  }
}
