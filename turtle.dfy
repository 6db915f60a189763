/** The turtle that the server's L-system, suzhi and kambi generators drive
    over an expanded L-system string. `F` draws a line, `A` a quarter arc, and
    `B` a short line followed by a three-quarter arc; the heading is a whole
    number of degrees that only arcs change. Positions on the page need cosine,
    sine and arctangent, so each drawn element records what determines it (its
    length or radius, the heading it starts from, which side the arc's centre
    lies on, and its SVG arc flags) rather than its coordinates. */
module Turtle {
  import opened Geometry
  import opened KolamParams
  import LSystem

  /** A length in the page's units: a whole number, or the `5 / (2 ** 0.5)`
      that `B` moves by, kept symbolic. */
  datatype Length = Units(n: int) | FiveOverRootTwo

  /** `radius > 0`. */
  predicate IsPositive(l: Length) {
    match l
    case Units(n) => n > 0
    case FiveOverRootTwo => true
  }

  /** `abs(radius)`. */
  function Abs(l: Length): (r: Length)
    ensures r.Units? ==> r.n >= 0
    ensures l.Units? ==> r.Units? && (r.n == l.n || r.n == -l.n)
  {
    match l
    case Units(n) => Units(if n < 0 then -n else n)
    case FiveOverRootTwo => l
  }

  /** Whether the arc's centre lies a quarter turn to the left of the heading
      (a positive radius) or to the right. */
  datatype Side = Left | Right

  /** What the generators add to the drawing: the white background, a line,
      or an arc path with its flags. */
  datatype Element =
    | Background
    | Line(length: Length, heading: int)
    | Arc(radius: Length, turn: int, heading: int, centre: Side, largeArc: int, sweep: int)

  /** The arc `draw_arc_svg(radius, angle_degrees)` draws when the turtle faces
      `heading`. A radius that is not positive puts the centre on the right and
      is replaced by its absolute value before the sweep flag tests it. */
  function ArcOf(radius: Length, angle: int, heading: int): (e: Element)
    ensures e.Arc? && e.turn == angle && e.heading == heading
    ensures e.centre == Left <==> IsPositive(radius)
    ensures e.radius == Abs(radius)
    ensures e.largeArc == 1 <==> angle > 180 || angle < -180
    ensures e.largeArc == 0 <==> -180 <= angle <= 180
    ensures e.sweep == 1 <==> (radius != Units(0) <==> angle >= 0)
    ensures e.sweep == 0 <==> (radius != Units(0) <==> angle < 0)
  {
    var r := if IsPositive(radius) then radius else Abs(radius);
    var sweep := if IsPositive(r) then 1 else 0;
    Arc(r, angle, heading, if IsPositive(radius) then Left else Right,
        if angle > 180 || -angle > 180 then 1 else 0,
        if angle < 0 then 1 - sweep else sweep)
  }

  /** What one symbol of the string draws, facing `heading`, at dot size `dot`. */
  function SymbolElements(c: char, dot: int, heading: int): seq<Element> {
    if c == 'F' then [Line(Units(dot), heading)]
    else if c == 'A' then [ArcOf(Units(dot), 90, heading)]
    else if c == 'B' then [Line(FiveOverRootTwo, heading), ArcOf(FiveOverRootTwo, 270, heading)]
    else []
  }

  /** How far one symbol turns the turtle, in degrees. */
  function SymbolTurn(c: char): int {
    if c == 'A' then 90 else if c == 'B' then 270 else 0
  }

  /** The total turn over a string. */
  function Turning(s: string): int
    decreases |s|
  {
    if s == [] then 0 else Turning(s[..|s| - 1]) + SymbolTurn(s[|s| - 1])
  }

  /** Everything the turtle draws over `s`, starting at `heading`. */
  function Trace(s: string, dot: int, heading: int): seq<Element>
    decreases |s|
  {
    if s == [] then []
    else
      var init := s[..|s| - 1];
      Trace(init, dot, heading) + SymbolElements(s[|s| - 1], dot, heading + Turning(init))
  }

  /** The turtle: the heading it faces and the elements drawn so far. */
  class Turtle {
    var heading: int
    var elements: seq<Element>

    /** A fresh drawing holds the background rectangle, and the turtle faces 0 degrees. */
    constructor()
      ensures heading == 0 && elements == [Background]
    {
      heading := 0;
      elements := [Background];
    }

    /** `draw_line_svg`: a line along the heading, which stays as it is. */
    method DrawLine(length: Length)
      modifies this
      ensures elements == old(elements) + [Line(length, old(heading))]
      ensures heading == old(heading)
    {
      elements := elements + [Line(length, heading)];
    }

    /** `draw_arc_svg`: the centre side and the flags, then the turn. */
    method DrawArc(radius: Length, angleDegrees: int)
      modifies this
      ensures elements == old(elements) + [ArcOf(radius, angleDegrees, old(heading))]
      ensures heading == old(heading) + angleDegrees
    {
      var r := radius;
      var centre := Left;
      if !IsPositive(radius) {
        centre := Right;
        r := Abs(radius);
      }
      var sweep := if IsPositive(r) then 1 else 0;
      if angleDegrees < 0 {
        sweep := 1 - sweep;
      }
      var magnitude := if angleDegrees < 0 then -angleDegrees else angleDegrees;
      var largeArc := if magnitude > 180 then 1 else 0;
      elements := elements + [Arc(r, angleDegrees, heading, centre, largeArc, sweep)];
      heading := heading + angleDegrees;
    }

    /** One pass of the symbol loop: `F` draws a line of the dot size, `A` a
        quarter arc of the dot size, `B` a line and a three-quarter arc of
        5/√2, and any other symbol nothing. */
    method Draw(symbol: char, dot: int)
      modifies this
      ensures elements == old(elements) + SymbolElements(symbol, dot, old(heading))
      ensures heading == old(heading) + SymbolTurn(symbol)
    {
      if symbol == 'F' {
        DrawLine(Units(dot));
      } else if symbol == 'A' {
        DrawArc(Units(dot), 90);
      } else if symbol == 'B' {
        DrawLine(FiveOverRootTwo);
        DrawArc(FiveOverRootTwo, 270);
      }
    }

    /** The symbol loop the three generators share. */
    method Interpret(s: string, dot: int)
      modifies this
      ensures elements == old(elements) + Trace(s, dot, old(heading))
      ensures heading == old(heading) + Turning(s)
    {
      for i := 0 to |s|
        invariant elements == old(elements) + Trace(s[..i], dot, old(heading))
        invariant heading == old(heading) + Turning(s[..i])
      {
        assert s[..i + 1] == s[..i] + [s[i]];
        TraceSnoc(s[..i], s[i], dot, old(heading));
        TurningSnoc(s[..i], s[i]);
        AppendAssoc(old(elements), Trace(s[..i], dot, old(heading)), SymbolElements(s[i], dot, heading));
        Draw(s[i], dot);
      }
      assert s[..|s|] == s;
    }
  }

  // ---------------------------------------------------------------------------
  // Counting symbols

  function Count(s: string, c: char): nat {
    multiset(s)[c]
  }

  lemma CountSnoc(s: string, c: char)
    requires s != []
    ensures Count(s, c) == Count(s[..|s| - 1], c) + (if s[|s| - 1] == c then 1 else 0)
  {
    assert s == s[..|s| - 1] + [s[|s| - 1]];
  }

  /** Only arcs turn the turtle: a quarter turn per `A`, three per `B`. */
  lemma {:induction false} TurningCount(s: string)
    ensures Turning(s) == 90 * Count(s, 'A') + 270 * Count(s, 'B')
    decreases |s|
  {
    if s != [] {
      TurningCount(s[..|s| - 1]);
      CountSnoc(s, 'A');
      CountSnoc(s, 'B');
    }
  }

  /** The number of lines among the elements. */
  function Lines(es: seq<Element>): nat
    decreases |es|
  {
    if es == [] then 0 else Lines(es[..|es| - 1]) + (if es[|es| - 1].Line? then 1 else 0)
  }

  /** The number of arcs among the elements. */
  function Arcs(es: seq<Element>): nat
    decreases |es|
  {
    if es == [] then 0 else Arcs(es[..|es| - 1]) + (if es[|es| - 1].Arc? then 1 else 0)
  }

  lemma {:induction false} CountsAppend(a: seq<Element>, b: seq<Element>)
    ensures Lines(a + b) == Lines(a) + Lines(b)
    ensures Arcs(a + b) == Arcs(a) + Arcs(b)
    decreases |b|
  {
    if b == [] {
      assert a + b == a;
    } else {
      assert (a + b)[..|a + b| - 1] == a + b[..|b| - 1];
      CountsAppend(a, b[..|b| - 1]);
    }
  }

  lemma SymbolCounts(c: char, dot: int, heading: int)
    ensures var es := SymbolElements(c, dot, heading);
      Lines(es) == (if c == 'F' || c == 'B' then 1 else 0) &&
      Arcs(es) == (if c == 'A' || c == 'B' then 1 else 0) &&
      |es| == (if c == 'F' || c == 'A' then 1 else if c == 'B' then 2 else 0)
  {
    var es := SymbolElements(c, dot, heading);
    if c == 'B' {
      CountsOne(es[0]);
      CountsOne(es[1]);
      CountsAppend([es[0]], [es[1]]);
      assert es == [es[0]] + [es[1]];
    } else if c == 'F' || c == 'A' {
      CountsOne(es[0]);
    }
  }

  lemma CountsOne(e: Element)
    ensures Lines([e]) == (if e.Line? then 1 else 0) && Arcs([e]) == (if e.Arc? then 1 else 0)
  {
    assert [e][..0] == [];
  }

  lemma CountsStep(t: seq<Element>, c: char, dot: int, h: int)
    ensures var es := t + SymbolElements(c, dot, h);
      Lines(es) == Lines(t) + (if c == 'F' || c == 'B' then 1 else 0) &&
      Arcs(es) == Arcs(t) + (if c == 'A' || c == 'B' then 1 else 0) &&
      |es| == |t| + (if c == 'F' || c == 'A' then 1 else if c == 'B' then 2 else 0)
  {
    CountsAppend(t, SymbolElements(c, dot, h));
    SymbolCounts(c, dot, h);
  }

  /** `F` and `B` draw one line each, `A` and `B` one arc each, and nothing
      else draws. */
  lemma {:induction false} TraceCounts(s: string, dot: int, heading: int)
    ensures Lines(Trace(s, dot, heading)) == Count(s, 'F') + Count(s, 'B')
    ensures Arcs(Trace(s, dot, heading)) == Count(s, 'A') + Count(s, 'B')
    ensures |Trace(s, dot, heading)| == Count(s, 'F') + Count(s, 'A') + 2 * Count(s, 'B')
    decreases |s|
  {
    if s != [] {
      var init, c := s[..|s| - 1], s[|s| - 1];
      var h := heading + Turning(init);
      assert Trace(s, dot, heading) == Trace(init, dot, heading) + SymbolElements(c, dot, h);
      TraceCounts(init, dot, heading);
      CountsStep(Trace(init, dot, heading), c, dot, h);
      CountSnoc(s, 'F');
      CountSnoc(s, 'A');
      CountSnoc(s, 'B');
    }
  }

  // ---------------------------------------------------------------------------
  // Composition

  /** One more symbol turns the turtle by that symbol's turn. */
  lemma TurningSnoc(s: string, c: char)
    ensures Turning(s + [c]) == Turning(s) + SymbolTurn(c)
  {
    assert (s + [c])[..|s|] == s;
  }

  /** One more symbol draws that symbol's elements from where the turtle faces. */
  lemma TraceSnoc(s: string, c: char, dot: int, heading: int)
    ensures Trace(s + [c], dot, heading) == Trace(s, dot, heading) + SymbolElements(c, dot, heading + Turning(s))
  {
    assert (s + [c])[..|s|] == s;
  }

  lemma {:induction false} TurningAppend(a: string, b: string)
    ensures Turning(a + b) == Turning(a) + Turning(b)
    decreases |b|
  {
    if b == [] {
      assert a + b == a;
    } else {
      var b', c := b[..|b| - 1], b[|b| - 1];
      TurningAppend(a, b');
      assert b == b' + [c];
      assert a + (b' + [c]) == (a + b') + [c];
      TurningSnoc(a + b', c);
      TurningSnoc(b', c);
    }
  }

  lemma AppendAssoc(x: seq<Element>, y: seq<Element>, z: seq<Element>)
    ensures (x + y) + z == x + (y + z)
  {
  }

  // ---------------------------------------------------------------------------
  // The shape of every drawn element

  /** An element the symbol loop can draw at dot size `dot` from a start
      heading `h`: a line of the dot size or of 5/√2, a quarter arc of radius
      |dot| with the flags line 73-77 give it, or a three-quarter arc of
      radius 5/√2 with both flags set; and always facing `h` plus a whole
      number of quarter turns. */
  predicate Drawn(e: Element, dot: int, h: int) {
    match e
    case Background => false
    case Line(length, heading) =>
      (length == Units(dot) || length == FiveOverRootTwo) && (heading - h) % 90 == 0
    case Arc(radius, turn, heading, centre, largeArc, sweep) =>
      (heading - h) % 90 == 0 &&
      ((turn == 90 && largeArc == 0 && sweep == (if dot != 0 then 1 else 0) &&
        radius == Units(if dot < 0 then -dot else dot) && centre == (if dot > 0 then Left else Right)) ||
       (turn == 270 && largeArc == 1 && sweep == 1 && radius == FiveOverRootTwo && centre == Left))
  }

  lemma TurningQuarter(s: string)
    ensures Turning(s) % 90 == 0
  {
    TurningCount(s);
    assert Turning(s) == 90 * (Count(s, 'A') + 3 * Count(s, 'B'));
  }

  lemma SymbolDrawn(c: char, dot: int, h: int, k: int)
    requires k % 90 == 0
    ensures forall e :: e in SymbolElements(c, dot, h + k) ==> Drawn(e, dot, h)
  {
  }

  /** Every element the loop draws has one of the shapes above. */
  lemma {:induction false} TraceDrawn(s: string, dot: int, h: int)
    ensures forall e :: e in Trace(s, dot, h) ==> Drawn(e, dot, h)
    decreases |s|
  {
    if s != [] {
      var init := s[..|s| - 1];
      TraceDrawn(init, dot, h);
      TurningQuarter(init);
      SymbolDrawn(s[|s| - 1], dot, h, Turning(init));
    }
  }

  // ---------------------------------------------------------------------------
  // The three generators

  /** A generated SVG: a square page of the given size, the point the turtle
      starts from, and the elements in the order they were added. */
  datatype Svg = Svg(size: int, start: Point, elements: seq<Element>)

  /** The drawing `generate_lsystem_kolam_svg` makes: a 600-unit page, the
      turtle starting at (300 - dot, 300 + dot) facing 0 degrees, and the
      trace of the expanded string after the background. */
  function LSystemSvg(p: KolamParameters): Svg {
    Svg(600, Point((300 - p.dotSize) as real, (300 + p.dotSize) as real),
        [Background] + Trace(LSystem.Expand(p.axiom, p.rules, p.iterations), p.dotSize, 0))
  }

  /** The start of `generate_kambi_kolam_svg`: half a rhombus side, the rhombus
      side being `rhombus_size * dot_size`, left of and below the centre. */
  function KambiStart(p: KolamParameters): Point {
    var side := (p.rhombusSize * p.dotSize) as real;
    Point(300.0 - side / 2.0, 300.0 + side / 2.0)
  }

  /** `generate_lsystem_kolam_svg`. */
  method GenerateLSystemSvg(p: KolamParameters) returns (svg: Svg)
    ensures svg == LSystemSvg(p)
  {
    var turtle := new Turtle();
    var s := LSystem.ExpandLSystemString(p.axiom, p.rules, p.iterations);
    var start := Point((300 - p.dotSize) as real, (300 + p.dotSize) as real);
    turtle.Interpret(s, p.dotSize);
    svg := Svg(600, start, turtle.elements);
  }

  /** `generate_suzhi_kolam_svg` draws exactly what the L-system generator draws. */
  method GenerateSuzhiSvg(p: KolamParameters) returns (svg: Svg)
    ensures svg == LSystemSvg(p)
  {
    var turtle := new Turtle();
    var s := LSystem.ExpandLSystemString(p.axiom, p.rules, p.iterations);
    var start := Point((300 - p.dotSize) as real, (300 + p.dotSize) as real);
    turtle.Interpret(s, p.dotSize);
    svg := Svg(600, start, turtle.elements);
  }

  /** `generate_kambi_kolam_svg` draws what the L-system generator draws, from
      its own start point. */
  method GenerateKambiSvg(p: KolamParameters) returns (svg: Svg)
    ensures svg == LSystemSvg(p).(start := KambiStart(p))
  {
    var turtle := new Turtle();
    var rhombusSide := (p.rhombusSize * p.dotSize) as real;
    var start := Point(300.0 - rhombusSide / 2.0, 300.0 + rhombusSide / 2.0);
    var s := LSystem.ExpandLSystemString(p.axiom, p.rules, p.iterations);
    turtle.Interpret(s, p.dotSize);
    svg := Svg(600, start, turtle.elements);
  }

  /** The L-system drawing is the background followed by one line per `F` and
      `B` and one arc per `A` and `B` of the expanded string. */
  lemma LSystemSvgCounts(p: KolamParameters)
    ensures var svg := LSystemSvg(p);
      var s := LSystem.Expand(p.axiom, p.rules, p.iterations);
      svg.elements[0] == Background &&
      Lines(svg.elements) == Count(s, 'F') + Count(s, 'B') &&
      Arcs(svg.elements) == Count(s, 'A') + Count(s, 'B')
  {
    var s := LSystem.Expand(p.axiom, p.rules, p.iterations);
    TraceCounts(s, p.dotSize, 0);
    CountsAppend([Background], Trace(s, p.dotSize, 0));
    assert [Background][..0] == [];
  }

  /** The kambi start coincides with the L-system start exactly when the
      rhombus side is twice the dot size. */
  lemma KambiStartSame(p: KolamParameters)
    ensures KambiStart(p) == LSystemSvg(p).start <==> p.rhombusSize * p.dotSize == 2 * p.dotSize
  {
    var side := (p.rhombusSize * p.dotSize) as real;
    if KambiStart(p) == LSystemSvg(p).start {
      assert 300.0 - side / 2.0 == (300 - p.dotSize) as real;
      assert side == (2 * p.dotSize) as real;
    }
  }
}
