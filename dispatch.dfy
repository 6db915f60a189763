/** The `/generate-kolam-svg` endpoint: the design type picks one of the four
    generators; an unknown type is answered with status 400 and an exception
    raised while generating with status 500, both as a small SVG page. */
module Dispatch {
  import opened Wrappers
  import opened KolamParams
  import Turtle
  import GroupTheory
  import LSystem
  import Geometry

  const SvgMediaType: string := "image/svg+xml"

  /** What a response carries: one of the two kinds of drawing, or the text
      of an error page. Serialising a drawing to markup is not modelled. */
  datatype Body =
    | TurtleDrawing(svg: Turtle.Svg)
    | GridDrawing(drawing: GroupTheory.Drawing)
    | Page(content: string)

  datatype Response = Response(body: Body, mediaType: string, status: int)

  /** The `n` characters of `page` from position `i` on. */
  function Window(page: string, i: int, n: nat): string
    requires 0 <= i <= |page| - n
  {
    page[i..i + n]
  }

  /** `message` occurs in `page`. */
  predicate Contains(page: string, message: string) {
    exists i :: 0 <= i <= |page| - |message| && Window(page, i, |message|) == message
  }

  /** The markup an error message is shown in: red text at (10, 20). */
  function ErrorPage(message: string): (page: string)
    ensures Contains(page, message)
    ensures |page| == |message| + 49
  {
    var page := "<svg><text x=\"10\" y=\"20\" fill=\"red\">" + message + "</text></svg>";
    assert Window(page, 36, |message|) == message;
    page
  }

  function UnknownTypeMessage(designType: string): string {
    "Error: Unknown design type " + designType
  }

  function ExceptionMessage(error: string, traceback: string): string {
    "Error: " + error + "\n" + traceback
  }

  predicate KnownType(t: string) {
    t == "lsystem" || t == "suzhi" || t == "kambi" || t == "grouptheory"
  }

  /** The response `generate_kolam_design` sends. The text of the traceback
      is whatever the runtime prints; it is a parameter here. */
  function KolamDesign(p: KolamParameters, traceback: string): Response {
    if p.designType == "lsystem" || p.designType == "suzhi" then
      Response(TurtleDrawing(Turtle.LSystemSvg(p)), SvgMediaType, 200)
    else if p.designType == "kambi" then
      Response(TurtleDrawing(Turtle.LSystemSvg(p).(start := Turtle.KambiStart(p))), SvgMediaType, 200)
    else if p.designType == "grouptheory" then
      match GroupTheory.GroupTheorySvg(p)
      case Success(d) => Response(GridDrawing(d), SvgMediaType, 200)
      case Failure(e) => Response(Page(ErrorPage(ExceptionMessage(e, traceback))), SvgMediaType, 500)
    else
      Response(Page(ErrorPage(UnknownTypeMessage(p.designType))), SvgMediaType, 400)
  }

  /** `generate_kolam_design`: the if/elif chain over the design type, with the
      group-theory generator's exception caught and reported. */
  method GenerateKolamDesign(p: KolamParameters, traceback: string) returns (r: Response)
    ensures r == KolamDesign(p, traceback)
  {
    var body: Body;
    if p.designType == "lsystem" {
      var svg := Turtle.GenerateLSystemSvg(p);
      body := TurtleDrawing(svg);
    } else if p.designType == "suzhi" {
      var svg := Turtle.GenerateSuzhiSvg(p);
      body := TurtleDrawing(svg);
    } else if p.designType == "kambi" {
      var svg := Turtle.GenerateKambiSvg(p);
      body := TurtleDrawing(svg);
    } else if p.designType == "grouptheory" {
      var result := GroupTheory.GenerateGroupTheorySvg(p);
      if result.Failure? {
        return Response(Page(ErrorPage(ExceptionMessage(result.error, traceback))), SvgMediaType, 500);
      }
      body := GridDrawing(result.value);
    } else {
      return Response(Page(ErrorPage(UnknownTypeMessage(p.designType))), SvgMediaType, 400);
    }
    return Response(body, SvgMediaType, 200);
  }

  /** The three outcomes: 400 exactly for an unknown design type, 500 exactly
      for a group-theory design with a polygon of no sides, 200 otherwise;
      every answer is SVG. The division by zero is the only generator exception
      this model raises; the svgwrite value checks and float overflows that the
      catch-all would also answer with 500 are outside it. */
  lemma Outcomes(p: KolamParameters, traceback: string)
    ensures var r := KolamDesign(p, traceback);
      r.mediaType == SvgMediaType &&
      (r.status == 400 <==> !KnownType(p.designType)) &&
      (r.status == 500 <==>
        p.designType == "grouptheory" && (p.polygon1Sides == 0 || p.polygon2Sides == 0)) &&
      (r.status == 200 <==>
        KnownType(p.designType) &&
        (p.designType == "grouptheory" ==> p.polygon1Sides != 0 && p.polygon2Sides != 0))
  {
    var g1 := GroupTheory.PolygonPoints(p.polygon1Sides, p.polygon1Radius);
    var g2 := GroupTheory.PolygonPoints(p.polygon2Sides, p.polygon2Radius);
    assert g1.Failure? <==> p.polygon1Sides == 0;
    assert g2.Failure? <==> p.polygon2Sides == 0;
  }

  /** An error page names what went wrong: the unknown design type, or the
      exception and its traceback; a success carries a drawing, never text.
      The only exception modelled is the division by zero. */
  lemma ErrorPagesExplain(p: KolamParameters, traceback: string)
    ensures var r := KolamDesign(p, traceback);
      (r.status == 200 <==> !r.body.Page?) &&
      (r.status == 400 ==>
        Contains(r.body.content, UnknownTypeMessage(p.designType))) &&
      (r.status == 500 ==>
        Contains(r.body.content, ExceptionMessage(GroupTheory.DivisionByZero, traceback)))
  {
    var g1 := GroupTheory.PolygonPoints(p.polygon1Sides, p.polygon1Radius);
    var g2 := GroupTheory.PolygonPoints(p.polygon2Sides, p.polygon2Radius);
    assert g1.Failure? ==> g1.error == GroupTheory.DivisionByZero;
    assert g2.Failure? ==> g2.error == GroupTheory.DivisionByZero;
  }

  /** "suzhi" draws the very picture "lsystem" draws; "kambi" differs from it
      in nothing but where the pen starts. */
  lemma SuzhiKambiLikeLSystem(p: KolamParameters, traceback: string)
    ensures KolamDesign(p.(designType := "suzhi"), traceback) == KolamDesign(p.(designType := "lsystem"), traceback)
    ensures var k := KolamDesign(p.(designType := "kambi"), traceback).body.svg;
      var l := KolamDesign(p.(designType := "lsystem"), traceback).body.svg;
      k.size == l.size && k.elements == l.elements
  {
  }

  /** The symbols of the default replacement for `A`: 2 `A`, 2 `F` and 1 `B`. */
  lemma ReplacementACounts(c: char)
    ensures Turtle.Count("AFBFA", c) ==
      (if c == 'A' then 2 else 0) + (if c == 'F' then 2 else 0) + (if c == 'B' then 1 else 0)
  {
    var r := "AFBFA";
    assert r == [r[0]] + [r[1]] + [r[2]] + [r[3]] + [r[4]];
    assert multiset(r) == multiset{r[0]} + multiset{r[1]} + multiset{r[2]} + multiset{r[3]} + multiset{r[4]};
  }

  /** The symbols of the default replacement for `B`: 2 `A`, 4 `F` and 3 `B`. */
  lemma ReplacementBCounts(c: char)
    ensures Turtle.Count("AFBFBFBFA", c) ==
      (if c == 'A' then 2 else 0) + (if c == 'F' then 4 else 0) + (if c == 'B' then 3 else 0)
  {
    var r := "AFBFBFBFA";
    assert r == [r[0]] + [r[1]] + [r[2]] + [r[3]] + [r[4]] + [r[5]] + [r[6]] + [r[7]] + [r[8]];
    assert multiset(r) == multiset{r[0]} + multiset{r[1]} + multiset{r[2]} + multiset{r[3]} + multiset{r[4]} +
      multiset{r[5]} + multiset{r[6]} + multiset{r[7]} + multiset{r[8]};
  }

  /** The default rules' replacements, counted: `A` becomes 2 `A`, 2 `F` and
      1 `B`; `B` becomes 2 `A`, 4 `F` and 3 `B`; every other character stays. */
  lemma DefaultRewrite(c: char)
    ensures var r := LSystem.Rewrite(DefaultRules, c);
      Turtle.Count(r, 'F') == (if c == 'F' then 1 else 0) + (if c == 'A' then 2 else 0) + (if c == 'B' then 4 else 0) &&
      Turtle.Count(r, 'A') == (if c == 'A' || c == 'B' then 2 else 0) &&
      Turtle.Count(r, 'B') == (if c == 'A' then 1 else if c == 'B' then 3 else 0)
  {
    var r := LSystem.Rewrite(DefaultRules, c);
    if c == 'A' {
      assert [c] == "A" && r == "AFBFA";
      ReplacementACounts('F');
      ReplacementACounts('A');
      ReplacementACounts('B');
    } else if c == 'B' {
      assert [c] == "B" && r == "AFBFBFBFA";
      ReplacementBCounts('F');
      ReplacementBCounts('A');
      ReplacementBCounts('B');
    } else {
      assert [c] != "A" && [c] != "B";
      assert r == [c];
    }
  }

  /** One step under the default rules, counted over the whole string. */
  lemma {:induction false} DefaultStepCounts(s: string)
    ensures var t := LSystem.Step(s, DefaultRules);
      Turtle.Count(t, 'F') == Turtle.Count(s, 'F') + 2 * Turtle.Count(s, 'A') + 4 * Turtle.Count(s, 'B') &&
      Turtle.Count(t, 'A') == 2 * Turtle.Count(s, 'A') + 2 * Turtle.Count(s, 'B') &&
      Turtle.Count(t, 'B') == Turtle.Count(s, 'A') + 3 * Turtle.Count(s, 'B')
    decreases |s|
  {
    if s != [] {
      var init, last := s[..|s| - 1], s[|s| - 1];
      var t0, r := LSystem.Step(init, DefaultRules), LSystem.Rewrite(DefaultRules, last);
      assert LSystem.Step(s, DefaultRules) == t0 + r;
      assert s == init + [last];
      DefaultStepCounts(init);
      DefaultRewrite(last);
      CountConcat(init, [last]);
      CountConcat(t0, r);
    }
  }

  /** Symbol counts add up over concatenation. */
  lemma CountConcat(a: string, b: string)
    ensures forall c :: Turtle.Count(a + b, c) == Turtle.Count(a, c) + Turtle.Count(b, c)
  {
    assert multiset(a + b) == multiset(a) + multiset(b);
  }

  /** The default axiom has 4 `F`, 4 `B` and no `A`. */
  lemma DefaultAxiomCounts()
    ensures Turtle.Count("FBFBFBFB", 'F') == 4 && Turtle.Count("FBFBFBFB", 'A') == 0 &&
      Turtle.Count("FBFBFBFB", 'B') == 4
  {
    var ax := "FBFBFBFB";
    assert ax == [ax[0]] + [ax[1]] + [ax[2]] + [ax[3]] + [ax[4]] + [ax[5]] + [ax[6]] + [ax[7]];
    assert multiset(ax) == multiset{ax[0]} + multiset{ax[1]} + multiset{ax[2]} + multiset{ax[3]} +
      multiset{ax[4]} + multiset{ax[5]} + multiset{ax[6]} + multiset{ax[7]};
  }

  /** Two default steps from an axiom of 4 `F`, 4 `B` and no `A` give 84 `F`,
      40 `A` and 44 `B`. */
  lemma DefaultExpansionCounts(ax: string)
    requires Turtle.Count(ax, 'F') == 4 && Turtle.Count(ax, 'A') == 0 && Turtle.Count(ax, 'B') == 4
    ensures var s := LSystem.Expand(ax, DefaultRules, 2);
      Turtle.Count(s, 'F') == 84 && Turtle.Count(s, 'A') == 40 && Turtle.Count(s, 'B') == 44
  {
    var s1 := LSystem.Step(ax, DefaultRules);
    var s2 := LSystem.Step(s1, DefaultRules);
    assert LSystem.Expand(ax, DefaultRules, 1) == s1;
    assert LSystem.Expand(ax, DefaultRules, 2) == s2;
    DefaultStepCounts(ax);
    var f1, a1, b1 := Turtle.Count(s1, 'F'), Turtle.Count(s1, 'A'), Turtle.Count(s1, 'B');
    assert f1 == 20 && a1 == 8 && b1 == 12;
    DefaultStepCounts(s1);
  }

  /** A request that leaves every field out gets a 200 answer: the "lsystem"
      drawing on a 600-unit page, starting at (290, 310), with 128 lines and 84
      arcs after the background, from the 168 symbols two steps give. */
  lemma DefaultDesign(traceback: string)
    ensures var r := KolamDesign(Defaults, traceback);
      r.status == 200 && r.body.TurtleDrawing? &&
      r.body.svg.size == 600 && r.body.svg.start == Geometry.Point(290.0, 310.0) &&
      r.body.svg.elements[0] == Turtle.Background &&
      Turtle.Lines(r.body.svg.elements) == 128 && Turtle.Arcs(r.body.svg.elements) == 84
  {
    assert Defaults.axiom == "FBFBFBFB" && Defaults.rules == DefaultRules && Defaults.iterations == 2;
    DefaultAxiomCounts();
    DefaultExpansionCounts(Defaults.axiom);
    Turtle.LSystemSvgCounts(Defaults);
  }
}
