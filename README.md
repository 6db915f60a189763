# Kolam generators and label handling, modelled in Dafny

The Kolam project draws South Indian kolam patterns and prepares a labelled
dataset of them. Three parts of it are modelled here:

- **The fallback canvas renderer** of the web front end (`KolamCanvas`).
  - When the page has ready-made SVG markup, the component shows it as it is.
  - Otherwise it draws on a 400 by 400 canvas: a centred square dot lattice and the stroke style, then one figure chosen by the symmetry type. The figure is a 4-fold pinwheel, radial spokes and rings, or a box with its diagonals. It is stacked once per iteration, at falling opacity.
  - The 2-D context is a `Canvas` class. It holds a log of the calls made on it and the drawing state those calls change: the style and the `save`/`restore` stack.
  - Every drawing procedure is a method that appends to the log. Each is proved equal to a specification function of the parameters, and the lattice, figure and layer properties are proved about those functions.
- **The server's design generators** (`backend/fastapi_app.py`).
  - L-system string expansion: a loop, proved equal to a recursive rewriting function. The function is a string homomorphism and its iterations compose.
  - The turtle that interprets the expanded string: a `Turtle` class with its heading and the SVG elements drawn so far. It counts lines, arcs and turning, and computes the arc flags.
  - The four generators "lsystem", "suzhi", "kambi" and "grouptheory". The group-theory grid is a checkerboard of two polygons.
  - The `/generate-kolam-svg` dispatcher, with its 200, 400 and 500 answers.
- **The dataset loader's string handling** (`ml/data_loader.py`).
  - The Google Drive id search is an explicit leftmost, greedy scan.
  - The confirmation-token cookie lookup.
  - The `;`/`,` symmetry tokeniser, over Python's `strip` and `split`, which are modelled in `PyStr`.
  - The label sets that the nested loops build, and the sorted label vocabulary.

Coordinates that need `cos`, `sin`, `atan2` or `sqrt` stay symbolic. A
`PolarPoint(centre, radius, k, n)` stands for the point at angle 2πk/n. Every
other coordinate, offset, radius and opacity is an exact rational.

Files:
- `wrappers.dfy`: Option and Result.
- `geometry.dfy`: points.
- `kolam_params.dfy`: the request body and its defaults.
- `kolam_canvas.dfy`: the canvas renderer.
- `lsystem.dfy`: rewriting.
- `turtle.dfy`: the turtle and the three turtle generators.
- `group_theory.dfy`: the grid generator.
- `dispatch.dfy`: the endpoint.
- `pystr.dfy`: Python string operations.
- `drive_links.dfy`: Drive ids and tokens.
- `labels.dfy`: labels.

## Model

| member | source | states |
|---|---|---|
| KolamCanvas.Render | frontend/components/kolam-canvas.tsx:18-136 | Non-empty markup is shown verbatim and nothing is drawn. A null or empty string gives a 400 by 400 picture made of exactly the background, lattice, stroke-style and layer calls |
| KolamCanvas.DrawDots | frontend/components/kolam-canvas.tsx:54-64 | The nested dot loops append exactly the lattice's calls (one beginPath, arc, fill per dot) to the context's log and change nothing else |
| KolamCanvas.DrawDot | frontend/components/kolam-canvas.tsx:59-61 | One pass of the inner loop adds one filled circle of radius 2 at the point |
| KolamCanvas.LatticeDotCount | frontend/components/kolam-canvas.tsx:54-64 | For non-negative rows and columns a square grid draws (rows+1)(columns+1) dots, and any other grid type draws none |
| KolamCanvas.LatticeDots | frontend/components/kolam-canvas.tsx:55-58 | A dot is drawn at a point iff the grid is square and the point is the centre moved by (a − rows/2) spacings in x and (b − columns/2) in y, for 0 ≤ a ≤ rows and 0 ≤ b ≤ columns |
| KolamCanvas.LatticeMirrorSymmetric | frontend/components/kolam-canvas.tsx:55-58 | (200+u, 200+v) is a dot iff (200−u, 200+v) is, and iff (200+u, 200−v) is |
| KolamCanvas.ApplyStrokeStyle | frontend/components/kolam-canvas.tsx:67-76 | Appends exactly the colour, width and dash calls of the stroke type |
| KolamCanvas.StrokeStyleChoice | frontend/components/kolam-canvas.tsx:67-76 | The width is 3 iff the type is "thick" and 2 otherwise. The dash is [5,5] for "dashed", [2,3] for "dotted" and [] otherwise. The colour is teal, nothing else changes and nothing is stroked |
| KolamCanvas.DrawWedges | frontend/components/kolam-canvas.tsx:82-96 | The 4-fold loop appends the four wedges at radius min(rows, columns)·spacing/3 |
| KolamCanvas.FourFoldFigure | frontend/components/kolam-canvas.tsx:82-96 | The 4-fold figure is 12 calls forming 4 subpaths. Subpath k goes from the centre to the axis point at angle kπ/2, then to the one at (k+1)π/2. Every vertex is the centre or an axis point at that radius |
| KolamCanvas.DrawRadial | frontend/components/kolam-canvas.tsx:97-115 | The spoke loop and then the ring loop append the eight spokes and then every ring the guard admits, when the ring loop ends normally |
| KolamCanvas.RingGuard | frontend/components/kolam-canvas.tsx:112 | The guard r ≤ radius holds at the (n+1)-th test iff n is below the ring count |
| KolamCanvas.RingGuardNeverFails | frontend/components/kolam-canvas.tsx:112 | As written, for spacing 0, or a negative spacing with min(rows, columns) ≤ 3, every test of the guard r ≤ radius passes. With spacing 0 the loop never ends, and with a negative spacing the first ring's arc throws on its negative radius |
| KolamCanvas.IntendedRingGuard | frontend/components/kolam-canvas.tsx:112 | Corrected (see ## Findings): with the guard spacing > 0 and r ≤ radius, the (n+1)-th test holds iff n is below the ring count, for every input |
| KolamCanvas.RadialFigure | frontend/components/kolam-canvas.tsx:97-115 | The radial figure has 8 spokes from the centre to angles 2πk/8, with no arcs among them. It has one full circle per ring, at radii spacing, 2·spacing and so on, each within the figure radius. For spacing > 0 there are ⌊min(rows, columns)/3⌋ rings (none when the minimum is negative) |
| KolamCanvas.DrawBoxWithCross | frontend/components/kolam-canvas.tsx:116-124 | The default branch appends the square and its two diagonals |
| KolamCanvas.DefaultFigure | frontend/components/kolam-canvas.tsx:116-124 | Every symmetry type other than "4-fold" and "radial" draws the same figure. It is a square of half-size min(rows, columns)·spacing/4 about (200, 200), with its diagonals |
| KolamCanvas.DrawPattern | frontend/components/kolam-canvas.tsx:79-127 | One drawPattern appends beginPath, the chosen figure and stroke |
| KolamCanvas.PatternStrokesOnce | frontend/components/kolam-canvas.tsx:79-127 | One drawPattern leaves the drawing state as it found it and strokes exactly once, with the style in force |
| KolamCanvas.DrawLayers | frontend/components/kolam-canvas.tsx:130-135 | The iteration loop appends one layer per iteration, in order |
| KolamCanvas.DrawLayer | frontend/components/kolam-canvas.tsx:131-134 | A layer is save, opacity 1 − 0.2·i, the pattern, restore |
| KolamCanvas.LayerEffect | frontend/components/kolam-canvas.tsx:131-134 | A layer restores the state it started from and strokes once, at its own opacity |
| KolamCanvas.LayersEffect | frontend/components/kolam-canvas.tsx:130-135 | From an opaque state, the layers make max(iterations, 0) strokes. Stroke i has opacity 1 − 0.2·i. From layer 6 on that request is negative, and a canvas ignores it, so the stroke stays at opacity 1. No layer's opacity leaks into the next or past the loop |
| KolamCanvas.RenderStrokeStyles | frontend/components/kolam-canvas.tsx:42-135 | The style set once before the layers is the style of every stroke. Stroke i is teal, in the chosen width and dash, at the opacity of layer i. Afterwards the opacity is back to 1 and the save stack is empty |
| KolamCanvas.BackgroundEffect | frontend/components/kolam-canvas.tsx:43-48 | Clearing and filling the background strokes nothing and leaves teal as the fill colour |
| KolamCanvas.LayerOpacityFalls | frontend/components/kolam-canvas.tsx:132 | The opacity falls strictly up to layer 5, is at least 0.2 up to layer 4, and is back to 1 (an ignored setting) from layer 6 on |
| KolamCanvas.FormBoundsFade | frontend/components/generate-with-inputs.tsx:192-268 | Within the ranges the form offers, the renderer terminates, a radial figure has at least one ring, and there are exactly `iterations` strokes whose opacity falls strictly and stays at least 0.2 |
| LSystem.ExpandLSystemString | backend/fastapi_app.py:37-41 | The loop computes `iterations` rewriting steps, and returns the axiom unchanged when iterations ≤ 0 |
| LSystem.StepChar | backend/fastapi_app.py:40 | A single character becomes its rule's replacement, or itself when it has no rule |
| LSystem.StepAppend | backend/fastapi_app.py:40 | A rewriting step is a string homomorphism: step(a+b) = step(a) + step(b) |
| LSystem.StepNoRules | backend/fastapi_app.py:40 | A string none of whose characters has a rule is fixed by a step |
| LSystem.ExpandNoRules | backend/fastapi_app.py:37-41 | With no rules, expansion never changes the axiom |
| LSystem.ExpandAdd | backend/fastapi_app.py:39-40 | Iterations compose: expand(ax, m+n) = expand(expand(ax, m), n) for m, n ≥ 0 |
| LSystem.ExpandAppend | backend/fastapi_app.py:39-40 | Expansion distributes over concatenation of axioms |
| Turtle.ArcOf | backend/fastapi_app.py:57-86 | The arc's centre is to the left iff radius > 0, and it is drawn with the absolute radius. The large-arc flag is 1 iff the turn exceeds 180° in magnitude. The sweep flag is 1 iff (radius ≠ 0) agrees with (angle ≥ 0), because the radius is made non-negative before it is tested |
| Turtle.Turtle.constructor | backend/fastapi_app.py:44-48 | A new drawing holds only the white background, and the turtle faces 0° |
| Turtle.Turtle.DrawLine | backend/fastapi_app.py:50-55 | Adds one line along the current heading and leaves the heading alone |
| Turtle.Turtle.DrawArc | backend/fastapi_app.py:57-86 | Adds the arc with its flags and turns the heading by the angle |
| Turtle.Turtle.Draw | backend/fastapi_app.py:93-101 | F adds a line of the dot size, A a 90° arc, B a line and a 270° arc of 5/√2, anything else nothing. The heading turns by the symbol's turn |
| Turtle.Turtle.Interpret | backend/fastapi_app.py:93-101 | The symbol loop adds the trace of the whole string and turns the heading by its total turning |
| Turtle.TurningCount | backend/fastapi_app.py:86-101 | Only arcs turn the turtle: the total turn is 90·#A + 270·#B |
| Turtle.TurningAppend | backend/fastapi_app.py:86-101 | Turning is additive over concatenation |
| Turtle.TraceSnoc | backend/fastapi_app.py:93-101 | One more symbol draws that symbol's elements from the heading reached so far |
| Turtle.TraceCounts | backend/fastapi_app.py:93-101 | The trace has #F + #B lines, #A + #B arcs, and #F + #A + 2·#B elements |
| Turtle.TurningQuarter | backend/fastapi_app.py:86-101 | The heading is always a multiple of 90° |
| Turtle.TraceDrawn | backend/fastapi_app.py:93-101 | Every element the loop draws is a line of the dot size or of 5/√2, a 90° arc of radius \|dot\| with large-arc 0, or a 270° arc of radius 5/√2 with both flags 1. Each is drawn at a heading a multiple of 90° from the start |
| Turtle.GenerateLSystemSvg | backend/fastapi_app.py:43-103 | The "lsystem" drawing is a 600-unit page with the start (300 − dot, 300 + dot) and the trace of the expanded string |
| Turtle.GenerateSuzhiSvg | backend/fastapi_app.py:105-165 | "suzhi" draws exactly what "lsystem" draws |
| Turtle.GenerateKambiSvg | backend/fastapi_app.py:167-231 | "kambi" draws what "lsystem" draws, from the start (300 − s/2, 300 + s/2) with s = rhombus size · dot size |
| Turtle.LSystemSvgCounts | backend/fastapi_app.py:45-101 | After the background, the drawing has one line per F and B and one arc per A and B of the expanded string |
| Turtle.KambiStartSame | backend/fastapi_app.py:175-179 | The kambi start equals the L-system start iff rhombus size · dot size = 2 · dot size |
| GroupTheory.GetPolygonPoints | backend/fastapi_app.py:251-258 | The loop computes the polygon's vertices, and a polygon of 0 sides raises a division by zero before any vertex |
| GroupTheory.PolygonPointsShape | backend/fastapi_app.py:251-258 | The call fails iff sides = 0. A negative count gives no vertices, and a positive one exactly `sides`. Vertex i is at angle 2πi/sides on the circle of the radius about the origin |
| GroupTheory.OffsetsSymmetric | backend/fastapi_app.py:263-272 | Cells i and g−1−i sit symmetrically about 400, and successive cells are 40 apart |
| GroupTheory.GenerateGroupTheorySvg | backend/fastapi_app.py:244-282 | The generator fails iff either polygon fails. Otherwise it draws an 800-unit page with the grid's polygons in row-major order |
| GroupTheory.DrawRow | backend/fastapi_app.py:267-280 | One pass of the row loop adds the row's non-empty cell polygons in column order |
| GroupTheory.PlacePolygon | backend/fastapi_app.py:274-276 | Every vertex is moved to the cell, offset + vertex · 40/3 |
| GroupTheory.RowLayout | backend/fastapi_app.py:267-280 | When every cell has vertices, a row holds one polygon per column, in column order |
| GroupTheory.GridCount | backend/fastapi_app.py:266-280 | When every cell has vertices, the grid holds rows · g polygons |
| GroupTheory.GridCell | backend/fastapi_app.py:266-280 | When every cell has vertices, cell (r, c) is polygon r·g + c |
| GroupTheory.Checkerboard | backend/fastapi_app.py:260-280 | With both side counts positive, there are g² polygons. Cell (r, c) has polygon 1's vertex count iff r + c is even, otherwise polygon 2's. All its vertices are centred on the cell offset (Offset(c), Offset(r)) |
| GroupTheory.CellShape | backend/fastapi_app.py:268-276 | A cell has as many vertices as its checkerboard polygon, each centred on the cell's offsets |
| GroupTheory.EmptyPolygonsDrawNothing | backend/fastapi_app.py:278-280 | When neither polygon has a vertex, no polygon is drawn at all |
| Dispatch.ErrorPage | backend/fastapi_app.py:366 | The error markup contains the message, with 49 characters around it |
| Dispatch.GenerateKolamDesign | backend/fastapi_app.py:354-370 | The if/elif chain answers as the dispatch function says |
| Dispatch.Outcomes | backend/fastapi_app.py:357-370 | Every answer is image/svg+xml. The status is 400 iff the design type is unknown. Of the generator exceptions modelled, the status is 500 iff the type is "grouptheory" with a polygon of 0 sides. It is 200 iff neither holds |
| Dispatch.ErrorPagesExplain | backend/fastapi_app.py:366-370 | 200 iff the body is a drawing. A 400 page names the unknown design type, and a 500 page carries "Error: float division by zero", a newline and the traceback |
| Dispatch.DefaultDesign | backend/fastapi_app.py:19-31 | A request that leaves every field out gets a 200 answer: the "lsystem" drawing on a 600-unit page, starting at (290, 310), with 128 lines and 84 arcs after the background |
| Dispatch.DefaultStepCounts | backend/fastapi_app.py:22 | A step under the default rules turns each `A` into 2 `A`, 2 `F` and 1 `B`, and each `B` into 2 `A`, 4 `F` and 3 `B`, and keeps every other character |
| Dispatch.SuzhiKambiLikeLSystem | backend/fastapi_app.py:357-362 | "suzhi" gets the same response as "lsystem", and "kambi" the same page and elements |
| DriveLinks.RunEnd | ml/data_loader.py:39 | The greedy `+`: the run from i has only id characters and ends at the end of the url or at a non-id character |
| DriveLinks.FirstMatch | ml/data_loader.py:39 | The search finds the leftmost position where `/d/` is followed by an id character, or reports that there is none |
| DriveLinks.ExtractGdriveId | ml/data_loader.py:38-42 | No id iff no `/d/` is followed by an id character. Otherwise the id is the non-empty, maximal run after the leftmost such `/d/`, and `/d/` + id occurs in the url there |
| DriveLinks.FoundUnique | ml/data_loader.py:39-41 | The match position and the id it reports are unique |
| DriveLinks.GetConfirmToken | ml/data_loader.py:25-29 | Returns the value of the first cookie, in order, whose name starts with "download_warning", and nothing iff there is none |
| PyStr.Strip | ml/data_loader.py:56 | The stripped string is no longer than the original and starts and ends with non-whitespace |
| PyStr.StripSlice | ml/data_loader.py:56 | What strip removes is whitespace, from the two ends only |
| PyStr.StripPadded | ml/data_loader.py:56 | Whitespace around a string does not change what it strips to |
| PyStr.StripIdempotent | ml/data_loader.py:56 | Stripping twice is stripping once |
| PyStr.Split | ml/data_loader.py:58 | Split yields at least one piece, and no piece contains the separator |
| PyStr.JoinSplit | ml/data_loader.py:58 | Joining the pieces with the separator gives back the string |
| PyStr.SplitJoin | ml/data_loader.py:58 | Splitting the join of separator-free pieces gives back the pieces |
| PyStr.SplitConcat | ml/data_loader.py:64 | Splitting a + sep + b is the split of a followed by the split of b |
| PyStr.LessTransitive | ml/data_loader.py:75 | String order is transitive |
| PyStr.LessTotal | ml/data_loader.py:75 | Any two distinct strings are ordered one way or the other |
| PyStr.LessIrreflexive | ml/data_loader.py:75 | No string is below itself |
| Labels.AddPartLabels | ml/data_loader.py:58-60 | The innermost loops add exactly the stripped, non-empty `,`-pieces of the part |
| Labels.AddCellLabels | ml/data_loader.py:55-60 | The loops for one present cell add exactly the tokens line 64 gives that cell |
| Labels.SymmetryLabelSet | ml/data_loader.py:54-60 | The nested loops build exactly the set of tokens line 64 produces for the present symmetry cells |
| Labels.GatherMembers | ml/data_loader.py:54-64 | A label is gathered iff some row yields it |
| Labels.PartStrip | ml/data_loader.py:56-58 | Stripping a `;`-part before splitting it on `,` does not change its tokens |
| Labels.StrippedPartsSameTokens | ml/data_loader.py:56-58 | Dropping blank `;`-parts and stripping the rest does not change the tokens |
| Labels.SymmetryTokensConcat | ml/data_loader.py:64 | Tokens come out in source order: tokenising a + ";" + b gives a's tokens, then b's |
| Labels.SymmetryTokensClean | ml/data_loader.py:64 | Every token is non-empty, has no whitespace at either end, and contains no `;` or `,` |
| Labels.TokensRoundTrip | ml/data_loader.py:64 | Clean labels written out with `,` and tokenised give back exactly those labels |
| Labels.SortedLabels | ml/data_loader.py:75 | The sorted list is strictly ascending and holds exactly the set's members |
| Labels.AscendingUnique | ml/data_loader.py:75 | A strictly ascending list is determined by its members, so the vocabulary is unique |
| Labels.MissingSymmetryBecomesNan | ml/data_loader.py:79-80 | As written, a row whose symmetry cell is missing gets the label "nan", which the vocabulary lacks |
| Labels.PaddedStyleOutsideVocabulary | ml/data_loader.py:68-81 | As written, a style name with surrounding spaces enters the vocabulary unstripped. The row's label is the stripped name, which the vocabulary lacks |
| Labels.LabelsInVocabulary | ml/data_loader.py:79-82 | With the guard and the stripped style names, every label of every row is in the vocabulary |
| Labels.LoadLabels | ml/data_loader.py:54-82 | Corrected (see ## Findings): the vocabulary is strictly ascending and equals the union of the symmetry and style label sets. Each row's labels are its symmetry tokens followed by its stripped style name, and all of them are in the vocabulary |

## Left out

- Floating-point geometry is not modelled. This covers the turtle's x and y positions (`cos`, `sin`, `atan2`), the polygon vertex coordinates and the radial spoke end points. These are kept as symbolic angle indices (`PolarPoint`), and lines and arcs record the heading they are drawn at instead of their end points.
- The `5 / (2 ** 0.5)` length of the B symbol is the symbolic constant `FiveOverRootTwo`.
- SVG serialisation by `svgwrite` (`dwg.tostring()`) and the browser's canvas are not modelled. Drawings are abstract element lists and call logs, and the response body of a success is that abstract drawing, not its markup.
- The traceback text of a 500 answer is produced by the Python runtime, so it is a parameter.
- Only the group-theory generator can raise in the model (division by zero for a 0-sided polygon). Exceptions from the runtime itself, such as running out of memory on a huge expansion, are not modelled.
- Dispatch.Outcomes: the catch-all (backend/fastapi_app.py:368-370) also answers 500 for exceptions the model does not raise. These are svgwrite's attribute checks under the `profile='tiny'` drawings (lines 44, 106, 168, 245), which reject coordinates beyond ±32767.9999, such as those of a line drawn with a dot size of 40000. They are also the OverflowError of integers too large for a float (lines 52-53, 176, 263). svgwrite is not part of this model and floats are not modelled, so for those inputs the model answers 200 where the server answers 500.
- Dispatch.ErrorPagesExplain: for the same reason, a 500 page in the model carries only the division-by-zero message, not the messages of those other exceptions.
- A NaN parameter, which an empty number field gives through `Number.parseInt` (frontend/components/generate-with-inputs.tsx:192-206), is not modelled: the canvas parameters are integers.
- KolamCanvas.LayerOpacityFalls: opacities are exact rationals, while the browser computes `1 - i * 0.2` in doubles (0.19999999999999996 at layer 4). The bound of 0.2 holds only for the exact values.
- KolamCanvas.FormBoundsFade: its bound of 0.2 on every layer's opacity holds for the exact rationals, not for the browser's doubles (0.19999999999999996 at layer 4).
- The `angle` request field is carried but not used, as in the source.
- `create_polygon_svg` (backend/fastapi_app.py:233-242) is not modelled, because nothing calls it.
- FastAPI routing, CORS, the OPTIONS handlers, the placeholder image endpoint and the mock analysis endpoint (backend/fastapi_app.py:284-352) are not modelled. They are plumbing and constant data.
- backend/app.py is not modelled: it wraps a generator that is not part of this model.
- ml/analysis_model.py is not modelled: it is model building and training.
- The rest of `load_kolam_data` is not modelled: CSV reading, `MultiLabelBinarizer` encoding, image files, PIL loading and normalisation, and `train_test_split` (ml/data_loader.py:44-45, 62-72, 84-129).
- The Drive download and the writing of the response to a file (ml/data_loader.py:15-23, 31-36) are not modelled: they are HTTP and file I/O. The cookies are given as a list of name/value pairs in the order the response yields them.
- React's `useRef`/`useEffect` plumbing and the early returns for a missing canvas or context are not modelled. The canvas is created fresh for each render.
- The form components, the pages, the navbar and the button are not modelled: they are UI only.
- KolamCanvas.Render: requires that a radial figure's ring loop ends normally (spacing > 0, or spacing < 0 with min(rows, columns) > 3). Otherwise its guard never fails (see ## Findings). With spacing 0 the loop never terminates, and with a negative spacing the canvas throws on the first ring's negative radius. Neither is modelled.
- KolamCanvas.DrawRadial: requires the same, for the same reason.
- KolamCanvas.DrawPattern: requires the same, for the same reason.
- KolamCanvas.DrawLayers: requires the same, for the same reason.
- KolamCanvas.DrawLayer: requires the same, for the same reason.
- Turtle.GenerateLSystemSvg: the start point and element kinds are exact, but element positions are not modelled (see above). The same holds for Turtle.GenerateSuzhiSvg and Turtle.GenerateKambiSvg.

The arc's sweep flag is computed after the radius has been made
non-negative (backend/fastapi_app.py:65, 73). So a negative radius still
sweeps positively for a positive angle, and only a zero radius flips the flag.

## Findings

| source | as written | input that shows it | evidently intended | confidence | as-written member | corrected member |
|---|---|---|---|---|---|---|
| ml/data_loader.py:80 | the combined labels tokenise `str(x)` of the symmetry cell with no missing-value guard, so a missing cell becomes the label "nan" | a row with style "Pulli" and a missing symmetry cell | a missing cell has no symmetry labels, as at line 64, so every label is in the vocabulary | high, not executed | Labels.MissingSymmetryBecomesNan | Labels.LoadLabels |
| frontend/components/kolam-canvas.tsx:112 | the ring loop `for (r = spacing; r <= radius; r += spacing)` has a guard that never fails when the spacing is 0, or negative with min(rows, columns) ≤ 3 | a radial figure with dot spacing 0 | rings only for a positive spacing, so the loop ends for every input; the form's spacing slider (10 to 50) never offers the other values | medium, not executed | KolamCanvas.RingGuardNeverFails | KolamCanvas.IntendedRingGuard |
| ml/data_loader.py:68 | the style vocabulary takes the names unstripped while line 81 strips the row's style label | a row with style "Pulli " (trailing space) | the vocabulary holds the stripped names line 81 uses | high, not executed | Labels.PaddedStyleOutsideVocabulary | Labels.LabelsInVocabulary |
