/** The label handling of the dataset loader. Column 20 of the catalogue holds
    a row's symmetry information as labels separated by ';' and ',', column 5
    its style name. The loader collects the vocabulary of all labels, sorted,
    and gives each row its list of labels. */
module Labels {
  import opened PyStr

  /** A CSV cell as pandas reads it: missing (NaN), or text. */
  datatype Cell = Missing | Text(s: string)

  /** `str(x)`: a missing cell prints as "nan". */
  function Str(c: Cell): string {
    match c
    case Missing => "nan"
    case Text(s) => s
  }

  /** The two label columns of one row: the style name and the symmetry information. */
  datatype Row = Row(style: Cell, symmetry: Cell)

  function Elems(xs: seq<string>): set<string> {
    set x | x in xs
  }

  /** A label as the tokeniser leaves it: non-empty, no whitespace at either
      end, and no separator inside. */
  predicate Clean(t: string) {
    t != [] && !IsSpace(t[0]) && !IsSpace(t[|t| - 1]) && ',' !in t && ';' !in t
  }

  // ---------------------------------------------------------------------------
  // The tokeniser

  /** `[p.strip() for p in pieces if p.strip()]`. */
  function KeepStripped(pieces: seq<string>): (r: seq<string>)
    ensures |r| <= |pieces|
  {
    if pieces == [] then []
    else
      var rest := KeepStripped(pieces[1..]);
      var t := Strip(pieces[0]);
      (if t != [] then [t] else []) + rest
  }

  /** `[s.strip() for part in parts for s in part.split(',') if s.strip()]`. */
  function CommaTokens(parts: seq<string>): seq<string> {
    if parts == [] then [] else KeepStripped(Split(parts[0], ',')) + CommaTokens(parts[1..])
  }

  /** The tokeniser of lines 64 and 80 applied to a string. */
  function SymmetryTokens(s: string): seq<string> {
    CommaTokens(Split(s, ';'))
  }

  lemma {:induction false} KeepStrippedAppend(a: seq<string>, b: seq<string>)
    ensures KeepStripped(a + b) == KeepStripped(a) + KeepStripped(b)
    decreases |a|
  {
    if a == [] {
      assert a + b == b;
    } else {
      assert (a + b)[0] == a[0] && (a + b)[1..] == a[1..] + b;
      KeepStrippedAppend(a[1..], b);
    }
  }

  lemma {:induction false} CommaTokensAppend(a: seq<string>, b: seq<string>)
    ensures CommaTokens(a + b) == CommaTokens(a) + CommaTokens(b)
    decreases |a|
  {
    if a == [] {
      assert a + b == b;
    } else {
      assert (a + b)[0] == a[0] && (a + b)[1..] == a[1..] + b;
      CommaTokensAppend(a[1..], b);
    }
  }

  lemma CommaTokensOne(p: string)
    ensures CommaTokens([p]) == KeepStripped(Split(p, ','))
  {
    assert [p][1..] == [];
  }

  /** The labels of parts `ps` and then `p` are those of `ps` and those of `p`. */
  lemma CommaLabelsSnoc(ps: seq<string>, p: string)
    ensures Elems(CommaTokens(ps + [p])) == Elems(CommaTokens(ps)) + Elems(KeepStripped(Split(p, ',')))
  {
    CommaTokensAppend(ps, [p]);
    CommaTokensOne(p);
    ElemsAppend(CommaTokens(ps), KeepStripped(Split(p, ',')));
  }

  lemma SpaceNoComma(w: string)
    requires AllSpace(w)
    ensures ',' !in w && ';' !in w
  {
    assert !IsSpace(',') && !IsSpace(';');
  }

  /** Whitespace put before the first piece does not change the tokens. */
  lemma PadFirst(w: string, ps: seq<string>)
    requires AllSpace(w) && |ps| >= 1
    ensures KeepStripped([w + ps[0]] + ps[1..]) == KeepStripped(ps)
  {
    StripPadded(w, ps[0], []);
    assert w + ps[0] + [] == w + ps[0];
    assert ([w + ps[0]] + ps[1..])[1..] == ps[1..];
  }

  /** Whitespace put after the last piece does not change the tokens. */
  lemma PadLast(init: seq<string>, x: string, w: string)
    requires AllSpace(w)
    ensures KeepStripped(init + [x + w]) == KeepStripped(init + [x])
  {
    StripPaddedRight(x, w);
    KeepStrippedOne(x + w, x);
    KeepStrippedAppend(init, [x + w]);
    KeepStrippedAppend(init, [x]);
  }

  lemma KeepStrippedOne(x: string, y: string)
    requires Strip(x) == Strip(y)
    ensures KeepStripped([x]) == KeepStripped([y])
  {
    assert [x][1..] == [] && [y][1..] == [];
  }

  /** Stripping a ';'-part before splitting it on ',' (line 56) gives the same
      tokens as not stripping it (line 64). */
  lemma PartStrip(p: string)
    ensures KeepStripped(Split(Strip(p), ',')) == KeepStripped(Split(p, ','))
  {
    var i, j := StripSlice(p);
    var w1, c, w2 := p[..i], p[i..j], p[j..];
    assert p == w1 + (c + w2);
    SplitPadLeft(w1, c + w2);
    SplitPadRight(c, w2);
  }

  /** Leading whitespace does not change the ','-tokens. */
  lemma SplitPadLeft(w: string, t: string)
    requires AllSpace(w)
    ensures KeepStripped(Split(w + t, ',')) == KeepStripped(Split(t, ','))
  {
    SpaceNoComma(w);
    SplitPrefix(w, t, ',');
    PadFirst(w, Split(t, ','));
  }

  /** Trailing whitespace does not change the ','-tokens. */
  lemma SplitPadRight(t: string, w: string)
    requires AllSpace(w)
    ensures KeepStripped(Split(t + w, ',')) == KeepStripped(Split(t, ','))
  {
    SpaceNoComma(w);
    var init, last := SplitSuffix(t, w, ',');
    PadLast(init, last, w);
  }

  lemma {:induction false} StrippedPartsSameTokens(ps: seq<string>)
    ensures CommaTokens(KeepStripped(ps)) == CommaTokens(ps)
    decreases |ps|
  {
    if ps != [] {
      StrippedPartsSameTokens(ps[1..]);
      var head := if Strip(ps[0]) != [] then [Strip(ps[0])] else [];
      assert KeepStripped(ps) == head + KeepStripped(ps[1..]);
      CommaTokensAppend(head, KeepStripped(ps[1..]));
      PartStrip(ps[0]);
      if Strip(ps[0]) != [] {
        CommaTokensOne(Strip(ps[0]));
      } else {
        assert Split([], ',') == [[]];
        assert Strip([]) == [];
        assert KeepStripped([[]]) == [];
      }
    }
  }

  /** Tokens come out in the order they stand: tokenising two strings joined by
      ';' tokenises each in turn. */
  lemma SymmetryTokensConcat(a: string, b: string)
    ensures SymmetryTokens(a + [';'] + b) == SymmetryTokens(a) + SymmetryTokens(b)
  {
    SplitConcat(a, b, ';');
    CommaTokensAppend(Split(a, ';'), Split(b, ';'));
  }

  /** A clean label strips to itself. */
  lemma StripClean(t: string)
    requires t != [] && !IsSpace(t[0]) && !IsSpace(t[|t| - 1])
    ensures Strip(t) == t
  {
    assert LStrip(t) == t;
    assert RStrip(t) == t;
  }

  lemma {:induction false} KeepClean(ts: seq<string>)
    requires forall k :: 0 <= k < |ts| ==> Clean(ts[k])
    ensures KeepStripped(ts) == ts
    decreases |ts|
  {
    if ts != [] {
      StripClean(ts[0]);
      KeepClean(ts[1..]);
      assert [ts[0]] + ts[1..] == ts;
    }
  }

  lemma {:induction false} JoinNoChar(ts: seq<string>, sep: char, c: char)
    requires c != sep && forall k :: 0 <= k < |ts| ==> c !in ts[k]
    ensures c !in Join(ts, sep)
    decreases |ts|
  {
    if |ts| > 1 {
      JoinNoChar(ts[1..], sep, c);
    }
  }

  /** Writing clean labels out separated by ',' and tokenising the result gives
      the labels back: the tokeniser inverts the way the column is written. */
  lemma TokensRoundTrip(ts: seq<string>)
    requires forall k :: 0 <= k < |ts| ==> Clean(ts[k])
    ensures SymmetryTokens(Join(ts, ',')) == ts
  {
    var s := Join(ts, ',');
    JoinNoChar(ts, ',', ';');
    SplitNoSep(s, ';');
    CommaTokensOne(s);
    if ts == [] {
      assert Split([], ',') == [[]];
      assert Strip([]) == [];
      assert KeepStripped([[]]) == [];
    } else {
      SplitJoin(ts, ',');
      KeepClean(ts);
    }
  }

  /** Every kept token is non-empty and has no whitespace at either end. */
  lemma {:induction false} KeepStrippedEdges(pieces: seq<string>)
    ensures forall k :: 0 <= k < |KeepStripped(pieces)| ==>
      var t := KeepStripped(pieces)[k]; t != [] && !IsSpace(t[0]) && !IsSpace(t[|t| - 1])
    decreases |pieces|
  {
    if pieces != [] {
      KeepStrippedEdges(pieces[1..]);
    }
  }

  /** A character that no piece holds is in no kept token. */
  lemma {:induction false} KeepStrippedFree(pieces: seq<string>, c: char)
    requires forall j :: 0 <= j < |pieces| ==> c !in pieces[j]
    ensures forall k :: 0 <= k < |KeepStripped(pieces)| ==> c !in KeepStripped(pieces)[k]
    decreases |pieces|
  {
    if pieces != [] {
      KeepStrippedFree(pieces[1..], c);
      var p := pieces[0];
      var a, b := StripSlice(p);
      assert forall x :: x in Strip(p) ==> x in p;
    }
  }

  /** Every token is a clean label. */
  lemma {:induction false} CommaTokensClean(parts: seq<string>)
    requires forall k :: 0 <= k < |parts| ==> ';' !in parts[k]
    ensures forall k :: 0 <= k < |CommaTokens(parts)| ==> Clean(CommaTokens(parts)[k])
    decreases |parts|
  {
    if parts != [] {
      CommaTokensClean(parts[1..]);
      var pieces := Split(parts[0], ',');
      forall j | 0 <= j < |pieces| ensures ';' !in pieces[j] {
        PieceFree(parts[0], ',', j, ';');
      }
      KeepStrippedFree(pieces, ',');
      KeepStrippedFree(pieces, ';');
      KeepStrippedEdges(pieces);
    }
  }

  /** A character missing from a string is missing from each of its pieces. */
  lemma PieceFree(s: string, sep: char, j: int, c: char)
    requires c !in s && 0 <= j < |Split(s, sep)|
    ensures c !in Split(s, sep)[j]
  {
    JoinSplit(s, sep);
    JoinContains(Split(s, sep), sep, j);
  }

  lemma {:induction false} JoinContains(ps: seq<string>, sep: char, j: int)
    requires 0 <= j < |ps|
    ensures forall c :: c in ps[j] ==> c in Join(ps, sep)
    decreases |ps|
  {
    if |ps| > 1 && j > 0 {
      JoinContains(ps[1..], sep, j - 1);
    }
  }

  /** The symmetry tokens of any string are clean labels. */
  lemma SymmetryTokensClean(s: string)
    ensures forall k :: 0 <= k < |SymmetryTokens(s)| ==> Clean(SymmetryTokens(s)[k])
  {
    CommaTokensClean(Split(s, ';'));
  }

  // ---------------------------------------------------------------------------
  // The symmetry vocabulary

  /** Line 64: a missing cell has no symmetry labels; text is tokenised. */
  function EncodedSymmetry(c: Cell): seq<string> {
    match c
    case Missing => []
    case Text(s) => SymmetryTokens(s)
  }

  /** Line 64 applied to a row. */
  function RowSymmetry(row: Row): seq<string> {
    EncodedSymmetry(row.symmetry)
  }

  /** The union of the labels `tokens` gives each of the rows. */
  function Gather(rows: seq<Row>, tokens: Row -> seq<string>): set<string>
    decreases |rows|
  {
    if rows == [] then {}
    else Gather(rows[..|rows| - 1], tokens) + Elems(tokens(rows[|rows| - 1]))
  }

  lemma {:induction false} GatherMembers(rows: seq<Row>, tokens: Row -> seq<string>, t: string)
    ensures t in Gather(rows, tokens) <==> exists i :: 0 <= i < |rows| && t in tokens(rows[i])
    decreases |rows|
  {
    if rows != [] {
      var n := |rows| - 1;
      GatherMembers(rows[..n], tokens, t);
      if t in Gather(rows[..n], tokens) {
        var i :| 0 <= i < n && t in tokens(rows[..n][i]);
        assert rows[..n][i] == rows[i];
      }
      if exists i :: 0 <= i < |rows| && t in tokens(rows[i]) {
        var i :| 0 <= i < |rows| && t in tokens(rows[i]);
        if i < n {
          assert rows[..n][i] == rows[i];
        }
      }
    }
  }

  /** Every symmetry label of the rows, as line 64 tokenises them. */
  function SymmetrySet(rows: seq<Row>): set<string> {
    Gather(rows, RowSymmetry)
  }

  lemma ElemsAppend(a: seq<string>, b: seq<string>)
    ensures Elems(a + b) == Elems(a) + Elems(b)
  {
    forall x | x in Elems(a + b) ensures x in Elems(a) + Elems(b) {
      assert x in a + b;
    }
  }

  /** The innermost loop of lines 57-60: the stripped, non-empty ','-pieces
      of one part are added to the set. */
  method AddPartLabels(labels: set<string>, part: string) returns (r: set<string>)
    ensures r == labels + Elems(KeepStripped(Split(part, ',')))
  {
    r := labels;
    var subParts := KeepStripped(Split(part, ','));
    for k := 0 to |subParts|
      invariant r == labels + Elems(subParts[..k])
    {
      assert subParts[..k + 1] == subParts[..k] + [subParts[k]];
      ElemsAppend(subParts[..k], [subParts[k]]);
      r := r + {subParts[k]};
    }
    assert subParts[..|subParts|] == subParts;
  }

  /** Lines 55-60 for one present cell: the ';'-parts are stripped and the
      empty ones dropped, and each part's labels are added. */
  method AddCellLabels(labels: set<string>, symmetries: string) returns (r: set<string>)
    ensures r == labels + Elems(SymmetryTokens(symmetries))
  {
    r := labels;
    var parts := KeepStripped(Split(symmetries, ';'));
    for m := 0 to |parts|
      invariant r == labels + Elems(CommaTokens(parts[..m]))
    {
      ghost var added := Elems(KeepStripped(Split(parts[m], ',')));
      r := AddPartLabels(r, parts[m]);
      assert parts[..m + 1] == parts[..m] + [parts[m]];
      CommaLabelsSnoc(parts[..m], parts[m]);
      assert r == labels + (Elems(CommaTokens(parts[..m])) + added);
    }
    assert parts[..|parts|] == parts;
    StrippedPartsSameTokens(Split(symmetries, ';'));
  }

  /** Lines 54-60: every label of every present symmetry cell is added to the
      set. The set comes out the same as the tokens line 64 gives the same
      cells. */
  method SymmetryLabelSet(rows: seq<Row>) returns (labels: set<string>)
    ensures labels == SymmetrySet(rows)
  {
    labels := {};
    for n := 0 to |rows|
      invariant labels == Gather(rows[..n], RowSymmetry)
    {
      assert rows[..n + 1][..n] == rows[..n];
      match rows[n].symmetry {
        case Missing =>
        case Text(symmetries) =>
          labels := AddCellLabels(labels, symmetries);
      }
    }
    assert rows[..|rows|] == rows;
  }

  // ---------------------------------------------------------------------------
  // The sorted vocabulary

  predicate StrictlyAscending(r: seq<string>) {
    forall i, j :: 0 <= i < j < |r| ==> Less(r[i], r[j])
  }

  /** `r` with `x` put in its place. */
  function Insert(r: seq<string>, x: string): seq<string> {
    if r == [] then [x]
    else if x == r[0] then r
    else if Less(x, r[0]) then [x] + r
    else [r[0]] + Insert(r[1..], x)
  }

  lemma {:induction false} InsertAscending(r: seq<string>, x: string)
    requires StrictlyAscending(r)
    ensures StrictlyAscending(Insert(r, x))
    ensures forall y :: y in Insert(r, x) <==> y in r || y == x
    decreases |r|
  {
    if r != [] && x != r[0] {
      if Less(x, r[0]) {
        forall j | 0 <= j < |r| ensures Less(x, r[j]) {
          if j > 0 { LessTransitive(x, r[0], r[j]); }
        }
      } else {
        LessTotal(x, r[0]);
        InsertAscending(r[1..], x);
        var rest := Insert(r[1..], x);
        forall y | y in rest ensures Less(r[0], y) {
          if y != x {
            var j :| 0 <= j < |r[1..]| && r[1..][j] == y;
            assert r[j + 1] == y;
          }
        }
        assert [r[0]] + r[1..] == r;
      }
    }
  }

  /** Line 75, `sorted(list(labels))`: the labels in ascending order, each once. */
  method SortedLabels(labels: set<string>) returns (r: seq<string>)
    ensures StrictlyAscending(r)
    ensures forall x :: x in r <==> x in labels
  {
    r := [];
    var rest := labels;
    while rest != {}
      invariant rest <= labels
      invariant StrictlyAscending(r)
      invariant forall x :: x in r <==> x in labels && x !in rest
      decreases rest
    {
      var x :| x in rest;
      InsertAscending(r, x);
      r := Insert(r, x);
      rest := rest - {x};
    }
  }

  /** An ascending list without repeats is fixed by its elements, so the order
      in which the set is walked does not change the vocabulary. */
  lemma {:induction false} AscendingUnique(a: seq<string>, b: seq<string>)
    requires StrictlyAscending(a) && StrictlyAscending(b)
    requires forall x :: x in a <==> x in b
    ensures a == b
    decreases |a|
  {
    if a != [] && b != [] {
      assert a[0] in b && b[0] in a;
      var i :| 0 <= i < |b| && b[i] == a[0];
      var j :| 0 <= j < |a| && a[j] == b[0];
      if a[0] != b[0] {
        assert i > 0 && j > 0;
        LessAsymmetric(b[0], b[i]);
        assert false;
      }
      forall x ensures x in a[1..] <==> x in b[1..] {
        if x in a[1..] {
          var k :| 0 <= k < |a[1..]| && a[1..][k] == x;
          assert Less(a[0], a[k + 1]);
          LessIrreflexive(x);
          assert x in b;
        }
        if x in b[1..] {
          var k :| 0 <= k < |b[1..]| && b[1..][k] == x;
          assert Less(b[0], b[k + 1]);
          LessIrreflexive(x);
          assert x in a;
        }
      }
      AscendingUnique(a[1..], b[1..]);
      assert a == [a[0]] + a[1..] && b == [b[0]] + b[1..];
    } else if a != [] {
      HeadIn(a);
      assert false;
    } else if b != [] {
      HeadIn(b);
      assert false;
    }
  }

  lemma HeadIn(a: seq<string>)
    requires a != []
    ensures a[0] in a
  {
  }

  // ---------------------------------------------------------------------------
  // The style vocabulary and the combined labels, as written

  /** Line 68, `set(df.iloc[:, 4].dropna().unique())`: the present style names,
      not stripped. */
  function StyleSetAsWritten(rows: seq<Row>): set<string> {
    set i | 0 <= i < |rows| && rows[i].style.Text? :: rows[i].style.s
  }

  /** Line 75 as written: the union the sorted vocabulary is made of. */
  function VocabularyAsWritten(rows: seq<Row>): set<string> {
    SymmetrySet(rows) + StyleSetAsWritten(rows)
  }

  /** Lines 79-82 as written: the symmetry tokens of `str(cell)`, with no guard
      for a missing cell, then the stripped style name when there is one. */
  function CombinedLabelsAsWritten(row: Row): seq<string> {
    SymmetryTokens(Str(row.symmetry)) + StyleTokens(row.style)
  }

  /** Line 71, `[str(x).strip()] if pd.notna(x) else []`. */
  function StyleTokens(c: Cell): seq<string> {
    match c
    case Missing => []
    case Text(s) => [Strip(s)]
  }

  /** A row whose symmetry cell is missing gets the label "nan" at line 80,
      which the vocabulary of lines 54-75 does not contain. */
  lemma MissingSymmetryBecomesNan()
    ensures var rows := [Row(Text("Pulli"), Missing)];
      "nan" in CombinedLabelsAsWritten(rows[0]) && "nan" !in VocabularyAsWritten(rows)
  {
    var rows := [Row(Text("Pulli"), Missing)];
    assert Join(["nan"], ',') == "nan";
    TokensRoundTrip(["nan"]);
    assert SymmetryTokens("nan") == ["nan"];
    assert rows[..0] == [];
    assert SymmetrySet(rows) == {};
    assert StyleSetAsWritten(rows) == {"Pulli"};
  }

  /** A style name with surrounding spaces enters the vocabulary unstripped at
      line 68 but the row's labels stripped at line 81, so the row's style label
      is not in the vocabulary. */
  lemma PaddedStyleOutsideVocabulary()
    ensures var rows := [Row(Text("Pulli "), Missing)];
      "Pulli" in CombinedLabelsAsWritten(rows[0]) && "Pulli" !in VocabularyAsWritten(rows)
  {
    var rows := [Row(Text("Pulli "), Missing)];
    StripClean("Pulli");
    StripPadded([], "Pulli", " ");
    assert [] + "Pulli" + " " == "Pulli ";
    assert rows[..0] == [];
    assert SymmetrySet(rows) == {};
    assert StyleSetAsWritten(rows) == {"Pulli "};
  }

  // ---------------------------------------------------------------------------
  // The labels, corrected

  /** The style vocabulary built from the names as line 81 writes them: stripped. */
  function StyleSet(rows: seq<Row>): set<string> {
    set i | 0 <= i < |rows| && rows[i].style.Text? :: Strip(rows[i].style.s)
  }

  /** A row's labels with line 64's guard: its symmetry tokens (none for a
      missing cell), then its stripped style name when it has one. */
  function CombinedLabels(row: Row): seq<string> {
    EncodedSymmetry(row.symmetry) + StyleTokens(row.style)
  }

  /** With the guard and the stripped style names, every label of every row is
      in the vocabulary. */
  lemma LabelsInVocabulary(rows: seq<Row>, i: int, t: string)
    requires 0 <= i < |rows| && t in CombinedLabels(rows[i])
    ensures t in SymmetrySet(rows) + StyleSet(rows)
  {
    GatherMembers(rows, RowSymmetry, t);
    if t !in RowSymmetry(rows[i]) {
      assert rows[i].style.Text? && t == Strip(rows[i].style.s);
    }
  }

  /** Lines 54-82 with both corrections: the sorted vocabulary and each row's
      labels, every one of which is in the vocabulary. */
  method LoadLabels(rows: seq<Row>) returns (allLabels: seq<string>, combined: seq<seq<string>>)
    ensures StrictlyAscending(allLabels)
    ensures forall t :: t in allLabels <==> t in SymmetrySet(rows) || t in StyleSet(rows)
    ensures |combined| == |rows| && forall i :: 0 <= i < |rows| ==> combined[i] == CombinedLabels(rows[i])
    ensures forall i, t :: 0 <= i < |rows| && t in combined[i] ==> t in allLabels
  {
    var symmetryLabels := SymmetryLabelSet(rows);
    var styleLabels := StyleSet(rows);
    allLabels := SortedLabels(symmetryLabels + styleLabels);
    combined := seq(|rows|, i requires 0 <= i < |rows| => CombinedLabels(rows[i]));
    forall i, t | 0 <= i < |rows| && t in combined[i] ensures t in allLabels {
      LabelsInVocabulary(rows, i, t);
    }
  }
}
