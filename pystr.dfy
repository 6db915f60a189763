/** The parts of Python's `str` that the label and link parsers use:
    `isspace`, `strip`, `split` on one separator, `startswith`, and the
    ordering `<` that `sorted` applies to strings. */
module PyStr {

  /** `c.isspace()`: the characters Python treats as whitespace. */
  predicate IsSpace(c: char) {
    c == ' ' || '\t' <= c <= '\r' || '\U{1C}' <= c <= '\U{1F}' ||
    c == '\U{85}' || c == '\U{A0}' || c == '\U{1680}' || '\U{2000}' <= c <= '\U{200A}' ||
    c == '\U{2028}' || c == '\U{2029}' || c == '\U{202F}' || c == '\U{205F}' || c == '\U{3000}'
  }

  predicate AllSpace(s: string) {
    forall i :: 0 <= i < |s| ==> IsSpace(s[i])
  }

  /** `s.lstrip()`: `s` without its leading whitespace. */
  function LStrip(s: string): (r: string)
    ensures |r| <= |s|
    ensures r == [] || !IsSpace(r[0])
  {
    if s != [] && IsSpace(s[0]) then LStrip(s[1..]) else s
  }

  /** `s.rstrip()`: `s` without its trailing whitespace. */
  function RStrip(s: string): (r: string)
    ensures |r| <= |s|
    ensures r == [] || !IsSpace(r[|r| - 1])
    ensures r != [] ==> r[0] == s[0]
  {
    if s != [] && IsSpace(s[|s| - 1]) then RStrip(s[..|s| - 1]) else s
  }

  /** `s.strip()`: `s` without whitespace at either end. */
  function Strip(s: string): (r: string)
    ensures |r| <= |s|
    ensures r == [] || (!IsSpace(r[0]) && !IsSpace(r[|r| - 1]))
  {
    RStrip(LStrip(s))
  }

  /** What `lstrip` removes is a whitespace prefix. */
  lemma {:induction false} LStripSlice(s: string)
    ensures LStrip(s) == s[|s| - |LStrip(s)|..] && AllSpace(s[..|s| - |LStrip(s)|])
    decreases |s|
  {
    if s != [] && IsSpace(s[0]) {
      LStripSlice(s[1..]);
      var k := |s| - |LStrip(s)|;
      assert s[1..][k - 1..] == s[k..];
      forall i | 0 <= i < k ensures IsSpace(s[..k][i]) {
        if i > 0 { assert s[..k][i] == s[1..][..k - 1][i - 1]; }
      }
    } else {
      assert s[..0] == [];
    }
  }

  /** What `rstrip` removes is a whitespace suffix. */
  lemma {:induction false} RStripSlice(s: string)
    ensures RStrip(s) == s[..|RStrip(s)|] && AllSpace(s[|RStrip(s)|..])
    decreases |s|
  {
    if s != [] && IsSpace(s[|s| - 1]) {
      var n := |s| - 1;
      RStripSlice(s[..n]);
      var k := |RStrip(s)|;
      assert s[..n][..k] == s[..k];
      forall i | 0 <= i < |s| - k ensures IsSpace(s[k..][i]) {
        if k + i < n { assert s[k..][i] == s[..n][k..][i]; }
      }
    } else {
      assert s[|s|..] == [];
    }
  }

  /** What `strip` removes is whitespace, from the two ends only. */
  lemma StripSlice(s: string) returns (i: int, j: int)
    ensures 0 <= i <= j <= |s| && Strip(s) == s[i..j] && AllSpace(s[..i]) && AllSpace(s[j..])
  {
    var l := LStrip(s);
    var r := RStrip(l);
    LStripSlice(s);
    RStripSlice(l);
    i, j := |s| - |l|, |s| - |l| + |r|;
    assert r == s[i..i + |r|];
    assert s[i + |r|..] == l[|r|..];
  }

  lemma AllSpaceCons(x: string)
    requires x != []
    ensures AllSpace(x) <==> IsSpace(x[0]) && AllSpace(x[1..])
  {
    if IsSpace(x[0]) && AllSpace(x[1..]) {
      forall i | 0 <= i < |x| ensures IsSpace(x[i]) {
        if i > 0 { assert x[i] == x[1..][i - 1]; }
      }
    }
  }

  lemma AllSpaceSnoc(y: string)
    requires y != []
    ensures AllSpace(y) <==> IsSpace(y[|y| - 1]) && AllSpace(y[..|y| - 1])
  {
    if IsSpace(y[|y| - 1]) && AllSpace(y[..|y| - 1]) {
      forall i | 0 <= i < |y| ensures IsSpace(y[i]) {
        if i < |y| - 1 { assert y[i] == y[..|y| - 1][i]; }
      }
    }
  }

  lemma {:induction false} LStripAppend(x: string, y: string)
    ensures LStrip(x + y) == if AllSpace(x) then LStrip(y) else LStrip(x) + y
    decreases |x|
  {
    if x == [] {
      assert x + y == y;
    } else {
      var xy := x + y;
      assert xy[0] == x[0] && xy[1..] == x[1..] + y;
      AllSpaceCons(x);
      if IsSpace(x[0]) {
        LStripAppend(x[1..], y);
        assert LStrip(xy) == LStrip(x[1..] + y);
        assert LStrip(x) == LStrip(x[1..]);
      } else {
        assert LStrip(xy) == xy;
        assert LStrip(x) == x;
      }
    }
  }

  lemma {:induction false} RStripPrepend(x: string, y: string)
    ensures RStrip(x + y) == if AllSpace(y) then RStrip(x) else x + RStrip(y)
    decreases |y|
  {
    if y == [] {
      assert x + y == x;
    } else {
      var n := |y| - 1;
      var xy := x + y;
      assert xy[|xy| - 1] == y[n] && xy[..|xy| - 1] == x + y[..n];
      AllSpaceSnoc(y);
      if IsSpace(y[n]) {
        RStripPrepend(x, y[..n]);
        assert RStrip(xy) == RStrip(x + y[..n]);
        assert RStrip(y) == RStrip(y[..n]);
      } else {
        assert RStrip(xy) == xy;
        assert RStrip(y) == y;
      }
    }
  }

  /** Whitespace around a string does not change what it strips to. */
  lemma StripPadded(w1: string, x: string, w2: string)
    requires AllSpace(w1) && AllSpace(w2)
    ensures Strip(w1 + x + w2) == Strip(x)
  {
    assert w1 + x + w2 == w1 + (x + w2);
    LStripAppend(w1, x + w2);
    LStripAppend(x, w2);
    if AllSpace(x) {
      LStripAppend(x, []);
      LStripAppend(w2, []);
      assert x + [] == x && w2 + [] == w2;
    } else {
      RStripPrepend(LStrip(x), w2);
    }
  }

  lemma StripPaddedRight(x: string, w: string)
    requires AllSpace(w)
    ensures Strip(x + w) == Strip(x)
  {
    assert [] + x + w == x + w;
    StripPadded([], x, w);
  }

  /** Stripping twice is stripping once. */
  lemma StripIdempotent(s: string)
    ensures Strip(Strip(s)) == Strip(s)
  {
    var i, j := StripSlice(s);
    assert s == s[..i] + s[i..j] + s[j..];
    StripPadded(s[..i], s[i..j], s[j..]);
    var t := Strip(s);
    if t != [] {
      assert LStrip(t) == t;
      assert RStrip(t) == t;
    }
  }

  /** `sep.join(ps)`. */
  function Join(ps: seq<string>, sep: char): string
    decreases |ps|
  {
    if ps == [] then []
    else if |ps| == 1 then ps[0]
    else ps[0] + [sep] + Join(ps[1..], sep)
  }

  /** `s.split(sep)` for a one-character separator: the pieces between
      separators, empty ones included, and at least one piece. */
  function Split(s: string, sep: char): (r: seq<string>)
    ensures |r| >= 1
    ensures forall k :: 0 <= k < |r| ==> sep !in r[k]
    decreases |s|
  {
    if s == [] then [[]]
    else
      var rest := Split(s[1..], sep);
      if s[0] == sep then [[]] + rest else [[s[0]] + rest[0]] + rest[1..]
  }

  /** Joining the pieces with the separator gives back the string. */
  lemma {:induction false} JoinSplit(s: string, sep: char)
    ensures Join(Split(s, sep), sep) == s
    decreases |s|
  {
    if s != [] {
      var rest := Split(s[1..], sep);
      JoinSplit(s[1..], sep);
      if s[0] == sep {
        assert ([[]] + rest)[1..] == rest;
      } else if |rest| == 1 {
        assert Join(rest, sep) == rest[0];
      } else {
        var ps := [[s[0]] + rest[0]] + rest[1..];
        assert ps[1..] == rest[1..];
        assert Join(rest, sep) == rest[0] + [sep] + Join(rest[1..], sep);
      }
    }
  }

  /** Splitting the join of pieces free of the separator gives back the pieces. */
  lemma {:induction false} SplitJoin(ps: seq<string>, sep: char)
    requires |ps| >= 1
    requires forall k :: 0 <= k < |ps| ==> sep !in ps[k]
    ensures Split(Join(ps, sep), sep) == ps
    decreases |ps|
  {
    if |ps| == 1 {
      SplitNoSep(ps[0], sep);
    } else {
      SplitJoin(ps[1..], sep);
      SplitAround(ps[0], Join(ps[1..], sep), sep);
      assert [ps[0]] + ps[1..] == ps;
    }
  }

  /** A string with no separator is one piece. */
  lemma {:induction false} SplitNoSep(w: string, sep: char)
    requires sep !in w
    ensures Split(w, sep) == [w]
    decreases |w|
  {
    if w != [] {
      assert forall c :: c in w[1..] ==> c in w;
      SplitNoSep(w[1..], sep);
      assert [w[0]] + w[1..] == w;
    }
  }

  /** A piece free of the separator joins the first piece that follows it. */
  lemma {:induction false} SplitPrefix(w: string, s: string, sep: char)
    requires sep !in w
    ensures Split(w + s, sep) == [w + Split(s, sep)[0]] + Split(s, sep)[1..]
    decreases |w|
  {
    var p := Split(s, sep);
    if w == [] {
      assert w + s == s;
      assert w + p[0] == p[0];
      assert [p[0]] + p[1..] == p;
    } else {
      assert (w + s)[0] == w[0] && (w + s)[1..] == w[1..] + s;
      assert forall c :: c in w[1..] ==> c in w;
      SplitPrefix(w[1..], s, sep);
      assert [w[0]] + (w[1..] + Split(s, sep)[0]) == w + Split(s, sep)[0];
    }
  }

  /** Splitting `a + sep + b` splits `a` and `b` apart. */
  lemma {:induction false} SplitAround(a: string, b: string, sep: char)
    requires sep !in a
    ensures Split(a + [sep] + b, sep) == [a] + Split(b, sep)
  {
    assert a + [sep] + b == a + ([sep] + b);
    SplitPrefix(a, [sep] + b, sep);
    var t := [sep] + b;
    assert t[0] == sep && t[1..] == b;
    assert Split(t, sep) == [[]] + Split(b, sep);
    assert a + [] == a;
  }

  /** Splitting a concatenation at a separator concatenates the splits, so the
      pieces come out in the order they stand in the string. */
  lemma {:induction false} SplitConcat(a: string, b: string, sep: char)
    ensures Split(a + [sep] + b, sep) == Split(a, sep) + Split(b, sep)
    decreases |a|
  {
    if a == [] {
      assert a + [sep] + b == [sep] + b;
      assert ([sep] + b)[1..] == b;
    } else {
      assert (a + [sep] + b)[0] == a[0] && (a + [sep] + b)[1..] == a[1..] + [sep] + b;
      SplitConcat(a[1..], b, sep);
    }
  }

  /** A piece free of the separator joins the last piece before it. */
  lemma {:induction false} SplitSuffix(s: string, w: string, sep: char) returns (init: seq<string>, last: string)
    requires sep !in w
    ensures Split(s, sep) == init + [last]
    ensures Split(s + w, sep) == init + [last + w]
    decreases |s|
  {
    if s == [] {
      SplitNoSep(w, sep);
      assert s + w == w;
      init, last := [], [];
    } else {
      var sw := s + w;
      assert sw[0] == s[0] && sw[1..] == s[1..] + w;
      var init', last' := SplitSuffix(s[1..], w, sep);
      init, last := SplitSuffixStep(s, w, sep, init', last');
    }
  }

  /** One step of `SplitSuffix`: from the pieces of `s[1..]` to those of `s`. */
  lemma SplitSuffixStep(s: string, w: string, sep: char, init': seq<string>, last': string)
    returns (init: seq<string>, last: string)
    requires s != []
    requires (s + w)[1..] == s[1..] + w
    requires Split(s[1..], sep) == init' + [last']
    requires Split(s[1..] + w, sep) == init' + [last' + w]
    ensures Split(s, sep) == init + [last]
    ensures Split(s + w, sep) == init + [last + w]
  {
    assert (s + w)[0] == s[0];
    var rest, restW := Split(s[1..], sep), Split((s + w)[1..], sep);
    if s[0] == sep {
      init, last := [[]] + init', last';
      assert Split(s, sep) == [[]] + rest;
      assert Split(s + w, sep) == [[]] + restW;
    } else if init' == [] {
      init, last := [], [s[0]] + last';
      assert [s[0]] + (last' + w) == last + w;
    } else {
      init, last := [[s[0]] + init'[0]] + init'[1..], last';
      assert (init' + [last'])[1..] == init'[1..] + [last'];
      assert (init' + [last' + w])[1..] == init'[1..] + [last' + w];
    }
  }


  /** `s.startswith(prefix)`. */
  predicate StartsWith(s: string, prefix: string) {
    |prefix| <= |s| && s[..|prefix|] == prefix
  }

  /** Python's `<` on strings: code point by code point, a proper prefix first. */
  predicate Less(a: string, b: string)
    decreases |a|
  {
    if a == [] then b != []
    else if b == [] then false
    else if a[0] != b[0] then a[0] < b[0]
    else Less(a[1..], b[1..])
  }

  lemma {:induction false} LessIrreflexive(a: string)
    ensures !Less(a, a)
    decreases |a|
  {
    if a != [] {
      LessIrreflexive(a[1..]);
    }
  }

  lemma {:induction false} LessTransitive(a: string, b: string, c: string)
    requires Less(a, b) && Less(b, c)
    ensures Less(a, c)
    decreases |a|
  {
    if a != [] && b != [] && c != [] && a[0] == b[0] && b[0] == c[0] {
      LessTransitive(a[1..], b[1..], c[1..]);
    }
  }

  /** Any two distinct strings are ordered one way or the other. */
  lemma {:induction false} LessTotal(a: string, b: string)
    ensures a == b || Less(a, b) || Less(b, a)
    decreases |a|
  {
    if a != [] && b != [] && a[0] == b[0] {
      LessTotal(a[1..], b[1..]);
      if a[1..] == b[1..] {
        assert a == [a[0]] + a[1..] && b == [b[0]] + b[1..];
      }
    }
  }

  lemma LessAsymmetric(a: string, b: string)
    requires Less(a, b)
    ensures !Less(b, a)
  {
    if Less(b, a) {
      LessTransitive(a, b, a);
      LessIrreflexive(a);
    }
  }
}
