/** The L-system string rewriting behind the server's turtle-drawn designs.
    Rules map one-character strings to their replacements; a character with no
    rule is kept as it is. */
module LSystem {

  /** `rules.get(ch, ch)`: the replacement of one character. */
  function Rewrite(rules: map<string, string>, ch: char): string {
    if [ch] in rules then rules[[ch]] else [ch]
  }

  /** One rewriting step, `"".join(rules.get(ch, ch) for ch in s)`. */
  function Step(s: string, rules: map<string, string>): string
    decreases |s|
  {
    if s == [] then [] else Step(s[..|s| - 1], rules) + Rewrite(rules, s[|s| - 1])
  }

  /** The string after `n` rewriting steps from `axiom`; none when `n <= 0`,
      as `range(n)` is then empty. */
  function Expand(axiom: string, rules: map<string, string>, n: int): string
    decreases n
  {
    if n <= 0 then axiom else Step(Expand(axiom, rules, n - 1), rules)
  }

  /** `expand_lsystem_string`: reassigns the result once per iteration. */
  method ExpandLSystemString(axiom: string, rules: map<string, string>, iterations: int) returns (result: string)
    ensures result == Expand(axiom, rules, iterations)
    ensures iterations <= 0 ==> result == axiom
  {
    result := axiom;
    var k := 0;
    while k < iterations
      invariant 0 <= k <= if iterations < 0 then 0 else iterations
      invariant result == Expand(axiom, rules, k)
    {
      result := Step(result, rules);
      k := k + 1;
    }
  }

  /** A single character is rewritten by its rule. */
  lemma StepChar(ch: char, rules: map<string, string>)
    ensures Step([ch], rules) == Rewrite(rules, ch)
  {
    assert [ch][..0] == [];
  }

  /** A step is a string homomorphism: rewriting a concatenation rewrites each part. */
  lemma {:induction false} StepAppend(a: string, b: string, rules: map<string, string>)
    ensures Step(a + b, rules) == Step(a, rules) + Step(b, rules)
    decreases |b|
  {
    if b == [] {
      assert a + b == a;
    } else {
      var c := b[|b| - 1];
      var b' := b[..|b| - 1];
      assert (a + b)[..|a + b| - 1] == a + b';
      assert (a + b)[|a + b| - 1] == c;
      StepAppend(a, b', rules);
    }
  }

  /** Characters without a rule are fixed: a string none of whose characters
      has a rule is its own rewriting. */
  lemma {:induction false} StepNoRules(s: string, rules: map<string, string>)
    requires forall i :: 0 <= i < |s| ==> [s[i]] !in rules
    ensures Step(s, rules) == s
    decreases |s|
  {
    if s != [] {
      StepNoRules(s[..|s| - 1], rules);
      assert s[..|s| - 1] + [s[|s| - 1]] == s;
    }
  }

  /** With no rules at all, expansion never changes the axiom. */
  lemma {:induction false} ExpandNoRules(axiom: string, n: int)
    ensures Expand(axiom, map[], n) == axiom
    decreases n
  {
    if n > 0 {
      ExpandNoRules(axiom, n - 1);
      StepNoRules(axiom, map[]);
    }
  }

  /** Iterations compose: m steps and then n more are m + n steps. */
  lemma {:induction false} ExpandAdd(axiom: string, rules: map<string, string>, m: int, n: int)
    requires m >= 0 && n >= 0
    ensures Expand(axiom, rules, m + n) == Expand(Expand(axiom, rules, m), rules, n)
    decreases n
  {
    var mid := Expand(axiom, rules, m);
    if n == 0 {
      assert m + n == m;
    } else {
      ExpandAdd(axiom, rules, m, n - 1);
      var before := Expand(axiom, rules, m + (n - 1));
      assert before == Expand(mid, rules, n - 1);
      ExpandSucc(axiom, rules, m + n);
      ExpandSucc(mid, rules, n);
    }
  }

  lemma ExpandSucc(axiom: string, rules: map<string, string>, k: int)
    requires k > 0
    ensures Expand(axiom, rules, k) == Step(Expand(axiom, rules, k - 1), rules)
  {
  }

  /** Expansion distributes over concatenation of axioms, so each symbol of an
      axiom grows independently of its neighbours. */
  lemma {:induction false} ExpandAppend(a: string, b: string, rules: map<string, string>, n: int)
    ensures Expand(a + b, rules, n) == Expand(a, rules, n) + Expand(b, rules, n)
    decreases n
  {
    if n > 0 {
      ExpandAppend(a, b, rules, n - 1);
      StepAppend(Expand(a, rules, n - 1), Expand(b, rules, n - 1), rules);
    }
  }
}
