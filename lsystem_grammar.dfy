/**
 * The L-system grammars and string generation: the preset table, one textual
 * rewriting pass, and the capped iteration of generate().
 */
module LSystemGrammar {
  import opened Orbits

  datatype Preset = Preset(axiom: string, rules: map<char, string>, angle: real, startAngle: real)

  /** The plant's branching rule for X. */
  const PlantBranch: string := "F+[[X]-X]-F[-FX]+X"

  /** The preset table: plant, koch and dragon. */
  const Presets: map<string, Preset> := map[
    "plant" := Preset("X", map['X' := PlantBranch, 'F' := "FF"], 25.0, -90.0),
    "koch" := Preset("F", map['F' := "F+F-F-F+F"], 90.0, 0.0),
    "dragon" := Preset("FX", map['X' := "X+YF+", 'Y' := "-FX-Y"], 90.0, 0.0)
  ]

  /** Generation stops after the first pass whose string is longer than this. */
  const LengthCap: nat := 300000

  /** `rules[char] || char`: a missing or empty rule body keeps the character. */
  function Replacement(rules: map<char, string>, c: char): string {
    if c in rules && rules[c] != "" then rules[c] else [c]
  }

  /** One rewriting pass, building the new string character by character. */
  function Rewrite(rules: map<char, string>, s: string): string {
    if s == [] then [] else Rewrite(rules, s[..|s| - 1]) + Replacement(rules, s[|s| - 1])
  }

  /** Rewriting works piecewise: it distributes over concatenation. */
  lemma {:induction false} RewriteAppend(rules: map<char, string>, s: string, t: string)
    ensures Rewrite(rules, s + t) == Rewrite(rules, s) + Rewrite(rules, t)
  {
    if t == [] {
      assert s + t == s;
    } else {
      var init := t[..|t| - 1];
      RewriteAppend(rules, s, init);
      assert (s + t)[..|s + t| - 1] == s + init;
      assert (s + t)[|s + t| - 1] == t[|t| - 1];
    }
  }

  /** Symbols without a rule, such as + - [ ], survive a pass unchanged. */
  lemma {:induction false} RewriteKeepsRuleless(rules: map<char, string>, s: string)
    requires forall i :: 0 <= i < |s| ==> s[i] !in rules
    ensures Rewrite(rules, s) == s
  {
    if s != [] {
      var init := s[..|s| - 1];
      RewriteKeepsRuleless(rules, init);
      assert init + [s[|s| - 1]] == s;
    }
  }

  /** One rewriting pass as a function value. */
  function Pass(rules: map<char, string>): string -> string {
    s => Rewrite(rules, s)
  }

  /** The string after k passes over the axiom. */
  function Expand(rules: map<char, string>, axiom: string, k: nat): string {
    Iterate(Pass(rules), axiom, k)
  }

  /** Expansion k + 1 is one rewriting pass over expansion k. */
  lemma ExpandStep(rules: map<char, string>, axiom: string, k: nat)
    ensures Expand(rules, axiom, k + 1) == Rewrite(rules, Expand(rules, axiom, k))
  {
  }

  /** What generate() leaves behind: the string and the iteration count. */
  datatype Generation = Generation(text: string, iterations: int)

  /**
   * The remaining passes of generate() from pass i on, for n requested:
   * the first pass whose result exceeds the cap ends generation and sets the
   * iteration count to the number of passes done.
   */
  function GenerateFrom(pass: string -> string, s: string, i: int, n: int): Generation
    decreases n - i
  {
    if i >= n then Generation(s, n)
    else
      var t := pass(s);
      if |t| > LengthCap then Generation(t, i + 1) else GenerateFrom(pass, t, i + 1, n)
  }

  function Generate(p: Preset, n: int): Generation {
    GenerateFrom(Pass(p.rules), p.axiom, 0, n)
  }

  /** Pass j over the seed produced a string within the cap. */
  ghost predicate WithinCap(pass: string -> string, seed: string, j: nat) {
    |Iterate(pass, seed, j)| <= LengthCap
  }

  /** Every pass before pass k produced a string within the cap. */
  ghost predicate CapNotHitBefore(pass: string -> string, seed: string, k: int) {
    forall j: nat :: 1 <= j < k ==> WithinCap(pass, seed, j)
  }

  lemma {:induction false} GenerateFromSpec(pass: string -> string, seed: string, s: string, i: nat, n: int)
    requires i < n && s == Iterate(pass, seed, i)
    requires CapNotHitBefore(pass, seed, i + 1)
    ensures i + 1 <= GenerateFrom(pass, s, i, n).iterations <= n
    ensures GenerateFrom(pass, s, i, n).text == Iterate(pass, seed, GenerateFrom(pass, s, i, n).iterations)
    ensures CapNotHitBefore(pass, seed, GenerateFrom(pass, s, i, n).iterations)
    ensures GenerateFrom(pass, s, i, n).iterations < n ==> |GenerateFrom(pass, s, i, n).text| > LengthCap
    decreases n - i
  {
    var t := pass(s);
    assert t == Iterate(pass, seed, i + 1);
    if |t| <= LengthCap {
      assert GenerateFrom(pass, s, i, n) == GenerateFrom(pass, t, i + 1, n);
      if i + 1 < n {
        assert CapNotHitBefore(pass, seed, i + 2);
        GenerateFromSpec(pass, seed, t, i + 1, n);
      }
    }
  }

  /**
   * generate() with n requested iterations: none requested leaves the axiom;
   * otherwise the text is the expansion after the reported count of passes,
   * which is at least 1 and at most n, every earlier pass stayed within the
   * cap, and stopping early means the kept text is over the cap.
   */
  lemma GenerateSpec(p: Preset, n: int)
    ensures n <= 0 ==> Generate(p, n) == Generation(p.axiom, n)
    ensures n > 0 ==> 1 <= Generate(p, n).iterations <= n
    ensures n > 0 ==> Generate(p, n).text == Expand(p.rules, p.axiom, Generate(p, n).iterations)
    ensures CapNotHitBefore(Pass(p.rules), p.axiom, Generate(p, n).iterations)
    ensures Generate(p, n).iterations < n ==> |Generate(p, n).text| > LengthCap
  {
    if n > 0 {
      GenerateFromSpec(Pass(p.rules), p.axiom, p.axiom, 0, n);
    }
  }

  /**
   * Generating again with the iteration count generate() reported gives the
   * same result: a capped count is where the cap is first exceeded.
   */
  lemma GenerateIdempotent(p: Preset, n: int)
    ensures Generate(p, Generate(p, n).iterations) == Generate(p, n)
  {
    GenerateSpec(p, n);
    var g := Generate(p, n);
    if n > 0 {
      GenerateSpec(p, g.iterations);
      var g2 := Generate(p, g.iterations);
      assert g2.iterations < g.iterations ==> WithinCap(Pass(p.rules), p.axiom, g2.iterations);
    }
  }

  /** The inner loop of generate(): one pass, appending each symbol's replacement. */
  method RewriteString(rules: map<char, string>, s: string) returns (t: string)
    ensures t == Rewrite(rules, s)
  {
    t := "";
    var j := 0;
    while j < |s|
      invariant 0 <= j <= |s|
      invariant t == Rewrite(rules, s[..j])
    {
      var c := s[j];
      var body := Replacement(rules, c);
      assert s[..j + 1][..j] == s[..j];
      t := t + body;
      j := j + 1;
    }
    assert s[..|s|] == s;
  }

  /**
   * The outer loop of generate(): up to n passes from the axiom, stopping
   * with the count of passes done once a string exceeds the cap.
   */
  method GenerateText(p: Preset, n: int) returns (g: Generation)
    ensures g == Generate(p, n)
  {
    var text := p.axiom;
    var iterations := n;
    var i := 0;
    while i < n
      invariant 0 <= i
      invariant iterations == n
      invariant GenerateFrom(Pass(p.rules), text, i, n) == Generate(p, n)
      decreases n - i
    {
      text := RewriteString(p.rules, text);
      if |text| > LengthCap {
        iterations := i + 1;
        break;
      }
      i := i + 1;
    }
    g := Generation(text, iterations);
  }

  /** The Koch preset after one iteration. */
  lemma KochOnePass()
    ensures Generate(Presets["koch"], 1) == Generation("F+F-F-F+F", 1)
  {
    var rules := Presets["koch"].rules;
    assert Rewrite(rules, "F") == Rewrite(rules, []) + Replacement(rules, 'F');
  }

  // Bracket nesting: '[' saves the turtle, ']' restores it.

  function Delta(c: char): int {
    if c == '[' then 1 else if c == ']' then -1 else 0
  }

  /** Number of '[' minus number of ']'. */
  function Depth(s: string): int {
    if s == [] then 0 else Delta(s[0]) + Depth(s[1..])
  }

  /** The lowest depth reached by any prefix (the empty prefix gives 0). */
  function LowPoint(s: string): int {
    if s == [] then 0 else
      var rest := Delta(s[0]) + LowPoint(s[1..]);
      if rest < 0 then rest else 0
  }

  /** No prefix has more ']' than '['. */
  ghost predicate NeverUnderflows(s: string) {
    forall k :: 0 <= k <= |s| ==> Depth(s[..k]) >= 0
  }

  /** Depth 0 overall, and no prefix closes more brackets than it opened. */
  ghost predicate Balanced(s: string) {
    Depth(s) == 0 && LowPoint(s) == 0
  }

  /** Every rule leaves the nesting depth alone and never closes more than it opened. */
  ghost predicate WellNestedRules(rules: map<char, string>) {
    forall c :: c in rules ==> Delta(c) == 0 && Balanced(rules[c])
  }

  lemma {:induction false} DepthAppend(s: string, t: string)
    ensures Depth(s + t) == Depth(s) + Depth(t)
    ensures LowPoint(s + t) == if LowPoint(s) <= Depth(s) + LowPoint(t) then LowPoint(s) else Depth(s) + LowPoint(t)
  {
    if s != [] {
      DepthAppend(s[1..], t);
      assert (s + t)[1..] == s[1..] + t;
    } else {
      assert s + t == t;
      LowPointAtMostZero(t);
    }
  }

  lemma {:induction false} LowPointAtMostZero(s: string)
    ensures LowPoint(s) <= 0
  {
  }

  /** LowPoint really is a lower bound of every prefix depth. */
  lemma {:induction false} LowPointBelowPrefixes(s: string, k: nat)
    requires k <= |s|
    ensures LowPoint(s) <= Depth(s[..k])
  {
    if k > 0 {
      LowPointBelowPrefixes(s[1..], k - 1);
      assert s[..k][1..] == s[1..][..k - 1];
    }
  }

  /** A rewriting pass keeps the depth and never lowers the low point. */
  lemma {:induction false} RewriteKeepsNesting(rules: map<char, string>, s: string)
    requires WellNestedRules(rules)
    ensures Depth(Rewrite(rules, s)) == Depth(s)
    ensures LowPoint(Rewrite(rules, s)) >= LowPoint(s)
  {
    if s != [] {
      var init, c := s[..|s| - 1], s[|s| - 1];
      assert s == init + [c];
      RewriteKeepsNesting(rules, init);
      DepthAppend(init, [c]);
      DepthAppend(Rewrite(rules, init), Replacement(rules, c));
      LowPointBelowPrefixes(init, |init|);
      assert init[..|init|] == init;
    }
  }

  lemma {:induction false} ExpandKeepsNesting(rules: map<char, string>, axiom: string, k: nat)
    requires WellNestedRules(rules) && Balanced(axiom)
    ensures Balanced(Expand(rules, axiom, k))
  {
    if k > 0 {
      ExpandKeepsNesting(rules, axiom, k - 1);
      RewriteKeepsNesting(rules, Expand(rules, axiom, k - 1));
      LowPointAtMostZero(Expand(rules, axiom, k));
    }
  }

  /** Depth of s[i..], walking the indices (evaluates well on literals). */
  function DepthFrom(s: string, i: nat): int
    decreases |s| - i
  {
    if i >= |s| then 0 else Delta(s[i]) + DepthFrom(s, i + 1)
  }

  /** LowPoint of s[i..], walking the indices. */
  function LowFrom(s: string, i: nat): int
    decreases |s| - i
  {
    if i >= |s| then 0 else
      var rest := Delta(s[i]) + LowFrom(s, i + 1);
      if rest < 0 then rest else 0
  }

  lemma {:induction false} FromAgrees(s: string, i: nat)
    requires i <= |s|
    ensures DepthFrom(s, i) == Depth(s[i..]) && LowFrom(s, i) == LowPoint(s[i..])
    decreases |s| - i
  {
    if i < |s| {
      FromAgrees(s, i + 1);
      assert s[i..][1..] == s[i + 1..];
    }
  }

  /** A string whose walk shows depth 0 and low point 0 is balanced. */
  lemma WalkBalanced(s: string)
    requires DepthFrom(s, 0) == 0 && LowFrom(s, 0) == 0
    ensures Balanced(s)
  {
    FromAgrees(s, 0);
    assert s[0..] == s;
  }

  lemma PlantBodyBalanced()
    ensures Balanced(PlantBranch)
  {
    var s := PlantBranch;
    assert DepthFrom(s, 17) == 0 && LowFrom(s, 17) == 0;
    assert DepthFrom(s, 16) == 0 && LowFrom(s, 16) == 0;
    assert DepthFrom(s, 15) == -1 && LowFrom(s, 15) == -1;
    assert DepthFrom(s, 14) == -1 && LowFrom(s, 14) == -1;
    assert DepthFrom(s, 13) == -1 && LowFrom(s, 13) == -1;
    assert DepthFrom(s, 12) == -1 && LowFrom(s, 12) == -1;
    assert DepthFrom(s, 11) == 0 && LowFrom(s, 11) == 0;
    assert DepthFrom(s, 10) == 0 && LowFrom(s, 10) == 0;
    assert DepthFrom(s, 9) == 0 && LowFrom(s, 9) == 0;
    assert DepthFrom(s, 8) == -1 && LowFrom(s, 8) == -1;
    assert DepthFrom(s, 7) == -1 && LowFrom(s, 7) == -1;
    assert DepthFrom(s, 6) == -1 && LowFrom(s, 6) == -1;
    assert DepthFrom(s, 5) == -2 && LowFrom(s, 5) == -2;
    assert DepthFrom(s, 4) == -2 && LowFrom(s, 4) == -2;
    assert DepthFrom(s, 3) == -1 && LowFrom(s, 3) == -1;
    assert DepthFrom(s, 2) == 0 && LowFrom(s, 2) == 0;
    assert DepthFrom(s, 1) == 0 && LowFrom(s, 1) == 0;
    WalkBalanced(s);
  }

  /** A rule map with two rules is well nested when both bodies are balanced. */
  lemma TwoRulesWellNested(c1: char, b1: string, c2: char, b2: string)
    requires Delta(c1) == 0 && Balanced(b1)
    requires Delta(c2) == 0 && Balanced(b2)
    ensures WellNestedRules(map[c1 := b1, c2 := b2])
  {
  }

  lemma PlantGrowthBalanced()
    ensures Balanced("FF")
  {
  }

  lemma PlantWellNested()
    ensures WellNestedRules(map['X' := PlantBranch, 'F' := "FF"])
  {
    PlantBodyBalanced();
    PlantGrowthBalanced();
    TwoRulesWellNested('X', PlantBranch, 'F', "FF");
  }

  lemma KochWellNested()
    ensures WellNestedRules(map['F' := "F+F-F-F+F"])
  {
    WalkBalanced("F+F-F-F+F");
  }

  lemma DragonWellNested()
    ensures WellNestedRules(map['X' := "X+YF+", 'Y' := "-FX-Y"])
  {
    WalkBalanced("X+YF+");
    WalkBalanced("-FX-Y");
  }

  /** Every preset's axiom and rule bodies are bracket-balanced. */
  lemma PresetsWellNested(key: string)
    requires key in Presets
    ensures WellNestedRules(Presets[key].rules)
    ensures Balanced(Presets[key].axiom)
  {
    if key == "plant" {
      PlantWellNested();
      WalkBalanced("X");
    } else if key == "koch" {
      KochWellNested();
      WalkBalanced("F");
    } else {
      DragonWellNested();
      WalkBalanced("FX");
    }
  }

  /**
   * Whatever generate() produces from a preset is balanced, and no prefix of
   * it has more ']' than '['.
   */
  lemma GeneratedWellNested(key: string, n: int)
    requires key in Presets
    ensures Depth(Generate(Presets[key], n).text) == 0
    ensures NeverUnderflows(Generate(Presets[key], n).text)
  {
    var p := Presets[key];
    PresetsWellNested(key);
    GenerateSpec(p, n);
    var g := Generate(p, n);
    var k: nat := if n > 0 then g.iterations else 0;
    assert g.text == Expand(p.rules, p.axiom, k);
    ExpandKeepsNesting(p.rules, p.axiom, k);
    forall j | 0 <= j <= |g.text| ensures Depth(g.text[..j]) >= 0 {
      LowPointBelowPrefixes(g.text, j);
    }
  }
}
