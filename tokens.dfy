/**
 * ABAC token expressions: `generate_token_expression` and its three tiers,
 * and the operator-count classifier of the two summaries.
 *
 * Every pattern of the source is an f-string whose holes are each an
 * independent `random.choice(tokens)`. A pattern is written here as the
 * expression tree its f-string spells: a token hole, two sub-patterns joined
 * by `&` or `|`, or a parenthesised group. `Render` prints a tree exactly as
 * the f-string does (no spaces, parentheses only where the pattern has them),
 * filling hole i with the token chosen by pick i. The shape of each pattern
 * is then a fact about a small constant tree, and `Render` is proved to keep
 * that shape in the printed string.
 */
module TokenExpr {
  import opened Basics
  import opened Text
  import opened Vocabulary

  datatype Tier = Simple | Medium | Complex

  /**
   * The draws behind one expression: the tier, the medium tier's
   * favoured-pattern coin, the pattern index, and one pick per token hole.
   */
  datatype TokenPicks = TokenPicks(tier: nat, favoured: bool, pattern: nat, slots: seq<nat>)

  datatype Op = And | Or

  /** A pattern: `Hole(i)` is the i-th `{random.choice(tokens)}` of the f-string. */
  datatype Pattern = Hole(slot: nat) | Join(op: Op, left: Pattern, right: Pattern) | Group(inner: Pattern)

  const Symbols: string := "&|()"

  // Patterns of `generate_simple_tokens`: A, A&B, A|B.
  const SimplePatterns: seq<Pattern> := [
    Hole(0),
    Join(And, Hole(0), Hole(1)),
    Join(Or, Hole(0), Hole(1))
  ]

  // Patterns of `generate_medium_tokens`: A&B&C, A|B|C, (A|B)&C, A&(B|C), (A&B)|C.
  const MediumPatterns: seq<Pattern> := [
    Join(And, Join(And, Hole(0), Hole(1)), Hole(2)),
    Join(Or, Join(Or, Hole(0), Hole(1)), Hole(2)),
    Join(And, Group(Join(Or, Hole(0), Hole(1))), Hole(2)),
    Join(And, Hole(0), Group(Join(Or, Hole(1), Hole(2)))),
    Join(Or, Group(Join(And, Hole(0), Hole(1))), Hole(2))
  ]

  // Patterns of `generate_complex_tokens`:
  // (A&B)&(C|D|E), A&(B|C)&(D|E), (A&B&C)|(D&E), (A|B)&(C|D)&E, A&B&(C|D|E|F).
  const ComplexPatterns: seq<Pattern> := [
    Join(And, Group(Join(And, Hole(0), Hole(1))), Group(Join(Or, Join(Or, Hole(2), Hole(3)), Hole(4)))),
    Join(And, Join(And, Hole(0), Group(Join(Or, Hole(1), Hole(2)))), Group(Join(Or, Hole(3), Hole(4)))),
    Join(Or, Group(Join(And, Join(And, Hole(0), Hole(1)), Hole(2))), Group(Join(And, Hole(3), Hole(4)))),
    Join(And, Join(And, Group(Join(Or, Hole(0), Hole(1))), Group(Join(Or, Hole(2), Hole(3)))), Hole(4)),
    Join(And, Join(And, Hole(0), Hole(1)), Group(Join(Or, Join(Or, Join(Or, Hole(2), Hole(3)), Hole(4)), Hole(5))))
  ]

  /** The literal returned by the medium tier's 30% short cut. */
  const Favoured: string := "AAA&BBB&CCC"

  // ---------------------------------------------------------------------------
  // The language of token expressions
  // ---------------------------------------------------------------------------

  /** A string made only of whole tokens and the four symbols `& | ( )`. */
  predicate IsTokenString(s: string)
    decreases |s|
  {
    s == [] ||
    (s[0] in Symbols && IsTokenString(s[1..])) ||
    (StartsWithToken(s) && IsTokenString(s[3..]))
  }

  predicate StartsWithToken(s: string)
  {
    |s| >= 3 && s[..3] in Tokens
  }

  /**
   * Left-to-right parenthesis depth starting at `depth`; -1 once a `)` has
   * no matching `(`.
   */
  function Scan(s: string, depth: nat): int
  {
    if s == [] then depth
    else if s[0] == '(' then Scan(s[1..], depth + 1)
    else if s[0] == ')' then (if depth == 0 then -1 else Scan(s[1..], depth - 1))
    else Scan(s[1..], depth)
  }

  /** Every `)` closes an earlier `(` and none is left open. */
  predicate Balanced(s: string)
  {
    Scan(s, 0) == 0
  }

  /** The summaries' operator count: `count('&') + count('|')`. */
  function Operators(s: string): nat
  {
    Count(s, '&') + Count(s, '|')
  }

  // ---------------------------------------------------------------------------
  // Patterns and their printing
  // ---------------------------------------------------------------------------

  function OpChar(op: Op): char
  {
    match op
    case And => '&'
    case Or => '|'
  }

  /** How many token picks a pattern consumes. */
  function Holes(p: Pattern): nat
  {
    match p
    case Hole(i) => i + 1
    case Join(_, l, r) => if Holes(l) < Holes(r) then Holes(r) else Holes(l)
    case Group(q) => Holes(q)
  }

  /** How many operators the printed pattern has. */
  function OpCount(p: Pattern): nat
  {
    match p
    case Hole(_) => 0
    case Join(_, l, r) => OpCount(l) + 1 + OpCount(r)
    case Group(q) => OpCount(q)
  }

  /** How many parenthesised groups the printed pattern has. */
  function Groups(p: Pattern): nat
  {
    match p
    case Hole(_) => 0
    case Join(_, l, r) => Groups(l) + Groups(r)
    case Group(q) => 1 + Groups(q)
  }

  function Token(raw: nat): (t: string)
    ensures t in Tokens
  {
    ChoiceIn(raw, Tokens);
    Choice(raw, Tokens)
  }

  lemma TokenShape(t: string)
    requires t in Tokens
    ensures |t| == 3 && forall i :: 0 <= i < 3 ==> 'A' <= t[i] <= 'Z'
  {
  }

  /** The f-string: hole i takes the token of pick i. */
  function Render(p: Pattern, slots: seq<nat>): string
    requires Holes(p) <= |slots|
  {
    match p
    case Hole(i) => Token(slots[i])
    case Join(op, l, r) => Render(l, slots) + [OpChar(op)] + Render(r, slots)
    case Group(q) => "(" + Render(q, slots) + ")"
  }

  // ---------------------------------------------------------------------------
  // Printing keeps the shape
  // ---------------------------------------------------------------------------

  /** A word of capital letters has no parenthesis, so it leaves the depth alone. */
  lemma {:induction false} ScanSkipsWord(w: string, rest: string, depth: nat)
    requires forall i :: 0 <= i < |w| ==> 'A' <= w[i] <= 'Z'
    ensures Scan(w + rest, depth) == Scan(rest, depth)
  {
    if w != [] {
      var s := w + rest;
      assert s[0] == w[0] && s[0] != '(' && s[0] != ')';
      assert s[1..] == w[1..] + rest;
      ScanSkipsWord(w[1..], rest, depth);
    } else {
      assert w + rest == rest;
    }
  }

  /** A printed pattern closes every group it opens, whatever follows it. */
  lemma {:induction false} RenderScan(p: Pattern, slots: seq<nat>, rest: string, depth: nat)
    requires Holes(p) <= |slots|
    ensures Scan(Render(p, slots) + rest, depth) == Scan(rest, depth)
  {
    match p
    case Hole(i) =>
      TokenShape(Token(slots[i]));
      ScanSkipsWord(Token(slots[i]), rest, depth);
    case Join(op, l, r) =>
      var a, b := Render(l, slots), Render(r, slots);
      assert Render(p, slots) + rest == a + ([OpChar(op)] + (b + rest));
      RenderScan(l, slots, [OpChar(op)] + (b + rest), depth);
      assert ([OpChar(op)] + (b + rest))[1..] == b + rest;
      RenderScan(r, slots, rest, depth);
    case Group(q) =>
      var a := Render(q, slots);
      var s := Render(p, slots) + rest;
      assert s == "(" + (a + (")" + rest));
      assert s[1..] == a + (")" + rest);
      RenderScan(q, slots, ")" + rest, depth + 1);
      assert (")" + rest)[1..] == rest;
  }

  /** Printing a pattern yields exactly its operators and groups; tokens add no symbol. */
  lemma {:induction false} RenderCounts(p: Pattern, slots: seq<nat>)
    requires Holes(p) <= |slots|
    ensures Operators(Render(p, slots)) == OpCount(p)
    ensures Count(Render(p, slots), '(') == Groups(p)
  {
    match p
    case Hole(i) =>
      var t := Token(slots[i]);
      TokenShape(t);
      CountAbsent(t, '&');
      CountAbsent(t, '|');
      CountAbsent(t, '(');
    case Join(op, l, r) =>
      var a, o, b := Render(l, slots), [OpChar(op)], Render(r, slots);
      CountAppend(a, o, '&');
      CountAppend(a + o, b, '&');
      CountAppend(a, o, '|');
      CountAppend(a + o, b, '|');
      CountAppend(a, o, '(');
      CountAppend(a + o, b, '(');
      RenderCounts(l, slots);
      RenderCounts(r, slots);
    case Group(q) =>
      var a := Render(q, slots);
      CountAppend("(", a, '&');
      CountAppend("(" + a, ")", '&');
      CountAppend("(", a, '|');
      CountAppend("(" + a, ")", '|');
      CountAppend("(", a, '(');
      CountAppend("(" + a, ")", '(');
      RenderCounts(q, slots);
  }

  /** A symbol in front of a token string gives a token string. */
  lemma SymbolStep(a: string, b: string)
    requires a != [] && a[0] in Symbols && IsTokenString(a[1..] + b)
    ensures IsTokenString(a + b)
  {
    assert (a + b)[0] == a[0];
    assert (a + b)[1..] == a[1..] + b;
  }

  /** A token in front of a token string gives a token string. */
  lemma TokenStep(a: string, b: string)
    requires StartsWithToken(a) && IsTokenString(a[3..] + b)
    ensures IsTokenString(a + b)
  {
    assert (a + b)[..3] == a[..3];
    assert (a + b)[3..] == a[3..] + b;
  }

  lemma {:induction false} TokenStringAppend(a: string, b: string)
    requires IsTokenString(a) && IsTokenString(b)
    ensures IsTokenString(a + b)
    decreases |a|
  {
    if a == [] {
      assert a + b == b;
    } else if a[0] in Symbols && IsTokenString(a[1..]) {
      TokenStringAppend(a[1..], b);
      SymbolStep(a, b);
    } else {
      TokenStringAppend(a[3..], b);
      TokenStep(a, b);
    }
  }

  /** A printed pattern is made of whole tokens and symbols. */
  lemma {:induction false} RenderIsTokenString(p: Pattern, slots: seq<nat>)
    requires Holes(p) <= |slots|
    ensures IsTokenString(Render(p, slots))
  {
    match p
    case Hole(i) =>
      var t := Token(slots[i]);
      TokenShape(t);
      assert t[..3] == t && t[3..] == [];
      assert StartsWithToken(t);
    case Join(op, l, r) =>
      RenderIsTokenString(l, slots);
      RenderIsTokenString(r, slots);
      var o := [OpChar(op)];
      assert o[0] in Symbols && o[1..] == [];
      TokenStringAppend(Render(l, slots), o);
      TokenStringAppend(Render(l, slots) + o, Render(r, slots));
    case Group(q) =>
      RenderIsTokenString(q, slots);
      assert "("[1..] == [] && ")"[1..] == [];
      TokenStringAppend("(", Render(q, slots));
      TokenStringAppend("(" + Render(q, slots), ")");
  }

  /** What the summaries read off a printed pattern. */
  lemma RenderFacts(p: Pattern, slots: seq<nat>)
    requires Holes(p) <= |slots|
    ensures IsTokenString(Render(p, slots)) && Balanced(Render(p, slots))
    ensures Operators(Render(p, slots)) == OpCount(p)
    ensures Count(Render(p, slots), '(') == Groups(p)
  {
    RenderIsTokenString(p, slots);
    RenderScan(p, slots, [], 0);
    assert Render(p, slots) + [] == Render(p, slots);
    RenderCounts(p, slots);
  }

  // ---------------------------------------------------------------------------
  // The shapes of the source's patterns
  // ---------------------------------------------------------------------------

  lemma SimplePatternHoles(k: nat)
    requires k < |SimplePatterns|
    ensures Holes(SimplePatterns[k]) <= 2
  {
    SimplePatternShape(k);
  }

  lemma MediumPatternHoles(k: nat)
    requires k < |MediumPatterns|
    ensures Holes(MediumPatterns[k]) <= 3
  {
    MediumPatternShape(k);
  }

  lemma ComplexPatternHoles(k: nat)
    requires k < |ComplexPatterns|
    ensures Holes(ComplexPatterns[k]) <= 6
  {
    ComplexPatternShape(k);
  }

  lemma SimplePatternShape(k: nat)
    requires k < |SimplePatterns|
    ensures var p := SimplePatterns[k];
      Holes(p) <= 2 && OpCount(p) <= 1 && Groups(p) == 0
  {
  }

  lemma MediumPatternShape(k: nat)
    requires k < |MediumPatterns|
    ensures var p := MediumPatterns[k];
      Holes(p) == 3 && OpCount(p) == 2 && Groups(p) <= 1
  {
  }

  lemma ComplexPatternShape(k: nat)
    requires k < |ComplexPatterns|
    ensures var p := ComplexPatterns[k];
      Holes(p) <= 6 && 4 <= OpCount(p) <= 5 && 1 <= Groups(p) <= 2
  {
  }

  // ---------------------------------------------------------------------------
  // The generators
  // ---------------------------------------------------------------------------

  /** `generate_simple_tokens`: one token, or two joined by one operator. */
  function GenerateSimpleTokens(pattern: nat, slots: seq<nat>): string
    requires |slots| >= 2
  {
    var k := pattern % |SimplePatterns|;
    SimplePatternHoles(k);
    Render(SimplePatterns[k], slots)
  }

  /** `generate_medium_tokens`: the favoured literal, or one of five three-token patterns. */
  function GenerateMediumTokens(favoured: bool, pattern: nat, slots: seq<nat>): string
    requires |slots| >= 3
  {
    if favoured then Favoured
    else
      var k := pattern % |MediumPatterns|;
      MediumPatternHoles(k);
      Render(MediumPatterns[k], slots)
  }

  /** `generate_complex_tokens`: one of five patterns of five or six tokens. */
  function GenerateComplexTokens(pattern: nat, slots: seq<nat>): string
    requires |slots| >= 6
  {
    var k := pattern % |ComplexPatterns|;
    ComplexPatternHoles(k);
    Render(ComplexPatterns[k], slots)
  }

  /** A simple expression: one token, or two joined by one operator, and no group. */
  lemma SimpleTokensFacts(pattern: nat, slots: seq<nat>)
    requires |slots| >= 2
    ensures var e := GenerateSimpleTokens(pattern, slots);
      && IsTokenString(e) && Balanced(e)
      && Operators(e) <= 1 && Count(e, '(') == 0
  {
    var k := pattern % |SimplePatterns|;
    SimplePatternShape(k);
    RenderFacts(SimplePatterns[k], slots);
  }

  /** A medium expression: three tokens, two operators and at most one group. */
  lemma MediumTokensFacts(favoured: bool, pattern: nat, slots: seq<nat>)
    requires |slots| >= 3
    ensures var e := GenerateMediumTokens(favoured, pattern, slots);
      && IsTokenString(e) && Balanced(e)
      && Operators(e) == 2 && Count(e, '(') <= 1
  {
    if favoured {
      FavouredIsThreeWayAnd();
      MediumPatternShape(0);
      RenderFacts(MediumPatterns[0], [0, 1, 2]);
    } else {
      var k := pattern % |MediumPatterns|;
      MediumPatternShape(k);
      RenderFacts(MediumPatterns[k], slots);
    }
  }

  /** A complex expression: four or five operators and one or two groups. */
  lemma ComplexTokensFacts(pattern: nat, slots: seq<nat>)
    requires |slots| >= 6
    ensures var e := GenerateComplexTokens(pattern, slots);
      && IsTokenString(e) && Balanced(e)
      && 4 <= Operators(e) <= 5 && 1 <= Count(e, '(') <= 2
  {
    var k := pattern % |ComplexPatterns|;
    ComplexPatternShape(k);
    RenderFacts(ComplexPatterns[k], slots);
  }

  /** The tier drawn by `random.choices(['simple', 'medium', 'complex'], ...)`. */
  function TierOf(p: TokenPicks): Tier
  {
    Choice(p.tier, [Simple, Medium, Complex])
  }

  /** `generate_token_expression`: the generator of the drawn tier. */
  function GenerateTokenExpression(p: TokenPicks): string
    requires |p.slots| >= 6
  {
    match TierOf(p)
    case Simple => GenerateSimpleTokens(p.pattern, p.slots)
    case Medium => GenerateMediumTokens(p.favoured, p.pattern, p.slots)
    case Complex => GenerateComplexTokens(p.pattern, p.slots)
  }

  /**
   * Every outcome of `generate_token_expression` is a balanced token
   * string, and the summaries' classifier recovers the tier it was drawn
   * from.
   */
  lemma TokenExpressionFacts(p: TokenPicks)
    requires |p.slots| >= 6
    ensures var e := GenerateTokenExpression(p);
      && IsTokenString(e) && Balanced(e)
      && Classify(e) == TierOf(p)
  {
    match TierOf(p)
    case Simple => SimpleTokensFacts(p.pattern, p.slots);
    case Medium => MediumTokensFacts(p.favoured, p.pattern, p.slots);
    case Complex => ComplexTokensFacts(p.pattern, p.slots);
  }

  /** The favoured literal is the three-way AND of the first three tokens. */
  lemma FavouredIsThreeWayAnd()
    ensures Favoured == Render(MediumPatterns[0], [0, 1, 2])
  {
    assert Token(0) == "AAA" && Token(1) == "BBB" && Token(2) == "CCC";
  }

  // ---------------------------------------------------------------------------
  // The summaries' classifier
  // ---------------------------------------------------------------------------

  /** The operator-count estimate of `get_mpd_data_summary` and `get_test_scores_summary`. */
  function Classify(e: string): (t: Tier)
    ensures t == Simple <==> Operators(e) <= 1 && Count(e, '(') == 0
    ensures t == Complex <==> Operators(e) > 3 || Count(e, '(') > 2
  {
    var operators := Operators(e);
    var parens := Count(e, '(');
    if operators <= 1 && parens == 0 then Simple
    else if operators <= 3 && parens <= 2 then Medium
    else Complex
  }
}
