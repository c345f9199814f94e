/**
 * The token-complexity tally shared by `get_mpd_data_summary` and
 * `get_test_scores_summary`: each expression of the TOKENS column is counted
 * under the tier the operator-count estimate gives it, and the favoured
 * expression is counted on the side. Printing and percentages are not
 * modelled.
 */
module Summary {
  import opened Text
  import opened TokenExpr

  /** The `token_complexity` dictionary and `aaa_bbb_ccc_count`. */
  datatype ComplexityCounts = ComplexityCounts(simple: nat, medium: nat, complex: nat, favoured: nat)

  /** How many of the expressions the estimate puts in `tier`. */
  function CountTier(tokens: seq<string>, tier: Tier): nat
    decreases |tokens|
  {
    if tokens == [] then 0
    else CountTier(tokens[..|tokens| - 1], tier) + (if Classify(tokens[|tokens| - 1]) == tier then 1 else 0)
  }

  /** How many of the expressions are exactly the favoured one. */
  function CountFavoured(tokens: seq<string>): nat
    decreases |tokens|
  {
    if tokens == [] then 0
    else CountFavoured(tokens[..|tokens| - 1]) + (if tokens[|tokens| - 1] == Favoured then 1 else 0)
  }

  /** The counts after the first i expressions. */
  ghost predicate Counted(counts: ComplexityCounts, tokens: seq<string>, i: nat)
    requires i <= |tokens|
  {
    && counts.simple == CountTier(tokens[..i], Simple)
    && counts.medium == CountTier(tokens[..i], Medium)
    && counts.complex == CountTier(tokens[..i], Complex)
    && counts.favoured == CountFavoured(tokens[..i])
  }

  /** Counting one more expression: its tier and, if it is the favoured one, the favoured count go up by one. */
  lemma CountedStep(previous: ComplexityCounts, counts: ComplexityCounts, tokens: seq<string>, i: nat)
    requires i < |tokens| && Counted(previous, tokens, i)
    requires counts.simple == previous.simple + (if Classify(tokens[i]) == Simple then 1 else 0)
    requires counts.medium == previous.medium + (if Classify(tokens[i]) == Medium then 1 else 0)
    requires counts.complex == previous.complex + (if Classify(tokens[i]) == Complex then 1 else 0)
    requires counts.favoured == previous.favoured + (if tokens[i] == Favoured then 1 else 0)
    ensures Counted(counts, tokens, i + 1)
  {
    assert tokens[..i + 1][..i] == tokens[..i];
  }

  /** The tally of a whole column. */
  function Tally(tokens: seq<string>): ComplexityCounts
  {
    ComplexityCounts(CountTier(tokens, Simple), CountTier(tokens, Medium), CountTier(tokens, Complex), CountFavoured(tokens))
  }

  /**
   * The `for record in data` counting loop, run over the TOKENS column. The
   * result is exactly `Tally`.
   */
  method TokenComplexity(tokens: seq<string>) returns (counts: ComplexityCounts)
    ensures counts == Tally(tokens)
  {
    counts := ComplexityCounts(0, 0, 0, 0);
    for i := 0 to |tokens|
      invariant Counted(counts, tokens, i)
    {
      var e := tokens[i];
      ghost var previous := counts;
      if e == Favoured {
        counts := counts.(favoured := counts.favoured + 1);
      }
      match Classify(e) {
        case Simple => counts := counts.(simple := counts.simple + 1);
        case Medium => counts := counts.(medium := counts.medium + 1);
        case Complex => counts := counts.(complex := counts.complex + 1);
      }
      CountedStep(previous, counts, tokens, i);
    }
    assert tokens[..|tokens|] == tokens;
  }

  /** Every expression is counted under exactly one tier. */
  lemma {:induction false} TallyPartitions(tokens: seq<string>)
    ensures var c := Tally(tokens);
      c.simple + c.medium + c.complex == |tokens|
    decreases |tokens|
  {
    if tokens != [] {
      TallyPartitions(tokens[..|tokens| - 1]);
    }
  }

  /** The favoured expression, two ANDs and no parenthesis, is counted as medium. */
  lemma FavouredIsMedium()
    ensures Classify(Favoured) == Medium
  {
    MediumTokensFacts(true, 0, [0, 0, 0]);
  }

  /** So the favoured count never exceeds the medium count. */
  lemma {:induction false} FavouredWithinMedium(tokens: seq<string>)
    ensures CountFavoured(tokens) <= CountTier(tokens, Medium)
    decreases |tokens|
  {
    if tokens != [] {
      FavouredIsMedium();
      FavouredWithinMedium(tokens[..|tokens| - 1]);
    }
  }

  /** How many of the draws chose `tier`. */
  function CountDrawnTier(picks: seq<TokenPicks>, tier: Tier): nat
    decreases |picks|
  {
    if picks == [] then 0
    else CountDrawnTier(picks[..|picks| - 1], tier) + (if TierOf(picks[|picks| - 1]) == tier then 1 else 0)
  }

  /** The expressions generated from a list of draws. */
  function Generated(picks: seq<TokenPicks>): seq<string>
    requires forall i :: 0 <= i < |picks| ==> |picks[i].slots| >= 6
  {
    seq(|picks|, i requires 0 <= i < |picks| => GenerateTokenExpression(picks[i]))
  }

  /**
   * On generated expressions the estimate is exact: each tier is counted as
   * often as it was drawn.
   */
  lemma {:induction false} TallyOfGenerated(picks: seq<TokenPicks>, tier: Tier)
    requires forall i :: 0 <= i < |picks| ==> |picks[i].slots| >= 6
    ensures CountTier(Generated(picks), tier) == CountDrawnTier(picks, tier)
    decreases |picks|
  {
    if picks != [] {
      var init := picks[..|picks| - 1];
      TallyOfGenerated(init, tier);
      var tokens := Generated(picks);
      assert tokens[..|tokens| - 1] == Generated(init);
      TokenExpressionFacts(picks[|picks| - 1]);
    }
  }
}
