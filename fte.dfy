/**
 * `generate_fte_splits`: share one full-time equivalent among a person's
 * roles in steps of 0.1. FTE is counted in integer tenths throughout, so
 * "sums to 1.0" is "sums to 10"; the division by 10.0 that turns tenths
 * into the stored float is not modelled.
 */
module Fte {
  import opened Basics

  /** One full-time equivalent, in tenths. */
  const Whole: int := 10

  /**
   * The shares the loop hands out when `roles` roles still wait for their
   * share and `remaining` tenths are left: each role but the last draws from
   * [1, remaining - (roles still waiting after it)], clamped up to 1, and the
   * last role takes what is left.
   */
  function Shares(remaining: int, roles: nat, picks: seq<nat>): (r: seq<int>)
    requires roles >= 1 && |picks| >= roles - 1
    ensures |r| == roles
    decreases roles
  {
    if roles == 1 then [remaining]
    else
      var tenths := Draw(remaining, roles, picks[0]);
      [tenths] + Shares(remaining - tenths, roles - 1, picks[1..])
  }

  /**
   * The share drawn for the next role when `roles` roles (this one
   * included) still wait and `remaining` tenths are left.
   */
  function Draw(remaining: int, roles: nat, raw: nat): (t: int)
    ensures 1 <= t
    ensures remaining - roles + 1 >= 1 ==> t <= remaining - roles + 1
  {
    var maxTenths := remaining - (roles - 1);
    RandInt(raw, 1, if maxTenths < 1 then 1 else maxTenths)
  }

  /** The shares always add up to what was left, whether or not the clamp fired. */
  lemma {:induction false} SharesSum(remaining: int, roles: nat, picks: seq<nat>)
    requires roles >= 1 && |picks| >= roles - 1
    ensures Sum(Shares(remaining, roles, picks)) == remaining
    decreases roles
  {
    if roles > 1 {
      var s := Shares(remaining, roles, picks);
      SharesSum(remaining - s[0], roles - 1, picks[1..]);
      assert s[1..] == Shares(remaining - s[0], roles - 1, picks[1..]);
    }
  }

  /**
   * While at least one tenth per waiting role is left, the clamp never fires
   * and every share lies in [1, remaining - roles + 1].
   */
  lemma {:induction false} SharesBounds(remaining: int, roles: nat, picks: seq<nat>)
    requires roles >= 1 && |picks| >= roles - 1
    requires remaining >= roles
    ensures forall i :: 0 <= i < roles ==> 1 <= Shares(remaining, roles, picks)[i] <= remaining - roles + 1
    decreases roles
  {
    if roles > 1 {
      var s := Shares(remaining, roles, picks);
      assert 1 <= s[0] <= remaining - (roles - 1);
      SharesBounds(remaining - s[0], roles - 1, picks[1..]);
      assert s[1..] == Shares(remaining - s[0], roles - 1, picks[1..]);
      forall i | 1 <= i < roles
        ensures 1 <= s[i] <= remaining - roles + 1
      {
        assert s[i] == s[1..][i - 1];
      }
    }
  }

  /** The shares handed out so far, followed by those still to come, are all shares. */
  ghost predicate HandedOut(done: seq<int>, remaining: int, n: nat, i: nat, picks: seq<nat>, all: seq<int>)
    requires i + 1 <= n && |picks| >= n - 1
  {
    done + Shares(remaining, n - i, picks[i..]) == all
  }

  /**
   * One step of the loop, at role i of n: the share drawn is appended and
   * the roles after it share what is left.
   */
  lemma SharesAdvance(done: seq<int>, remaining: int, tenths: int, newDone: seq<int>, newRemaining: int,
                      n: nat, i: nat, picks: seq<nat>, all: seq<int>)
    requires i + 2 <= n && |picks| >= n - 1
    requires HandedOut(done, remaining, n, i, picks, all)
    requires tenths == Draw(remaining, n - i, picks[i])
    requires newDone == done + [tenths] && newRemaining == remaining - tenths
    ensures HandedOut(newDone, newRemaining, n, i + 1, picks, all)
  {
    var rest := picks[i..];
    assert rest[0] == picks[i] && rest[1..] == picks[i + 1..];
    AppendStep(done, tenths, Shares(remaining - tenths, n - (i + 1), picks[i + 1..]));
  }

  /** Shares of one whole FTE add up to it; with at most ten roles each is one to ten tenths. */
  lemma SharesOfWhole(roles: nat, picks: seq<nat>)
    requires roles >= 1 && |picks| >= roles - 1
    ensures Sum(Shares(Whole, roles, picks)) == Whole
    ensures roles <= Whole ==> forall i :: 0 <= i < roles ==> 1 <= Shares(Whole, roles, picks)[i] <= Whole
  {
    SharesSum(Whole, roles, picks);
    if roles <= Whole {
      SharesBounds(Whole, roles, picks);
    }
  }

  /** A valid split of one FTE among n roles: n positive shares summing to ten tenths. */
  ghost predicate ValidSplit(s: seq<int>, n: nat)
  {
    |s| == n && Sum(s) == Whole && forall i :: 0 <= i < |s| ==> 1 <= s[i] <= Whole
  }

  /**
   * What `generate_fte_splits(numRoles)` returns, in tenths, for the given
   * draws: one share per role, adding up to one FTE, and a valid split
   * whenever there are at most ten roles.
   */
  function FteSplits(numRoles: nat, picks: seq<nat>): (r: seq<int>)
    requires numRoles >= 1 && |picks| >= numRoles - 1
    ensures |r| == numRoles && Sum(r) == Whole
    ensures numRoles <= Whole ==> ValidSplit(r, numRoles)
  {
    if numRoles == 1 then [Whole]
    else
      SharesOfWhole(numRoles, picks);
      Shares(Whole, numRoles, picks)
  }

  /** The draws that make `Shares` hand out exactly `s`: each share minus one. */
  function PicksFor(s: seq<int>): (picks: seq<nat>)
    requires forall i :: 0 <= i < |s| ==> s[i] >= 1
    ensures |picks| == |s|
  {
    seq(|s|, i requires 0 <= i < |s| => s[i] - 1)
  }

  /** Conversely, every positive split of `remaining` into `roles` shares is a possible outcome. */
  lemma {:induction false} SharesReachAll(remaining: int, roles: nat, s: seq<int>)
    requires roles >= 1 && |s| == roles
    requires forall i :: 0 <= i < |s| ==> s[i] >= 1
    requires Sum(s) == remaining
    ensures Shares(remaining, roles, PicksFor(s)) == s
    decreases roles
  {
    if roles > 1 {
      var rest := s[1..];
      SumAtLeastLength(rest);
      assert Sum(s) == s[0] + Sum(rest);
      var picks := PicksFor(s);
      assert picks[0] == s[0] - 1;
      var maxTenths := remaining - (roles - 1);
      assert 1 <= s[0] <= maxTenths;
      RandIntReaches(1, maxTenths, s[0]);
      assert Draw(remaining, roles, picks[0]) == RandInt(picks[0], 1, maxTenths) == s[0];
      SharesReachAll(remaining - s[0], roles - 1, rest);
      assert picks[1..] == PicksFor(rest);
    }
  }

  /** Every valid split is one `generate_fte_splits` can return. */
  lemma FteSplitsReachAll(s: seq<int>, n: nat)
    requires n >= 1 && ValidSplit(s, n)
    ensures FteSplits(n, PicksFor(s)) == s
  {
    if n == 1 {
      assert Sum(s) == s[0] + Sum(s[1..]);
    } else {
      SharesReachAll(Whole, n, s);
    }
  }

  /**
   * `generate_fte_splits(num_roles)` with the loop of the source: it returns
   * exactly `FteSplits`, so it always has `numRoles` entries summing to ten
   * tenths, and for up to ten roles every entry lies in [1, 10]. For up to
   * ten roles at least one tenth per role is left at every step, so the
   * clamp `max_tenths < min_tenths` never fires then.
   */
  method GenerateFteSplits(numRoles: nat, picks: seq<nat>) returns (splits: seq<int>)
    requires numRoles >= 1 && |picks| >= numRoles - 1
    ensures splits == FteSplits(numRoles, picks)
  {
    if numRoles == 1 {
      splits := [Whole];
      return;
    }
    ghost var all := Shares(Whole, numRoles, picks);
    splits := [];
    var remaining := Whole;
    for i := 0 to numRoles - 1
      invariant |splits| == i
      invariant HandedOut(splits, remaining, numRoles, i, picks, all)
      invariant numRoles <= Whole ==> remaining >= numRoles - i
    {
      var minTenths := 1;
      var maxTenths := remaining - (numRoles - i - 1);
      assert numRoles <= Whole ==> maxTenths >= minTenths;
      if maxTenths < minTenths {
        maxTenths := minTenths;
      }
      var tenths := RandInt(picks[i], minTenths, maxTenths);
      assert numRoles <= Whole ==> remaining - tenths >= numRoles - (i + 1);
      assert tenths == Draw(remaining, numRoles - i, picks[i]);
      ghost var previous, previousRemaining := splits, remaining;
      splits := splits + [tenths];
      remaining := remaining - tenths;
      SharesAdvance(previous, previousRemaining, tenths, splits, remaining, numRoles, i, picks, all);
    }
    splits := splits + [remaining];
  }
}
