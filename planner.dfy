/**
 * The people-planning loop of `generate_mpd_dataset`: decide how many
 * role-records each synthetic person gets, so that the counts add up to the
 * requested number of rows. The 40/65/90 per cent thresholds are not
 * modelled; a draw names one of the four possible role counts.
 */
module Planner {
  import opened Basics

  /** The largest number of roles one person can draw. */
  const MaxRoles: int := 4

  /** One person's drawn role count, before the cut to the rows still missing. */
  function RoleDraw(raw: nat): (n: int)
    ensures 1 <= n <= MaxRoles
  {
    RandInt(raw, 1, MaxRoles)
  }

  /**
   * The role counts the loop appends while `missing` rows are still to be
   * planned: each person draws a count, cut down to `missing` when it would
   * overshoot.
   */
  function Plan(missing: int, picks: seq<nat>): (people: seq<int>)
    requires |picks| >= missing
    ensures |people| <= (if missing > 0 then missing else 0)
    decreases missing
  {
    if missing <= 0 then []
    else
      var drawn := RoleDraw(picks[0]);
      var n := if drawn > missing then missing else drawn;
      [n] + Plan(missing - n, picks[1..])
  }

  /** The plan covers exactly the requested rows and every person gets one to four roles. */
  lemma {:induction false} PlanCovers(missing: int, picks: seq<nat>)
    requires |picks| >= missing
    ensures var people := Plan(missing, picks);
      && Sum(people) == (if missing > 0 then missing else 0)
      && (forall k :: 0 <= k < |people| ==> 1 <= people[k] <= MaxRoles)
    decreases missing
  {
    if missing > 0 {
      var people := Plan(missing, picks);
      var n := people[0];
      var rest := Plan(missing - n, picks[1..]);
      PlanCovers(missing - n, picks[1..]);
      assert people == [n] + rest;
      assert people[1..] == rest;
    }
  }

  /**
   * Each person keeps the count drawn, except possibly the last one, whose
   * count may have been cut.
   */
  lemma {:induction false} PlanFollowsDraws(missing: int, picks: seq<nat>)
    requires |picks| >= missing
    ensures var people := Plan(missing, picks);
      && (forall k :: 0 <= k < |people| - 1 ==> people[k] == RoleDraw(picks[k]))
      && (|people| > 0 ==> people[|people| - 1] <= RoleDraw(picks[|people| - 1]))
    decreases missing
  {
    if missing > 0 {
      var people := Plan(missing, picks);
      var n := people[0];
      var rest := Plan(missing - n, picks[1..]);
      PlanFollowsDraws(missing - n, picks[1..]);
      assert people == [n] + rest;
      forall k | 1 <= k < |people|
        ensures people[k] == rest[k - 1] && picks[k] == picks[1..][k - 1]
      {
      }
    }
  }

  /**
   * Conversely, every list of one-to-four role counts adding up to the row
   * count is a possible plan: the draws that name each count produce it.
   */
  lemma {:induction false} PlanReachesAll(people: seq<int>, picks: seq<nat>)
    requires forall k :: 0 <= k < |people| ==> 1 <= people[k] <= MaxRoles
    requires |picks| >= Sum(people)
    requires forall k :: 0 <= k < |people| && k < |picks| ==> RoleDraw(picks[k]) == people[k]
    ensures Plan(Sum(people), picks) == people
  {
    SumAtLeastLength(people);
    if people != [] {
      var rest := people[1..];
      assert Sum(people) == people[0] + Sum(rest);
      SumAtLeastLength(rest);
      assert RoleDraw(picks[0]) == people[0];
      forall k | 0 <= k < |rest| && k < |picks[1..]|
        ensures RoleDraw(picks[1..][k]) == rest[k]
      {
        assert picks[1..][k] == picks[k + 1];
      }
      PlanReachesAll(rest, picks[1..]);
    }
  }

  /** One iteration of the loop: the next person is planned and the rest follow. */
  lemma PlanAdvance(done: seq<int>, missing: int, picks: seq<nat>, all: seq<int>)
    requires missing > 0 && |picks| >= missing
    requires done + Plan(missing, picks) == all
    ensures var drawn := RoleDraw(picks[0]);
      var n := if drawn > missing then missing else drawn;
      (done + [n]) + Plan(missing - n, picks[1..]) == all
  {
    var drawn := RoleDraw(picks[0]);
    var n := if drawn > missing then missing else drawn;
    AppendStep(done, n, Plan(missing - n, picks[1..]));
  }

  /**
   * The `while records_created < total_rows` loop. It ends because every
   * person adds at least one row. The source's `num_roles == 0` break can
   * never fire: when the count is cut, the loop guard leaves at least one
   * row missing, which the assertion below records. The result is exactly
   * `Plan`, so it covers the requested rows with one to four roles each.
   */
  method PlanPeople(totalRows: int, picks: seq<nat>) returns (people: seq<int>)
    requires |picks| >= totalRows
    ensures people == Plan(totalRows, picks)
  {
    ghost var all := Plan(totalRows, picks);
    people := [];
    var recordsCreated := 0;
    while recordsCreated < totalRows
      invariant |people| <= recordsCreated <= (if totalRows > 0 then totalRows else 0)
      invariant people + Plan(totalRows - recordsCreated, picks[|people|..]) == all
      decreases totalRows - recordsCreated
    {
      ghost var rest := picks[|people|..];
      assert rest[0] == picks[|people|] && rest[1..] == picks[|people| + 1..];
      var numRoles := RoleDraw(picks[|people|]);
      if recordsCreated + numRoles > totalRows {
        numRoles := totalRows - recordsCreated;
        assert numRoles != 0;
      }
      PlanAdvance(people, totalRows - recordsCreated, rest, all);
      people := people + [numRoles];
      recordsCreated := recordsCreated + numRoles;
    }
  }
}
