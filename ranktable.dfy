/**
 * The `dfp_to_rank` table of `generate_mpd_dataset`: every DOMAIN-FUNCTION
 * pair ("DFP") gets a CIMPL_RANK, numbered in the order of a nested loop
 * over domains (outer) and functions (inner). Ranks are strings, as in the
 * source.
 */
module RankTable {
  import opened Basics
  import opened Text
  import opened Vocabulary

  /** The DFP key: domain, a dash, function. */
  function Dfp(domain: string, jobFunction: string): (dfp: string)
    ensures |dfp| == |domain| + 1 + |jobFunction|
  {
    domain + "-" + jobFunction
  }

  /** The number of table entries: ten domains times ten functions. */
  const PairCount: nat := 100

  /**
   * What the table needs of its two vocabularies: ten entries each, no dash
   * in any entry, and no entry repeated.
   */
  ghost predicate TableVocabulary(domains: seq<string>, functions: seq<string>)
  {
    && |domains| == 10 && |functions| == 10
    && (forall i :: 0 <= i < |domains| ==> '-' !in domains[i])
    && (forall i :: 0 <= i < |functions| ==> '-' !in functions[i])
    && (forall i, j :: 0 <= i < j < |domains| ==> domains[i] != domains[j])
    && (forall i, j :: 0 <= i < j < |functions| ==> functions[i] != functions[j])
  }

  /** The generator's own domains and functions meet those needs. */
  lemma VocabularyFacts()
    ensures TableVocabulary(Domains, Functions)
  {
    NoDashInVocabulary();
    VocabularyDistinct();
  }

  lemma NoDashInVocabulary()
    ensures forall i :: 0 <= i < |Domains| ==> '-' !in Domains[i]
    ensures forall i :: 0 <= i < |Functions| ==> '-' !in Functions[i]
  {
  }

  lemma VocabularyDistinct()
    ensures forall i, j :: 0 <= i < j < |Domains| ==> Domains[i] != Domains[j]
    ensures forall i, j :: 0 <= i < j < |Functions| ==> Functions[i] != Functions[j]
  {
  }

  /** The rank written at step k of the nested loop: `str(rank_counter)`, the counter starting at 1. */
  function StepRank(k: nat): string
  {
    NatToString(k + 1)
  }

  /** The rank of the domain at index d and the function at index f. */
  function RankOf(d: nat, f: nat): string
    requires d < 10 && f < 10
  {
    StepRank(d * 10 + f)
  }

  /** Step 10 * d + f of the nested loop is domain d, function f. */
  lemma StepIndices(d: nat, f: nat)
    requires f < 10
    ensures (d * 10 + f) / 10 == d && (d * 10 + f) % 10 == f
  {
  }

  /** The key written at step k of the nested loop (k counts from 0). */
  function KeyAt(domains: seq<string>, functions: seq<string>, k: nat): string
    requires |domains| == 10 && |functions| == 10 && k < PairCount
  {
    Dfp(domains[k / 10], functions[k % 10])
  }

  /**
   * The DFP of a domain and a function determines both: splitting at the
   * first dash recovers the domain, the rest is the function.
   */
  lemma DfpInjective(domains: seq<string>, functions: seq<string>, d1: nat, f1: nat, d2: nat, f2: nat)
    requires TableVocabulary(domains, functions)
    requires d1 < 10 && d2 < 10 && f1 < 10 && f2 < 10
    requires Dfp(domains[d1], functions[f1]) == Dfp(domains[d2], functions[f2])
    ensures d1 == d2 && f1 == f2
  {
    SplitFirstJoin(domains[d1], '-', functions[f1]);
    SplitFirstJoin(domains[d2], '-', functions[f2]);
    assert domains[d1] + "-" + functions[f1] == domains[d1] + ['-'] + functions[f1];
    assert domains[d2] + "-" + functions[f2] == domains[d2] + ['-'] + functions[f2];
  }

  /** Different steps write different keys, so no entry is overwritten. */
  lemma KeyAtInjective(domains: seq<string>, functions: seq<string>, j: nat, k: nat)
    requires TableVocabulary(domains, functions)
    requires j < PairCount && k < PairCount && KeyAt(domains, functions, j) == KeyAt(domains, functions, k)
    ensures j == k
  {
    DfpInjective(domains, functions, j / 10, j % 10, k / 10, k % 10);
  }

  /**
   * What the table holds after the first n steps of a loop that writes the
   * key `keyOf(k)` with the value `valueOf(k)` at step k: those keys map to
   * their values, nothing else is a key, and there are n entries.
   */
  ghost predicate FilledUpTo(keyOf: nat -> string, valueOf: nat -> string, table: map<string, string>, n: nat)
  {
    && (forall k :: 0 <= k < n ==> keyOf(k) in table && table[keyOf(k)] == valueOf(k))
    && (forall key :: key in table ==> exists k :: 0 <= k < n && key == keyOf(k))
    && |table| == n
  }

  /** One step of the loop: a key not written before extends the table by one entry. */
  lemma InsertNextKey(keyOf: nat -> string, valueOf: nat -> string, table: map<string, string>, n: nat)
    requires FilledUpTo(keyOf, valueOf, table, n)
    requires forall k :: 0 <= k < n ==> keyOf(k) != keyOf(n)
    ensures FilledUpTo(keyOf, valueOf, table[keyOf(n) := valueOf(n)], n + 1)
  {
    assert keyOf(n) !in table;
    var next := table[keyOf(n) := valueOf(n)];
    forall other | other in next
      ensures exists k :: 0 <= k < n + 1 && other == keyOf(k)
    {
      if other != keyOf(n) {
        var k :| 0 <= k < n && other == keyOf(k);
      }
    }
  }

  /** The key written at each step of the nested loop, as a function of the step. */
  function KeyOrder(domains: seq<string>, functions: seq<string>): nat -> string
    requires |domains| == 10 && |functions| == 10
  {
    (k: nat) => if k < PairCount then KeyAt(domains, functions, k) else ""
  }

  /** Every DFP of a domain and a function maps to the rank of their indices. */
  ghost predicate RanksByIndex(domains: seq<string>, functions: seq<string>, table: map<string, string>)
    requires |domains| == 10 && |functions| == 10
  {
    forall d, f :: 0 <= d < 10 && 0 <= f < 10 ==>
      Dfp(domains[d], functions[f]) in table && table[Dfp(domains[d], functions[f])] == RankOf(d, f)
  }

  /** Every key is the DFP of some domain and some function. */
  ghost predicate OnlyDfpKeys(domains: seq<string>, functions: seq<string>, table: map<string, string>)
    requires |domains| == 10 && |functions| == 10
  {
    forall key :: key in table ==> exists d, f :: 0 <= d < 10 && 0 <= f < 10 && key == Dfp(domains[d], functions[f])
  }

  /** A completely filled table maps the DFP written at each step to the value written with it. */
  lemma FilledTableLookups(domains: seq<string>, functions: seq<string>, valueOf: nat -> string, table: map<string, string>)
    requires |domains| == 10 && |functions| == 10
    requires FilledUpTo(KeyOrder(domains, functions), valueOf, table, PairCount)
    ensures forall d, f :: 0 <= d < 10 && 0 <= f < 10 ==>
      Dfp(domains[d], functions[f]) in table && table[Dfp(domains[d], functions[f])] == valueOf(d * 10 + f)
  {
    forall d, f | 0 <= d < 10 && 0 <= f < 10
      ensures Dfp(domains[d], functions[f]) in table && table[Dfp(domains[d], functions[f])] == valueOf(d * 10 + f)
    {
      StepIndices(d, f);
      assert KeyOrder(domains, functions)(d * 10 + f) == Dfp(domains[d], functions[f]);
    }
  }

  /** A completely filled table maps every DFP to its rank. */
  lemma FilledTableRanks(domains: seq<string>, functions: seq<string>, table: map<string, string>)
    requires |domains| == 10 && |functions| == 10
    requires FilledUpTo(KeyOrder(domains, functions), StepRank, table, PairCount)
    ensures RanksByIndex(domains, functions, table)
  {
    FilledTableLookups(domains, functions, StepRank, table);
    forall d, f | 0 <= d < 10 && 0 <= f < 10
      ensures Dfp(domains[d], functions[f]) in table && table[Dfp(domains[d], functions[f])] == RankOf(d, f)
    {
      assert StepRank(d * 10 + f) == RankOf(d, f);
    }
  }

  /** A completely filled table holds nothing but DFPs. */
  lemma FilledTableKeys(domains: seq<string>, functions: seq<string>, table: map<string, string>)
    requires |domains| == 10 && |functions| == 10
    requires FilledUpTo(KeyOrder(domains, functions), StepRank, table, PairCount)
    ensures OnlyDfpKeys(domains, functions, table)
  {
    forall key | key in table
      ensures exists d, f :: 0 <= d < 10 && 0 <= f < 10 && key == Dfp(domains[d], functions[f])
    {
      var k :| 0 <= k < PairCount && key == KeyOrder(domains, functions)(k);
      assert key == Dfp(domains[k / 10], functions[k % 10]);
    }
  }

  /** The step-k key differs from every key written before it. */
  lemma NextKeyIsNew(domains: seq<string>, functions: seq<string>, n: nat)
    requires TableVocabulary(domains, functions) && n < PairCount
    ensures forall k :: 0 <= k < n ==> KeyOrder(domains, functions)(k) != KeyOrder(domains, functions)(n)
  {
    forall k | 0 <= k < n
      ensures KeyOrder(domains, functions)(k) != KeyOrder(domains, functions)(n)
    {
      if KeyOrder(domains, functions)(k) == KeyOrder(domains, functions)(n) {
        KeyAtInjective(domains, functions, k, n);
      }
    }
  }

  /** The key of step `d * 10 + f` is the DFP of domain d and function f. */
  lemma KeyAtStep(domains: seq<string>, functions: seq<string>, d: nat, f: nat)
    requires |domains| == 10 && |functions| == 10 && d < 10 && f < 10
    ensures KeyAt(domains, functions, d * 10 + f) == Dfp(domains[d], functions[f])
  {
    StepIndices(d, f);
  }

  /** One step of the nested loop: the key of step n is written with its rank. */
  lemma FillStep(domains: seq<string>, functions: seq<string>, table: map<string, string>, n: nat)
    requires TableVocabulary(domains, functions) && n < PairCount
    requires FilledUpTo(KeyOrder(domains, functions), StepRank, table, n)
    ensures FilledUpTo(KeyOrder(domains, functions), StepRank, table[KeyAt(domains, functions, n) := StepRank(n)], n + 1)
  {
    var keyOf := KeyOrder(domains, functions);
    assert keyOf(n) == KeyAt(domains, functions, n);
    NextKeyIsNew(domains, functions, n);
    InsertNextKey(keyOf, StepRank, table, n);
  }

  /**
   * The table filled by the nested `rank_counter` loop over the domains
   * (outer) and the functions (inner): the DFP of the domain at index d and
   * the function at index f maps to the rank `str(10 * d + f + 1)`, every
   * key is such a DFP, and there are 100 entries.
   */
  method BuildRankTable(domains: seq<string>, functions: seq<string>) returns (table: map<string, string>)
    requires TableVocabulary(domains, functions)
    ensures RanksByIndex(domains, functions, table)
    ensures OnlyDfpKeys(domains, functions, table)
    ensures |table| == PairCount
  {
    table := map[];
    var rankCounter := 1;
    for d := 0 to |domains|
      invariant rankCounter == d * 10 + 1
      invariant FilledUpTo(KeyOrder(domains, functions), StepRank, table, d * 10)
    {
      for f := 0 to |functions|
        invariant rankCounter == d * 10 + f + 1
        invariant FilledUpTo(KeyOrder(domains, functions), StepRank, table, d * 10 + f)
      {
        var dfp := Dfp(domains[d], functions[f]);
        KeyAtStep(domains, functions, d, f);
        FillStep(domains, functions, table, d * 10 + f);
        assert NatToString(rankCounter) == StepRank(d * 10 + f);
        table := table[dfp := NatToString(rankCounter)];
        rankCounter := rankCounter + 1;
      }
    }
    FilledTableRanks(domains, functions, table);
    FilledTableKeys(domains, functions, table);
  }

  /**
   * Two entries of the table get the same rank exactly when they are the
   * same (domain, function) pair: the 100 ranks are distinct.
   */
  lemma RankConsistent(d1: nat, f1: nat, d2: nat, f2: nat)
    requires d1 < 10 && d2 < 10 && f1 < 10 && f2 < 10
    ensures RankOf(d1, f1) == RankOf(d2, f2) <==> d1 == d2 && f1 == f2
  {
    var a, b := d1 * 10 + f1 + 1, d2 * 10 + f2 + 1;
    if NatToString(a) == NatToString(b) {
      NatToStringInjective(a, b);
    }
  }

  /** Every rank is the decimal form of a number from 1 to 100. */
  lemma RankRange(d: nat, f: nat)
    requires d < 10 && f < 10
    ensures exists r :: 1 <= r <= PairCount && RankOf(d, f) == NatToString(r)
  {
    var r := d * 10 + f + 1;
    assert 1 <= r <= PairCount && RankOf(d, f) == NatToString(r);
  }
}
