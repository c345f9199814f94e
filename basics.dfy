/**
 * Shared building blocks of the generator model.
 *
 * The generator draws every value with Python's `random` module. Here each
 * draw is an explicit raw pick (a `nat`) supplied by the caller, so that the
 * properties proved below hold for every outcome of the random source, not
 * only for likely ones. The probability weights of the source are not
 * modelled; only which outcomes are possible.
 */
module Basics {

  datatype Option<T> = None | Some(value: T)

  /** `random.randint(lo, hi)`: a value in the closed range [lo, hi]. */
  function RandInt(raw: nat, lo: int, hi: int): (r: int)
    requires lo <= hi
    ensures lo <= r <= hi
  {
    lo + raw % (hi - lo + 1)
  }

  /** Every value of the range is the outcome of some pick. */
  lemma RandIntReaches(lo: int, hi: int, v: int)
    requires lo <= v <= hi
    ensures RandInt(v - lo, lo, hi) == v
  {
  }

  /** `random.choice(xs)` on a non-empty list. */
  function Choice<T>(raw: nat, xs: seq<T>): T
    requires |xs| > 0
  {
    xs[raw % |xs|]
  }

  /** The choice is an entry of the list. */
  lemma ChoiceIn<T>(raw: nat, xs: seq<T>)
    requires |xs| > 0
    ensures Choice(raw, xs) in xs
  {
  }

  /** Python's `sum` over a list of integers. */
  function Sum(s: seq<int>): int
  {
    if s == [] then 0 else s[0] + Sum(s[1..])
  }

  lemma {:induction false} SumAppend(s: seq<int>, t: seq<int>)
    ensures Sum(s + t) == Sum(s) + Sum(t)
  {
    if s == [] {
      assert s + t == t;
    } else {
      assert (s + t)[1..] == s[1..] + t;
      SumAppend(s[1..], t);
    }
  }

  /** A list of positive entries sums to at least its length. */
  lemma {:induction false} SumAtLeastLength(s: seq<int>)
    requires forall i :: 0 <= i < |s| ==> s[i] >= 1
    ensures Sum(s) >= |s|
  {
    if s != [] {
      SumAtLeastLength(s[1..]);
    }
  }

  /** Moving one element across a concatenation. */
  lemma AppendStep<T>(done: seq<T>, x: T, rest: seq<T>)
    ensures done + ([x] + rest) == (done + [x]) + rest
  {
  }

  /** The concatenation of a list of blocks, block after block. */
  function Flatten<T>(blocks: seq<seq<T>>): seq<T>
    decreases |blocks|
  {
    if blocks == [] then [] else blocks[0] + Flatten(blocks[1..])
  }

  /** Where block p starts in the concatenation: the total length of the blocks before it. */
  function Start<T>(blocks: seq<seq<T>>, p: nat): nat
    requires p <= |blocks|
    decreases p
  {
    if p == 0 then 0 else |blocks[0]| + Start(blocks[1..], p - 1)
  }

  /** Element j of block p is element `Start(blocks, p) + j` of the concatenation. */
  lemma {:induction false} FlattenAt<T>(blocks: seq<seq<T>>, p: nat, j: nat)
    requires p < |blocks| && j < |blocks[p]|
    ensures Start(blocks, p) + j < |Flatten(blocks)|
    ensures Flatten(blocks)[Start(blocks, p) + j] == blocks[p][j]
    decreases p
  {
    var all := Flatten(blocks);
    assert all == blocks[0] + Flatten(blocks[1..]);
    if p > 0 {
      FlattenAt(blocks[1..], p - 1, j);
      assert blocks[1..][p - 1] == blocks[p];
    }
  }

  /** Each block ends inside the concatenation. */
  lemma {:induction false} StartBound<T>(blocks: seq<seq<T>>, p: nat)
    requires p < |blocks|
    ensures Start(blocks, p) + |blocks[p]| <= |Flatten(blocks)|
    decreases p
  {
    assert Flatten(blocks) == blocks[0] + Flatten(blocks[1..]);
    if p > 0 {
      StartBound(blocks[1..], p - 1);
      assert blocks[1..][p - 1] == blocks[p];
    }
  }

  /** Every position of the concatenation lies in some block. */
  lemma {:induction false} FlattenLocate<T>(blocks: seq<seq<T>>, i: nat)
    requires i < |Flatten(blocks)|
    ensures exists p :: 0 <= p < |blocks| && Start(blocks, p) <= i < Start(blocks, p) + |blocks[p]|
    decreases |blocks|
  {
    var all := Flatten(blocks);
    assert all == blocks[0] + Flatten(blocks[1..]);
    if i < |blocks[0]| {
      assert Start(blocks, 0) == 0;
    } else {
      FlattenLocate(blocks[1..], i - |blocks[0]|);
      var p :| 0 <= p < |blocks[1..]| && Start(blocks[1..], p) <= i - |blocks[0]| < Start(blocks[1..], p) + |blocks[1..][p]|;
      assert blocks[1..][p] == blocks[p + 1];
      assert Start(blocks, p + 1) == |blocks[0]| + Start(blocks[1..], p);
    }
  }
}
