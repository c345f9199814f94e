/**
 * `generate_test_scores_dataset`: file the MPD records under a
 * `SID_SNAPSHOT` key, then emit test-score records, each for a key drawn
 * from the filed ones. The key is split back into SID and snapshot, and the
 * snapshot month is copied from the first MPD record filed under the key,
 * so every test record refers to an existing MPD person and snapshot.
 */
module TestScores {
  import opened Basics
  import opened Text
  import opened Vocabulary
  import opened TokenExpr
  import opened Mpd

  // ---------------------------------------------------------------------------
  // The lookup key
  // ---------------------------------------------------------------------------

  /** The `mpd_lookup` key: SID, an underscore, snapshot name. */
  function MakeKey(sid: string, snapshot: string): string
  {
    sid + "_" + snapshot
  }

  function RecordKey(r: MpdRecord): string
  {
    MakeKey(r.common.sid, r.common.snapshot)
  }

  /** `key.split('_', 1)` unpacked into `sid, snapshot`; `None` where Python would raise. */
  function SplitKey(key: string): Option<(string, string)>
  {
    SplitFirst(key, '_')
  }

  /** A SID without `_` makes the split undo the join. */
  lemma KeyRoundTrip(sid: string, snapshot: string)
    requires '_' !in sid
    ensures SplitKey(MakeKey(sid, snapshot)) == Some((sid, snapshot))
  {
    assert MakeKey(sid, snapshot) == sid + ['_'] + snapshot;
    SplitFirstJoin(sid, '_', snapshot);
  }

  /** Every key splits, whatever the SID holds: the joining `_` is always there. */
  lemma KeySplits(sid: string, snapshot: string)
    ensures SplitKey(MakeKey(sid, snapshot)).Some?
  {
    assert MakeKey(sid, snapshot)[|sid|] == '_';
    SplitFirstDefined(MakeKey(sid, snapshot), '_');
  }

  /** With SIDs free of `_`, different (SID, snapshot) pairs get different keys. */
  lemma KeyInjective(sid1: string, snapshot1: string, sid2: string, snapshot2: string)
    requires '_' !in sid1 && '_' !in sid2
    requires MakeKey(sid1, snapshot1) == MakeKey(sid2, snapshot2)
    ensures sid1 == sid2 && snapshot1 == snapshot2
  {
    KeyRoundTrip(sid1, snapshot1);
    KeyRoundTrip(sid2, snapshot2);
  }

  // ---------------------------------------------------------------------------
  // The lookup
  // ---------------------------------------------------------------------------

  /** The keys of a list of records. */
  function KeySet(rs: seq<MpdRecord>): set<string>
  {
    set i | 0 <= i < |rs| :: RecordKey(rs[i])
  }

  /** The records filed under `key`, in list order. */
  function Filed(rs: seq<MpdRecord>, key: string): seq<MpdRecord>
    decreases |rs|
  {
    if rs == [] then []
    else
      var last := rs[|rs| - 1];
      Filed(rs[..|rs| - 1], key) + (if RecordKey(last) == key then [last] else [])
  }

  /** `mpd_lookup`: every key of the list maps to the records filed under it. */
  function Lookup(rs: seq<MpdRecord>): map<string, seq<MpdRecord>>
  {
    map key | key in KeySet(rs) :: Filed(rs, key)
  }

  /** `list(mpd_lookup.keys())`: the keys in the order the dictionary first saw them. */
  function KeysInOrder(rs: seq<MpdRecord>): seq<string>
    decreases |rs|
  {
    if rs == [] then []
    else
      var keys := KeysInOrder(rs[..|rs| - 1]);
      var key := RecordKey(rs[|rs| - 1]);
      if key in keys then keys else keys + [key]
  }

  /** The keys of a list are those of all records but the last, and the last one's. */
  lemma KeySetLast(rs: seq<MpdRecord>)
    requires rs != []
    ensures KeySet(rs) == KeySet(rs[..|rs| - 1]) + {RecordKey(rs[|rs| - 1])}
  {
    var init := rs[..|rs| - 1];
    forall key | key in KeySet(rs)
      ensures key in KeySet(init) + {RecordKey(rs[|rs| - 1])}
    {
      var i :| 0 <= i < |rs| && key == RecordKey(rs[i]);
      if i < |rs| - 1 {
        assert rs[i] == init[i];
      }
    }
    forall key | key in KeySet(init)
      ensures key in KeySet(rs)
    {
      var i :| 0 <= i < |init| && key == RecordKey(init[i]);
      assert init[i] == rs[i];
    }
  }

  /** The key list names every key of the records once, and nothing else. */
  lemma {:induction false} KeysInOrderFacts(rs: seq<MpdRecord>)
    ensures var keys := KeysInOrder(rs);
      && (forall i, j :: 0 <= i < j < |keys| ==> keys[i] != keys[j])
      && (forall key :: key in keys <==> key in KeySet(rs))
    decreases |rs|
  {
    if rs != [] {
      KeysInOrderFacts(rs[..|rs| - 1]);
      KeySetLast(rs);
    }
  }

  /**
   * Only records with the key are filed under it, and something is filed
   * under a key exactly when some record has that key.
   */
  lemma {:induction false} FiledFacts(rs: seq<MpdRecord>, key: string)
    ensures forall r :: r in Filed(rs, key) ==> r in rs && RecordKey(r) == key
    ensures Filed(rs, key) != [] <==> key in KeySet(rs)
    decreases |rs|
  {
    if rs != [] {
      var init := rs[..|rs| - 1];
      FiledFacts(init, key);
      KeySetLast(rs);
      forall r | r in init
        ensures r in rs
      {
        var i :| 0 <= i < |init| && init[i] == r;
        assert rs[i] == r;
      }
    }
  }

  /** No record is lost: each is filed under its own key. */
  lemma {:induction false} FiledComplete(rs: seq<MpdRecord>, i: nat)
    requires i < |rs|
    ensures rs[i] in Filed(rs, RecordKey(rs[i]))
    decreases |rs|
  {
    var init := rs[..|rs| - 1];
    if i < |rs| - 1 {
      assert init[i] == rs[i];
      FiledComplete(init, i);
    }
  }

  /** The first record filed under a key is the first record of the list that has the key. */
  lemma {:induction false} FiledFirst(rs: seq<MpdRecord>, key: string)
    requires key in KeySet(rs)
    ensures Filed(rs, key) != []
    ensures exists j ::
      && 0 <= j < |rs| && rs[j] == Filed(rs, key)[0] && RecordKey(rs[j]) == key
      && forall k :: 0 <= k < j ==> RecordKey(rs[k]) != key
    decreases |rs|
  {
    FiledFacts(rs, key);
    var init := rs[..|rs| - 1];
    KeySetLast(rs);
    if key in KeySet(init) {
      FiledFirst(init, key);
      var j :| 0 <= j < |init| && init[j] == Filed(init, key)[0] && RecordKey(init[j]) == key
        && forall k :: 0 <= k < j ==> RecordKey(init[k]) != key;
      assert rs[j] == init[j];
      forall k | 0 <= k < j
        ensures RecordKey(rs[k]) != key
      {
        assert rs[k] == init[k];
      }
    } else {
      FiledFacts(init, key);
      var j := |rs| - 1;
      forall k | 0 <= k < j
        ensures RecordKey(rs[k]) != key
      {
        assert rs[k] == init[k];
      }
    }
  }

  /** Filing one more record: it is appended to the records already filed under its key. */
  lemma LookupAppend(rs: seq<MpdRecord>, r: MpdRecord)
    ensures Lookup(rs + [r]) == Lookup(rs)[RecordKey(r) := Filed(rs, RecordKey(r)) + [r]]
  {
    var key := RecordKey(r);
    var next := rs + [r];
    assert next[..|next| - 1] == rs;
    KeySetLast(next);
    var updated := Lookup(rs)[key := Filed(rs, key) + [r]];
    assert Lookup(next).Keys == updated.Keys;
    forall k | k in KeySet(next)
      ensures Lookup(next)[k] == updated[k]
    {
      assert Filed(next, k) == Filed(rs, k) + (if key == k then [r] else []);
    }
  }

  /** Nothing is filed under a key no record has. */
  lemma FiledNothing(rs: seq<MpdRecord>, key: string)
    requires key !in Lookup(rs)
    ensures Filed(rs, key) == []
  {
    FiledFacts(rs, key);
  }

  /** Filing one more record: its key joins the key list when it is new. */
  lemma KeysAppend(rs: seq<MpdRecord>, r: MpdRecord)
    ensures KeysInOrder(rs + [r]) == if RecordKey(r) in Lookup(rs) then KeysInOrder(rs) else KeysInOrder(rs) + [RecordKey(r)]
  {
    var next := rs + [r];
    assert next[..|next| - 1] == rs;
    KeysInOrderFacts(rs);
  }

  /**
   * The `for record in mpd_data` loop filling `mpd_lookup`, together with
   * the insertion order of its keys. The result is exactly `Lookup` and
   * `KeysInOrder`.
   */
  method BuildLookup(mpd: seq<MpdRecord>) returns (lookup: map<string, seq<MpdRecord>>, keys: seq<string>)
    ensures lookup == Lookup(mpd) && keys == KeysInOrder(mpd)
  {
    lookup, keys := map[], [];
    assert Lookup(mpd[..0]) == map[];
    for i := 0 to |mpd|
      invariant lookup == Lookup(mpd[..i]) && keys == KeysInOrder(mpd[..i])
    {
      assert mpd[..i + 1] == mpd[..i] + [mpd[i]];
      var record := mpd[i];
      var key := MakeKey(record.common.sid, record.common.snapshot);
      LookupAppend(mpd[..i], record);
      KeysAppend(mpd[..i], record);
      if key !in lookup {
        FiledNothing(mpd[..i], key);
        lookup := lookup[key := []];
        keys := keys + [key];
      }
      lookup := lookup[key := lookup[key] + [record]];
    }
    assert mpd[..|mpd|] == mpd;
  }

  // ---------------------------------------------------------------------------
  // Test groups
  // ---------------------------------------------------------------------------

  /** `determine_test_group`: by the better of the two scores. */
  function DetermineTestGroup(listenScore: int, readScore: int): (group: string)
    ensures group == "HIGH" <==> listenScore >= 3 || readScore >= 3
    ensures group == "MEDIUM" <==> (listenScore == 2 || readScore == 2) && listenScore < 3 && readScore < 3
    ensures group == "LOW" <==> listenScore < 2 && readScore < 2
  {
    var maxScore := if listenScore >= readScore then listenScore else readScore;
    if maxScore >= 3 then "HIGH" else if maxScore == 2 then "MEDIUM" else "LOW"
  }

  /** For scores from 1 to 5, the group is LOW exactly when both scores are 1. */
  lemma LowOnlyForOnes(listenScore: int, readScore: int)
    requires 1 <= listenScore <= 5 && 1 <= readScore <= 5
    ensures DetermineTestGroup(listenScore, readScore) == "LOW" <==> listenScore == 1 && readScore == 1
  {
  }

  /** The order of the groups: LOW below MEDIUM below HIGH. */
  function GroupLevel(group: string): nat
  {
    if group == "HIGH" then 2 else if group == "MEDIUM" then 1 else 0
  }

  /** A better score never puts a test into a lower group. */
  lemma GroupMonotone(listen1: int, read1: int, listen2: int, read2: int)
    requires listen1 <= listen2 && read1 <= read2
    ensures GroupLevel(DetermineTestGroup(listen1, read1)) <= GroupLevel(DetermineTestGroup(listen2, read2))
  {
  }

  // ---------------------------------------------------------------------------
  // Test-score records
  // ---------------------------------------------------------------------------

  /** One test-score record; scores are strings, as in the source. */
  datatype TestRecord = TestRecord(
    id: int,
    sid: string,
    language: string,
    listenScore: string,
    readScore: string,
    testGroup: string,
    snapshot: string,
    snapshotMonth: string,
    tokens: string)

  /** The raw draws behind one test record. */
  datatype TestPick = TestPick(key: nat, language: nat, listen: nat, read: nat, tokens: TokenPicks)

  /** Enough draws for `total` test records. */
  predicate TestPicksFit(total: nat, picks: seq<TestPick>)
  {
    |picks| >= total && forall i :: 0 <= i < |picks| ==> |picks[i].tokens.slots| >= 6
  }

  /** There is a key to draw, and every key is filed with at least one record and splits. */
  ghost predicate LookupFits(lookup: map<string, seq<MpdRecord>>, keys: seq<string>)
  {
    && |keys| > 0
    && forall i :: 0 <= i < |keys| ==> keys[i] in lookup && lookup[keys[i]] != [] && SplitKey(keys[i]).Some?
  }

  /** The lookup of non-empty MPD data fits. */
  lemma LookupFitsOf(mpd: seq<MpdRecord>)
    requires |mpd| > 0
    ensures LookupFits(Lookup(mpd), KeysInOrder(mpd))
  {
    var keys := KeysInOrder(mpd);
    KeysInOrderFacts(mpd);
    assert RecordKey(mpd[0]) in KeySet(mpd);
    forall i | 0 <= i < |keys|
      ensures keys[i] in Lookup(mpd) && Lookup(mpd)[keys[i]] != [] && SplitKey(keys[i]).Some?
    {
      FiledFacts(mpd, keys[i]);
      var j :| 0 <= j < |mpd| && keys[i] == RecordKey(mpd[j]);
      KeySplits(mpd[j].common.sid, mpd[j].common.snapshot);
    }
  }

  /**
   * One iteration of the test loop: draw a key, split it into SID and
   * snapshot, copy the snapshot month of the first record filed under the
   * key, draw two scores from 1 to 5 and their group, a language and a token
   * expression.
   */
  function MakeTestRecord(id: int, lookup: map<string, seq<MpdRecord>>, keys: seq<string>,
                          languages: seq<string>, p: TestPick): TestRecord
    requires LookupFits(lookup, keys) && |languages| > 0 && |p.tokens.slots| >= 6
  {
    var key := Choice(p.key, keys);
    var parts := SplitKey(key).value;
    var listenScore := RandInt(p.listen, 1, 5);
    var readScore := RandInt(p.read, 1, 5);
    TestRecord(
      id := id,
      sid := parts.0,
      language := Choice(p.language, languages),
      listenScore := NatToString(listenScore),
      readScore := NatToString(readScore),
      testGroup := DetermineTestGroup(listenScore, readScore),
      snapshot := parts.1,
      snapshotMonth := lookup[key][0].common.snapshotMonth,
      tokens := GenerateTokenExpression(p.tokens))
  }

  /** `generate_test_scores_dataset(mpd_data, total)` for the given draws. */
  function TestScores(mpd: seq<MpdRecord>, languages: seq<string>, total: nat, picks: seq<TestPick>): seq<TestRecord>
    requires |mpd| > 0 && |languages| > 0 && TestPicksFit(total, picks)
  {
    LookupFitsOf(mpd);
    seq(total, i requires 0 <= i < total => MakeTestRecord(i + 1, Lookup(mpd), KeysInOrder(mpd), languages, picks[i]))
  }

  /**
   * `generate_test_scores_dataset`: build the lookup, then append one test
   * record per iteration, with IDs from 1. The result is exactly
   * `TestScores`. Non-empty MPD data is required: the source's
   * `random.choice` fails on an empty key list.
   */
  method GenerateTestScores(mpd: seq<MpdRecord>, languages: seq<string>, total: nat, picks: seq<TestPick>)
    returns (testData: seq<TestRecord>)
    requires |mpd| > 0 && |languages| > 0 && TestPicksFit(total, picks)
    ensures testData == TestScores(mpd, languages, total, picks)
  {
    var lookup, validSidSnapshots := BuildLookup(mpd);
    LookupFitsOf(mpd);
    ghost var all := TestScores(mpd, languages, total, picks);
    testData := [];
    for i := 1 to total + 1
      invariant testData == all[..i - 1]
    {
      var p := picks[i - 1];
      var selectedKey := Choice(p.key, validSidSnapshots);
      var parts := SplitKey(selectedKey).value;
      var sid, snapshot := parts.0, parts.1;
      var mpdRecord: MpdRecord := lookup[selectedKey][0];
      var snapshotDate := mpdRecord.common.snapshotMonth;
      var listenScore := RandInt(p.listen, 1, 5);
      var readScore := RandInt(p.read, 1, 5);
      var testRecord := TestRecord(
        id := i,
        sid := sid,
        language := Choice(p.language, languages),
        listenScore := NatToString(listenScore),
        readScore := NatToString(readScore),
        testGroup := DetermineTestGroup(listenScore, readScore),
        snapshot := snapshot,
        snapshotMonth := snapshotDate,
        tokens := GenerateTokenExpression(p.tokens));
      assert all[i - 1] == testRecord;
      assert all[..i] == all[..i - 1] + [testRecord];
      testData := testData + [testRecord];
    }
  }

  // ---------------------------------------------------------------------------
  // What every test record satisfies
  // ---------------------------------------------------------------------------

  /** There are `total` test records, with IDs 1, 2, ..., in order. */
  lemma TestScoresIds(mpd: seq<MpdRecord>, languages: seq<string>, total: nat, picks: seq<TestPick>)
    requires |mpd| > 0 && |languages| > 0 && TestPicksFit(total, picks)
    ensures var data := TestScores(mpd, languages, total, picks);
      |data| == total && forall i :: 0 <= i < |data| ==> data[i].id == i + 1
  {
  }

  /** No SID of the MPD data contains the key separator. */
  ghost predicate SidsWithoutSeparator(mpd: seq<MpdRecord>)
  {
    forall j :: 0 <= j < |mpd| ==> '_' !in mpd[j].common.sid
  }

  /**
   * Referential integrity: every test record's SID and snapshot are those
   * of an MPD record, and its snapshot month is that of the first MPD record
   * with the same SID and snapshot.
   */
  lemma TestRecordIntegrity(mpd: seq<MpdRecord>, languages: seq<string>, total: nat, picks: seq<TestPick>, i: nat)
    requires |mpd| > 0 && |languages| > 0 && TestPicksFit(total, picks)
    requires SidsWithoutSeparator(mpd)
    requires i < total
    ensures var r := TestScores(mpd, languages, total, picks)[i];
      exists j ::
        && 0 <= j < |mpd|
        && mpd[j].common.sid == r.sid && mpd[j].common.snapshot == r.snapshot
        && mpd[j].common.snapshotMonth == r.snapshotMonth
        && forall k :: 0 <= k < j ==> RecordKey(mpd[k]) != RecordKey(mpd[j])
  {
    var keys := KeysInOrder(mpd);
    LookupFitsOf(mpd);
    KeysInOrderFacts(mpd);
    var key := Choice(picks[i].key, keys);
    assert key in KeySet(mpd);
    FiledFirst(mpd, key);
    var j :| 0 <= j < |mpd| && mpd[j] == Filed(mpd, key)[0] && RecordKey(mpd[j]) == key
      && forall k :: 0 <= k < j ==> RecordKey(mpd[k]) != key;
    KeyRoundTrip(mpd[j].common.sid, mpd[j].common.snapshot);
    assert TestScores(mpd, languages, total, picks)[i] == MakeTestRecord(i + 1, Lookup(mpd), keys, languages, picks[i]);
  }

  /**
   * Every test record carries two scores from 1 to 5, written as decimal
   * strings, the group those scores determine, one of the languages and a
   * balanced token expression.
   */
  lemma TestRecordFields(mpd: seq<MpdRecord>, languages: seq<string>, total: nat, picks: seq<TestPick>, i: nat)
    requires |mpd| > 0 && |languages| > 0 && TestPicksFit(total, picks)
    requires i < total
    ensures var r := TestScores(mpd, languages, total, picks)[i];
      && (exists listenScore, readScore ::
        && 1 <= listenScore <= 5 && 1 <= readScore <= 5
        && r.listenScore == NatToString(listenScore) && r.readScore == NatToString(readScore)
        && r.testGroup == DetermineTestGroup(listenScore, readScore))
      && r.language in languages
      && IsTokenString(r.tokens) && Balanced(r.tokens)
  {
    var p := picks[i];
    LookupFitsOf(mpd);
    assert TestScores(mpd, languages, total, picks)[i] == MakeTestRecord(i + 1, Lookup(mpd), KeysInOrder(mpd), languages, p);
    var listenScore, readScore := RandInt(p.listen, 1, 5), RandInt(p.read, 1, 5);
    ChoiceIn(p.language, languages);
    TokenExpressionFacts(p.tokens);
  }

  /**
   * With MPD records whose common fields have the generator's shape, every
   * test record's SNAPSHOT and SNAPSHOT_MONTH are the name and the date of
   * one snapshot of the tables.
   */
  lemma TestRecordSnapshot(t: Tables, mpd: seq<MpdRecord>, languages: seq<string>, total: nat, picks: seq<TestPick>, i: nat)
    requires TablesFit(t) && (forall j :: 0 <= j < |mpd| ==> CommonFacts(t, mpd[j].common))
    requires |mpd| > 0 && |languages| > 0 && TestPicksFit(total, picks)
    requires i < total
    ensures var r := TestScores(mpd, languages, total, picks)[i];
      Snapshot(r.snapshot, r.snapshotMonth) in t.snapshots
  {
    TestRecordIntegrity(mpd, languages, total, picks, i);
  }

  /** The generated MPD dataset meets what the test-score lemmas ask of their MPD data. */
  lemma DatasetFeedsTestScores(t: Tables, totalRows: int, planPicks: seq<nat>, draws: seq<PersonDraw>)
    requires TablesFit(t) && DatasetDraws(totalRows, planPicks, draws)
    requires totalRows > 0
    ensures var data := Dataset(t, totalRows, planPicks, draws);
      && |data| == totalRows
      && (forall j :: 0 <= j < |data| ==> CommonFacts(t, data[j].common))
      && SidsWithoutSeparator(data)
  {
    DatasetSize(t, totalRows, planPicks, draws);
    var data := Dataset(t, totalRows, planPicks, draws);
    forall j | 0 <= j < |data|
      ensures CommonFacts(t, data[j].common)
    {
      DatasetRecordFacts(t, totalRows, planPicks, draws, j);
    }
  }

  // ---------------------------------------------------------------------------
  // The main run, with the source's own lists
  // ---------------------------------------------------------------------------

  /** `generate_mpd_dataset(mpd_record_count)` over the source's lists. */
  function SourceDataset(totalRows: int, planPicks: seq<nat>, draws: seq<PersonDraw>): (data: seq<MpdRecord>)
    requires DatasetDraws(totalRows, planPicks, draws)
    ensures |data| == if totalRows > 0 then totalRows else 0
  {
    SourceTablesFit();
    DatasetSize(SourceTables, totalRows, planPicks, draws);
    Dataset(SourceTables, totalRows, planPicks, draws)
  }

  /** `generate_test_scores_dataset(mpd_data, test_record_count)` over the source's languages. */
  function SourceTestScores(mpd: seq<MpdRecord>, total: nat, picks: seq<TestPick>): (data: seq<TestRecord>)
    requires |mpd| > 0 && TestPicksFit(total, picks)
  {
    TestScores(mpd, Languages, total, picks)
  }

  /**
   * The main run: every test record generated from the source's MPD data
   * names an MPD record's SID and snapshot, carries a real snapshot's name
   * and date, and one of the source's languages.
   */
  lemma SourceRunIntegrity(totalRows: int, planPicks: seq<nat>, draws: seq<PersonDraw>,
                           total: nat, picks: seq<TestPick>, i: nat)
    requires DatasetDraws(totalRows, planPicks, draws) && totalRows > 0
    requires TestPicksFit(total, picks) && i < total
    ensures var mpd := SourceDataset(totalRows, planPicks, draws);
      var r := SourceTestScores(mpd, total, picks)[i];
      && (exists j :: 0 <= j < |mpd| && mpd[j].common.sid == r.sid && mpd[j].common.snapshot == r.snapshot)
      && Snapshot(r.snapshot, r.snapshotMonth) in Snapshots
      && r.language in Languages
  {
    SourceTablesFit();
    DatasetFeedsTestScores(SourceTables, totalRows, planPicks, draws);
    var mpd := Dataset(SourceTables, totalRows, planPicks, draws);
    TestRecordIntegrity(mpd, Languages, total, picks, i);
    TestRecordSnapshot(SourceTables, mpd, Languages, total, picks, i);
    TestRecordFields(mpd, Languages, total, picks, i);
  }
}
