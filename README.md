# MPD dashboard data generator — a verified model

`generate-data.py` builds two synthetic datasets for an MPD dashboard. The
first holds MPD records: one row per person, role and snapshot. Each person
gets one to four roles. The roles share the person's common fields (SID,
snapshot, organisation, location, tokens, …) and split one FTE between
them in tenths. Each role draws a domain and a function, whose DFP
(`DOMAIN-FUNCTION`) picks its CIMPL_RANK from a fixed 100-entry table. The
second dataset holds test-score records. Each refers to an existing
SID/snapshot pair of the MPD data and carries two scores, a test group, a
language and an ABAC token expression. Two summaries classify the token
expressions by an operator count.

This project models that core in Dafny:

- `basics.dfy`, `text.dfy`: the random draws, Python's `sum`,
  `str(int)`, `str.count` and `str.split(sep, 1)`.
- `vocabulary.dfy`: the generator's fixed lists.
- `fte.dfy`: `generate_fte_splits`.
- `planner.dfy`: the people-planning loop.
- `ranktable.dfy`: the `dfp_to_rank` table.
- `tokens.dfy`: the token-expression generators and the summaries'
  complexity estimate.
- `mpd.dfy`: `generate_sid` and the record loop of `generate_mpd_dataset`.
- `testscores.dfy`: `generate_test_scores_dataset`.
- `summary.dfy`: the token-complexity tally of both summaries.

Every random draw is an explicit parameter: a raw `nat` that `RandInt`
maps into a range and `Choice` maps onto a list. The properties therefore
hold for every outcome of the random source. The lists the generator draws
from are passed as a `Tables` value; `SourceTables` holds the source's own
lists, and `Mpd.SourceTablesFit` shows they meet every requirement the
model places on tables. Loops of the source are methods with loop
invariants, each proved equal to a specification function; the properties
are proved about those functions.

## Model

| member | source | states |
|---|---|---|
| Basics.RandInt | generate-data.py:158 | `random.randint(lo, hi)` yields a value in the closed range [lo, hi] |
| Basics.RandIntReaches | generate-data.py:158 | every value of the range is the outcome of some draw |
| Basics.Choice | generate-data.py:251-253 | `random.choice(xs)`: the entry the raw draw selects, its position taken modulo the list length |
| Basics.ChoiceIn | generate-data.py:251-253 | `random.choice` returns an entry of the list |
| Text.NatToString | generate-data.py:128 | `str(n)`: at least one character, all decimal digits, exactly one for n below ten |
| Text.Count | generate-data.py:492-494 | `s.count(c)`: how many positions of the string hold the character |
| Text.SplitFirst | generate-data.py:409 | `s.split(sep, 1)` unpacked into two names: the text before the first separator and the rest, or nothing when the separator is absent (where Python raises) |
| Text.NatToStringInjective | generate-data.py:128 | distinct numbers have distinct `str` forms |
| Text.SplitFirstJoin | generate-data.py:409 | `split('_', 1)` of `a + '_' + b` with no `_` in `a` gives back `(a, b)` |
| Text.SplitFirstDefined | generate-data.py:409 | a string containing the separator splits into two parts |
| Fte.Draw | generate-data.py:151-158 | one share: `randint(1, remaining - roles_left + 1)`, with the upper bound raised to 1 when it falls below it |
| Fte.Shares | generate-data.py:149-163 | the shares handed out: one `Draw` per role but the last, which takes what remains |
| Fte.SharesSum | generate-data.py:146-163 | the shares handed out add up to what was to be split, whether or not the clamp at line 154 fires |
| Fte.SharesBounds | generate-data.py:149-160 | with at least one tenth per role, every share lies between 1 and `remaining - roles + 1` |
| Fte.SharesOfWhole | generate-data.py:139-165 | splits of one FTE add up to ten tenths; with at most ten roles each is 1..10 tenths |
| Fte.FteSplits | generate-data.py:139-165 | `generate_fte_splits(n)` returns n shares summing to ten tenths, all positive when n ≤ 10 |
| Fte.SharesReachAll | generate-data.py:149-163 | every positive split of the remainder is a possible outcome |
| Fte.FteSplitsReachAll | generate-data.py:139-165 | every valid split of one FTE is an outcome of `generate_fte_splits` |
| Fte.GenerateFteSplits | generate-data.py:139-165 | the loop updating `remaining_tenths` returns exactly `FteSplits` |
| Planner.RoleDraw | generate-data.py:225-234 | a person draws one to four roles |
| Planner.Plan | generate-data.py:223-243 | the plan has no more people than rows requested |
| Planner.PlanCovers | generate-data.py:223-243 | the role counts add up to the requested rows, each 1..4 |
| Planner.PlanFollowsDraws | generate-data.py:236-242 | every person keeps the drawn count except the last, which may be cut |
| Planner.PlanReachesAll | generate-data.py:223-243 | every list of 1..4 counts summing to the row count is a possible plan |
| Planner.PlanPeople | generate-data.py:220-243 | the `while records_created < total_rows` loop terminates and returns exactly `Plan`; its `break` cannot fire |
| RankTable.Dfp | generate-data.py:127 | the DFP key is domain, dash, function |
| RankTable.VocabularyFacts | generate-data.py:34-115 | the source's `functions` (lines 34-36) and `domains` (lines 114-115) are ten distinct dash-free names each |
| RankTable.StepRank | generate-data.py:124-129 | the rank written at step k of the nested loop: `str` of the counter, which starts at 1 |
| RankTable.RankOf | generate-data.py:125-128 | the rank of domain d and function f: the step `10 * d + f` of the nested loop |
| RankTable.DfpInjective | generate-data.py:125-128 | different domain/function pairs give different DFP keys |
| RankTable.KeyAtInjective | generate-data.py:125-128 | no step of the nested loop overwrites an earlier entry |
| RankTable.BuildRankTable | generate-data.py:122-129 | the nested loop maps each DFP to `str` of its position 1..100, holds only DFP keys and has 100 entries |
| RankTable.RankConsistent | generate-data.py:122-129 | two DFPs share a rank exactly when they are the same pair |
| RankTable.RankRange | generate-data.py:124-129 | every rank is the decimal form of 1..100 |
| TokenExpr.Token | generate-data.py:183 | a token slot yields one of the seven tokens |
| TokenExpr.Render | generate-data.py:183-212 | the f-string of a pattern: each hole takes its drawn token, joined by the pattern's `&`/`|` and wrapped in its parentheses |
| TokenExpr.GenerateSimpleTokens | generate-data.py:180-187 | one of the three simple patterns, chosen by the draw, filled with drawn tokens |
| TokenExpr.GenerateMediumTokens | generate-data.py:189-202 | the favoured literal when the 30% branch is taken, else one of the five medium patterns filled with drawn tokens |
| TokenExpr.GenerateComplexTokens | generate-data.py:204-213 | one of the five complex patterns, chosen by the draw, filled with drawn tokens |
| TokenExpr.GenerateTokenExpression | generate-data.py:167-178 | the generator of the drawn tier: simple, medium or complex |
| TokenExpr.RenderFacts | generate-data.py:180-213 | a filled pattern is a token string with balanced parentheses whose operator and `(` counts are those of the pattern |
| TokenExpr.SimpleTokensFacts | generate-data.py:180-187 | a simple expression has at most one operator and no parenthesis |
| TokenExpr.MediumTokensFacts | generate-data.py:189-202 | a medium expression, the favoured literal included, has two operators and at most one `(` |
| TokenExpr.ComplexTokensFacts | generate-data.py:204-213 | a complex expression has four or five operators and one or two `(` |
| TokenExpr.TokenExpressionFacts | generate-data.py:167-178 | every expression is a balanced token string, and the summaries' estimate recovers the tier it was drawn from |
| TokenExpr.FavouredIsThreeWayAnd | generate-data.py:191-196 | the favoured literal is the three-way AND of the first three tokens |
| TokenExpr.Classify | generate-data.py:486-502 | SIMPLE iff at most one operator and no `(`; COMPLEX iff more than three operators or more than two `(` |
| Mpd.AlphabetFacts | generate-data.py:134-136 | the SID alphabets are upper-case letters, and upper-case letters and digits |
| Mpd.GenerateSid | generate-data.py:131-137 | a SID has seven characters, five letters then two letters or digits, and never `_` |
| Mpd.SourceTablesFit | generate-data.py:12-121 | the source's lists are non-empty and its domains and functions suit the rank table |
| Mpd.MakeCommon | generate-data.py:250-287 | a person's common fields, each drawn from its list or range, the three org fields from one drawn org |
| Mpd.MakeCommonFacts | generate-data.py:250-287 | a person's common fields come from their lists; DUTY_ORG, MISSION_ELEMENT and ASSIGNED_ORG are one org; REGION is empty; GROUPS is `GROUP ` and 1..20, NIAB_CATEGORY is `CATEGORY ` and one of its letters, LOCATION_SPECIFIC is `LOCATION ` and 1..50, SITE is `SITE ` and 1..10, ACTIVITY_DAF is `ACTIVITY ` and 1..100; TOKENS is balanced |
| Mpd.DrawRole | generate-data.py:295-298 | a role's fields: the drawn domain and function, their DFP and that DFP's rank in the table |
| Mpd.DrawRoleFacts | generate-data.py:295-298 | a role's DFP is its domain and function and its CIMPL_RANK is that pair's table rank |
| Mpd.RoleRanksConsistent | generate-data.py:295-306 | two roles share a CIMPL_RANK exactly when they share a DFP |
| Mpd.DrawRoles | generate-data.py:293-298 | a person with n roles draws n role field sets |
| Mpd.PersonRecords | generate-data.py:293-311 | a person yields one record per FTE share |
| Mpd.AllRecordsIds | generate-data.py:246-311 | record IDs run from the first ID without gaps, in order |
| Mpd.PersonRun | generate-data.py:248-311 | a person's records are consecutive, share its common fields and carry its FTE split and roles in order |
| Mpd.AllRecordsLength | generate-data.py:248-311 | there is one record per FTE share of each person |
| Mpd.AllRecordsOrigin | generate-data.py:300-308 | each record has some person's common fields and one of that person's roles |
| Mpd.MakePerson | generate-data.py:250-298 | a person built for n roles has n FTE shares and n roles |
| Mpd.Persons | generate-data.py:248 | one person per plan entry, each with the planned number of shares |
| Mpd.RecordCountMatches | generate-data.py:242-243 | persons shaped by the plan yield as many records as the plan adds up to |
| Mpd.DatasetPlan | generate-data.py:220-243 | the dataset's plan is `Plan` and adds up to the row count |
| Mpd.Dataset | generate-data.py:6-317 | the whole MPD dataset: the plan of role counts, one person per entry, each person's records in order with IDs from 1 |
| Mpd.DatasetSize | generate-data.py:6-317 | the dataset has exactly `total_rows` records, none for a non-positive count |
| Mpd.DatasetIds | generate-data.py:246-311 | the dataset's IDs are 1, 2, … in record order |
| Mpd.DatasetPerson | generate-data.py:248-311 | person p's records start after the earlier persons' rows, share its common fields and carry its `FteSplits` shares and its drawn roles, in order |
| Mpd.DatasetRecordOrigin | generate-data.py:250-308 | every record's common fields and role come from one person's draws |
| Mpd.DatasetRecordFacts | generate-data.py:250-308 | every record of the dataset has well-formed common and role fields |
| Mpd.DatasetRanksConsistent | generate-data.py:295-306 | across the dataset, two records share a CIMPL_RANK exactly when they share a DFP |
| Mpd.RoleFromTable | generate-data.py:295-298 | looking a drawn DFP up in the filled table gives the role `DrawRole` describes |
| Mpd.EmitPersonRecords | generate-data.py:293-311 | the inner loop appends exactly the person's records, IDs counting up from `record_id` |
| Mpd.GenerateMpdDataset | generate-data.py:6-317 | `generate_mpd_dataset` returns exactly `Dataset` |
| TestScores.MakeKey | generate-data.py:338 | the lookup key: SID, `_`, snapshot |
| TestScores.SplitKey | generate-data.py:409 | `selected_key.split('_', 1)`: SID and snapshot, or nothing when the key has no `_` |
| TestScores.Lookup | generate-data.py:336-341 | `mpd_lookup`: each key of the MPD data mapped to its records in data order |
| TestScores.KeysInOrder | generate-data.py:343-344 | `list(mpd_lookup.keys())`: the keys in the order first seen |
| TestScores.KeyRoundTrip | generate-data.py:409 | splitting a key made from a SID without `_` gives back the SID and the snapshot |
| TestScores.KeySplits | generate-data.py:409 | every lookup key contains the separator, so the split never fails |
| TestScores.KeyInjective | generate-data.py:338 | with SIDs free of `_`, different SID/snapshot pairs have different keys |
| TestScores.KeysInOrderFacts | generate-data.py:339-344 | the key list holds every key of the MPD data exactly once, and nothing else |
| TestScores.FiledFacts | generate-data.py:336-341 | only records with a key are filed under it, and some record is filed under every key |
| TestScores.FiledComplete | generate-data.py:336-341 | every MPD record is filed under its own key |
| TestScores.FiledFirst | generate-data.py:412 | the first record filed under a key is the first MPD record with that key |
| TestScores.LookupAppend | generate-data.py:339-341 | filing a record appends it to the list of its key, created empty when new |
| TestScores.BuildLookup | generate-data.py:336-344 | the loop builds exactly the lookup and the key list in first-seen order |
| TestScores.DetermineTestGroup | generate-data.py:346-354 | HIGH iff a score is at least 3; MEDIUM iff the better score is 2; LOW iff both are below 2 |
| TestScores.LowOnlyForOnes | generate-data.py:346-354 | for scores 1..5, LOW exactly when both scores are 1 |
| TestScores.GroupMonotone | generate-data.py:346-354 | raising a score never lowers the group |
| TestScores.LookupFitsOf | generate-data.py:336-344 | for non-empty MPD data there is a key to draw, and each key is filed and splits |
| TestScores.MakeTestRecord | generate-data.py:407-429 | one test record: a drawn key split into SID and snapshot, the first filed record's SNAPSHOT_MONTH, two drawn scores, their group, a drawn language and a drawn token expression |
| TestScores.TestScores | generate-data.py:406-431 | the test dataset: one `MakeTestRecord` per ID 1..`total_test_records` |
| TestScores.GenerateTestScores | generate-data.py:319-437 | the test loop returns exactly `TestScores` |
| TestScores.TestScoresIds | generate-data.py:406-420 | there are `total_test_records` records with IDs 1, 2, … |
| TestScores.TestRecordIntegrity | generate-data.py:406-431 | each test record's SID and snapshot are an MPD record's, and its SNAPSHOT_MONTH is that of the first MPD record with that pair |
| TestScores.TestRecordFields | generate-data.py:415-428 | scores are `str` of 1..5, the group is the one they determine, the language is from the list, tokens are balanced |
| TestScores.TestRecordSnapshot | generate-data.py:408-427 | a test record's SNAPSHOT and SNAPSHOT_MONTH are the name and date of one snapshot |
| TestScores.DatasetFeedsTestScores | generate-data.py:611-614 | a generated MPD dataset of positive size meets what the test-score lemmas require |
| TestScores.SourceDataset | generate-data.py:610-611 | `generate_mpd_dataset(mpd_record_count)` over the source's lists has exactly that many records, none for a non-positive count |
| TestScores.SourceTestScores | generate-data.py:613-614 | `generate_test_scores_dataset(mpd_data, test_record_count)` over the source's `star_wars_languages` |
| TestScores.SourceRunIntegrity | generate-data.py:605-614 | in the main run every test record names an MPD record's SID and snapshot, a real snapshot's name and date, and one of the source's languages |
| Summary.Tally | generate-data.py:483-502 | the `token_complexity` counts and `aaa_bbb_ccc_count`: how many expressions the estimate puts in each tier, and how many are the favoured literal |
| Summary.TokenComplexity | generate-data.py:483-502 | the counting loop returns exactly the tally of each tier and of the favoured literal |
| Summary.TallyPartitions | generate-data.py:497-502 | every expression is counted under exactly one tier |
| Summary.FavouredIsMedium | generate-data.py:487-502 | the favoured literal is counted as medium |
| Summary.FavouredWithinMedium | generate-data.py:483-502 | the favoured count never exceeds the medium count |
| Summary.TallyOfGenerated | generate-data.py:486-502 | on generated expressions each tier is counted as often as it was drawn |

## Left out

- json_to_sqlite.py is not part of this model: it is database DDL, inserts and file handling around SQLite.
- Probability weights are not modelled: the 40/35/25 tier weights, `function_weights`, the 0.4/0.65/0.90 role thresholds and the 0.3 favoured-pattern chance. Each draw names one possible outcome, so only which outcomes are possible is captured.
- FTE values are integer tenths. The `tenths / 10.0` conversions (generate-data.py:159, 163) are not modelled. A float sum of the converted shares need not be exactly 1.0, though the tenths always add up to ten.
- SID uniqueness is not modelled. The docstring at generate-data.py:132 promises it, but nothing enforces it. The model lets persons share SIDs, and the lookup groups their records under one key.
- The 0-row boundary: `GenerateTestScores` requires non-empty MPD data. In the source, `random.choice` on an empty key list (generate-data.py:408) raises.
- TestScores.GenerateTestScores: takes the record count as a `nat`. A negative `total_test_records` gives an empty range in the source, which is the same as zero.
- Output and presentation are not modelled: `save_to_json`, `save_to_csv`, the command-line handling, progress and summary printing, the percentages and the other distribution counts of the summaries, `random.sample` of display expressions, and `generate_samples`.
- The second copy of the token generators inside `generate_test_scores_dataset` (generate-data.py:356-402) is textually the same as the first and is modelled once, by `TokenExpr`.
- Fte.GenerateFteSplits: its contract is equality with `FteSplits`; the split's properties are proved as lemmas about that function.
- Planner.PlanPeople: its contract is equality with `Plan`; coverage and bounds are proved as lemmas about `Plan`.
- Mpd.GenerateMpdDataset: its contract is equality with `Dataset`; the dataset's properties are lemmas about `Dataset`.
- TestScores.GenerateTestScores: its contract is equality with `TestScores`; integrity and field shapes are lemmas about that function.
- Summary.TokenComplexity: its contract is equality with `Tally`; the partition and favoured-count properties are lemmas about `Tally`.
- The rank table lookup `dfp_to_rank[dfp]` is modelled by `DrawRole` through the table's index formula. `Mpd.RoleFromTable` and `BuildRankTable` show that the filled table gives the same rank.
