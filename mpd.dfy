/**
 * `generate_mpd_dataset`: plan the people, then emit one MPD record per
 * role of each person. A person's common fields are drawn once and shared
 * by all of that person's role-records; each role draws its own DOMAIN and
 * FUNCTION, looks its CIMPL_RANK up in the rank table and gets its share of
 * the person's FTE. Record IDs count up from 1.
 */
module Mpd {
  import opened Basics
  import opened Text
  import opened Vocabulary
  import opened TokenExpr
  import opened Fte
  import opened Planner
  import opened RankTable

  predicate IsUpper(c: char)
  {
    'A' <= c <= 'Z'
  }

  /** The characters a SID is made of: `string.ascii_uppercase + string.digits`. */
  predicate IsSidChar(c: char)
  {
    IsUpper(c) || IsDigit(c)
  }

  lemma AlphabetFacts()
    ensures forall i :: 0 <= i < |Uppercase| ==> IsUpper(Uppercase[i])
    ensures forall i :: 0 <= i < |UppercaseAndDigits| ==> IsSidChar(UppercaseAndDigits[i])
  {
  }

  /**
   * `generate_sid`: five upper-case letters, then two letters or digits.
   * In particular a SID never contains the `_` that joins it to a snapshot
   * name in the test-score lookup key.
   */
  function GenerateSid(picks: seq<nat>): (sid: string)
    requires |picks| >= 7
    ensures |sid| == 7
    ensures forall i :: 0 <= i < 5 ==> IsUpper(sid[i])
    ensures forall i :: 0 <= i < |sid| ==> IsSidChar(sid[i])
    ensures '_' !in sid
  {
    AlphabetFacts();
    seq(5, i requires 0 <= i < 5 => Choice(picks[i], Uppercase))
      + seq(2, i requires 0 <= i < 2 => Choice(picks[5 + i], UppercaseAndDigits))
  }

  /** The fields one person's role-records share (`common_fields`). */
  datatype CommonFields = CommonFields(
    sid: string,
    snapshot: string,
    snapshotMonth: string,
    dutyOrg: string,
    building: string,
    popCategory: string,
    groups: string,
    focusArea: string,
    niabCategory: string,
    functionalRole: string,
    country: string,
    nipfPriority: string,
    employeeSkillCommunity: string,
    missionElement: string,
    locationSpecific: string,
    state: string,
    workRole: string,
    city: string,
    cimplRankCategory: string,
    assignedOrg: string,
    status: string,
    site: string,
    loeJustification: string,
    region: string,
    affiliationType: string,
    activityDaf: string,
    criticalSkills: string,
    domainTwoPlusThree: string,
    siteResilience: string,
    tokens: string)

  /** The fields each role draws for itself. */
  datatype RoleFields = RoleFields(domain: string, jobFunction: string, dfp: string, cimplRank: string)

  /** One MPD record: ID, the person's common fields, the role's own fields and its FTE in tenths. */
  datatype MpdRecord = MpdRecord(id: int, common: CommonFields, role: RoleFields, fteTenths: int)

  /** The raw draws behind one person's common fields. */
  datatype CommonPicks = CommonPicks(
    sid: seq<nat>,
    snapshot: nat,
    address: nat,
    org: nat,
    building: nat,
    category: nat,
    group: nat,
    focusArea: nat,
    niab: nat,
    functionalRole: nat,
    nipf: nat,
    skill: nat,
    location: nat,
    workRole: nat,
    rankCategory: nat,
    status: nat,
    site: nat,
    loe: nat,
    affiliation: nat,
    activity: nat,
    criticalSkills: nat,
    domainTwoThree: nat,
    siteResilience: nat,
    tokens: TokenPicks)

  /** The raw draws behind one role: its domain and its function. */
  datatype RolePick = RolePick(domain: nat, jobFunction: nat)

  /** Everything drawn for one person: common fields, FTE split and roles. */
  datatype PersonDraw = PersonDraw(common: CommonPicks, fte: seq<nat>, roles: seq<RolePick>)

  /** Enough draws for a person with up to `MaxRoles` roles. */
  predicate DrawFits(p: PersonDraw)
  {
    && |p.common.sid| >= 7
    && |p.common.tokens.slots| >= 6
    && |p.fte| >= MaxRoles - 1
    && |p.roles| >= MaxRoles
  }

  /** The tables hold entries to draw from, and their domains and functions suit the rank table. */
  ghost predicate TablesFit(t: Tables)
  {
    && |t.snapshots| > 0 && |t.addresses| > 0 && |t.orgs| > 0 && |t.buildings| > 0
    && |t.categories| > 0 && |t.focusAreas| > 0 && |t.niabLetters| > 0 && |t.functionalRoles| > 0
    && |t.nipfPriorities| > 0 && |t.skills| > 0 && |t.workRoles| > 0 && |t.rankCategories| > 0
    && |t.statuses| > 0 && |t.loeJustifications| > 0 && |t.affiliationTypes| > 0
    && |t.criticalSkills| > 0 && |t.domainTwoThree| > 0 && |t.siteResilience| > 0
    && TableVocabulary(t.domains, t.functions)
  }

  /** The generator's own lists fit. */
  lemma SourceTablesFit()
    ensures TablesFit(SourceTables)
  {
    VocabularyFacts();
  }

  /** `s` is `prefix` followed by the decimal form of a number from `lo` to `hi`. */
  ghost predicate Numbered(s: string, prefix: string, lo: nat, hi: nat)
  {
    exists n: nat :: lo <= n <= hi && s == prefix + NatToString(n)
  }

  /** `s` is `prefix` followed by one of `options`. */
  ghost predicate Prefixed(s: string, prefix: string, options: seq<string>)
  {
    exists x :: x in options && s == prefix + x
  }

  /** The facts every person's common fields satisfy. */
  ghost predicate CommonFacts(t: Tables, c: CommonFields)
  {
    && |c.sid| == 7 && (forall i :: 0 <= i < |c.sid| ==> IsSidChar(c.sid[i])) && '_' !in c.sid
    && Snapshot(c.snapshot, c.snapshotMonth) in t.snapshots
    && Address(c.city, c.state, c.country) in t.addresses
    && c.dutyOrg in t.orgs
    && c.dutyOrg == c.missionElement == c.assignedOrg
    && c.building in t.buildings
    && c.popCategory in t.categories
    && c.focusArea in t.focusAreas
    && c.functionalRole in t.functionalRoles
    && c.nipfPriority in t.nipfPriorities
    && c.employeeSkillCommunity in t.skills
    && c.workRole in t.workRoles
    && c.cimplRankCategory in t.rankCategories
    && c.status in t.statuses
    && c.loeJustification in t.loeJustifications
    && c.affiliationType in t.affiliationTypes
    && c.criticalSkills in t.criticalSkills
    && c.domainTwoPlusThree in t.domainTwoThree
    && c.siteResilience in t.siteResilience
    && c.region == ""
    && Numbered(c.groups, "GROUP ", 1, 20)
    && Prefixed(c.niabCategory, "CATEGORY ", t.niabLetters)
    && Numbered(c.locationSpecific, "LOCATION ", 1, 50)
    && Numbered(c.site, "SITE ", 1, 10)
    && Numbered(c.activityDaf, "ACTIVITY ", 1, 100)
    && IsTokenString(c.tokens) && Balanced(c.tokens)
  }

  /**
   * The common fields drawn once per person. SNAPSHOT and SNAPSHOT_MONTH
   * come from one snapshot, CITY, STATE and COUNTRY from one address, and
   * DUTY_ORG, MISSION_ELEMENT and ASSIGNED_ORG from one org draw.
   */
  function MakeCommon(t: Tables, p: CommonPicks): CommonFields
    requires TablesFit(t) && |p.sid| >= 7 && |p.tokens.slots| >= 6
  {
    var snapshot := Choice(p.snapshot, t.snapshots);
    var address := Choice(p.address, t.addresses);
    var org := Choice(p.org, t.orgs);
    CommonFields(
      sid := GenerateSid(p.sid),
      snapshot := snapshot.name,
      snapshotMonth := snapshot.date,
      dutyOrg := org,
      building := Choice(p.building, t.buildings),
      popCategory := Choice(p.category, t.categories),
      groups := "GROUP " + NatToString(RandInt(p.group, 1, 20)),
      focusArea := Choice(p.focusArea, t.focusAreas),
      niabCategory := "CATEGORY " + Choice(p.niab, t.niabLetters),
      functionalRole := Choice(p.functionalRole, t.functionalRoles),
      country := address.country,
      nipfPriority := Choice(p.nipf, t.nipfPriorities),
      employeeSkillCommunity := Choice(p.skill, t.skills),
      missionElement := org,
      locationSpecific := "LOCATION " + NatToString(RandInt(p.location, 1, 50)),
      state := address.state,
      workRole := Choice(p.workRole, t.workRoles),
      city := address.city,
      cimplRankCategory := Choice(p.rankCategory, t.rankCategories),
      assignedOrg := org,
      status := Choice(p.status, t.statuses),
      site := "SITE " + NatToString(RandInt(p.site, 1, 10)),
      loeJustification := Choice(p.loe, t.loeJustifications),
      region := "",
      affiliationType := Choice(p.affiliation, t.affiliationTypes),
      activityDaf := "ACTIVITY " + NatToString(RandInt(p.activity, 1, 100)),
      criticalSkills := Choice(p.criticalSkills, t.criticalSkills),
      domainTwoPlusThree := Choice(p.domainTwoThree, t.domainTwoThree),
      siteResilience := Choice(p.siteResilience, t.siteResilience),
      tokens := GenerateTokenExpression(p.tokens))
  }

  /**
   * Every person's common fields: a seven-character SID without `_`, every
   * drawn column an entry of its table, the snapshot and the address whole
   * entries, one org in three columns, NIAB_CATEGORY a letter of its list
   * after `CATEGORY `, GROUPS, LOCATION_SPECIFIC, SITE and ACTIVITY_DAF
   * their prefix and a number of their range, an empty REGION and a
   * balanced token expression.
   */
  lemma MakeCommonFacts(t: Tables, p: CommonPicks)
    requires TablesFit(t) && |p.sid| >= 7 && |p.tokens.slots| >= 6
    ensures CommonFacts(t, MakeCommon(t, p))
  {
    ChoiceIn(p.snapshot, t.snapshots);
    ChoiceIn(p.address, t.addresses);
    ChoiceIn(p.org, t.orgs);
    ChoiceIn(p.building, t.buildings);
    ChoiceIn(p.category, t.categories);
    ChoiceIn(p.focusArea, t.focusAreas);
    ChoiceIn(p.functionalRole, t.functionalRoles);
    ChoiceIn(p.nipf, t.nipfPriorities);
    ChoiceIn(p.skill, t.skills);
    ChoiceIn(p.workRole, t.workRoles);
    ChoiceIn(p.rankCategory, t.rankCategories);
    ChoiceIn(p.status, t.statuses);
    ChoiceIn(p.loe, t.loeJustifications);
    ChoiceIn(p.affiliation, t.affiliationTypes);
    ChoiceIn(p.criticalSkills, t.criticalSkills);
    ChoiceIn(p.domainTwoThree, t.domainTwoThree);
    ChoiceIn(p.siteResilience, t.siteResilience);
    ChoiceIn(p.niab, t.niabLetters);
    var c := MakeCommon(t, p);
    assert Numbered(c.groups, "GROUP ", 1, 20) by {
      assert c.groups == "GROUP " + NatToString(RandInt(p.group, 1, 20));
    }
    assert Numbered(c.locationSpecific, "LOCATION ", 1, 50) by {
      assert c.locationSpecific == "LOCATION " + NatToString(RandInt(p.location, 1, 50));
    }
    assert Numbered(c.site, "SITE ", 1, 10) by {
      assert c.site == "SITE " + NatToString(RandInt(p.site, 1, 10));
    }
    assert Numbered(c.activityDaf, "ACTIVITY ", 1, 100) by {
      assert c.activityDaf == "ACTIVITY " + NatToString(RandInt(p.activity, 1, 100));
    }
    TokenExpressionFacts(p.tokens);
  }

  /** A role's domain and function, their DFP, and the rank the table gives that DFP. */
  function DrawRole(t: Tables, pick: RolePick): RoleFields
    requires TablesFit(t)
  {
    var d := pick.domain % |t.domains|;
    var f := pick.jobFunction % |t.functions|;
    RoleFields(t.domains[d], t.functions[f], Dfp(t.domains[d], t.functions[f]), RankOf(d, f))
  }

  /** The role fields of a domain index and a function index, as the source fills them. */
  ghost predicate RoleFacts(t: Tables, rf: RoleFields)
    requires TablesFit(t)
  {
    exists d, f :: 0 <= d < 10 && 0 <= f < 10 &&
      rf == RoleFields(t.domains[d], t.functions[f], Dfp(t.domains[d], t.functions[f]), RankOf(d, f))
  }

  /** Every drawn role is some domain and some function with their DFP and its rank. */
  lemma DrawRoleFacts(t: Tables, pick: RolePick)
    requires TablesFit(t)
    ensures RoleFacts(t, DrawRole(t, pick))
  {
    var d := pick.domain % |t.domains|;
    var f := pick.jobFunction % |t.functions|;
    assert DrawRole(t, pick) == RoleFields(t.domains[d], t.functions[f], Dfp(t.domains[d], t.functions[f]), RankOf(d, f));
  }

  /**
   * Two roles get the same CIMPL_RANK exactly when they have the same DFP:
   * the rank table gives each of the hundred DFPs its own rank.
   */
  lemma RoleRanksConsistent(t: Tables, a: RoleFields, b: RoleFields)
    requires TablesFit(t) && RoleFacts(t, a) && RoleFacts(t, b)
    ensures a.cimplRank == b.cimplRank <==> a.dfp == b.dfp
  {
    var d1, f1 :| 0 <= d1 < 10 && 0 <= f1 < 10 &&
      a == RoleFields(t.domains[d1], t.functions[f1], Dfp(t.domains[d1], t.functions[f1]), RankOf(d1, f1));
    var d2, f2 :| 0 <= d2 < 10 && 0 <= f2 < 10 &&
      b == RoleFields(t.domains[d2], t.functions[f2], Dfp(t.domains[d2], t.functions[f2]), RankOf(d2, f2));
    RankConsistent(d1, f1, d2, f2);
    if a.dfp == b.dfp {
      DfpInjective(t.domains, t.functions, d1, f1, d2, f2);
    }
  }

  /** The roles drawn for a person with `n` roles, one per pick. */
  function DrawRoles(t: Tables, n: nat, picks: seq<RolePick>): (roles: seq<RoleFields>)
    requires TablesFit(t) && |picks| >= n
    ensures |roles| == n
  {
    seq(n, j requires 0 <= j < n => DrawRole(t, picks[j]))
  }

  /** What one person contributes: the shared fields, the FTE split and one role per share. */
  datatype Person = Person(common: CommonFields, splits: seq<int>, roles: seq<RoleFields>)

  /** There is a role for every FTE share. */
  predicate PersonFits(p: Person)
  {
    |p.roles| == |p.splits|
  }

  predicate AllFit(persons: seq<Person>)
  {
    forall i :: 0 <= i < |persons| ==> PersonFits(persons[i])
  }

  /** The role-records of one person: consecutive IDs from `firstId`, one per FTE share. */
  function PersonRecords(firstId: int, p: Person): (rs: seq<MpdRecord>)
    requires PersonFits(p)
    ensures |rs| == |p.splits|
  {
    seq(|p.splits|, j requires 0 <= j < |p.splits| => MpdRecord(firstId + j, p.common, p.roles[j], p.splits[j]))
  }

  /** Each person's block of records; every block starts where the one before it ended. */
  function Blocks(firstId: int, persons: seq<Person>): (bs: seq<seq<MpdRecord>>)
    requires AllFit(persons)
    ensures |bs| == |persons|
    decreases |persons|
  {
    if persons == [] then []
    else [PersonRecords(firstId, persons[0])] + Blocks(firstId + |persons[0].splits|, persons[1..])
  }

  /** All records of the dataset, person after person. */
  function AllRecords(firstId: int, persons: seq<Person>): seq<MpdRecord>
    requires AllFit(persons)
  {
    Flatten(Blocks(firstId, persons))
  }

  /** Person p's block is that person's records, numbered from where the earlier blocks end. */
  lemma {:induction false} BlocksAt(firstId: int, persons: seq<Person>, p: nat)
    requires AllFit(persons)
    requires p < |persons|
    ensures Blocks(firstId, persons)[p] == PersonRecords(firstId + Start(Blocks(firstId, persons), p), persons[p])
    decreases p
  {
    var bs := Blocks(firstId, persons);
    var n0 := |persons[0].splits|;
    assert bs[1..] == Blocks(firstId + n0, persons[1..]);
    if p > 0 {
      BlocksAt(firstId + n0, persons[1..], p - 1);
      assert persons[1..][p - 1] == persons[p];
    }
  }

  /**
   * Record j of person p: it carries the next ID, p's common fields, p's
   * j-th role and p's j-th FTE share.
   */
  lemma RecordAt(firstId: int, persons: seq<Person>, p: nat, j: nat)
    requires AllFit(persons)
    requires p < |persons| && j < |persons[p].splits|
    ensures var start := Start(Blocks(firstId, persons), p);
      && start + j < |AllRecords(firstId, persons)|
      && AllRecords(firstId, persons)[start + j]
        == MpdRecord(firstId + start + j, persons[p].common, persons[p].roles[j], persons[p].splits[j])
  {
    var bs := Blocks(firstId, persons);
    BlocksAt(firstId, persons, p);
    FlattenAt(bs, p, j);
  }

  /** Record j of person p's block has ID `firstId` plus its position in the whole list. */
  lemma BlockRecordId(firstId: int, persons: seq<Person>, p: nat, j: nat)
    requires AllFit(persons)
    requires p < |persons| && j < |Blocks(firstId, persons)[p]|
    ensures Blocks(firstId, persons)[p][j].id == firstId + Start(Blocks(firstId, persons), p) + j
  {
    BlocksAt(firstId, persons, p);
  }

  /** The record at position i has ID `firstId + i`. */
  lemma RecordIdAt(firstId: int, persons: seq<Person>, i: nat)
    requires AllFit(persons)
    requires i < |AllRecords(firstId, persons)|
    ensures AllRecords(firstId, persons)[i].id == firstId + i
  {
    var bs: seq<seq<MpdRecord>> := Blocks(firstId, persons);
    FlattenLocate(bs, i);
    var p :| 0 <= p < |bs| && Start(bs, p) <= i < Start(bs, p) + |bs[p]|;
    BlockRecordId(firstId, persons, p, i - Start(bs, p));
    FlattenAt(bs, p, i - Start(bs, p));
  }

  /** The IDs run `firstId`, `firstId + 1`, ... in order, without gaps. */
  lemma AllRecordsIds(firstId: int, persons: seq<Person>)
    requires AllFit(persons)
    ensures forall i :: 0 <= i < |AllRecords(firstId, persons)| ==> AllRecords(firstId, persons)[i].id == firstId + i
  {
    forall i | 0 <= i < |AllRecords(firstId, persons)| {
      RecordIdAt(firstId, persons, i);
    }
  }

  /** Every record of a run carries the common fields c. */
  predicate SharedCommon(rs: seq<MpdRecord>, c: CommonFields)
  {
    forall i :: 0 <= i < |rs| ==> rs[i].common == c
  }

  /** The FTE column of a run of records. */
  function FteColumn(rs: seq<MpdRecord>): (col: seq<int>)
    ensures |col| == |rs|
  {
    seq(|rs|, i requires 0 <= i < |rs| => rs[i].fteTenths)
  }

  /** The role columns (DOMAIN, FUNCTION, DFP, CIMPL_RANK) of a run of records. */
  function RoleColumn(rs: seq<MpdRecord>): (col: seq<RoleFields>)
    ensures |col| == |rs|
  {
    seq(|rs|, i requires 0 <= i < |rs| => rs[i].role)
  }

  /**
   * The records of person p form one run: they all carry p's common fields,
   * their FTE shares, in order, are p's split and their roles are p's roles.
   */
  lemma PersonRun(firstId: int, persons: seq<Person>, p: nat)
    requires AllFit(persons)
    requires p < |persons|
    ensures var start := Start(Blocks(firstId, persons), p);
      var n := |persons[p].splits|;
      && start + n <= |AllRecords(firstId, persons)|
      && SharedCommon(AllRecords(firstId, persons)[start..start + n], persons[p].common)
      && FteColumn(AllRecords(firstId, persons)[start..start + n]) == persons[p].splits
      && RoleColumn(AllRecords(firstId, persons)[start..start + n]) == persons[p].roles
  {
    var start := Start(Blocks(firstId, persons), p);
    var n := |persons[p].splits|;
    BlocksAt(firstId, persons, p);
    StartBound(Blocks(firstId, persons), p);
    var run := AllRecords(firstId, persons)[start..start + n];
    forall j | 0 <= j < n
      ensures run[j] == MpdRecord(firstId + start + j, persons[p].common, persons[p].roles[j], persons[p].splits[j])
    {
      RecordAt(firstId, persons, p, j);
    }
  }

  /** The number of records a list of persons yields. */
  function RecordCount(persons: seq<Person>): nat
    decreases |persons|
  {
    if persons == [] then 0 else |persons[0].splits| + RecordCount(persons[1..])
  }

  /** The records of a non-empty list: the first person's, then the rest's. */
  lemma AllRecordsCons(firstId: int, persons: seq<Person>)
    requires AllFit(persons) && persons != []
    ensures AllRecords(firstId, persons)
      == PersonRecords(firstId, persons[0]) + AllRecords(firstId + |persons[0].splits|, persons[1..])
  {
    var bs := Blocks(firstId, persons);
    assert bs[1..] == Blocks(firstId + |persons[0].splits|, persons[1..]);
  }

  /** There is one record per FTE share of each person. */
  lemma {:induction false} AllRecordsLength(firstId: int, persons: seq<Person>)
    requires AllFit(persons)
    ensures |AllRecords(firstId, persons)| == RecordCount(persons)
    decreases |persons|
  {
    if persons != [] {
      AllRecordsCons(firstId, persons);
      AllRecordsLength(firstId + |persons[0].splits|, persons[1..]);
    }
  }

  /** A record of a person's block has that person's common fields and one of its roles. */
  lemma BlockRecordOrigin(firstId: int, persons: seq<Person>, p: nat, j: nat)
    requires AllFit(persons)
    requires p < |persons| && j < |Blocks(firstId, persons)[p]|
    ensures j < |persons[p].roles|
    ensures Blocks(firstId, persons)[p][j].common == persons[p].common
    ensures Blocks(firstId, persons)[p][j].role == persons[p].roles[j]
  {
    BlocksAt(firstId, persons, p);
  }

  /** Every record comes from some person: its common fields and one of its roles. */
  lemma AllRecordsOrigin(firstId: int, persons: seq<Person>, i: nat)
    requires AllFit(persons)
    requires i < |AllRecords(firstId, persons)|
    ensures exists q, j ::
      && 0 <= q < |persons| && 0 <= j < |persons[q].roles|
      && AllRecords(firstId, persons)[i].common == persons[q].common
      && AllRecords(firstId, persons)[i].role == persons[q].roles[j]
  {
    var bs: seq<seq<MpdRecord>> := Blocks(firstId, persons);
    FlattenLocate(bs, i);
    var p :| 0 <= p < |bs| && Start(bs, p) <= i < Start(bs, p) + |bs[p]|;
    BlockRecordOrigin(firstId, persons, p, i - Start(bs, p));
    FlattenAt(bs, p, i - Start(bs, p));
  }

  // ---------------------------------------------------------------------------
  // The dataset
  // ---------------------------------------------------------------------------

  /** The person built from one entry of the plan and that person's draws. */
  function MakePerson(t: Tables, numRoles: int, draw: PersonDraw): (p: Person)
    requires TablesFit(t) && 1 <= numRoles <= MaxRoles && DrawFits(draw)
    ensures PersonFits(p) && |p.splits| == numRoles
  {
    Person(MakeCommon(t, draw.common), FteSplits(numRoles, draw.fte), DrawRoles(t, numRoles, draw.roles))
  }

  /** Enough draws for every planned person. */
  predicate DrawsFit(people: seq<int>, draws: seq<PersonDraw>)
  {
    && |draws| >= |people|
    && (forall i :: 0 <= i < |people| ==> 1 <= people[i] <= MaxRoles)
    && (forall i :: 0 <= i < |draws| ==> DrawFits(draws[i]))
  }

  /** The persons of a plan, each with its own draws. */
  function Persons(t: Tables, people: seq<int>, draws: seq<PersonDraw>): (ps: seq<Person>)
    requires TablesFit(t) && DrawsFit(people, draws)
    ensures |ps| == |people| && AllFit(ps)
    ensures forall i :: 0 <= i < |people| ==> |ps[i].splits| == people[i]
  {
    seq(|people|, i requires 0 <= i < |people| => MakePerson(t, people[i], draws[i]))
  }

  /** Persons whose share counts are the plan's role counts yield as many records as the plan adds up to. */
  lemma {:induction false} RecordCountMatches(persons: seq<Person>, people: seq<int>)
    requires |persons| == |people|
    requires forall i :: 0 <= i < |people| ==> |persons[i].splits| == people[i]
    ensures RecordCount(persons) == Sum(people)
    decreases |people|
  {
    if people != [] {
      RecordCountMatches(persons[1..], people[1..]);
    }
  }

  /** The plan's draws are enough, and every person's draws cover up to `MaxRoles` roles. */
  ghost predicate DatasetDraws(totalRows: int, planPicks: seq<nat>, draws: seq<PersonDraw>)
  {
    && |planPicks| >= totalRows
    && |draws| >= totalRows
    && (forall i :: 0 <= i < |draws| ==> DrawFits(draws[i]))
  }

  /** The plan of the dataset, with the facts the record list needs. */
  function DatasetPlan(totalRows: int, planPicks: seq<nat>, draws: seq<PersonDraw>): (people: seq<int>)
    requires DatasetDraws(totalRows, planPicks, draws)
    ensures people == Plan(totalRows, planPicks)
    ensures DrawsFit(people, draws)
    ensures Sum(people) == (if totalRows > 0 then totalRows else 0)
  {
    PlanCovers(totalRows, planPicks);
    Plan(totalRows, planPicks)
  }

  /** `generate_mpd_dataset(total_rows)` for the given tables and draws. */
  function Dataset(t: Tables, totalRows: int, planPicks: seq<nat>, draws: seq<PersonDraw>): seq<MpdRecord>
    requires TablesFit(t) && DatasetDraws(totalRows, planPicks, draws)
  {
    AllRecords(1, Persons(t, DatasetPlan(totalRows, planPicks, draws), draws))
  }

  /** The dataset has exactly the requested number of rows (none for a non-positive count). */
  lemma DatasetSize(t: Tables, totalRows: int, planPicks: seq<nat>, draws: seq<PersonDraw>)
    requires TablesFit(t) && DatasetDraws(totalRows, planPicks, draws)
    ensures |Dataset(t, totalRows, planPicks, draws)| == (if totalRows > 0 then totalRows else 0)
  {
    var people := DatasetPlan(totalRows, planPicks, draws);
    AllRecordsLength(1, Persons(t, people, draws));
    RecordCountMatches(Persons(t, people, draws), people);
  }

  /** The IDs are 1, 2, ..., in record order. */
  lemma DatasetIds(t: Tables, totalRows: int, planPicks: seq<nat>, draws: seq<PersonDraw>)
    requires TablesFit(t) && DatasetDraws(totalRows, planPicks, draws)
    ensures var data := Dataset(t, totalRows, planPicks, draws);
      forall i :: 0 <= i < |data| ==> data[i].id == i + 1
  {
    AllRecordsIds(1, Persons(t, DatasetPlan(totalRows, planPicks, draws), draws));
  }

  /** Where person p's records start: after the rows of the persons before it. */
  function RowsBefore(people: seq<int>, p: nat): nat
    requires p <= |people| && forall i :: 0 <= i < |people| ==> people[i] >= 1
  {
    SumAtLeastLength(people[..p]);
    Sum(people[..p])
  }

  /** Block p starts after the records of the persons before it. */
  lemma {:induction false} StartIsCount(firstId: int, persons: seq<Person>, p: nat)
    requires AllFit(persons) && p <= |persons|
    ensures Start(Blocks(firstId, persons), p) == RecordCount(persons[..p])
    decreases p
  {
    if p > 0 {
      var bs := Blocks(firstId, persons);
      assert bs[1..] == Blocks(firstId + |persons[0].splits|, persons[1..]);
      StartIsCount(firstId + |persons[0].splits|, persons[1..], p - 1);
      assert persons[..p][1..] == persons[1..][..p - 1];
    }
  }

  /**
   * The records from position `start` on form the run of one person: as
   * many as its FTE shares, all with its common fields, with its shares as
   * their FTE column and its roles as their role columns.
   */
  ghost predicate RunAt(data: seq<MpdRecord>, start: nat, c: CommonFields, splits: seq<int>, roles: seq<RoleFields>)
  {
    && start + |splits| <= |data|
    && SharedCommon(data[start..start + |splits|], c)
    && FteColumn(data[start..start + |splits|]) == splits
    && RoleColumn(data[start..start + |splits|]) == roles
  }

  /** Person p's run, stated for the records, the position and the parts of that person. */
  lemma RunOfPerson(data: seq<MpdRecord>, persons: seq<Person>, p: nat, start: nat,
                    c: CommonFields, splits: seq<int>, roles: seq<RoleFields>)
    requires AllFit(persons) && p < |persons| && data == AllRecords(1, persons)
    requires persons[p] == Person(c, splits, roles)
    requires start == Start(Blocks(1, persons), p)
    ensures RunAt(data, start, c, splits, roles)
  {
    PersonRun(1, persons, p);
  }

  /**
   * Each planned person's records form one run, right after the rows of the
   * persons before it: they all carry the common fields drawn for that
   * person, their FTE shares are that person's split (which adds up to one
   * FTE), and their roles are the person's role draws.
   */
  lemma DatasetPerson(t: Tables, totalRows: int, planPicks: seq<nat>, draws: seq<PersonDraw>, p: nat)
    requires TablesFit(t) && DatasetDraws(totalRows, planPicks, draws)
    requires p < |DatasetPlan(totalRows, planPicks, draws)|
    ensures RunAt(Dataset(t, totalRows, planPicks, draws),
                  RowsBefore(DatasetPlan(totalRows, planPicks, draws), p),
                  MakeCommon(t, draws[p].common),
                  FteSplits(DatasetPlan(totalRows, planPicks, draws)[p], draws[p].fte),
                  DrawRoles(t, DatasetPlan(totalRows, planPicks, draws)[p], draws[p].roles))
  {
    var people := DatasetPlan(totalRows, planPicks, draws);
    var persons := Persons(t, people, draws);
    StartIsCount(1, persons, p);
    RecordCountMatches(persons[..p], people[..p]);
    var c, splits, roles := MakeCommon(t, draws[p].common), FteSplits(people[p], draws[p].fte), DrawRoles(t, people[p], draws[p].roles);
    PersonOfPlan(t, people, draws, p);
    RunOfPerson(Dataset(t, totalRows, planPicks, draws), persons, p, RowsBefore(people, p), c, splits, roles);
  }

  /** Each person carries the common fields and the roles built from its own draws. */
  ghost predicate BuiltFrom(t: Tables, persons: seq<Person>, draws: seq<PersonDraw>)
    requires TablesFit(t)
  {
    && |draws| >= |persons|
    && forall q :: 0 <= q < |persons| ==>
      && DrawFits(draws[q])
      && persons[q].common == MakeCommon(t, draws[q].common)
      && |persons[q].roles| <= |draws[q].roles|
      && forall j :: 0 <= j < |persons[q].roles| ==> persons[q].roles[j] == DrawRole(t, draws[q].roles[j])
  }

  /** The persons of a plan are built from their draws. */
  lemma PersonsBuiltFrom(t: Tables, people: seq<int>, draws: seq<PersonDraw>)
    requires TablesFit(t) && DrawsFit(people, draws)
    ensures BuiltFrom(t, Persons(t, people, draws), draws)
  {
    var persons := Persons(t, people, draws);
    forall q | 0 <= q < |persons|
      ensures persons[q] == MakePerson(t, people[q], draws[q])
    {
    }
  }

  /** Every record of persons built from draws comes from one person's common draws and one of its role draws. */
  lemma RecordOrigin(t: Tables, data: seq<MpdRecord>, persons: seq<Person>, draws: seq<PersonDraw>, i: nat)
    requires TablesFit(t) && AllFit(persons) && BuiltFrom(t, persons, draws)
    requires data == AllRecords(1, persons) && i < |data|
    ensures exists q, j ::
      && 0 <= q < |draws| && DrawFits(draws[q]) && 0 <= j < |draws[q].roles|
      && data[i].common == MakeCommon(t, draws[q].common)
      && data[i].role == DrawRole(t, draws[q].roles[j])
  {
    AllRecordsOrigin(1, persons, i);
    var q, j :|
      && 0 <= q < |persons| && 0 <= j < |persons[q].roles|
      && data[i].common == persons[q].common
      && data[i].role == persons[q].roles[j];
    assert data[i].role == DrawRole(t, draws[q].roles[j]);
  }

  /**
   * Every record was built from the draws of one person: its common fields
   * from that person's common draws, its role from one of that person's
   * role draws.
   */
  lemma DatasetRecordOrigin(t: Tables, totalRows: int, planPicks: seq<nat>, draws: seq<PersonDraw>, i: nat)
    requires TablesFit(t) && DatasetDraws(totalRows, planPicks, draws)
    requires i < |Dataset(t, totalRows, planPicks, draws)|
    ensures exists q, j ::
      && 0 <= q < |draws| && DrawFits(draws[q]) && 0 <= j < |draws[q].roles|
      && Dataset(t, totalRows, planPicks, draws)[i].common == MakeCommon(t, draws[q].common)
      && Dataset(t, totalRows, planPicks, draws)[i].role == DrawRole(t, draws[q].roles[j])
  {
    var people := DatasetPlan(totalRows, planPicks, draws);
    var persons := Persons(t, people, draws);
    PersonsBuiltFrom(t, people, draws);
    RecordOrigin(t, Dataset(t, totalRows, planPicks, draws), persons, draws, i);
  }

  /** Every record's common fields and role fields have the shape the source gives them. */
  lemma DatasetRecordFacts(t: Tables, totalRows: int, planPicks: seq<nat>, draws: seq<PersonDraw>, i: nat)
    requires TablesFit(t) && DatasetDraws(totalRows, planPicks, draws)
    requires i < |Dataset(t, totalRows, planPicks, draws)|
    ensures CommonFacts(t, Dataset(t, totalRows, planPicks, draws)[i].common)
    ensures RoleFacts(t, Dataset(t, totalRows, planPicks, draws)[i].role)
  {
    DatasetRecordOrigin(t, totalRows, planPicks, draws, i);
    var q, j :|
      && 0 <= q < |draws| && DrawFits(draws[q]) && 0 <= j < |draws[q].roles|
      && Dataset(t, totalRows, planPicks, draws)[i].common == MakeCommon(t, draws[q].common)
      && Dataset(t, totalRows, planPicks, draws)[i].role == DrawRole(t, draws[q].roles[j]);
    MakeCommonFacts(t, draws[q].common);
    DrawRoleFacts(t, draws[q].roles[j]);
  }

  /** Across the whole dataset, two records share a CIMPL_RANK exactly when they share a DFP. */
  lemma DatasetRanksConsistent(t: Tables, totalRows: int, planPicks: seq<nat>, draws: seq<PersonDraw>, i: nat, k: nat)
    requires TablesFit(t) && DatasetDraws(totalRows, planPicks, draws)
    requires i < |Dataset(t, totalRows, planPicks, draws)| && k < |Dataset(t, totalRows, planPicks, draws)|
    ensures var data := Dataset(t, totalRows, planPicks, draws);
      data[i].role.cimplRank == data[k].role.cimplRank <==> data[i].role.dfp == data[k].role.dfp
  {
    DatasetRecordFacts(t, totalRows, planPicks, draws, i);
    DatasetRecordFacts(t, totalRows, planPicks, draws, k);
    var data := Dataset(t, totalRows, planPicks, draws);
    RoleRanksConsistent(t, data[i].role, data[k].role);
  }

  // ---------------------------------------------------------------------------
  // The generator loop
  // ---------------------------------------------------------------------------

  /** Looking a role's DFP up in a filled rank table gives the role `DrawRole` describes. */
  lemma RoleFromTable(t: Tables, table: map<string, string>, pick: RolePick)
    requires TablesFit(t) && RanksByIndex(t.domains, t.functions, table)
    ensures var domain := t.domains[pick.domain % |t.domains|];
      var jobFunction := t.functions[pick.jobFunction % |t.functions|];
      && Dfp(domain, jobFunction) in table
      && RoleFields(domain, jobFunction, Dfp(domain, jobFunction), table[Dfp(domain, jobFunction)]) == DrawRole(t, pick)
  {
  }

  /**
   * The inner `for role_idx in range(num_roles)` loop: one record per role,
   * with consecutive IDs from `firstId`, the person's common fields, the
   * role's domain, function, DFP and the rank the table holds for that DFP,
   * and the role's FTE share.
   */
  method EmitPersonRecords(t: Tables, table: map<string, string>, firstId: int, common: CommonFields,
                           fteSplits: seq<int>, rolePicks: seq<RolePick>) returns (records: seq<MpdRecord>)
    requires TablesFit(t) && RanksByIndex(t.domains, t.functions, table)
    requires |rolePicks| >= |fteSplits|
    ensures records == PersonRecords(firstId, Person(common, fteSplits, DrawRoles(t, |fteSplits|, rolePicks)))
  {
    ghost var person := Person(common, fteSplits, DrawRoles(t, |fteSplits|, rolePicks));
    records := [];
    var recordId := firstId;
    for roleIdx := 0 to |fteSplits|
      invariant recordId == firstId + roleIdx
      invariant records == PersonRecords(firstId, person)[..roleIdx]
    {
      var pick := rolePicks[roleIdx];
      var domain := t.domains[pick.domain % |t.domains|];
      var jobFunction := t.functions[pick.jobFunction % |t.functions|];
      var dfp := Dfp(domain, jobFunction);
      RoleFromTable(t, table, pick);
      var cimplRank := table[dfp];
      var record := MpdRecord(recordId, common, RoleFields(domain, jobFunction, dfp, cimplRank), fteSplits[roleIdx]);
      assert PersonRecords(firstId, person)[..roleIdx + 1] == records + [record];
      records := records + [record];
      recordId := recordId + 1;
    }
  }

  /** The records emitted so far, followed by the records of the persons still to come, are all records. */
  ghost predicate Emitted(data: seq<MpdRecord>, recordId: int, persons: seq<Person>, k: nat, all: seq<MpdRecord>)
    requires AllFit(persons) && k <= |persons|
  {
    data + AllRecords(recordId, persons[k..]) == all
  }

  /** Person k of a plan is built from the k-th draws. */
  lemma PersonOfPlan(t: Tables, people: seq<int>, draws: seq<PersonDraw>, k: nat)
    requires TablesFit(t) && DrawsFit(people, draws) && k < |people|
    ensures Persons(t, people, draws)[k]
      == Person(MakeCommon(t, draws[k].common), FteSplits(people[k], draws[k].fte), DrawRoles(t, people[k], draws[k].roles))
  {
  }

  /** One iteration of the outer loop: the next person's records are appended and the rest follow. */
  lemma EmitAdvance(data: seq<MpdRecord>, records: seq<MpdRecord>, newData: seq<MpdRecord>,
                    recordId: int, newId: int, persons: seq<Person>, k: nat, all: seq<MpdRecord>)
    requires AllFit(persons) && k < |persons|
    requires records == PersonRecords(recordId, persons[k])
    requires newData == data + records && newId == recordId + |persons[k].splits|
    requires Emitted(data, recordId, persons, k, all)
    ensures Emitted(newData, newId, persons, k + 1, all)
  {
    AllRecordsCons(recordId, persons[k..]);
    assert persons[k..][1..] == persons[k + 1..];
  }

  /**
   * `generate_mpd_dataset(total_rows)`: plan the people, fill the rank
   * table, then for each person draw the common fields and the FTE split and
   * emit one record per role. The result is exactly `Dataset`, so it has the
   * requested number of rows (`DatasetSize`), IDs 1, 2, ... (`DatasetIds`),
   * one run per person (`DatasetPerson`) and consistent ranks
   * (`DatasetRanksConsistent`).
   */
  method GenerateMpdDataset(t: Tables, totalRows: int, planPicks: seq<nat>, draws: seq<PersonDraw>)
    returns (data: seq<MpdRecord>)
    requires TablesFit(t) && DatasetDraws(totalRows, planPicks, draws)
    ensures data == Dataset(t, totalRows, planPicks, draws)
  {
    var people := PlanPeople(totalRows, planPicks);
    assert people == DatasetPlan(totalRows, planPicks, draws);
    ghost var persons := Persons(t, people, draws);
    ghost var all := AllRecords(1, persons);
    var table := BuildRankTable(t.domains, t.functions);
    data := [];
    var recordId := 1;
    for personIdx := 0 to |people|
      invariant Emitted(data, recordId, persons, personIdx, all)
    {
      var numRoles := people[personIdx];
      var draw := draws[personIdx];
      var common := MakeCommon(t, draw.common);
      var fteSplits := GenerateFteSplits(numRoles, draw.fte);
      var records := EmitPersonRecords(t, table, recordId, common, fteSplits, draw.roles);
      PersonOfPlan(t, people, draws, personIdx);
      ghost var previous, previousId := data, recordId;
      data := data + records;
      recordId := recordId + numRoles;
      EmitAdvance(previous, records, data, previousId, recordId, persons, personIdx, all);
    }
    assert persons[|people|..] == [];
  }
}
