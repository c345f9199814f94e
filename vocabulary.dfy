/**
 * The fixed vocabularies the generator draws its categorical fields from.
 * Orders and spellings follow `generate_mpd_dataset` and
 * `generate_test_scores_dataset`; the order matters wherever an index is
 * derived from a position (the rank table numbers domains and functions by
 * position).
 */
module Vocabulary {

  datatype Snapshot = Snapshot(name: string, date: string)

  datatype Address = Address(city: string, state: string, country: string)

  const Snapshots: seq<Snapshot> := [
    Snapshot("Fall 2023", "2023-10-31"),
    Snapshot("Spring 2024", "2024-02-28"),
    Snapshot("Fall 2024", "2024-10-31"),
    Snapshot("Spring 2025", "2025-02-28")
  ]

  const NipfPriorities: seq<string> := ["1", "2", "3", "4", "NONE"]
  const AffiliationTypes: seq<string> := ["CONTRACTOR", "CIVILIAN", "MILITARY"]
  const DomainTwoThree: seq<string> := ["YES", "NO"]
  const SiteResilience: seq<string> := ["ABC", "DEF", "GHI", "JKL"]

  /** The seven ABAC tokens. */
  const Tokens: seq<string> := ["AAA", "BBB", "CCC", "DDD", "XXX", "YYY", "ZZZ"]

  /** Organisation codes Z11 .. Z44, first digit outer, second digit inner. */
  const Orgs: seq<string> := [
    "Z11", "Z12", "Z13", "Z14", "Z21", "Z22", "Z23", "Z24",
    "Z31", "Z32", "Z33", "Z34", "Z41", "Z42", "Z43", "Z44"
  ]

  const Functions: seq<string> := [
    "SOFTWARE ENGINEER", "DATA ANALYST", "SYSTEM ADMINISTRATOR", "PROJECT MANAGER",
    "CYBERSECURITY SPECIALIST", "TECHNICAL LEAD", "OPERATIONS MANAGER",
    "RESEARCH ANALYST", "QUALITY ASSURANCE", "BUSINESS ANALYST"
  ]

  const Buildings: seq<string> := ["BLDG 1", "BLDG 2", "BLDG 3", "BLDG 4", "BLDG 5", "ANNEX A", "ANNEX B", "HQ"]
  const Categories: seq<string> := ["OFFICER", "ENLISTED", "CIVILIAN", "CONTRACTOR"]

  const Addresses: seq<Address> := [
    Address("SAN ANTONIO", "TX", "UNITED STATES OF AMERICA"),
    Address("COLORADO SPRINGS", "CO", "UNITED STATES OF AMERICA"),
    Address("DAYTON", "OH", "UNITED STATES OF AMERICA"),
    Address("WASHINGTON", "DC", "UNITED STATES OF AMERICA"),
    Address("NORFOLK", "VA", "UNITED STATES OF AMERICA"),
    Address("TAMPA", "FL", "UNITED STATES OF AMERICA"),
    Address("LAS VEGAS", "NV", "UNITED STATES OF AMERICA"),
    Address("LOS ANGELES", "CA", "UNITED STATES OF AMERICA"),
    Address("OMAHA", "NE", "UNITED STATES OF AMERICA"),
    Address("MONTGOMERY", "AL", "UNITED STATES OF AMERICA"),
    Address("SHREVEPORT", "LA", "UNITED STATES OF AMERICA"),
    Address("SPOKANE", "WA", "UNITED STATES OF AMERICA"),
    Address("TUCSON", "AZ", "UNITED STATES OF AMERICA"),
    Address("GOLDSBORO", "NC", "UNITED STATES OF AMERICA"),
    Address("LITTLE ROCK", "AR", "UNITED STATES OF AMERICA"),
    Address("BILOXI", "MS", "UNITED STATES OF AMERICA"),
    Address("DEL RIO", "TX", "UNITED STATES OF AMERICA"),
    Address("VALDOSTA", "GA", "UNITED STATES OF AMERICA"),
    Address("GREAT FALLS", "MT", "UNITED STATES OF AMERICA"),
    Address("MINOT", "ND", "UNITED STATES OF AMERICA"),
    Address("CHEYENNE", "WY", "UNITED STATES OF AMERICA"),
    Address("SALT LAKE CITY", "UT", "UNITED STATES OF AMERICA"),
    Address("ANCHORAGE", "AK", "UNITED STATES OF AMERICA"),
    Address("HONOLULU", "HI", "UNITED STATES OF AMERICA"),
    // international locations carry no state
    Address("RAMSTEIN", "", "GERMANY"),
    Address("SPANGDAHLEM", "", "GERMANY"),
    Address("KAISERSLAUTERN", "", "GERMANY"),
    Address("STUTTGART", "", "GERMANY"),
    Address("WIESBADEN", "", "GERMANY"),
    Address("YOKOTA", "", "JAPAN"),
    Address("KADENA", "", "JAPAN"),
    Address("MISAWA", "", "JAPAN"),
    Address("OSAN", "", "SOUTH KOREA"),
    Address("KUNSAN", "", "SOUTH KOREA"),
    Address("LAKENHEATH", "", "UNITED KINGDOM"),
    Address("MILDENHALL", "", "UNITED KINGDOM"),
    Address("CROUGHTON", "", "UNITED KINGDOM"),
    Address("AVIANO", "", "ITALY"),
    Address("SIGONELLA", "", "ITALY"),
    Address("INCIRLIK", "", "TURKEY"),
    Address("AL UDEID", "", "QATAR"),
    Address("AL DHAFRA", "", "UNITED ARAB EMIRATES"),
    Address("ANDERSEN", "", "GUAM"),
    Address("DIEGO GARCIA", "", "BRITISH INDIAN OCEAN TERRITORY"),
    Address("THULE", "", "GREENLAND"),
    Address("KEFLAVIK", "", "ICELAND")
  ]

  const Statuses: seq<string> := ["ACTIVE", "RESERVE", "GUARD", "CIVILIAN", "CONTRACT"]
  const Skills: seq<string> := [
    "CYBERSECURITY", "ENGINEERING", "INTELLIGENCE", "LOGISTICS",
    "MEDICAL", "PILOT", "MAINTENANCE", "COMMUNICATIONS"
  ]
  const FocusAreas: seq<string> := ["CYBER OPERATIONS", "AIR SUPERIORITY", "GLOBAL STRIKE", "MOBILITY", "ISR"]
  const FunctionalRoles: seq<string> := ["ANALYST", "TECHNICIAN", "MANAGER", "SPECIALIST", "ADMINISTRATOR"]

  const Domains: seq<string> := [
    "ARTIFICIAL INTELLIGENCE", "CLOUD COMPUTING", "CYBERSECURITY", "DATA SCIENCE", "ROBOTICS",
    "BLOCKCHAIN", "QUANTUM", "BIOMETRICS", "SATELLITE", "WIRELESS"
  ]

  const WorkRoles: seq<string> := ["ANALYST", "ENGINEER", "OPERATOR", "MANAGER", "TECHNICIAN"]
  const RankCategories: seq<string> := ["JUNIOR", "MID-LEVEL", "SENIOR", "EXECUTIVE"]
  const LoeJustifications: seq<string> := ["MISSION CRITICAL", "SUPPORT", "ADMINISTRATIVE", "TRAINING"]
  const CriticalSkillsOptions: seq<string> := ["YES", "NO"]
  const NiabLetters: seq<string> := ["A", "B", "C", "D", "E"]

  /** `string.ascii_uppercase` and `string.ascii_uppercase + string.digits`. */
  const Uppercase: string := "ABCDEFGHIJKLMNOPQRSTUVWXYZ"
  const UppercaseAndDigits: string := "ABCDEFGHIJKLMNOPQRSTUVWXYZ0123456789"

  const Languages: seq<string> := [
    "BASIC", "HUTTESE", "SHYRIIWOOK", "RODIAN", "TWI'LEKI", "DROIDSPEAK",
    "EWOKESE", "JAWAESE", "MANDALORIAN", "BOCCE", "SULLUSTESE", "DURESE",
    "ZABRAK", "CEREAN", "GUNGAN", "NABOO", "CORELLIAN", "ALDERAANIAN"
  ]

  /**
   * The lists `generate_mpd_dataset` draws its categorical fields from,
   * gathered in one value so that the record builders can be stated for any
   * lists of the right shape. `SourceTables` holds the source's lists.
   */
  datatype Tables = Tables(
    snapshots: seq<Snapshot>,
    addresses: seq<Address>,
    orgs: seq<string>,
    buildings: seq<string>,
    categories: seq<string>,
    focusAreas: seq<string>,
    niabLetters: seq<string>,
    functionalRoles: seq<string>,
    nipfPriorities: seq<string>,
    skills: seq<string>,
    workRoles: seq<string>,
    rankCategories: seq<string>,
    statuses: seq<string>,
    loeJustifications: seq<string>,
    affiliationTypes: seq<string>,
    criticalSkills: seq<string>,
    domainTwoThree: seq<string>,
    siteResilience: seq<string>,
    domains: seq<string>,
    functions: seq<string>)

  const SourceTables: Tables := Tables(
    Snapshots, Addresses, Orgs, Buildings, Categories, FocusAreas, NiabLetters,
    FunctionalRoles, NipfPriorities, Skills, WorkRoles, RankCategories, Statuses,
    LoeJustifications, AffiliationTypes, CriticalSkillsOptions, DomainTwoThree,
    SiteResilience, Domains, Functions)
}
