/**
 * The three tables of the airdrop store (projects, airdrops, risk_factors)
 * and the constraints the schema places on them.
 */
module Rows {
  import opened Wrappers

  /** The closed enum of the `status` column: CHECK(status IN ('upcoming','live','ended')). */
  datatype Status = Upcoming | Live | Ended

  function StatusName(st: Status): string {
    match st
    case Upcoming => "upcoming"
    case Live => "live"
    case Ended => "ended"
  }

  /** The enum value whose name is `s`, if any: the test the CHECK constraint and the zod enum apply. */
  function StatusOf(s: string): (r: Option<Status>)
    ensures r.Some? ==> StatusName(r.value) == s
  {
    if s == "upcoming" then Some(Upcoming)
    else if s == "live" then Some(Live)
    else if s == "ended" then Some(Ended)
    else None
  }

  /** Status names and enum values are in one-to-one correspondence. */
  lemma StatusNameRoundTrip(st: Status, s: string)
    ensures StatusOf(StatusName(st)) == Some(st)
    ensures StatusOf(s).Some? <==> s in {"upcoming", "live", "ended"}
  {
  }

  /** A row of `projects`; `created_at` is not part of this model. */
  datatype ProjectRow = ProjectRow(
    id: string, name: string, chain: string,
    website: Option<string>, twitter: Option<string>)

  /** A row of `airdrops`. */
  datatype AirdropRow = AirdropRow(
    id: string, projectId: string, title: string, status: Status,
    startDate: Option<string>, endDate: Option<string>,
    reward: Option<string>, link: Option<string>)

  /** A row of `risk_factors`, keyed by the airdrop it belongs to. */
  datatype RiskRow = RiskRow(
    airdropId: string, sybil: int, scam: int, task: int, kyc: int,
    notes: Option<string>)

  /** The column defaults of `risk_factors`: 50, 50, 50 and 0. */
  const DefaultSybil: int := 50
  const DefaultScam: int := 50
  const DefaultTask: int := 50
  const DefaultKyc: int := 0

  /** The contents of the database: each table as a map from primary key to row. */
  datatype Tables = Tables(
    projects: map<string, ProjectRow>,
    airdrops: map<string, AirdropRow>,
    risks: map<string, RiskRow>)

  const Empty: Tables := Tables(map[], map[], map[])

  /**
   * The constraints of the schema that the data can break: each row is stored
   * under its own primary key, `airdrops.project_id` references `projects(id)`
   * and `risk_factors.airdrop_id` references `airdrops(id)`.
   * The status enum holds by the type of `AirdropRow.status`.
   */
  ghost predicate ValidTables(t: Tables) {
    && (forall k :: k in t.projects ==> t.projects[k].id == k)
    && (forall k :: k in t.airdrops ==> t.airdrops[k].id == k && t.airdrops[k].projectId in t.projects)
    && (forall k :: k in t.risks ==> t.risks[k].airdropId == k && k in t.airdrops)
  }

  /** Every risk factor lies in [0,100]; the import validation guarantees it for what it writes. */
  predicate FactorInRange(x: int) {
    0 <= x <= 100
  }

  predicate RiskInRange(r: RiskRow) {
    FactorInRange(r.sybil) && FactorInRange(r.scam) && FactorInRange(r.task) && FactorInRange(r.kyc)
  }

  ghost predicate AllRisksInRange(t: Tables) {
    forall k :: k in t.risks ==> RiskInRange(t.risks[k])
  }
}
