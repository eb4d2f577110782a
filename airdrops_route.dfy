/** GET /api/airdrops: query parameters to ListOptions, then the filtered listing. */
module AirdropsRoute {
  import opened Wrappers
  import opened Rows
  import opened Query
  import opened TableOps
  import opened Store

  /** URLSearchParams as `get` sees it: the first value of each parameter present. */
  type SearchParams = map<string, string>

  /** `searchParams.get(k) ?? undefined` */
  function Param(sp: SearchParams, k: string): (r: Option<string>)
    ensures r.Some? <==> k in sp
    ensures r.Some? ==> r.value == sp[k]
  {
    if k in sp then Some(sp[k]) else None
  }

  /** `parseStatus`: the three enum names pass, null and any other string give undefined. */
  function ParseStatus(v: Option<string>): (r: Option<Status>)
    ensures r.Some? <==> v.Some? && v.value in {"upcoming", "live", "ended"}
    ensures r.Some? ==> StatusName(r.value) == v.value
  {
    if v.Some? then StatusOf(v.value) else None
  }

  /** `parseSort`: absent gives 'rank'; the five names pass unchanged; any other string gives 'rank'. */
  function ParseSort(v: Option<string>): (r: SortKey)
    ensures v.None? ==> r == Rank
    ensures v.Some? && v.value in {"rank", "riskAsc", "riskDesc", "start", "end"} ==> SortName(r) == v.value
    ensures v.Some? && v.value !in {"rank", "riskAsc", "riskDesc", "start", "end"} ==> r == Rank
  {
    var s := if v.Some? then v.value else "rank";
    match SortOf(s)
    case Some(k) => k
    case None => Rank
  }

  /**
   * `x ? Number(x) : undefined` for riskMin/riskMax: an absent or empty parameter
   * gives no bound. `toNumber` stands for JavaScript's Number().
   */
  function RiskParam(v: Option<string>, toNumber: string -> int): (r: Option<int>)
    ensures r.Some? <==> v.Some? && v.value != ""
    ensures r.Some? ==> r.value == toNumber(v.value)
  {
    if v.Some? && v.value != "" then Some(toNumber(v.value)) else None
  }

  /** The ListOptions the handler builds from the query string. */
  function RouteOptions(sp: SearchParams, toNumber: string -> int): ListOptions {
    ListOptions(
      Param(sp, "chain"), ParseStatus(Param(sp, "status")), Param(sp, "q"),
      RiskParam(Param(sp, "riskMin"), toNumber), RiskParam(Param(sp, "riskMax"), toNumber),
      Some(ParseSort(Param(sp, "sort"))))
  }

  /** Each option comes from its own parameter, and an absent parameter leaves its option unset. */
  lemma RouteOptionsFromParams(sp: SearchParams, toNumber: string -> int)
    ensures var o := RouteOptions(sp, toNumber);
      && ("chain" !in sp ==> o.chain.None?) && ("chain" in sp ==> o.chain == Some(sp["chain"]))
      && ("q" !in sp ==> o.q.None?) && ("q" in sp ==> o.q == Some(sp["q"]))
      && ("status" !in sp ==> o.status.None?)
      && ("status" in sp ==> (o.status.Some? <==> sp["status"] in {"upcoming", "live", "ended"}))
      && (o.status.Some? ==> StatusName(o.status.value) == sp["status"])
      && ("riskMin" !in sp || sp["riskMin"] == "" ==> o.riskMin.None?)
      && ("riskMin" in sp && sp["riskMin"] != "" ==> o.riskMin == Some(toNumber(sp["riskMin"])))
      && ("riskMax" !in sp || sp["riskMax"] == "" ==> o.riskMax.None?)
      && ("riskMax" in sp && sp["riskMax"] != "" ==> o.riskMax == Some(toNumber(sp["riskMax"])))
      && ("sort" !in sp ==> o.sort == Some(Rank))
      && ("sort" in sp && sp["sort"] in {"rank", "riskAsc", "riskDesc", "start", "end"}
          ==> o.sort.Some? && SortName(o.sort.value) == sp["sort"])
      && ("sort" in sp && sp["sort"] !in {"rank", "riskAsc", "riskDesc", "start", "end"} ==> o.sort == Some(Rank))
  {
  }

  /** Without filter parameters every row of the view matches, in the default rank order. */
  lemma NoParamsNoFilter(sp: SearchParams, toNumber: string -> int, r: AirdropItem)
    requires forall k :: k in sp ==> sp[k] == "" || k !in {"chain", "status", "q", "riskMin", "riskMax"}
    ensures Matches(r, RouteOptions(sp, toNumber))
    ensures "sort" !in sp ==> EffectiveSort(RouteOptions(sp, toNumber)) == Rank
  {
    assert "status" in sp ==> ParseStatus(Param(sp, "status")).None?;
  }

  /** The handler `GET`: ensureReady, then `listAirdropsFiltered` with the options, forwarded unchanged. */
  method Get(db: Db, sp: SearchParams, toNumber: string -> int) returns (r: Result<seq<AirdropItem>, StoreError>)
    requires db.Valid()
    modifies db
    ensures db.Valid()
    ensures r.Ok? <==> SeedTables(old(db.Snapshot())).Ok?
    ensures r.Ok? ==> (db.Snapshot() == SeedTables(old(db.Snapshot())).value
      && IsListing(db.Snapshot(), RouteOptions(sp, toNumber), r.value))
    ensures r.Err? ==> r.error == SeedTables(old(db.Snapshot())).error && db.Snapshot() == old(db.Snapshot())
  {
    ghost var start := db.Snapshot();
    var failure := db.EnsureReady();
    if failure.Some? {
      return Err(failure.value);
    }
    SeedIdempotent(start);
    var opts := RouteOptions(sp, toNumber);
    r := db.ListAirdropsFiltered(opts);
  }
}
