/** The helpers of the listing page: colour band of a score and search params to ListOptions. */
module Page {
  import opened Wrappers
  import opened Rows
  import opened Query
  import opened TableOps
  import opened Store
  import AirdropsRoute

  /** A search parameter of the page: one string or, when repeated, an array of them. */
  datatype ParamValue = One(s: string) | Many(values: seq<string>)

  type PageParams = map<string, ParamValue>

  /** The colour classes of the risk bar. */
  datatype Color = Green | Yellow | Red

  /** `riskColor`: the three bands <=30, (30,60] and >60. */
  function RiskColor(score: int): (c: Color)
    ensures c == Green <==> score <= 30
    ensures c == Yellow <==> 30 < score <= 60
    ensures c == Red <==> score > 60
  {
    if score <= 30 then Green
    else if score <= 60 then Yellow
    else Red
  }

  /** A riskier score never gets a safer colour. */
  lemma RiskColorMonotone(a: int, b: int)
    requires a <= b
    ensures RiskColor(a) == Red ==> RiskColor(b) == Red
    ensures RiskColor(b) == Green ==> RiskColor(a) == Green
  {
  }

  /** `pick`: a value only when the parameter is a single string. */
  function Pick(sp: PageParams, k: string): (r: Option<string>)
    ensures r.Some? <==> k in sp && sp[k].One?
    ensures r.Some? ==> sp[k] == One(r.value)
  {
    if k in sp && sp[k].One? then Some(sp[k].s) else None
  }

  /** `isStatus`: exactly the three enum names. */
  function IsStatus(v: Option<string>): (b: bool)
    ensures b <==> v.Some? && v.value in {"live", "upcoming", "ended"}
  {
    v.Some? && (v.value == "live" || v.value == "upcoming" || v.value == "ended")
  }

  /** `isSort`: exactly the five sort names. */
  function IsSort(v: Option<string>): (b: bool)
    ensures b <==> v.Some? && v.value in {"rank", "riskAsc", "riskDesc", "start", "end"}
  {
    v.Some? && (v.value == "rank" || v.value == "riskAsc" || v.value == "riskDesc"
                || v.value == "start" || v.value == "end")
  }

  /** The options the page passes to `listAirdropsFiltered`; `toNumber` stands for Number(). */
  function PageOptions(sp: PageParams, toNumber: string -> int): ListOptions {
    var st := Pick(sp, "status");
    var srt := Pick(sp, "sort");
    var rmin, rmax := Pick(sp, "riskMin"), Pick(sp, "riskMax");
    ListOptions(
      Pick(sp, "chain"),
      if IsStatus(st) then StatusOf(st.value) else None,
      Pick(sp, "q"),
      if rmin.Some? && rmin.value != "" then Some(toNumber(rmin.value)) else None,
      if rmax.Some? && rmax.value != "" then Some(toNumber(rmax.value)) else None,
      Some(if IsSort(srt) then SortOf(srt.value).value else Rank))
  }

  /** The single-string parameters of the page, as URLSearchParams would report them. */
  function Singles(sp: PageParams): AirdropsRoute.SearchParams {
    map k | k in sp && sp[k].One? :: sp[k].s
  }

  /**
   * The page and the API route build the same options from the same single-valued
   * parameters: invalid status becomes undefined, invalid sort 'rank', empty bounds none.
   */
  lemma PageAgreesWithRoute(sp: PageParams, toNumber: string -> int)
    ensures PageOptions(sp, toNumber) == AirdropsRoute.RouteOptions(Singles(sp), toNumber)
  {
    var single := Singles(sp);
    assert forall k :: Pick(sp, k) == AirdropsRoute.Param(single, k);
    var srt := Pick(sp, "sort");
    if IsSort(srt) {
      SortNameRoundTrip(SortOf(srt.value).value, srt.value);
    }
  }

  /** An array-valued parameter is ignored like an absent one. */
  lemma ArrayParamIgnored(sp: PageParams, k: string, vs: seq<string>)
    ensures Pick(sp[k := Many(vs)], k) == Pick(sp - {k}, k) == None
  {
  }

  /** The listing shown by the page. */
  method Items(db: Db, sp: PageParams, toNumber: string -> int) returns (r: Result<seq<AirdropItem>, StoreError>)
    requires db.Valid()
    modifies db
    ensures db.Valid()
    ensures r.Ok? <==> SeedTables(old(db.Snapshot())).Ok?
    ensures r.Ok? ==> (db.Snapshot() == SeedTables(old(db.Snapshot())).value
      && IsListing(db.Snapshot(), PageOptions(sp, toNumber), r.value))
    ensures r.Err? ==> r.error == SeedTables(old(db.Snapshot())).error && db.Snapshot() == old(db.Snapshot())
  {
    r := db.ListAirdropsFiltered(PageOptions(sp, toNumber));
  }
}
