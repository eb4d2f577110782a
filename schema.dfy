/**
 * Validation of an import payload, written as parsers that either accept a
 * JSON value (producing the row with its defaults filled in) or reject it,
 * following the zod schemas ProjectSchema, AirdropSchema, RiskSchema,
 * ImportItemSchema and ImportPayloadSchema; and `riskScoreOf`.
 */
module Schema {
  import opened Wrappers
  import opened Rows
  import Scoring

  /** A decoded JSON value; numbers are exact reals. */
  datatype JsonValue =
    | JNull
    | JBool(b: bool)
    | JNum(n: real)
    | JStr(s: string)
    | JArr(elems: seq<JsonValue>)
    | JObj(fields: map<string, JsonValue>)

  /**
   * One element of `items` as zod returns it: the three rows, and the optional
   * keys that its output leaves out. zod drops an absent `.optional()` key from
   * the object it returns instead of setting it to null.
   */
  datatype ImportItem = ImportItem(project: ProjectRow, airdrop: AirdropRow, risk: RiskRow, unbound: set<string>)

  /** The optional keys of ProjectSchema, AirdropSchema and RiskSchema. */
  const ProjectOptional: set<string> := {"website", "twitter"}
  const AirdropOptional: set<string> := {"start_date", "end_date", "reward", "link"}
  const RiskOptional: set<string> := {"notes"}

  /** The key is present and holds a string. */
  predicate IsString(o: map<string, JsonValue>, k: string) {
    k in o && o[k].JStr?
  }

  /** The key is present and holds the string `s`. */
  predicate HasString(o: map<string, JsonValue>, k: string, s: string) {
    k in o && o[k] == JStr(s)
  }

  /** What `z.string().optional().nullable()` lets through: absent, null or a string. */
  predicate OptionalOk(o: map<string, JsonValue>, k: string) {
    k !in o || o[k].JNull? || o[k].JStr?
  }

  /** The optional text `x` is what the key holds: a string, or nothing when absent or null. */
  predicate Carries(o: map<string, JsonValue>, k: string, x: Option<string>) {
    if x.Some? then HasString(o, k, x.value) else k !in o || o[k].JNull?
  }

  /** The keys among `keys` that the object leaves out. */
  function AbsentKeys(o: map<string, JsonValue>, keys: set<string>): (r: set<string>)
    ensures forall k :: k in r <==> k in keys && k !in o
  {
    set k | k in keys && k !in o
  }

  /** `z.string()`: the key must be present and hold a string. */
  function RequiredString(o: map<string, JsonValue>, k: string): (r: Option<string>)
    ensures r.Some? <==> IsString(o, k)
    ensures r.Some? ==> HasString(o, k, r.value)
  {
    if k in o && o[k].JStr? then Some(o[k].s) else None
  }

  /** `z.string().optional().nullable()`: absent, null or a string; the outer None is a rejection. */
  function OptionalString(o: map<string, JsonValue>, k: string): (r: Option<Option<string>>)
    ensures r.Some? <==> OptionalOk(o, k)
    ensures r.Some? ==> Carries(o, k, r.value)
    ensures r == Some(None) <==> k !in o || o[k].JNull?
  {
    if k !in o then Some(None)
    else match o[k]
      case JNull => Some(None)
      case JStr(s) => Some(Some(s))
      case _ => None
  }

  /** Whether a JSON number is an integer (`.int()`). */
  predicate IsInteger(n: real) {
    n.Floor as real == n
  }

  /** What `z.number().int().min(0).max(100).default(d)` lets through: absent, or an integer number in [0,100]. */
  predicate FactorOk(o: map<string, JsonValue>, k: string) {
    k !in o || (o[k].JNum? && IsInteger(o[k].n) && 0.0 <= o[k].n <= 100.0)
  }

  /** The factor `x` is the key's number, or the default when the key is absent. */
  predicate FactorCarries(o: map<string, JsonValue>, k: string, default: int, x: int) {
    if k in o then o[k] == JNum(x as real) else x == default
  }

  /** `z.number().int().min(0).max(100).default(d)`: the default replaces only an absent key. */
  function RiskFactor(o: map<string, JsonValue>, k: string, default: int): (r: Option<int>)
    ensures k !in o ==> r == Some(default)
    ensures r.Some? <==> FactorOk(o, k)
    ensures r.Some? ==> FactorCarries(o, k, default, r.value)
    ensures k in o && r.Some? ==> FactorInRange(r.value)
  {
    if k !in o then Some(default)
    else match o[k]
      case JNum(n) => if IsInteger(n) && 0.0 <= n <= 100.0 then Some(n.Floor) else None
      case _ => None
  }

  /** ProjectSchema; keys it does not name are ignored. */
  function ParseProject(v: JsonValue): (r: Option<ProjectRow>)
    ensures r.Some? <==> (v.JObj? && IsString(v.fields, "id") && IsString(v.fields, "name")
      && IsString(v.fields, "chain") && OptionalOk(v.fields, "website") && OptionalOk(v.fields, "twitter"))
    ensures r.Some? ==> (v.JObj? && HasString(v.fields, "id", r.value.id) && HasString(v.fields, "name", r.value.name)
      && HasString(v.fields, "chain", r.value.chain)
      && Carries(v.fields, "website", r.value.website) && Carries(v.fields, "twitter", r.value.twitter))
  {
    if !v.JObj? then None
    else
      var o := v.fields;
      var id, name, chain := RequiredString(o, "id"), RequiredString(o, "name"), RequiredString(o, "chain");
      var website, twitter := OptionalString(o, "website"), OptionalString(o, "twitter");
      if id.Some? && name.Some? && chain.Some? && website.Some? && twitter.Some? then
        Some(ProjectRow(id.value, name.value, chain.value, website.value, twitter.value))
      else None
  }

  /** The `status` field read through the enum: None unless it is one of the three names. */
  function StatusField(o: map<string, JsonValue>): (r: Option<Status>)
    ensures r.Some? <==> IsString(o, "status") && o["status"].s in {"upcoming", "live", "ended"}
    ensures r.Some? ==> HasString(o, "status", StatusName(r.value))
  {
    if "status" in o && o["status"].JStr? then StatusOf(o["status"].s) else None
  }

  /** AirdropSchema; `status` must be one of the three enum names, and keys it does not name are ignored. */
  function ParseAirdrop(v: JsonValue): (r: Option<AirdropRow>)
    ensures r.Some? <==> (v.JObj? && IsString(v.fields, "id") && IsString(v.fields, "project_id")
      && IsString(v.fields, "title") && StatusField(v.fields).Some?
      && OptionalOk(v.fields, "start_date") && OptionalOk(v.fields, "end_date")
      && OptionalOk(v.fields, "reward") && OptionalOk(v.fields, "link"))
    ensures r.Some? ==> (v.JObj? && HasString(v.fields, "id", r.value.id)
      && HasString(v.fields, "project_id", r.value.projectId) && HasString(v.fields, "title", r.value.title)
      && HasString(v.fields, "status", StatusName(r.value.status))
      && Carries(v.fields, "start_date", r.value.startDate) && Carries(v.fields, "end_date", r.value.endDate)
      && Carries(v.fields, "reward", r.value.reward) && Carries(v.fields, "link", r.value.link))
  {
    if !v.JObj? then None
    else
      var o := v.fields;
      var id, pid, title, st := RequiredString(o, "id"), RequiredString(o, "project_id"),
        RequiredString(o, "title"), StatusField(o);
      var sd, ed := OptionalString(o, "start_date"), OptionalString(o, "end_date");
      var rw, ln := OptionalString(o, "reward"), OptionalString(o, "link");
      if id.Some? && pid.Some? && title.Some? && st.Some? && sd.Some? && ed.Some? && rw.Some? && ln.Some? then
        Some(AirdropRow(id.value, pid.value, title.value, st.value, sd.value, ed.value, rw.value, ln.value))
      else None
  }

  /** RiskSchema; each factor is an integer in [0,100], defaulting to 50, 50, 50 and 0. */
  function ParseRisk(v: JsonValue): (r: Option<RiskRow>)
    ensures r.Some? <==> (v.JObj? && IsString(v.fields, "airdrop_id")
      && FactorOk(v.fields, "sybil_risk") && FactorOk(v.fields, "scam_risk")
      && FactorOk(v.fields, "task_risk") && FactorOk(v.fields, "kyc_required") && OptionalOk(v.fields, "notes"))
    ensures r.Some? ==> RiskInRange(r.value)
    ensures r.Some? ==> (v.JObj? && HasString(v.fields, "airdrop_id", r.value.airdropId)
      && FactorCarries(v.fields, "sybil_risk", DefaultSybil, r.value.sybil)
      && FactorCarries(v.fields, "scam_risk", DefaultScam, r.value.scam)
      && FactorCarries(v.fields, "task_risk", DefaultTask, r.value.task)
      && FactorCarries(v.fields, "kyc_required", DefaultKyc, r.value.kyc)
      && Carries(v.fields, "notes", r.value.notes))
  {
    if !v.JObj? then None
    else
      var o := v.fields;
      var id, notes := RequiredString(o, "airdrop_id"), OptionalString(o, "notes");
      var s, c := RiskFactor(o, "sybil_risk", DefaultSybil), RiskFactor(o, "scam_risk", DefaultScam);
      var t, k := RiskFactor(o, "task_risk", DefaultTask), RiskFactor(o, "kyc_required", DefaultKyc);
      if id.Some? && s.Some? && c.Some? && t.Some? && k.Some? && notes.Some? then
        Some(RiskRow(id.value, s.value, c.value, t.value, k.value, notes.value))
      else None
  }

  /** ImportItemSchema: all three parts must be present and valid. */
  function ParseItem(v: JsonValue): (r: Option<ImportItem>)
    ensures r.Some? <==> (v.JObj? && "project" in v.fields && "airdrop" in v.fields && "risk" in v.fields
      && ParseProject(v.fields["project"]).Some? && ParseAirdrop(v.fields["airdrop"]).Some?
      && ParseRisk(v.fields["risk"]).Some?)
    ensures r.Some? ==> (v.JObj? && "project" in v.fields && "airdrop" in v.fields && "risk" in v.fields
      && v.fields["project"].JObj? && v.fields["airdrop"].JObj? && v.fields["risk"].JObj?
      && Some(r.value.project) == ParseProject(v.fields["project"])
      && Some(r.value.airdrop) == ParseAirdrop(v.fields["airdrop"])
      && Some(r.value.risk) == ParseRisk(v.fields["risk"])
      && r.value.unbound == AbsentKeys(v.fields["project"].fields, ProjectOptional)
           + AbsentKeys(v.fields["airdrop"].fields, AirdropOptional)
           + AbsentKeys(v.fields["risk"].fields, RiskOptional))
    ensures r.Some? ==> RiskInRange(r.value.risk)
  {
    if v.JObj? && "project" in v.fields && "airdrop" in v.fields && "risk" in v.fields then
      var p, a, k := ParseProject(v.fields["project"]), ParseAirdrop(v.fields["airdrop"]), ParseRisk(v.fields["risk"]);
      if p.Some? && a.Some? && k.Some? then
        var unbound := AbsentKeys(v.fields["project"].fields, ProjectOptional)
          + AbsentKeys(v.fields["airdrop"].fields, AirdropOptional)
          + AbsentKeys(v.fields["risk"].fields, RiskOptional);
        Some(ImportItem(p.value, a.value, k.value, unbound))
      else None
    else None
  }

  /** `z.array(ImportItemSchema)`: every element must be valid; the result keeps their order. */
  function ParseAll(xs: seq<JsonValue>): (r: Option<seq<ImportItem>>)
    ensures r.Some? <==> forall i :: 0 <= i < |xs| ==> ParseItem(xs[i]).Some?
    ensures r.Some? ==> |r.value| == |xs| && forall i :: 0 <= i < |xs| ==> ParseItem(xs[i]) == Some(r.value[i])
  {
    if xs == [] then Some([])
    else
      var head, tail := ParseItem(xs[0]), ParseAll(xs[1..]);
      assert forall i :: 0 <= i < |xs| - 1 ==> xs[1..][i] == xs[i + 1];
      if head.Some? && tail.Some? then Some([head.value] + tail.value) else None
  }

  /** ImportPayloadSchema: an object whose `items` is an array of at least one valid item. */
  function ParsePayload(v: JsonValue): (r: Option<seq<ImportItem>>)
    ensures r.Some? <==> (v.JObj? && "items" in v.fields && v.fields["items"].JArr?
      && |v.fields["items"].elems| >= 1
      && forall i :: 0 <= i < |v.fields["items"].elems| ==> ParseItem(v.fields["items"].elems[i]).Some?)
    ensures r.Some? ==> (v.JObj? && "items" in v.fields && v.fields["items"].JArr?
      && |r.value| == |v.fields["items"].elems| >= 1
      && forall i :: 0 <= i < |r.value| ==> ParseItem(v.fields["items"].elems[i]) == Some(r.value[i]))
  {
    if v.JObj? && "items" in v.fields && v.fields["items"].JArr? && |v.fields["items"].elems| >= 1 then
      ParseAll(v.fields["items"].elems)
    else None
  }

  /** Every imported risk row satisfies the range the schema demands. */
  lemma PayloadRisksInRange(v: JsonValue, i: int)
    requires ParsePayload(v).Some? && 0 <= i < |ParsePayload(v).value|
    ensures RiskInRange(ParsePayload(v).value[i].risk)
  {
    var xs := v.fields["items"].elems;
    assert ParseItem(xs[i]) == Some(ParsePayload(v).value[i]);
  }

  // ---- The other direction: rows written out as JSON are accepted unchanged.

  function OptionalJson(x: Option<string>): JsonValue {
    match x
    case None => JNull
    case Some(s) => JStr(s)
  }

  function ProjectJson(p: ProjectRow): JsonValue {
    JObj(map["id" := JStr(p.id), "name" := JStr(p.name), "chain" := JStr(p.chain),
             "website" := OptionalJson(p.website), "twitter" := OptionalJson(p.twitter)])
  }

  function AirdropJson(a: AirdropRow): JsonValue {
    JObj(map["id" := JStr(a.id), "project_id" := JStr(a.projectId), "title" := JStr(a.title),
             "status" := JStr(StatusName(a.status)),
             "start_date" := OptionalJson(a.startDate), "end_date" := OptionalJson(a.endDate),
             "reward" := OptionalJson(a.reward), "link" := OptionalJson(a.link)])
  }

  function RiskJson(r: RiskRow): JsonValue {
    JObj(map["airdrop_id" := JStr(r.airdropId),
             "sybil_risk" := JNum(r.sybil as real), "scam_risk" := JNum(r.scam as real),
             "task_risk" := JNum(r.task as real), "kyc_required" := JNum(r.kyc as real),
             "notes" := OptionalJson(r.notes)])
  }

  /** An object with the keys in `omit` left out. */
  function Without(v: JsonValue, omit: set<string>): JsonValue {
    if v.JObj? then JObj(v.fields - omit) else v
  }

  /** An item written out as JSON; its unbound keys are left out of their objects. */
  function ItemJson(it: ImportItem): JsonValue {
    JObj(map["project" := Without(ProjectJson(it.project), it.unbound),
             "airdrop" := Without(AirdropJson(it.airdrop), it.unbound),
             "risk" := Without(RiskJson(it.risk), it.unbound)])
  }

  function PayloadJson(items: seq<ImportItem>): JsonValue {
    JObj(map["items" := JArr(seq(|items|, i requires 0 <= i < |items| => ItemJson(items[i])))])
  }

  /**
   * An item validation can produce: only optional keys are unbound, an
   * unbound key's field is empty, and the risk factors are in range.
   */
  predicate Encodable(it: ImportItem) {
    && it.unbound <= ProjectOptional + AirdropOptional + RiskOptional
    && ("website" in it.unbound ==> it.project.website.None?)
    && ("twitter" in it.unbound ==> it.project.twitter.None?)
    && ("start_date" in it.unbound ==> it.airdrop.startDate.None?)
    && ("end_date" in it.unbound ==> it.airdrop.endDate.None?)
    && ("reward" in it.unbound ==> it.airdrop.reward.None?)
    && ("link" in it.unbound ==> it.airdrop.link.None?)
    && ("notes" in it.unbound ==> it.risk.notes.None?)
    && RiskInRange(it.risk)
  }

  /** The key holds the written-out optional value, or is left out and the value is empty. */
  predicate OptionalAt(o: map<string, JsonValue>, k: string, x: Option<string>) {
    (k in o && o[k] == OptionalJson(x)) || (k !in o && x.None?)
  }

  lemma OptionalRoundTrip(o: map<string, JsonValue>, k: string, x: Option<string>)
    requires OptionalAt(o, k, x)
    ensures OptionalString(o, k) == Some(x)
  {
  }

  lemma {:induction false} ProjectRoundTrip(p: ProjectRow, omit: set<string>)
    requires omit !! {"id", "name", "chain"}
    requires "website" in omit ==> p.website.None?
    requires "twitter" in omit ==> p.twitter.None?
    ensures ParseProject(Without(ProjectJson(p), omit)) == Some(p)
    ensures AbsentKeys(Without(ProjectJson(p), omit).fields, ProjectOptional) == omit * ProjectOptional
  {
    var m := ProjectJson(p).fields;
    var o := m - omit;
    assert o == Without(ProjectJson(p), omit).fields;
    assert ProjectOptional <= m.Keys;
    OptionalRoundTrip(o, "website", p.website);
    OptionalRoundTrip(o, "twitter", p.twitter);
  }

  lemma {:induction false} AirdropRoundTrip(a: AirdropRow, omit: set<string>)
    requires omit !! {"id", "project_id", "title", "status"}
    requires "start_date" in omit ==> a.startDate.None?
    requires "end_date" in omit ==> a.endDate.None?
    requires "reward" in omit ==> a.reward.None?
    requires "link" in omit ==> a.link.None?
    ensures ParseAirdrop(Without(AirdropJson(a), omit)) == Some(a)
    ensures AbsentKeys(Without(AirdropJson(a), omit).fields, AirdropOptional) == omit * AirdropOptional
  {
    var m := AirdropJson(a).fields;
    var o := m - omit;
    assert o == Without(AirdropJson(a), omit).fields;
    assert HasString(o, "id", a.id) && HasString(o, "project_id", a.projectId) && HasString(o, "title", a.title);
    assert HasString(o, "status", StatusName(a.status));
    assert AirdropOptional <= m.Keys;
    assert OptionalAt(o, "start_date", a.startDate) && OptionalAt(o, "end_date", a.endDate);
    assert OptionalAt(o, "reward", a.reward) && OptionalAt(o, "link", a.link);
    AirdropFromFields(a, o);
  }

  /** An object holding an airdrop row's values under its keys validates to that row. */
  lemma AirdropFromFields(a: AirdropRow, o: map<string, JsonValue>)
    requires HasString(o, "id", a.id) && HasString(o, "project_id", a.projectId) && HasString(o, "title", a.title)
    requires HasString(o, "status", StatusName(a.status))
    requires OptionalAt(o, "start_date", a.startDate) && OptionalAt(o, "end_date", a.endDate)
    requires OptionalAt(o, "reward", a.reward) && OptionalAt(o, "link", a.link)
    ensures ParseAirdrop(JObj(o)) == Some(a)
  {
    StatusNameRoundTrip(a.status, "");
    assert StatusField(o) == Some(a.status);
    OptionalRoundTrip(o, "start_date", a.startDate);
    OptionalRoundTrip(o, "end_date", a.endDate);
    OptionalRoundTrip(o, "reward", a.reward);
    OptionalRoundTrip(o, "link", a.link);
  }

  lemma {:induction false} RiskRoundTrip(r: RiskRow, omit: set<string>)
    requires RiskInRange(r)
    requires omit !! {"airdrop_id", "sybil_risk", "scam_risk", "task_risk", "kyc_required"}
    requires "notes" in omit ==> r.notes.None?
    ensures ParseRisk(Without(RiskJson(r), omit)) == Some(r)
    ensures AbsentKeys(Without(RiskJson(r), omit).fields, RiskOptional) == omit * RiskOptional
  {
    var m := RiskJson(r).fields;
    var o := m - omit;
    assert o == Without(RiskJson(r), omit).fields;
    assert RiskOptional <= m.Keys;
    OptionalRoundTrip(o, "notes", r.notes);
    assert RiskFactor(o, "sybil_risk", DefaultSybil) == Some(r.sybil);
    assert RiskFactor(o, "scam_risk", DefaultScam) == Some(r.scam);
    assert RiskFactor(o, "task_risk", DefaultTask) == Some(r.task);
    assert RiskFactor(o, "kyc_required", DefaultKyc) == Some(r.kyc);
  }

  /** Unbound keys are split among the three objects without loss. */
  lemma SplitUnbound(u: set<string>)
    requires u <= ProjectOptional + AirdropOptional + RiskOptional
    ensures u * ProjectOptional + u * AirdropOptional + u * RiskOptional == u
  {
  }

  /** No required key of the three schemas is optional in another. */
  lemma OptionalKeysNotRequired()
    ensures (ProjectOptional + AirdropOptional + RiskOptional)
      !! {"id", "name", "chain", "project_id", "title", "status",
          "airdrop_id", "sybil_risk", "scam_risk", "task_risk", "kyc_required"}
  {
  }

  /** The parts of a written-out item parse back to the item's rows, and its left-out keys to its unbound set. */
  lemma {:induction false} ItemPartsRoundTrip(it: ImportItem)
    requires Encodable(it)
    ensures var u := it.unbound;
      var pj, aj, rj := Without(ProjectJson(it.project), u), Without(AirdropJson(it.airdrop), u), Without(RiskJson(it.risk), u);
      && ParseProject(pj) == Some(it.project) && ParseAirdrop(aj) == Some(it.airdrop) && ParseRisk(rj) == Some(it.risk)
      && AbsentKeys(pj.fields, ProjectOptional) + AbsentKeys(aj.fields, AirdropOptional)
         + AbsentKeys(rj.fields, RiskOptional) == u
  {
    OptionalKeysNotRequired();
    ProjectRoundTrip(it.project, it.unbound);
    AirdropRoundTrip(it.airdrop, it.unbound);
    RiskRoundTrip(it.risk, it.unbound);
    SplitUnbound(it.unbound);
  }

  /** Writing an item out, leaving out its unbound keys, and validating it gives the item back. */
  lemma {:induction false} ItemRoundTrip(it: ImportItem)
    requires Encodable(it)
    ensures ParseItem(ItemJson(it)) == Some(it)
  {
    var v := ItemJson(it);
    var u := it.unbound;
    var pj, aj, rj := Without(ProjectJson(it.project), u), Without(AirdropJson(it.airdrop), u), Without(RiskJson(it.risk), u);
    assert v.fields["project"] == pj && v.fields["airdrop"] == aj && v.fields["risk"] == rj;
    ItemPartsRoundTrip(it);
  }

  /** A non-empty batch of items validation can produce is accepted and parsed back to itself. */
  lemma {:induction false} PayloadRoundTrip(items: seq<ImportItem>)
    requires |items| >= 1
    requires forall i :: 0 <= i < |items| ==> Encodable(items[i])
    ensures ParsePayload(PayloadJson(items)) == Some(items)
  {
    var xs := PayloadJson(items).fields["items"].elems;
    forall i | 0 <= i < |items| ensures ParseItem(xs[i]) == Some(items[i]) {
      ItemRoundTrip(items[i]);
    }
    var r := ParsePayload(PayloadJson(items));
    assert r.Some?;
    assert r.value == items;
  }

  /** Every item validation accepts is one the encoding can write out. */
  lemma ParsedItemEncodable(v: JsonValue)
    requires ParseItem(v).Some?
    ensures Encodable(ParseItem(v).value)
  {
    var it := ParseItem(v).value;
    var po, ao, ro := v.fields["project"].fields, v.fields["airdrop"].fields, v.fields["risk"].fields;
    var up, ua, ur := AbsentKeys(po, ProjectOptional), AbsentKeys(ao, AirdropOptional), AbsentKeys(ro, RiskOptional);
    assert it.unbound == up + ua + ur;
    assert up <= ProjectOptional && ua <= AirdropOptional && ur <= RiskOptional;
    assert Carries(po, "website", it.project.website) && Carries(po, "twitter", it.project.twitter);
    assert Carries(ao, "start_date", it.airdrop.startDate) && Carries(ao, "end_date", it.airdrop.endDate);
    assert Carries(ao, "reward", it.airdrop.reward) && Carries(ao, "link", it.airdrop.link);
    assert Carries(ro, "notes", it.risk.notes);
  }

  /** An empty `items` array is rejected. */
  lemma EmptyPayloadRejected()
    ensures ParsePayload(JObj(map["items" := JArr([])])) == None
  {
  }

  /** An omitted factor takes its default: 50 for sybil, scam and task, 0 for kyc. */
  lemma RiskDefaults(o: map<string, JsonValue>)
    requires ParseRisk(JObj(o)).Some?
    ensures "sybil_risk" !in o ==> ParseRisk(JObj(o)).value.sybil == 50
    ensures "scam_risk" !in o ==> ParseRisk(JObj(o)).value.scam == 50
    ensures "task_risk" !in o ==> ParseRisk(JObj(o)).value.task == 50
    ensures "kyc_required" !in o ==> ParseRisk(JObj(o)).value.kyc == 0
  {
  }

  /** A present factor must be an integer number in [0,100]; null is not replaced by the default. */
  lemma RiskFactorRejected(o: map<string, JsonValue>, k: string)
    requires k in {"sybil_risk", "scam_risk", "task_risk", "kyc_required"} && k in o
    requires !(o[k].JNum? && IsInteger(o[k].n) && 0.0 <= o[k].n <= 100.0)
    ensures ParseRisk(JObj(o)) == None
  {
  }

  /** An airdrop whose status is not one of the enum names is rejected. */
  lemma BadStatusRejected(o: map<string, JsonValue>)
    requires "status" in o && !(o["status"].JStr? && o["status"].s in {"upcoming", "live", "ended"})
    ensures ParseAirdrop(JObj(o)) == None
  {
  }

  /** Optional text accepts absence and null (both stored as NULL) and a string; nothing else. */
  lemma OptionalTextAccepted(o: map<string, JsonValue>)
    requires ParseProject(JObj(o)).Some?
    ensures ("website" !in o || o["website"] == JNull) <==> ParseProject(JObj(o)).value.website.None?
    ensures "website" in o && o["website"].JStr? ==> ParseProject(JObj(o)).value.website == Some(o["website"].s)
  {
  }

  /**
   * `riskScoreOf`: Math.round of the weighted sum, that is floor(W/100 + 1/2):
   * halves are rounded towards positive infinity.
   */
  function RiskScoreOf(r: RiskRow): (score: int)
    ensures 100 * score - 50 <= Scoring.WeightedRisk(r) < 100 * score + 50
  {
    (Scoring.WeightedRisk(r) + 50) / 100
  }

  /** `riskScoreOf` agrees with the SQL expression whenever the weighted sum is not negative. */
  lemma RiskScoreOfAgreesWithSql(r: RiskRow)
    requires Scoring.WeightedRisk(r) >= 0
    ensures RiskScoreOf(r) == Scoring.RiskScore(r)
  {
  }

  /** For factors in [0,100] `riskScoreOf` lies in [0,100]. */
  lemma RiskScoreOfInRange(r: RiskRow)
    requires RiskInRange(r)
    ensures 0 <= RiskScoreOf(r) <= 100
  {
  }

  /** The two roundings part ways on a negative half: JS gives 0 where SQLite gives -1. */
  lemma RoundingsDifferOnNegativeHalf()
    ensures var r := RiskRow("x", 0, -2, 0, 0, None);
      Scoring.WeightedRisk(r) == -50 && RiskScoreOf(r) == 0 && Scoring.RiskScore(r) == -1
  {
  }
}
