/**
 * POST /api/import: make the store ready, validate the whole payload, then
 * apply every item in one transaction (project, airdrop, risk per item).
 */
module ImportRoute {
  import opened Wrappers
  import opened Rows
  import opened Schema
  import opened TableOps
  import opened Store

  /** The outcomes of the handler: HTTP 400, an uncaught store error (HTTP 500), or `{ ok: true, count }`. */
  datatype Response = BadRequest | ServerError(error: StoreError) | Imported(count: nat)

  /** The transaction `tx`: all items are applied, or on the first failing statement none is. */
  method ApplyBatch(db: Db, items: seq<ImportItem>) returns (failure: Option<StoreError>)
    requires db.Valid()
    modifies db
    ensures db.Valid()
    ensures failure.None? <==> ApplyItems(old(db.Snapshot()), items).Ok?
    ensures failure.None? ==> db.Snapshot() == ApplyItems(old(db.Snapshot()), items).value
    ensures failure.Some? ==> (failure.value == ApplyItems(old(db.Snapshot()), items).error
      && db.Snapshot() == old(db.Snapshot()))
  {
    var saved := db.Snapshot();
    var i := 0;
    while i < |items|
      invariant 0 <= i <= |items|
      invariant db.Valid()
      invariant ApplyItems(saved, items) == ApplyItems(db.Snapshot(), items[i..])
    {
      var it := items[i];
      assert items[i..][0] == it && items[i..][1..] == items[i + 1..];
      ghost var before := db.Snapshot();
      if !Binds(it, ProjectOptional) {
        assert ApplyItem(before, it) == Err(MissingParameter);
        db.Restore(saved);
        return Some(MissingParameter);
      }
      db.ReplaceProjectRow(it.project);
      if !Binds(it, AirdropOptional) {
        assert ApplyItem(before, it) == Err(MissingParameter);
        db.Restore(saved);
        return Some(MissingParameter);
      }
      var ok := db.ReplaceAirdropRow(it.airdrop);
      if !ok {
        assert ApplyItem(before, it) == Err(ForeignKeyViolation);
        db.Restore(saved);
        return Some(ForeignKeyViolation);
      }
      if !Binds(it, RiskOptional) {
        assert ApplyItem(before, it) == Err(MissingParameter);
        db.Restore(saved);
        return Some(MissingParameter);
      }
      ok := db.ReplaceRiskRow(it.risk);
      if !ok {
        assert ApplyItem(before, it) == Err(ForeignKeyViolation);
        db.Restore(saved);
        return Some(ForeignKeyViolation);
      }
      assert ApplyItem(before, it) == Ok(db.Snapshot());
      i := i + 1;
    }
    return None;
  }

  /**
   * A validated payload one of whose items leaves out an optional key
   * (website, twitter, a date, reward, link or notes) is never imported:
   * zod omits the key, the statement cannot bind it, and the batch rolls back.
   */
  lemma PayloadOmittingOptionalKeyFails(t: Tables, v: JsonValue, i: int, k: string)
    requires ParsePayload(v).Some? && 0 <= i < |ParsePayload(v).value|
    requires var item := v.fields["items"].elems[i].fields;
      || (k in ProjectOptional && k !in item["project"].fields)
      || (k in AirdropOptional && k !in item["airdrop"].fields)
      || (k in RiskOptional && k !in item["risk"].fields)
    ensures ApplyItems(t, ParsePayload(v).value).Err?
  {
    var items := ParsePayload(v).value;
    assert k in items[i].unbound;
    UnboundItemAbortsBatch(t, items, i);
  }

  /** The handler `POST`. */
  method Post(db: Db, body: JsonValue) returns (resp: Response)
    requires db.Valid()
    modifies db
    ensures db.Valid()
    ensures SeedTables(old(db.Snapshot())).Err? ==>
      resp == ServerError(SeedTables(old(db.Snapshot())).error) && db.Snapshot() == old(db.Snapshot())
    ensures SeedTables(old(db.Snapshot())).Ok? && ParsePayload(body).None? ==>
      resp == BadRequest && db.Snapshot() == SeedTables(old(db.Snapshot())).value
    ensures SeedTables(old(db.Snapshot())).Ok? && ParsePayload(body).Some? ==>
      var ready, items := SeedTables(old(db.Snapshot())).value, ParsePayload(body).value;
      if ApplyItems(ready, items).Ok? then resp == Imported(|items|) && db.Snapshot() == ApplyItems(ready, items).value
      else resp == ServerError(ApplyItems(ready, items).error) && db.Snapshot() == ready
  {
    ghost var start := db.Snapshot();
    var notReady := db.EnsureReady();
    if notReady.Some? {
      return ServerError(notReady.value);
    }
    ghost var ready := db.Snapshot();
    assert ready == SeedTables(start).value;
    var parsed := ParsePayload(body);
    if parsed.None? {
      return BadRequest;
    }
    var items := parsed.value;
    var failure := ApplyBatch(db, items);
    if failure.Some? {
      assert ApplyItems(ready, items).Err?;
      return ServerError(failure.value);
    }
    assert db.Snapshot() == ApplyItems(ready, items).value;
    return Imported(|items|);
  }
}
