/**
 * The database behind the core, as an object whose three tables are map
 * fields that the statements update in place. A transaction that fails is
 * rolled back by restoring the contents it started from.
 */
module Store {
  import opened Wrappers
  import opened Rows
  import opened Schema
  import opened TableOps
  import opened Query

  class Db {
    var projects: map<string, ProjectRow>
    var airdrops: map<string, AirdropRow>
    var risks: map<string, RiskRow>

    /** The current contents of the three tables. */
    function Snapshot(): Tables
      reads this
    {
      Tables(projects, airdrops, risks)
    }

    /** The schema constraints (primary keys and foreign keys) hold. */
    ghost predicate Valid()
      reads this
    {
      ValidTables(Snapshot())
    }

    /** A database holding `t`; `Tables.Empty` is a freshly created file. */
    constructor (t: Tables)
      requires ValidTables(t)
      ensures Valid() && Snapshot() == t
    {
      projects, airdrops, risks := t.projects, t.airdrops, t.risks;
    }

    /** ROLLBACK to the contents a transaction started from. */
    method Restore(t: Tables)
      requires ValidTables(t)
      modifies this
      ensures Valid() && Snapshot() == t
    {
      projects, airdrops, risks := t.projects, t.airdrops, t.risks;
    }

    /** INSERT OR REPLACE INTO projects: delete the old row with its cascade, then insert. */
    method ReplaceProjectRow(p: ProjectRow)
      requires Valid()
      modifies this
      ensures Valid() && Snapshot() == ReplaceProject(old(Snapshot()), p)
    {
      ReplaceProjectValid(Snapshot(), p);
      if p.id in projects {
        var gone := set a | a in airdrops && airdrops[a].projectId == p.id;
        airdrops := airdrops - gone;
        risks := risks - gone;
        projects := projects - {p.id};
      }
      projects := projects[p.id := p];
    }

    /** INSERT OR REPLACE INTO airdrops; a missing project makes the statement fail with no effect. */
    method ReplaceAirdropRow(a: AirdropRow) returns (ok: bool)
      requires Valid()
      modifies this
      ensures Valid()
      ensures ok == ReplaceAirdrop(old(Snapshot()), a).Ok?
      ensures Snapshot() == if ok then ReplaceAirdrop(old(Snapshot()), a).value else old(Snapshot())
    {
      ok := a.projectId in projects;
      if ok {
        ReplaceAirdropValid(Snapshot(), a);
        if a.id in airdrops {
          airdrops := airdrops - {a.id};
          risks := risks - {a.id};
        }
        airdrops := airdrops[a.id := a];
      }
    }

    /** INSERT OR REPLACE INTO risk_factors; a missing airdrop makes the statement fail with no effect. */
    method ReplaceRiskRow(k: RiskRow) returns (ok: bool)
      requires Valid()
      modifies this
      ensures Valid()
      ensures ok == ReplaceRisk(old(Snapshot()), k).Ok?
      ensures Snapshot() == if ok then ReplaceRisk(old(Snapshot()), k).value else old(Snapshot())
    {
      ok := k.airdropId in airdrops;
      if ok {
        risks := risks[k.airdropId := k];
      }
    }

    /** The three plain inserts of a seed triple; on failure the transaction must be rolled back. */
    method InsertTripleRows(it: ImportItem) returns (failure: Option<StoreError>)
      requires Valid()
      modifies this
      ensures Valid()
      ensures failure.None? <==> InsertTriple(old(Snapshot()), it).Ok?
      ensures failure.None? ==> Snapshot() == InsertTriple(old(Snapshot()), it).value
      ensures failure.Some? ==> failure.value == InsertTriple(old(Snapshot()), it).error
    {
      var p, a, k := it.project, it.airdrop, it.risk;
      if p.id in projects { return Some(UniqueViolation); }
      projects := projects[p.id := p];
      if a.id in airdrops { return Some(UniqueViolation); }
      if a.projectId !in projects { return Some(ForeignKeyViolation); }
      airdrops := airdrops[a.id := a];
      if k.airdropId in risks { return Some(UniqueViolation); }
      if k.airdropId !in airdrops { return Some(ForeignKeyViolation); }
      risks := risks[k.airdropId := k];
      return None;
    }

    /** `seed`: when the airdrops table is empty, insert the three example triples in one transaction. */
    method Seed() returns (failure: Option<StoreError>)
      requires Valid()
      modifies this
      ensures Valid()
      ensures failure.None? <==> SeedTables(old(Snapshot())).Ok?
      ensures failure.None? ==> Snapshot() == SeedTables(old(Snapshot())).value
      ensures failure.Some? ==> failure.value == SeedTables(old(Snapshot())).error && Snapshot() == old(Snapshot())
    {
      if |airdrops| > 0 {
        return None;
      }
      var saved := Snapshot();
      assert SeedItems[1..][1..] == SeedItems[2..] && SeedItems[2..][1..] == [];
      failure := InsertTripleRows(SeedItems[0]);
      if failure.Some? {
        Restore(saved);
        return;
      }
      ghost var t1 := Snapshot();
      failure := InsertTripleRows(SeedItems[1]);
      if failure.Some? {
        assert InsertAll(t1, SeedItems[1..]).Err?;
        Restore(saved);
        return;
      }
      ghost var t2 := Snapshot();
      failure := InsertTripleRows(SeedItems[2]);
      if failure.Some? {
        assert InsertAll(t2, SeedItems[2..]).Err?;
        assert InsertAll(t1, SeedItems[1..]).Err?;
        Restore(saved);
        return;
      }
      assert InsertAll(t2, SeedItems[2..]) == Ok(Snapshot());
      assert InsertAll(t1, SeedItems[1..]) == Ok(Snapshot());
    }

    /**
     * `ensureReady`: the schema exists (CREATE TABLE IF NOT EXISTS changes nothing
     * here) and the seed runs. A second call never changes anything.
     */
    method EnsureReady() returns (failure: Option<StoreError>)
      requires Valid()
      modifies this
      ensures Valid()
      ensures failure.None? <==> SeedTables(old(Snapshot())).Ok?
      ensures failure.None? ==> Snapshot() == SeedTables(old(Snapshot())).value && |airdrops| > 0
      ensures failure.Some? ==> failure.value == SeedTables(old(Snapshot())).error && Snapshot() == old(Snapshot())
      ensures old(|airdrops|) > 0 ==> failure.None? && Snapshot() == old(Snapshot())
    {
      ghost var before := Snapshot();
      failure := Seed();
      if failure.None? {
        SeedIdempotent(before);
      }
    }

    /** The SELECT of `listAirdrops`: the joined view by rank_score descending. */
    method SelectAll() returns (out: seq<AirdropItem>)
      ensures IsFullListing(Snapshot(), out)
    {
      var t := Snapshot();
      var remaining := airdrops.Keys;
      out := [];
      while remaining != {}
        invariant remaining <= t.airdrops.Keys
        invariant Enumerates(t, JoinedIds(t) - remaining, out)
        invariant SortedBy(Rank, out)
        decreases remaining
      {
        var id :| id in remaining;
        assert id !in JoinedIds(t) - remaining;
        if id in risks && airdrops[id].projectId in projects {
          var row := Join(t, id);
          var prev, p := out, 0;
          out, p := InsertSorted(Rank, out, row);
          InsertEnumerates(t, JoinedIds(t) - remaining, prev, row, p);
          assert JoinedIds(t) - (remaining - {id}) == (JoinedIds(t) - remaining) + {id};
        } else {
          assert JoinedIds(t) - (remaining - {id}) == JoinedIds(t) - remaining;
        }
        remaining := remaining - {id};
      }
    }

    /**
     * The SELECT of `listAirdropsFiltered`: the view joined with the computed
     * scores, restricted by the WHERE clauses and ordered by the chosen key.
     */
    method SelectFiltered(o: ListOptions) returns (out: seq<AirdropItem>)
      ensures IsListing(Snapshot(), o, out)
    {
      var t := Snapshot();
      var where := BuildWhere(o);
      var order := EffectiveSort(o);
      var remaining := airdrops.Keys;
      out := [];
      while remaining != {}
        invariant remaining <= t.airdrops.Keys
        invariant Enumerates(t, FilteredIds(t, o) - remaining, out)
        invariant SortedBy(order, out)
        decreases remaining
      {
        var id :| id in remaining;
        assert id !in FilteredIds(t, o) - remaining;
        if id in risks && airdrops[id].projectId in projects && HoldsAll(where, Join(t, id)) {
          var row := Join(t, id);
          var prev, p := out, 0;
          out, p := InsertSorted(order, out, row);
          InsertEnumerates(t, FilteredIds(t, o) - remaining, prev, row, p);
          assert FilteredIds(t, o) - (remaining - {id}) == (FilteredIds(t, o) - remaining) + {id};
        } else {
          assert FilteredIds(t, o) - (remaining - {id}) == FilteredIds(t, o) - remaining;
        }
        remaining := remaining - {id};
      }
    }

    /** `listAirdrops`: ensureReady, then the unfiltered query; a failed seed surfaces as an error. */
    method ListAirdrops() returns (r: Result<seq<AirdropItem>, StoreError>)
      requires Valid()
      modifies this
      ensures Valid()
      ensures r.Ok? <==> SeedTables(old(Snapshot())).Ok?
      ensures r.Ok? ==> Snapshot() == SeedTables(old(Snapshot())).value && IsFullListing(Snapshot(), r.value)
      ensures r.Err? ==> r.error == SeedTables(old(Snapshot())).error && Snapshot() == old(Snapshot())
    {
      var failure := EnsureReady();
      if failure.Some? {
        return Err(failure.value);
      }
      var rows := SelectAll();
      return Ok(rows);
    }

    /** `listAirdropsFiltered`: ensureReady, then the filtered query. */
    method ListAirdropsFiltered(o: ListOptions) returns (r: Result<seq<AirdropItem>, StoreError>)
      requires Valid()
      modifies this
      ensures Valid()
      ensures r.Ok? <==> SeedTables(old(Snapshot())).Ok?
      ensures r.Ok? ==> Snapshot() == SeedTables(old(Snapshot())).value && IsListing(Snapshot(), o, r.value)
      ensures r.Err? ==> r.error == SeedTables(old(Snapshot())).error && Snapshot() == old(Snapshot())
    {
      var failure := EnsureReady();
      if failure.Some? {
        return Err(failure.value);
      }
      var rows := SelectFiltered(o);
      return Ok(rows);
    }
  }
}
