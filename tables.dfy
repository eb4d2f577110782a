/**
 * The SQL statements the core issues, as functions on the table contents:
 * plain INSERT (used by the seed), INSERT OR REPLACE (used by the import) and
 * the transactions built from them.
 *
 * With `foreign_keys = ON`, SQLite's REPLACE first deletes the row holding the
 * conflicting primary key, and that deletion follows ON DELETE CASCADE:
 * replacing a project removes its airdrops and their risk rows; replacing an
 * airdrop removes its risk row. The new row is then inserted and its foreign
 * key checked.
 */
module TableOps {
  import opened Wrappers
  import opened Rows
  import opened Schema

  /**
   * Why a statement fails: a violated constraint, or a named parameter that
   * the bound object does not carry (better-sqlite3 refuses to run the
   * statement). The failing statement, and its transaction, have no effect.
   */
  datatype StoreError = UniqueViolation | ForeignKeyViolation | MissingParameter

  type Outcome = Result<Tables, StoreError>

  /** The airdrops of a project: the rows a delete of that project cascades to. */
  function AirdropsOf(t: Tables, pid: string): set<string> {
    set a | a in t.airdrops && t.airdrops[a].projectId == pid
  }

  /** DELETE FROM projects WHERE id = pid, cascading through airdrops to risk_factors. */
  function DeleteProject(t: Tables, pid: string): (r: Tables)
    ensures r.projects == t.projects - {pid}
    ensures r.airdrops == t.airdrops - AirdropsOf(t, pid)
    ensures forall a :: a in r.airdrops <==> a in t.airdrops && t.airdrops[a].projectId != pid
    ensures r.risks == t.risks - AirdropsOf(t, pid)
  {
    var gone := AirdropsOf(t, pid);
    Tables(t.projects - {pid}, t.airdrops - gone, t.risks - gone)
  }

  /** DELETE FROM airdrops WHERE id = aid, cascading to its risk row. */
  function DeleteAirdrop(t: Tables, aid: string): Tables {
    Tables(t.projects, t.airdrops - {aid}, t.risks - {aid})
  }

  /** INSERT OR REPLACE INTO projects: a project has no foreign key, so this never fails. */
  function ReplaceProject(t: Tables, p: ProjectRow): (r: Tables)
    ensures r.projects == t.projects[p.id := p]
    ensures p.id in t.projects ==> r.airdrops == t.airdrops - AirdropsOf(t, p.id)
    ensures p.id !in t.projects ==> r.airdrops == t.airdrops
    ensures r.risks == if p.id in t.projects then t.risks - AirdropsOf(t, p.id) else t.risks
  {
    var t1 := if p.id in t.projects then DeleteProject(t, p.id) else t;
    t1.(projects := t1.projects[p.id := p])
  }

  /** INSERT OR REPLACE INTO airdrops: fails when `project_id` names no project. */
  function ReplaceAirdrop(t: Tables, a: AirdropRow): (r: Outcome)
    ensures r.Ok? <==> a.projectId in t.projects
    ensures r.Ok? ==> (r.value.projects == t.projects && r.value.airdrops == t.airdrops[a.id := a]
      && r.value.risks == if a.id in t.airdrops then t.risks - {a.id} else t.risks)
    ensures r.Err? ==> r.error == ForeignKeyViolation
  {
    var t1 := if a.id in t.airdrops then DeleteAirdrop(t, a.id) else t;
    if a.projectId in t1.projects then Ok(t1.(airdrops := t1.airdrops[a.id := a]))
    else Err(ForeignKeyViolation)
  }

  /** INSERT OR REPLACE INTO risk_factors: fails when `airdrop_id` names no airdrop. */
  function ReplaceRisk(t: Tables, k: RiskRow): (r: Outcome)
    ensures r.Ok? <==> k.airdropId in t.airdrops
    ensures r.Ok? ==> r.value == t.(risks := t.risks[k.airdropId := k])
    ensures r.Err? ==> r.error == ForeignKeyViolation
  {
    if k.airdropId in t.airdrops then Ok(t.(risks := t.risks[k.airdropId := k]))
    else Err(ForeignKeyViolation)
  }

  /**
   * Whether the item carries every one of the statement's named parameters
   * among `optional`; the required ones are always present after validation.
   */
  predicate Binds(it: ImportItem, optional: set<string>) {
    it.unbound * optional == {}
  }

  /** One pass of the import loop: the project row, then the airdrop row, then the risk row. */
  function ApplyItem(t: Tables, it: ImportItem): Outcome {
    if !Binds(it, ProjectOptional) then Err(MissingParameter)
    else
      var t1 := ReplaceProject(t, it.project);
      if !Binds(it, AirdropOptional) then Err(MissingParameter)
      else
        match ReplaceAirdrop(t1, it.airdrop)
        case Err(e) => Err(e)
        case Ok(t2) => if !Binds(it, RiskOptional) then Err(MissingParameter) else ReplaceRisk(t2, it.risk)
  }

  /** The import transaction: the items in batch order, stopping at the first failure. */
  function ApplyItems(t: Tables, items: seq<ImportItem>): Outcome
    decreases |items|
  {
    if items == [] then Ok(t)
    else
      match ApplyItem(t, items[0])
      case Err(e) => Err(e)
      case Ok(t1) => ApplyItems(t1, items[1..])
  }

  /** Plain INSERT INTO projects: an existing id violates the primary key. */
  function InsertProject(t: Tables, p: ProjectRow): (r: Outcome)
    ensures r.Ok? <==> p.id !in t.projects
    ensures r.Ok? ==> r.value == t.(projects := t.projects[p.id := p])
  {
    if p.id in t.projects then Err(UniqueViolation) else Ok(t.(projects := t.projects[p.id := p]))
  }

  /** Plain INSERT INTO airdrops. */
  function InsertAirdrop(t: Tables, a: AirdropRow): (r: Outcome)
    ensures r.Ok? <==> a.id !in t.airdrops && a.projectId in t.projects
    ensures r.Ok? ==> r.value == t.(airdrops := t.airdrops[a.id := a])
  {
    if a.id in t.airdrops then Err(UniqueViolation)
    else if a.projectId !in t.projects then Err(ForeignKeyViolation)
    else Ok(t.(airdrops := t.airdrops[a.id := a]))
  }

  /** Plain INSERT INTO risk_factors. */
  function InsertRisk(t: Tables, k: RiskRow): (r: Outcome)
    ensures r.Ok? <==> k.airdropId !in t.risks && k.airdropId in t.airdrops
    ensures r.Ok? ==> r.value == t.(risks := t.risks[k.airdropId := k])
  {
    if k.airdropId in t.risks then Err(UniqueViolation)
    else if k.airdropId !in t.airdrops then Err(ForeignKeyViolation)
    else Ok(t.(risks := t.risks[k.airdropId := k]))
  }

  /** The three plain inserts of one seed triple. */
  function InsertTriple(t: Tables, it: ImportItem): Outcome {
    match InsertProject(t, it.project)
    case Err(e) => Err(e)
    case Ok(t1) =>
      match InsertAirdrop(t1, it.airdrop)
      case Err(e) => Err(e)
      case Ok(t2) => InsertRisk(t2, it.risk)
  }

  function InsertAll(t: Tables, items: seq<ImportItem>): Outcome
    decreases |items|
  {
    if items == [] then Ok(t)
    else
      match InsertTriple(t, items[0])
      case Err(e) => Err(e)
      case Ok(t1) => InsertAll(t1, items[1..])
  }

  /** The three example triples of the seed; their parameters are bound by position, so none is unbound. */
  const SeedItems: seq<ImportItem> := [
    ImportItem(
      ProjectRow("proj_sol_xyz", "SOL XYZ", "Solana", Some("https://solxyz.io"), Some("https://twitter.com/solxyz")),
      AirdropRow("ad_sol_xyz_s1", "proj_sol_xyz", "Season 1 Early", Live, Some("2025-10-01"), Some("2025-12-31"),
                 Some("5% supply"), Some("https://solxyz.io/airdrop")),
      RiskRow("ad_sol_xyz_s1", 40, 35, 50, 0, Some("普通交互，反女巫中等")), {}),
    ImportItem(
      ProjectRow("proj_evm_abc", "EVM ABC", "Ethereum", Some("https://abc.xyz"), Some("https://twitter.com/abcxyz")),
      AirdropRow("ad_evm_abc_s1", "proj_evm_abc", "Quest Round", Upcoming, Some("2025-11-01"), None,
                 Some("Points → TGE"), Some("https://abc.xyz/airdrop")),
      RiskRow("ad_evm_abc_s1", 55, 45, 35, 0, Some("任务较多，反女巫偏高")), {}),
    ImportItem(
      ProjectRow("proj_multi_def", "MULTI DEF", "Multi", Some("https://def.app"), Some("https://twitter.com/defapp")),
      AirdropRow("ad_multi_def_beta", "proj_multi_def", "Beta Incentives", Ended, Some("2025-07-01"), Some("2025-09-15"),
                 Some("OG role"), Some("https://def.app/beta")),
      RiskRow("ad_multi_def_beta", 25, 20, 30, 100, Some("历史活动，KYC 强制")), {})
  ]

  /** `seed`: nothing happens unless the airdrops table is empty; then the seed transaction runs. */
  function SeedTables(t: Tables): Outcome {
    if |t.airdrops| > 0 then Ok(t) else InsertAll(t, SeedItems)
  }

  // ---- The schema constraints are kept by every statement.

  lemma ReplaceProjectValid(t: Tables, p: ProjectRow)
    requires ValidTables(t)
    ensures ValidTables(ReplaceProject(t, p))
  {
  }

  lemma ReplaceAirdropValid(t: Tables, a: AirdropRow)
    requires ValidTables(t) && ReplaceAirdrop(t, a).Ok?
    ensures ValidTables(ReplaceAirdrop(t, a).value)
  {
  }

  lemma ReplaceRiskValid(t: Tables, k: RiskRow)
    requires ValidTables(t) && ReplaceRisk(t, k).Ok?
    ensures ValidTables(ReplaceRisk(t, k).value)
  {
  }

  lemma ApplyItemValid(t: Tables, it: ImportItem)
    requires ValidTables(t) && ApplyItem(t, it).Ok?
    ensures ValidTables(ApplyItem(t, it).value)
  {
    var t1 := ReplaceProject(t, it.project);
    ReplaceProjectValid(t, it.project);
    ReplaceAirdropValid(t1, it.airdrop);
    ReplaceRiskValid(ReplaceAirdrop(t1, it.airdrop).value, it.risk);
  }

  /** A committed import batch leaves the foreign keys intact. */
  lemma {:induction false} ApplyItemsValid(t: Tables, items: seq<ImportItem>)
    requires ValidTables(t) && ApplyItems(t, items).Ok?
    ensures ValidTables(ApplyItems(t, items).value)
    decreases |items|
  {
    if items != [] {
      ApplyItemValid(t, items[0]);
      ApplyItemsValid(ApplyItem(t, items[0]).value, items[1..]);
    }
  }

  /** Importing validated items keeps every stored risk factor in [0,100]. */
  lemma {:induction false} ApplyItemsInRange(t: Tables, items: seq<ImportItem>)
    requires AllRisksInRange(t) && ApplyItems(t, items).Ok?
    requires forall i :: 0 <= i < |items| ==> RiskInRange(items[i].risk)
    ensures AllRisksInRange(ApplyItems(t, items).value)
    decreases |items|
  {
    if items != [] {
      var t1 := ApplyItem(t, items[0]).value;
      assert AllRisksInRange(t1);
      ApplyItemsInRange(t1, items[1..]);
    }
  }

  // ---- What an import writes.

  /** An applied item leaves its three rows holding exactly its values: replace, never merge. */
  lemma ApplyItemWrites(t: Tables, it: ImportItem)
    requires ApplyItem(t, it).Ok?
    ensures it.project.id in ApplyItem(t, it).value.projects
      && ApplyItem(t, it).value.projects[it.project.id] == it.project
    ensures it.airdrop.id in ApplyItem(t, it).value.airdrops
      && ApplyItem(t, it).value.airdrops[it.airdrop.id] == it.airdrop
    ensures it.risk.airdropId in ApplyItem(t, it).value.risks
      && ApplyItem(t, it).value.risks[it.risk.airdropId] == it.risk
  {
  }

  /** Every optional key of the three schemas. */
  const AllOptional: set<string> := ProjectOptional + AirdropOptional + RiskOptional

  /** An item binds all its parameters exactly when it binds those of each statement. */
  lemma BindsSplit(it: ImportItem)
    ensures Binds(it, AllOptional) <==>
      Binds(it, ProjectOptional) && Binds(it, AirdropOptional) && Binds(it, RiskOptional)
  {
    var u := it.unbound;
    assert u * AllOptional == u * ProjectOptional + u * AirdropOptional + u * RiskOptional;
  }

  /**
   * The project row is written before the airdrop row, and the airdrop row
   * before the risk row; each statement first needs all its parameters bound.
   */
  lemma ApplyItemFailsIff(t: Tables, it: ImportItem)
    ensures ApplyItem(t, it).Err? <==>
      !Binds(it, AllOptional)
      || (it.airdrop.projectId != it.project.id && it.airdrop.projectId !in t.projects)
      || (it.airdrop.projectId in ReplaceProject(t, it.project).projects
          && it.risk.airdropId != it.airdrop.id
          && it.risk.airdropId !in ReplaceProject(t, it.project).airdrops)
    ensures !Binds(it, ProjectOptional + AirdropOptional) ==> ApplyItem(t, it) == Err(MissingParameter)
    ensures ApplyItem(t, it).Err? && Binds(it, AllOptional) ==> ApplyItem(t, it).error == ForeignKeyViolation
  {
    BindsSplit(it);
    var u := it.unbound;
    assert u * (ProjectOptional + AirdropOptional) == u * ProjectOptional + u * AirdropOptional;
  }

  /** An item that leaves out an optional key makes the whole batch fail, whatever its position. */
  lemma {:induction false} UnboundItemAbortsBatch(t: Tables, items: seq<ImportItem>, i: int)
    requires 0 <= i < |items| && !Binds(items[i], AllOptional)
    ensures ApplyItems(t, items).Err?
    decreases i
  {
    ApplyItemFailsIff(t, items[0]);
    if i > 0 && ApplyItem(t, items[0]).Ok? {
      UnboundItemAbortsBatch(ApplyItem(t, items[0]).value, items[1..], i - 1);
    }
  }

  /**
   * An item whose airdrop belongs to its own project, whose risk row to its
   * own airdrop, and which binds every parameter, cannot fail.
   */
  predicate SelfContained(it: ImportItem) {
    it.airdrop.projectId == it.project.id && it.risk.airdropId == it.airdrop.id && it.unbound == {}
  }

  lemma {:induction false} SelfContainedBatchCommits(t: Tables, items: seq<ImportItem>)
    requires forall i :: 0 <= i < |items| ==> SelfContained(items[i])
    ensures ApplyItems(t, items).Ok?
    decreases |items|
  {
    if items != [] {
      ApplyItemFailsIff(t, items[0]);
      SelfContainedBatchCommits(ApplyItem(t, items[0]).value, items[1..]);
    }
  }

  /** After a committed batch the last item's project, airdrop and risk rows hold its values. */
  lemma {:induction false} ApplyItemsLastWins(t: Tables, items: seq<ImportItem>)
    requires |items| > 0 && ApplyItems(t, items).Ok?
    ensures var last, r := items[|items| - 1], ApplyItems(t, items).value;
      && last.project.id in r.projects && r.projects[last.project.id] == last.project
      && last.airdrop.id in r.airdrops && r.airdrops[last.airdrop.id] == last.airdrop
      && last.risk.airdropId in r.risks && r.risks[last.risk.airdropId] == last.risk
    decreases |items|
  {
    ApplyItemWrites(t, items[0]);
    if |items| > 1 {
      ApplyItemsLastWins(ApplyItem(t, items[0]).value, items[1..]);
    }
  }

  /** Two items for the same airdrop: one airdrop row and one risk row remain, holding the later item's values. */
  lemma DuplicateAirdropLaterWins(t: Tables, x: ImportItem, y: ImportItem)
    requires x.airdrop.id == y.airdrop.id && x.risk.airdropId == y.risk.airdropId
    requires ApplyItems(t, [x, y]).Ok?
    ensures var r := ApplyItems(t, [x, y]).value;
      && y.airdrop.id in r.airdrops && r.airdrops[y.airdrop.id] == y.airdrop
      && y.risk.airdropId in r.risks && r.risks[y.risk.airdropId] == y.risk
  {
    ApplyItemsLastWins(t, [x, y]);
  }

  /**
   * A consequence of REPLACE cascading: re-importing an existing project
   * deletes every other airdrop of that project, with its risk row.
   */
  lemma ReimportDropsSiblings(t: Tables, it: ImportItem, other: string)
    requires ApplyItem(t, it).Ok? && it.project.id in t.projects
    requires other in t.airdrops && t.airdrops[other].projectId == it.project.id && other != it.airdrop.id
    requires other != it.risk.airdropId
    ensures other !in ApplyItem(t, it).value.airdrops && other !in ApplyItem(t, it).value.risks
  {
    assert other in AirdropsOf(t, it.project.id);
  }

  /**
   * Inside one batch the cascade also reaches rows the batch wrote itself: a
   * later item for the same project deletes the airdrop (and risk row) of an
   * earlier item, even when the project did not exist before the batch.
   */
  lemma SameProjectLaterItemDropsEarlierAirdrop(t: Tables, x: ImportItem, y: ImportItem)
    requires x.project.id == y.project.id && x.airdrop.projectId == x.project.id
    requires x.airdrop.id != y.airdrop.id
    requires ApplyItems(t, [x, y]).Ok?
    ensures x.airdrop.id !in ApplyItems(t, [x, y]).value.airdrops
    ensures x.airdrop.id !in ApplyItems(t, [x, y]).value.risks
  {
    var t1 := ApplyItem(t, x).value;
    assert [x, y][1..] == [y];
    assert ApplyItems(t, [x, y]) == ApplyItems(t1, [y]) == ApplyItem(t1, y);
    ApplyItemWrites(t, x);
    assert x.airdrop.id in AirdropsOf(t1, y.project.id);
  }

  // ---- The seed.

  /** The seed inserts only: every row present before is present afterwards and unchanged. */
  lemma {:induction false} InsertAllKeeps(t: Tables, items: seq<ImportItem>)
    requires InsertAll(t, items).Ok?
    ensures var r := InsertAll(t, items).value;
      && (forall k :: k in t.projects ==> k in r.projects && r.projects[k] == t.projects[k])
      && (forall k :: k in t.airdrops ==> k in r.airdrops && r.airdrops[k] == t.airdrops[k])
      && (forall k :: k in t.risks ==> k in r.risks && r.risks[k] == t.risks[k])
    decreases |items|
  {
    if items != [] {
      InsertAllKeeps(InsertTriple(t, items[0]).value, items[1..]);
    }
  }

  /** Every triple of a successful seed transaction is stored as given. */
  lemma {:induction false} InsertAllStores(t: Tables, items: seq<ImportItem>)
    requires InsertAll(t, items).Ok?
    ensures var r := InsertAll(t, items).value;
      forall i :: 0 <= i < |items| ==>
        && items[i].project.id in r.projects && r.projects[items[i].project.id] == items[i].project
        && items[i].airdrop.id in r.airdrops && r.airdrops[items[i].airdrop.id] == items[i].airdrop
        && items[i].risk.airdropId in r.risks && r.risks[items[i].risk.airdropId] == items[i].risk
    decreases |items|
  {
    if items != [] {
      var it := items[0];
      var t1 := InsertTriple(t, it).value;
      var r := InsertAll(t1, items[1..]).value;
      assert InsertAll(t, items).value == r;
      assert it.project.id in t1.projects && t1.projects[it.project.id] == it.project;
      assert it.airdrop.id in t1.airdrops && t1.airdrops[it.airdrop.id] == it.airdrop;
      assert it.risk.airdropId in t1.risks && t1.risks[it.risk.airdropId] == it.risk;
      InsertAllKeeps(t1, items[1..]);
      InsertAllStores(t1, items[1..]);
      assert forall i :: 1 <= i < |items| ==> items[i] == items[1..][i - 1];
    }
  }

  /**
   * A successful seed transaction keeps every row present before it,
   * unchanged, and stores every triple of the seed as given.
   */
  lemma InsertAllExtends(t: Tables, items: seq<ImportItem>)
    requires InsertAll(t, items).Ok?
    ensures var r := InsertAll(t, items).value;
      && (forall k :: k in t.projects ==> k in r.projects && r.projects[k] == t.projects[k])
      && (forall k :: k in t.airdrops ==> k in r.airdrops && r.airdrops[k] == t.airdrops[k])
      && (forall k :: k in t.risks ==> k in r.risks && r.risks[k] == t.risks[k])
    ensures var r := InsertAll(t, items).value;
      forall i :: 0 <= i < |items| ==>
        && items[i].project.id in r.projects && r.projects[items[i].project.id] == items[i].project
        && items[i].airdrop.id in r.airdrops && r.airdrops[items[i].airdrop.id] == items[i].airdrop
        && items[i].risk.airdropId in r.risks && r.risks[items[i].risk.airdropId] == items[i].risk
  {
    InsertAllKeeps(t, items);
    InsertAllStores(t, items);
  }

  lemma {:induction false} InsertAllValid(t: Tables, items: seq<ImportItem>)
    requires ValidTables(t) && InsertAll(t, items).Ok?
    ensures ValidTables(InsertAll(t, items).value)
    decreases |items|
  {
    if items != [] {
      var t1 := InsertTriple(t, items[0]).value;
      assert ValidTables(t1);
      InsertAllValid(t1, items[1..]);
    }
  }

  /** Seeding never alters or removes an existing row, and keeps the schema constraints. */
  lemma SeedKeepsExisting(t: Tables)
    requires ValidTables(t) && SeedTables(t).Ok?
    ensures ValidTables(SeedTables(t).value)
    ensures var r := SeedTables(t).value;
      && (forall k :: k in t.projects ==> k in r.projects && r.projects[k] == t.projects[k])
      && (forall k :: k in t.airdrops ==> k in r.airdrops && r.airdrops[k] == t.airdrops[k])
      && (forall k :: k in t.risks ==> k in r.risks && r.risks[k] == t.risks[k])
  {
    if |t.airdrops| == 0 {
      InsertAllExtends(t, SeedItems);
      InsertAllValid(t, SeedItems);
    }
  }

  /** A committed seed leaves at least one airdrop, so seeding again changes nothing. */
  lemma SeedIdempotent(t: Tables)
    requires SeedTables(t).Ok?
    ensures |SeedTables(t).value.airdrops| > 0
    ensures SeedTables(SeedTables(t).value) == SeedTables(t)
  {
    if |t.airdrops| == 0 {
      var t1 := InsertTriple(t, SeedItems[0]).value;
      assert SeedItems[0].airdrop.id in t1.airdrops;
      assert InsertAll(t, SeedItems) == InsertAll(t1, SeedItems[1..]);
      InsertAllExtends(t1, SeedItems[1..]);
      assert SeedItems[0].airdrop.id in SeedTables(t).value.airdrops;
    }
  }

  /** On an empty database the seed commits and yields its three airdrops, valid and in range. */
  lemma SeedEmptyStore()
    ensures SeedTables(Empty).Ok?
    ensures var r := SeedTables(Empty).value;
      && ValidTables(r) && AllRisksInRange(r)
      && r.projects.Keys == {"proj_sol_xyz", "proj_evm_abc", "proj_multi_def"}
      && r.airdrops.Keys == {"ad_sol_xyz_s1", "ad_evm_abc_s1", "ad_multi_def_beta"}
      && r.risks.Keys == r.airdrops.Keys
      && forall i :: 0 <= i < |SeedItems| ==>
           && SeedItems[i].project.id in r.projects && r.projects[SeedItems[i].project.id] == SeedItems[i].project
           && SeedItems[i].airdrop.id in r.airdrops && r.airdrops[SeedItems[i].airdrop.id] == SeedItems[i].airdrop
           && SeedItems[i].risk.airdropId in r.risks && r.risks[SeedItems[i].risk.airdropId] == SeedItems[i].risk
  {
    var s0, s1, s2 := SeedItems[0], SeedItems[1], SeedItems[2];
    var t1 := Tables(map[s0.project.id := s0.project], map[s0.airdrop.id := s0.airdrop],
                     map[s0.risk.airdropId := s0.risk]);
    assert InsertTriple(Empty, s0) == Ok(t1);
    var t2 := Tables(t1.projects[s1.project.id := s1.project], t1.airdrops[s1.airdrop.id := s1.airdrop],
                     t1.risks[s1.risk.airdropId := s1.risk]);
    assert InsertTriple(t1, s1) == Ok(t2);
    var t3 := Tables(t2.projects[s2.project.id := s2.project], t2.airdrops[s2.airdrop.id := s2.airdrop],
                     t2.risks[s2.risk.airdropId := s2.risk]);
    assert InsertTriple(t2, s2) == Ok(t3);
    assert InsertAll(t2, SeedItems[2..]) == Ok(t3);
    assert InsertAll(t1, SeedItems[1..]) == Ok(t3);
    assert SeedTables(Empty) == Ok(t3);
    forall i | 0 <= i < |SeedItems|
      ensures && SeedItems[i].project.id in t3.projects && t3.projects[SeedItems[i].project.id] == SeedItems[i].project
              && SeedItems[i].airdrop.id in t3.airdrops && t3.airdrops[SeedItems[i].airdrop.id] == SeedItems[i].airdrop
              && SeedItems[i].risk.airdropId in t3.risks && t3.risks[SeedItems[i].risk.airdropId] == SeedItems[i].risk
    {
      assert i == 0 || i == 1 || i == 2;
    }
  }

  /** With no airdrops but a seed project id already taken, the seed transaction fails. */
  lemma SeedConflict(t: Tables)
    requires |t.airdrops| == 0 && "proj_sol_xyz" in t.projects
    ensures SeedTables(t) == Err(UniqueViolation)
  {
  }
}
