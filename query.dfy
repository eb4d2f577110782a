/**
 * The query engine: the joined view of airdrops, projects and risk factors
 * with its derived scores, the filter options, the five sort orders and what
 * a listing must be.
 */
module Query {
  import opened Wrappers
  import opened Rows
  import opened Scoring

  /** The five sort orders of ListOptions.sort. */
  datatype SortKey = Rank | RiskAsc | RiskDesc | Start | End

  function SortName(k: SortKey): string {
    match k
    case Rank => "rank"
    case RiskAsc => "riskAsc"
    case RiskDesc => "riskDesc"
    case Start => "start"
    case End => "end"
  }

  function SortOf(s: string): (r: Option<SortKey>)
    ensures r.Some? ==> SortName(r.value) == s
  {
    if s == "rank" then Some(Rank)
    else if s == "riskAsc" then Some(RiskAsc)
    else if s == "riskDesc" then Some(RiskDesc)
    else if s == "start" then Some(Start)
    else if s == "end" then Some(End)
    else None
  }

  lemma SortNameRoundTrip(k: SortKey, s: string)
    ensures SortOf(SortName(k)) == Some(k)
    ensures SortOf(s).Some? <==> s in {"rank", "riskAsc", "riskDesc", "start", "end"}
  {
  }

  /** A row of the result (AirdropItem); `rankScore100` is 100 times rank_score. */
  datatype AirdropItem = AirdropItem(
    id: string, project: string, chain: string, title: string, status: Status,
    startDate: Option<string>, endDate: Option<string>, reward: Option<string>, link: Option<string>,
    sybil: int, scam: int, task: int, kyc: int,
    riskScore: int, rankScore100: int)

  /** The inner joins: the airdrop has its project and its risk row. */
  predicate Joined(t: Tables, id: string) {
    id in t.airdrops && t.airdrops[id].projectId in t.projects && id in t.risks
  }

  /** The joined row of an airdrop, with both scores computed from its own risk row and status. */
  function Join(t: Tables, id: string): (r: AirdropItem)
    requires Joined(t, id)
    ensures r.id == id
    ensures r.riskScore == RiskScore(t.risks[id])
    ensures r.rankScore100 == RankScore100(t.risks[id], t.airdrops[id].status)
  {
    var a, k := t.airdrops[id], t.risks[id];
    var p := t.projects[a.projectId];
    AirdropItem(id, p.name, p.chain, a.title, a.status, a.startDate, a.endDate, a.reward, a.link,
                k.sybil, k.scam, k.task, k.kyc, RiskScore(k), RankScore100(k, a.status))
  }

  /** The ids the view holds: every airdrop with both associations, and no other. */
  function JoinedIds(t: Tables): (ids: set<string>)
    ensures forall id :: id in ids <==> Joined(t, id)
  {
    set id | id in t.airdrops && Joined(t, id)
  }

  /** ListOptions; every field is optional. */
  datatype ListOptions = ListOptions(
    chain: Option<string>, status: Option<Status>, q: Option<string>,
    riskMin: Option<int>, riskMax: Option<int>, sort: Option<SortKey>)

  const NoOptions: ListOptions := ListOptions(None, None, None, None, None, None)

  /** A text option takes part only when it is a non-empty string (JavaScript truthiness). */
  predicate Given(x: Option<string>) {
    x.Some? && x.value != ""
  }

  /** LIKE folds ASCII letters only. */
  function LowerChar(c: char): char {
    if 'A' <= c <= 'Z' then (c as int + 32) as char else c
  }

  function LowerAscii(s: string): (r: string)
    ensures |r| == |s| && forall i :: 0 <= i < |s| ==> r[i] == LowerChar(s[i])
  {
    seq(|s|, i requires 0 <= i < |s| => LowerChar(s[i]))
  }

  predicate IsSubstring(p: string, s: string) {
    exists k :: 0 <= k <= |s| && p <= s[k..]
  }

  /** `s LIKE '%q%'`: q occurs in s, ignoring ASCII case. */
  predicate ContainsCI(s: string, q: string) {
    IsSubstring(LowerAscii(q), LowerAscii(s))
  }

  /** The meaning of the options as a filter: the conjunction of every option that is given. */
  predicate Matches(r: AirdropItem, o: ListOptions) {
    && (Given(o.chain) ==> r.chain == o.chain.value)
    && (o.status.Some? ==> r.status == o.status.value)
    && (Given(o.q) ==> ContainsCI(r.project, o.q.value) || ContainsCI(r.title, o.q.value))
    && (o.riskMin.Some? ==> r.riskScore >= o.riskMin.value)
    && (o.riskMax.Some? ==> r.riskScore <= o.riskMax.value)
  }

  /** The ids of the filtered view. */
  function FilteredIds(t: Tables, o: ListOptions): (ids: set<string>)
    ensures forall id :: id in ids <==> Joined(t, id) && Matches(Join(t, id), o)
  {
    set id | id in t.airdrops && Joined(t, id) && Matches(Join(t, id), o)
  }

  // ---- Sort orders.

  /** Text comparison under SQLite's BINARY collation: code point by code point. */
  predicate StrLe(a: string, b: string)
    decreases |a|
  {
    if a == [] then true
    else if b == [] then false
    else if a[0] != b[0] then a[0] < b[0]
    else StrLe(a[1..], b[1..])
  }

  /** `CASE WHEN d IS NULL THEN 1 ELSE 0 END, d ASC`: dates ascending, NULL after every date. */
  predicate NullsLastLe(x: Option<string>, y: Option<string>) {
    match x
    case None => y.None?
    case Some(a) => y.None? || StrLe(a, y.value)
  }

  /** The effective sort: anything other than the four named orders is `rank_score DESC`. */
  function EffectiveSort(o: ListOptions): SortKey {
    if o.sort.Some? then o.sort.value else Rank
  }

  /** `x` may stand before `y` under the sort key (a total preorder: ties are allowed). */
  predicate Precedes(k: SortKey, x: AirdropItem, y: AirdropItem) {
    match k
    case Rank => x.rankScore100 >= y.rankScore100
    case RiskAsc => x.riskScore <= y.riskScore
    case RiskDesc => x.riskScore >= y.riskScore
    case Start => NullsLastLe(x.startDate, y.startDate)
    case End => NullsLastLe(x.endDate, y.endDate)
  }

  predicate SortedBy(k: SortKey, s: seq<AirdropItem>) {
    forall i, j :: 0 <= i < j < |s| ==> Precedes(k, s[i], s[j])
  }

  function IdSet(s: seq<AirdropItem>): set<string> {
    set i | 0 <= i < |s| :: s[i].id
  }

  /** `s` lists the view rows of exactly the ids in `ids`, each once (a permutation of them). */
  predicate Enumerates(t: Tables, ids: set<string>, s: seq<AirdropItem>) {
    && (forall i :: 0 <= i < |s| ==> Joined(t, s[i].id) && s[i] == Join(t, s[i].id))
    && (forall i, j :: 0 <= i < j < |s| ==> s[i].id != s[j].id)
    && IdSet(s) == ids
  }

  /** What `listAirdropsFiltered(o)` may return: the filtered view, in some order allowed by the sort. */
  predicate IsListing(t: Tables, o: ListOptions, s: seq<AirdropItem>) {
    Enumerates(t, FilteredIds(t, o), s) && SortedBy(EffectiveSort(o), s)
  }

  /** What `listAirdrops()` may return: the whole view by rank_score descending. */
  predicate IsFullListing(t: Tables, s: seq<AirdropItem>) {
    Enumerates(t, JoinedIds(t), s) && SortedBy(Rank, s)
  }

  // ---- The WHERE clause, built one condition at a time.

  /** One condition pushed onto `where`, with its bound parameter. */
  datatype Clause =
    | ChainIs(chain: string)           // p.chain = @chain
    | StatusIs(status: Status)         // a.status = @status
    | NameOrTitleLike(q: string)       // (p.name LIKE @q OR a.title LIKE @q), @q = '%q%'
    | RiskAtLeast(min: int)            // rf_calc.risk_score >= @rmin
    | RiskAtMost(max: int)             // rf_calc.risk_score <= @rmax

  predicate Holds(c: Clause, r: AirdropItem) {
    match c
    case ChainIs(chain) => r.chain == chain
    case StatusIs(st) => r.status == st
    case NameOrTitleLike(q) => ContainsCI(r.project, q) || ContainsCI(r.title, q)
    case RiskAtLeast(min) => r.riskScore >= min
    case RiskAtMost(max) => r.riskScore <= max
  }

  /** `where.join(' AND ')`, with no WHERE at all for an empty list. */
  predicate HoldsAll(where: seq<Clause>, r: AirdropItem) {
    forall i :: 0 <= i < |where| ==> Holds(where[i], r)
  }

  lemma HoldsAllPush(where: seq<Clause>, c: Clause, r: AirdropItem)
    ensures HoldsAll(where + [c], r) <==> HoldsAll(where, r) && Holds(c, r)
  {
    assert forall i :: 0 <= i < |where| ==> (where + [c])[i] == where[i];
    assert (where + [c])[|where|] == c;
  }

  /** The `where` array of `listAirdropsFiltered`: it holds for a row exactly when the row matches the options. */
  method BuildWhere(o: ListOptions) returns (where: seq<Clause>)
    ensures forall r :: HoldsAll(where, r) <==> Matches(r, o)
    ensures |where| <= 5
  {
    where := [];
    if Given(o.chain) {
      forall r ensures HoldsAll(where + [ChainIs(o.chain.value)], r) <==> HoldsAll(where, r) && r.chain == o.chain.value {
        HoldsAllPush(where, ChainIs(o.chain.value), r);
      }
      where := where + [ChainIs(o.chain.value)];
    }
    ghost var w1 := where;
    assert forall r :: HoldsAll(w1, r) <==> (Given(o.chain) ==> r.chain == o.chain.value);
    if o.status.Some? {
      forall r ensures HoldsAll(where + [StatusIs(o.status.value)], r) <==> HoldsAll(where, r) && r.status == o.status.value {
        HoldsAllPush(where, StatusIs(o.status.value), r);
      }
      where := where + [StatusIs(o.status.value)];
    }
    ghost var w2 := where;
    assert forall r :: HoldsAll(w2, r) <==> HoldsAll(w1, r) && (o.status.Some? ==> r.status == o.status.value);
    if Given(o.q) {
      forall r ensures HoldsAll(where + [NameOrTitleLike(o.q.value)], r) <==> HoldsAll(where, r) && Holds(NameOrTitleLike(o.q.value), r) {
        HoldsAllPush(where, NameOrTitleLike(o.q.value), r);
      }
      where := where + [NameOrTitleLike(o.q.value)];
    }
    ghost var w3 := where;
    assert forall r :: HoldsAll(w3, r) <==> (HoldsAll(w2, r)
      && (Given(o.q) ==> ContainsCI(r.project, o.q.value) || ContainsCI(r.title, o.q.value)));
    if o.riskMin.Some? {
      forall r ensures HoldsAll(where + [RiskAtLeast(o.riskMin.value)], r) <==> HoldsAll(where, r) && r.riskScore >= o.riskMin.value {
        HoldsAllPush(where, RiskAtLeast(o.riskMin.value), r);
      }
      where := where + [RiskAtLeast(o.riskMin.value)];
    }
    ghost var w4 := where;
    assert forall r :: HoldsAll(w4, r) <==> HoldsAll(w3, r) && (o.riskMin.Some? ==> r.riskScore >= o.riskMin.value);
    if o.riskMax.Some? {
      forall r ensures HoldsAll(where + [RiskAtMost(o.riskMax.value)], r) <==> HoldsAll(where, r) && r.riskScore <= o.riskMax.value {
        HoldsAllPush(where, RiskAtMost(o.riskMax.value), r);
      }
      where := where + [RiskAtMost(o.riskMax.value)];
    }
  }

  // ---- ORDER BY: the sort keys are total preorders.

  lemma {:induction false} StrLeTotal(a: string, b: string)
    ensures StrLe(a, b) || StrLe(b, a)
    decreases |a|
  {
    if a != [] && b != [] && a[0] == b[0] {
      StrLeTotal(a[1..], b[1..]);
    }
  }

  lemma {:induction false} StrLeTransitive(a: string, b: string, c: string)
    requires StrLe(a, b) && StrLe(b, c)
    ensures StrLe(a, c)
    decreases |a|
  {
    if a != [] && b != [] && c != [] && a[0] == b[0] && b[0] == c[0] {
      StrLeTransitive(a[1..], b[1..], c[1..]);
    }
  }

  lemma PrecedesTotal(k: SortKey, x: AirdropItem, y: AirdropItem)
    ensures Precedes(k, x, y) || Precedes(k, y, x)
  {
    if k == Start && x.startDate.Some? && y.startDate.Some? {
      StrLeTotal(x.startDate.value, y.startDate.value);
    }
    if k == End && x.endDate.Some? && y.endDate.Some? {
      StrLeTotal(x.endDate.value, y.endDate.value);
    }
  }

  lemma PrecedesTransitive(k: SortKey, x: AirdropItem, y: AirdropItem, z: AirdropItem)
    requires Precedes(k, x, y) && Precedes(k, y, z)
    ensures Precedes(k, x, z)
  {
    if k == Start && x.startDate.Some? && y.startDate.Some? && z.startDate.Some? {
      StrLeTransitive(x.startDate.value, y.startDate.value, z.startDate.value);
    }
    if k == End && x.endDate.Some? && y.endDate.Some? && z.endDate.Some? {
      StrLeTransitive(x.endDate.value, y.endDate.value, z.endDate.value);
    }
  }

  /** Places `x` after every row that may precede it, keeping the sequence ordered. */
  method InsertSorted(k: SortKey, s: seq<AirdropItem>, x: AirdropItem) returns (r: seq<AirdropItem>, p: nat)
    requires SortedBy(k, s)
    ensures p <= |s| && r == s[..p] + [x] + s[p..]
    ensures SortedBy(k, r)
  {
    p := 0;
    while p < |s| && Precedes(k, s[p], x)
      invariant p <= |s|
      invariant forall i :: 0 <= i < p ==> Precedes(k, s[i], x)
    {
      p := p + 1;
    }
    r := s[..p] + [x] + s[p..];
    if p < |s| {
      PrecedesTotal(k, s[p], x);
    }
    forall i, j | 0 <= i < j < |r| ensures Precedes(k, r[i], r[j]) {
      if i < p && j == p {
      } else if i < p && j < p {
        assert r[i] == s[i] && r[j] == s[j];
      } else if i < p {
        assert r[i] == s[i] && r[j] == s[j - 1];
      } else if i == p {
        assert r[j] == s[j - 1];
        if j - 1 > p {
          PrecedesTransitive(k, x, s[p], s[j - 1]);
        }
      } else {
        assert r[i] == s[i - 1] && r[j] == s[j - 1];
      }
    }
  }

  /** Where each element of `s` lands when `x` is inserted at position `p`. */
  lemma InsertIndex(s: seq<AirdropItem>, x: AirdropItem, p: nat)
    requires p <= |s|
    ensures |s[..p] + [x] + s[p..]| == |s| + 1
    ensures forall i :: 0 <= i < p ==> (s[..p] + [x] + s[p..])[i] == s[i]
    ensures (s[..p] + [x] + s[p..])[p] == x
    ensures forall i :: p < i <= |s| ==> (s[..p] + [x] + s[p..])[i] == s[i - 1]
  {
  }

  /** Inserting a new row of the view keeps the sequence a duplicate-free listing of the ids seen. */
  lemma InsertEnumerates(t: Tables, ids: set<string>, s: seq<AirdropItem>, x: AirdropItem, p: nat)
    requires Enumerates(t, ids, s) && Joined(t, x.id) && x == Join(t, x.id) && x.id !in ids && p <= |s|
    ensures Enumerates(t, ids + {x.id}, s[..p] + [x] + s[p..])
  {
    var r := s[..p] + [x] + s[p..];
    InsertIndex(s, x, p);
    forall i | 0 <= i < |s| ensures s[i].id in ids {
      assert s[i].id in IdSet(s);
    }
    forall i | 0 <= i < |r| ensures Joined(t, r[i].id) && r[i] == Join(t, r[i].id) && r[i].id in ids + {x.id} {
      if i < p { assert r[i] == s[i]; } else if i > p { assert r[i] == s[i - 1]; }
    }
    forall i, j | 0 <= i < j < |r| ensures r[i].id != r[j].id {
      if i == p {
        assert r[j] == s[j - 1];
      } else if j == p {
        assert r[i] == s[i];
      } else {
        assert r[i] == (if i < p then s[i] else s[i - 1]);
        assert r[j] == (if j < p then s[j] else s[j - 1]);
      }
    }
    forall id | id in ids + {x.id} ensures id in IdSet(r) {
      if id == x.id {
        assert r[p].id == id;
      } else {
        var i :| 0 <= i < |s| && s[i].id == id;
        if i < p { assert r[i].id == id; } else { assert r[i + 1].id == id; }
      }
    }
    assert IdSet(r) == ids + {x.id};
  }

  // ---- Properties of listings.

  /** Only airdrops with an existing project and risk row appear, each beside its own scores. */
  lemma ListingRowsJoined(t: Tables, o: ListOptions, s: seq<AirdropItem>, i: int)
    requires IsListing(t, o, s) && 0 <= i < |s|
    ensures s[i].id in t.airdrops && t.airdrops[s[i].id].projectId in t.projects && s[i].id in t.risks
    ensures s[i].riskScore == RiskScore(t.risks[s[i].id])
    ensures s[i].rankScore100 == RankScore100(t.risks[s[i].id], t.airdrops[s[i].id].status)
    ensures Matches(s[i], o)
  {
    assert s[i].id in IdSet(s);
  }

  /** Both listing queries give an airdrop the same row and the same scores. */
  lemma ListingsAgree(t: Tables, o: ListOptions, s1: seq<AirdropItem>, s2: seq<AirdropItem>, i: int, j: int)
    requires IsListing(t, o, s1) && IsFullListing(t, s2)
    requires 0 <= i < |s1| && 0 <= j < |s2| && s1[i].id == s2[j].id
    ensures s1[i] == s2[j]
  {
  }

  /** With no option given, the filtered listing is exactly the unfiltered one. */
  lemma NoOptionsIsFullListing(t: Tables, s: seq<AirdropItem>)
    ensures IsListing(t, NoOptions, s) <==> IsFullListing(t, s)
  {
    assert FilteredIds(t, NoOptions) == JoinedIds(t);
  }

  /** A minimum above the maximum selects nothing. */
  lemma InvertedRiskBoundsEmpty(t: Tables, o: ListOptions, s: seq<AirdropItem>)
    requires o.riskMin.Some? && o.riskMax.Some? && o.riskMin.value > o.riskMax.value
    requires IsListing(t, o, s)
    ensures s == [] && FilteredIds(t, o) == {}
  {
    assert |s| > 0 ==> s[0].id in IdSet(s);
  }

  /** The filters combine with AND: a row matches all options iff it matches each one alone. */
  lemma FiltersConjoin(r: AirdropItem, o: ListOptions)
    ensures Matches(r, o) <==>
      && Matches(r, NoOptions.(chain := o.chain))
      && Matches(r, NoOptions.(status := o.status))
      && Matches(r, NoOptions.(q := o.q))
      && Matches(r, NoOptions.(riskMin := o.riskMin))
      && Matches(r, NoOptions.(riskMax := o.riskMax))
    ensures Matches(r, NoOptions) && Matches(r, NoOptions.(sort := o.sort))
  {
  }

  /** An empty `chain` or `q` restricts nothing, just like an absent one. */
  lemma EmptyTextIgnored(r: AirdropItem, o: ListOptions)
    ensures Matches(r, o.(chain := Some(""))) == Matches(r, o.(chain := None))
    ensures Matches(r, o.(q := Some(""))) == Matches(r, o.(q := None))
  {
  }

  /** `riskMin`/`riskMax` bound the computed risk score inclusively. */
  lemma RiskBoundsInclusive(r: AirdropItem, lo: int, hi: int)
    ensures Matches(r, NoOptions.(riskMin := Some(lo), riskMax := Some(hi))) <==> lo <= r.riskScore <= hi
  {
  }

  /** Folding twice is folding once. */
  lemma LowerAsciiIdempotent(s: string)
    ensures LowerAscii(LowerAscii(s)) == LowerAscii(s)
  {
    var l := LowerAscii(s);
    assert forall i :: 0 <= i < |s| ==> LowerChar(l[i]) == l[i];
  }

  /**
   * The search ignores ASCII case on both sides: texts and search strings
   * that differ only in the case of ASCII letters match alike.
   */
  lemma SearchIgnoresCase(s: string, s2: string, q: string, q2: string)
    requires LowerAscii(s) == LowerAscii(s2) && LowerAscii(q) == LowerAscii(q2)
    ensures ContainsCI(s, q) == ContainsCI(s2, q2)
    ensures ContainsCI(s, LowerAscii(q)) == ContainsCI(s, q)
  {
    LowerAsciiIdempotent(q);
  }

  /** A search string that occurs in the text, at any position and in the same case, matches. */
  lemma SearchFindsSubstring(s: string, q: string, k: int)
    requires 0 <= k <= |s| - |q| && s[k..k + |q|] == q
    ensures ContainsCI(s, q)
  {
    var ls, lq := LowerAscii(s), LowerAscii(q);
    assert forall i :: 0 <= i < |q| ==> lq[i] == LowerChar(s[k + i]) == ls[k..][i];
    assert lq <= ls[k..];
  }

  /** Two instances: the seeded project name and title, searched in a different case. */
  lemma SearchExamples()
    ensures ContainsCI("SOL XYZ", "sol") && ContainsCI("Season 1 Early", "EARLY")
    ensures !ContainsCI("SOL", "evm")
  {
    assert LowerAscii("sol") <= LowerAscii("SOL XYZ")[0..];
    assert LowerAscii("EARLY") <= LowerAscii("Season 1 Early")[9..];
    assert LowerAscii("evm") == "evm" && LowerAscii("SOL") == "sol";
    forall k | 0 <= k <= 3 ensures !("evm" <= "sol"[k..]) {
      if k < 3 { assert "sol"[k..][0] != 'e'; }
    }
  }

  /** Sorting by a date puts every row with the date before every row without it, dates ascending. */
  lemma DateSortNullsLast(s: seq<AirdropItem>, i: int, j: int)
    requires SortedBy(Start, s) && 0 <= i < j < |s|
    ensures s[i].startDate.None? ==> s[j].startDate.None?
    ensures s[i].startDate.Some? && s[j].startDate.Some? ==> StrLe(s[i].startDate.value, s[j].startDate.value)
  {
    assert Precedes(Start, s[i], s[j]);
  }

  lemma EndSortNullsLast(s: seq<AirdropItem>, i: int, j: int)
    requires SortedBy(End, s) && 0 <= i < j < |s|
    ensures s[i].endDate.None? ==> s[j].endDate.None?
    ensures s[i].endDate.Some? && s[j].endDate.Some? ==> StrLe(s[i].endDate.value, s[j].endDate.value)
  {
    assert Precedes(End, s[i], s[j]);
  }
}
