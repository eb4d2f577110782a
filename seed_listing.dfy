/** The seeded database: its scores and its default listing. */
module SeedListing {
  import opened Wrappers
  import opened Rows
  import opened Scoring
  import opened TableOps
  import opened Query

  const SolId: string := "ad_sol_xyz_s1"
  const EvmId: string := "ad_evm_abc_s1"
  const MultiId: string := "ad_multi_def_beta"

  /** Risk scores 33, 38 and 40; 100 * rank scores 7225, 6450 and 6025. */
  lemma SeedScores()
    ensures RiskScore(SeedItems[0].risk) == 33 && RankScore100(SeedItems[0].risk, Live) == 7225
    ensures RiskScore(SeedItems[1].risk) == 38 && RankScore100(SeedItems[1].risk, Upcoming) == 6450
    ensures RiskScore(SeedItems[2].risk) == 40 && RankScore100(SeedItems[2].risk, Ended) == 6025
  {
  }

  /** A duplicate-free listing has as many rows as ids. */
  lemma {:induction false} DistinctIdCount(s: seq<AirdropItem>)
    requires forall i, j :: 0 <= i < j < |s| ==> s[i].id != s[j].id
    ensures |IdSet(s)| == |s|
  {
    if s != [] {
      var init := s[..|s| - 1];
      DistinctIdCount(init);
      assert IdSet(s) == IdSet(init) + {s[|s| - 1].id};
      assert s[|s| - 1].id !in IdSet(init);
    }
  }

  /** Three rows with distinct rank scores can be listed by rank in one order only. */
  lemma RankOrderForced(t: Tables, s: seq<AirdropItem>, a: string, b: string, c: string)
    requires Enumerates(t, {a, b, c}, s) && SortedBy(Rank, s)
    requires Joined(t, a) && Joined(t, b) && Joined(t, c)
    requires Join(t, a).rankScore100 > Join(t, b).rankScore100 > Join(t, c).rankScore100
    ensures |s| == 3 && s[0].id == a && s[1].id == b && s[2].id == c
  {
    DistinctIdCount(s);
    assert a != b && b != c && a != c;
    assert |{a, b, c}| == 3;
    assert |s| == 3;
    assert s[0].id in {a, b, c} && s[1].id in {a, b, c} && s[2].id in {a, b, c};
    assert Precedes(Rank, s[0], s[1]) && Precedes(Rank, s[1], s[2]);
  }

  /** The three seeded airdrops are joined, with the ranks of SeedScores. */
  lemma SeededView()
    ensures var t := SeedTables(Empty).value;
      && JoinedIds(t) == {SolId, EvmId, MultiId}
      && Joined(t, SolId) && Joined(t, EvmId) && Joined(t, MultiId)
      && Join(t, SolId).rankScore100 == 7225
      && Join(t, EvmId).rankScore100 == 6450
      && Join(t, MultiId).rankScore100 == 6025
  {
    SeedEmptyStore();
    SeedScores();
    var t := SeedTables(Empty).value;
    var t1 := InsertTriple(Empty, SeedItems[0]).value;
    var t2 := InsertTriple(t1, SeedItems[1]).value;
    assert InsertAll(t2, SeedItems[2..]) == Ok(t);
    assert t.airdrops[SolId] == SeedItems[0].airdrop && t.risks[SolId] == SeedItems[0].risk;
    assert t.airdrops[EvmId] == SeedItems[1].airdrop && t.risks[EvmId] == SeedItems[1].risk;
    assert t.airdrops[MultiId] == SeedItems[2].airdrop && t.risks[MultiId] == SeedItems[2].risk;
  }

  /** On a freshly seeded database the default listing is SOL XYZ, EVM ABC, MULTI DEF. */
  lemma SeededFullListing(s: seq<AirdropItem>)
    requires IsFullListing(SeedTables(Empty).value, s)
    ensures |s| == 3 && s[0].id == SolId && s[1].id == EvmId && s[2].id == MultiId
  {
    SeededView();
    RankOrderForced(SeedTables(Empty).value, s, SolId, EvmId, MultiId);
  }
}
