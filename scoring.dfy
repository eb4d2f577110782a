/**
 * The derived scores of an airdrop, in exact scaled integers.
 * With W = 35*sybil + 25*scam + 20*task + 20*kyc (one hundredth of
 * 0.35*sybil + 0.25*scam + 0.20*task + 0.20*kyc):
 *   risk_score       = ROUND(W / 100)
 *   100 * rank_score = 10000 - W + 100 * bonus(status)
 */
module Scoring {
  import opened Rows

  /** The weighted risk sum, scaled by 100 so that it stays an integer. */
  function WeightedRisk(r: RiskRow): int {
    35 * r.sybil + 25 * r.scam + 20 * r.task + 20 * r.kyc
  }

  /**
   * SQLite's ROUND(w / 100): the nearest integer, halves rounded away from zero
   * (SQLite adds 0.5, or subtracts it for a negative value, and truncates).
   */
  function SqlRound(w: int): (r: int)
    ensures w >= 0 ==> 100 * r - 50 <= w < 100 * r + 50
    ensures w < 0 ==> 100 * r - 50 < w <= 100 * r + 50
  {
    if w >= 0 then (w + 50) / 100 else - ((50 - w) / 100)
  }

  /** The risk score, computed by the same expression in both listing queries. */
  function RiskScore(r: RiskRow): int {
    SqlRound(WeightedRisk(r))
  }

  /** CASE a.status WHEN 'live' THEN 5 WHEN 'upcoming' THEN 2 ELSE 0 END */
  function StatusBonus(st: Status): int {
    match st
    case Live => 5
    case Upcoming => 2
    case Ended => 0
  }

  /** 100 * rank_score: uses the unrounded weighted sum, not the risk score. */
  function RankScore100(r: RiskRow, st: Status): int {
    10000 - WeightedRisk(r) + 100 * StatusBonus(st)
  }

  /** For factors in [0,100] the risk score is in [0,100] and is the half-up rounding of W/100. */
  lemma RiskScoreInRange(r: RiskRow)
    requires RiskInRange(r)
    ensures 0 <= WeightedRisk(r) <= 10000
    ensures 0 <= RiskScore(r) <= 100
    ensures 100 * RiskScore(r) - 50 <= WeightedRisk(r) < 100 * RiskScore(r) + 50
  {
  }

  /** Rounding never reverses the order of two sums. */
  lemma SqlRoundMonotone(v: int, w: int)
    requires v <= w
    ensures SqlRound(v) <= SqlRound(w)
  {
  }

  /** Changing only the status shifts the rank score by exactly the difference of the bonuses. */
  lemma RankStatusShift(r: RiskRow, s1: Status, s2: Status)
    ensures RankScore100(r, s1) - RankScore100(r, s2) == 100 * (StatusBonus(s1) - StatusBonus(s2))
    ensures RankScore100(r, Live) > RankScore100(r, Upcoming) > RankScore100(r, Ended)
  {
  }

  /**
   * For two events of the same status, a higher rank score means a lower
   * unrounded risk, and hence a risk score that is not higher.
   */
  lemma RankOrdersAgainstRisk(r1: RiskRow, r2: RiskRow, st: Status)
    requires RankScore100(r1, st) >= RankScore100(r2, st)
    ensures WeightedRisk(r1) <= WeightedRisk(r2)
    ensures RiskScore(r1) <= RiskScore(r2)
  {
    SqlRoundMonotone(WeightedRisk(r1), WeightedRisk(r2));
  }

  /**
   * The rank score keeps the precision the risk score drops: two events with
   * the same status and the same risk score can rank differently.
   */
  lemma RankUsesUnroundedSum()
    ensures var r1, r2 := RiskRow("a", 0, 0, 0, 0, Wrappers.None), RiskRow("b", 1, 0, 0, 0, Wrappers.None);
      RiskScore(r1) == RiskScore(r2) && RankScore100(r1, Live) != RankScore100(r2, Live)
  {
  }
}
