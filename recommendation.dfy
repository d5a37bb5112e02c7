// The validating staking formula of `recommendation.js` ('risk_adjusted_v1'):
// it throws on a non-positive bank, odds not above 1 or a best-of, tier or
// risk outside its table, and otherwise scales a 2% base share by risk, tier,
// best-of and odds factors, clamps it to [0.25%, 5%] and rounds both the share
// and the stake to six decimals.

module RiskAdjusted {
  import opened JsMath

  const StakingModel: string := "risk_adjusted_v1"
  const BasePct: real := 0.02
  const MinPct: real := 0.0025
  const MaxPct: real := 0.05

  predicate ValidBo(bo: real) { bo == 1.0 || bo == 2.0 || bo == 3.0 || bo == 5.0 }
  predicate ValidTier(tier: real) { tier == 1.0 || tier == 2.0 || tier == 3.0 }
  predicate ValidRisk(risk: real) { risk == 1.0 || risk == 2.0 || risk == 3.0 || risk == 4.0 || risk == 5.0 }

  /** The factor the table gives risk 1: 5 as written, 1.2 in the comment above the table. */
  const RiskOneAsWritten: real := 5.0
  const RiskOneCommented: real := 1.2

  /** `{ 1: one, 2: 1.0, 3: 0.8, 4: 0.6, 5: 0.4 }[risk]` */
  function RiskFactor(risk: real, one: real): real
    requires ValidRisk(risk)
  {
    if risk == 1.0 then one else if risk == 2.0 then 1.0 else if risk == 3.0 then 0.8
    else if risk == 4.0 then 0.6 else 0.4
  }

  /** With a risk-one factor of at least 1.0, a higher risk never has a larger factor. */
  lemma RiskFactorNonIncreasing(one: real, risk1: real, risk2: real)
    requires 1.0 <= one && ValidRisk(risk1) && ValidRisk(risk2) && risk1 <= risk2
    ensures RiskFactor(risk2, one) <= RiskFactor(risk1, one)
  {
  }

  /** The corrected table runs from 1.2 at risk 1 down to 0.4 at risk 5, as the comment describes. */
  lemma CorrectedRiskTableMatchesComment(risk: real)
    requires ValidRisk(risk)
    ensures RiskFactor(1.0, RiskOneCommented) == 1.2 && RiskFactor(5.0, RiskOneCommented) == 0.4
    ensures 0.4 <= RiskFactor(risk, RiskOneCommented) <= 1.2
  {
  }

  /** `{ 1: 1.0, 2: 0.9, 3: 0.8 }[tier]` */
  function TierFactor(tier: real): real
    requires ValidTier(tier)
  {
    if tier == 1.0 then 1.0 else if tier == 2.0 then 0.9 else 0.8
  }

  /** `{ 1: 0.85, 2: 0.92, 3: 1.0, 5: 1.05 }[bo]` */
  function BoFactor(bo: real): real
    requires ValidBo(bo)
  {
    if bo == 1.0 then 0.85 else if bo == 2.0 then 0.92 else if bo == 3.0 then 1.0 else 1.05
  }

  /** `Math.max(0.85, Math.min(1.0, 1.08 - (odds - 1) * 0.12))` */
  function OddsFactor(odds: real): (f: real)
    ensures 0.85 <= f <= 1.0
  {
    Clamp(1.08 - (odds - 1.0) * 0.12, 0.85, 1.0)
  }

  /** The share before rounding: `pct * riskFactor * tierFactor * boFactor * oddsFactor`, clamped. */
  function SharePct(odds: real, bo: real, tier: real, risk: real, one: real): (pct: real)
    requires ValidBo(bo) && ValidTier(tier) && ValidRisk(risk)
    ensures MinPct <= pct <= MaxPct
  {
    Clamp(Product(RiskFactor(risk, one), TierFactor(tier), BoFactor(bo), OddsFactor(odds)), MinPct, MaxPct)
  }

  /** `pct * riskFactor * tierFactor * boFactor * oddsFactor` with the base `pct = 0.02`. */
  function Product(r: real, t: real, b: real, o: real): real {
    BasePct * r * t * b * o
  }

  /** `Number((bank * pct).toFixed(6))` */
  function StakeFor(bank: real, pct: real): (stake: real)
    ensures bank * pct - 0.0000005 <= stake <= bank * pct + 0.0000005
  {
    ToFixed6(bank * pct)
  }

  datatype Recommendation = Recommendation(recommendedPct: real, recommendedStake: real, stakingModel: string)

  /** A returned recommendation, or the message of the thrown `Error`. */
  datatype Outcome = Returned(rec: Recommendation) | Thrown(message: string)

  /** `calcRecommendation({ bank, odds, bo, tier, risk })` of `recommendation.js`, with the factor of risk 1 as a parameter. */
  function CalcRecommendationWith(one: real, bank: real, odds: real, bo: real, tier: real, risk: real): (r: Outcome)
    ensures r.Returned? <==> 0.0 < bank && 1.0 < odds && ValidBo(bo) && ValidTier(tier) && ValidRisk(risk)
    ensures !(0.0 < bank) ==> r == Thrown("bank must be > 0")
    ensures 0.0 < bank && !(1.0 < odds) ==> r == Thrown("odds must be > 1")
    ensures 0.0 < bank && 1.0 < odds && !ValidBo(bo) ==> r == Thrown("bo invalid")
    ensures 0.0 < bank && 1.0 < odds && ValidBo(bo) && !ValidTier(tier) ==> r == Thrown("tier invalid")
    ensures 0.0 < bank && 1.0 < odds && ValidBo(bo) && ValidTier(tier) && !ValidRisk(risk) ==> r == Thrown("risk invalid")
    ensures r.Returned? ==> MinPct <= r.rec.recommendedPct <= MaxPct
    ensures r.Returned? ==> 0.0 <= r.rec.recommendedStake
    ensures r.Returned? ==> r.rec.stakingModel == StakingModel
  {
    if !(0.0 < bank) then Thrown("bank must be > 0")
    else if !(1.0 < odds) then Thrown("odds must be > 1")
    else if !ValidBo(bo) then Thrown("bo invalid")
    else if !ValidTier(tier) then Thrown("tier invalid")
    else if !ValidRisk(risk) then Thrown("risk invalid")
    else
      Returned(RecommendationFor(bank, SharePct(odds, bo, tier, risk, one)))
  }

  /** The returned object for a clamped share: the share and the stake, each to six decimals. */
  function RecommendationFor(bank: real, pct: real): (rec: Recommendation)
    requires 0.0 < bank && MinPct <= pct <= MaxPct
    ensures MinPct <= rec.recommendedPct <= MaxPct
    ensures 0.0 <= rec.recommendedStake
    ensures rec.stakingModel == StakingModel
  {
    ToFixed6Within(pct, MinPct, MaxPct);
    MulLe(0.0, bank, 0.0, pct);
    Recommendation(ToFixed6(pct), StakeFor(bank, pct), StakingModel)
  }

  /** The function as written: risk 1 has factor 5. */
  function CalcRecommendation(bank: real, odds: real, bo: real, tier: real, risk: real): Outcome {
    CalcRecommendationWith(RiskOneAsWritten, bank, odds, bo, tier, risk)
  }

  /** The function with the risk-1 factor the comment gives (1.2). */
  function CalcRecommendationCorrected(bank: real, odds: real, bo: real, tier: real, risk: real): Outcome {
    CalcRecommendationWith(RiskOneCommented, bank, odds, bo, tier, risk)
  }

  /** The returned share and stake are the six-decimal roundings of the clamped share and of bank times it. */
  lemma ReturnedValues(one: real, bank: real, odds: real, bo: real, tier: real, risk: real)
    requires 0.0 < bank && 1.0 < odds && ValidBo(bo) && ValidTier(tier) && ValidRisk(risk)
    ensures var r := CalcRecommendationWith(one, bank, odds, bo, tier, risk);
      var pct := SharePct(odds, bo, tier, risk, one);
      && pct - 0.0000005 <= r.rec.recommendedPct <= pct + 0.0000005
      && bank * pct - 0.0000005 <= r.rec.recommendedStake <= bank * pct + 0.0000005
  {
    var pct := SharePct(odds, bo, tier, risk, one);
    var rec := RecommendationFor(bank, pct);
    assert CalcRecommendationWith(one, bank, odds, bo, tier, risk) == Returned(rec);
    assert rec.recommendedPct == ToFixed6(pct) && rec.recommendedStake == StakeFor(bank, pct);
  }

  /** The raw product is monotone in each factor. */
  lemma ProductMonotone(r1: real, t1: real, b1: real, o1: real, r2: real, t2: real, b2: real, o2: real)
    requires 0.0 <= r1 <= r2 && 0.0 <= t1 <= t2 && 0.0 <= b1 <= b2 && 0.0 <= o1 <= o2
    ensures Product(r1, t1, b1, o1) <= Product(r2, t2, b2, o2)
  {
    MulLe(BasePct * r1, BasePct * r2, t1, t2);
    MulLe(BasePct * r1 * t1, BasePct * r2 * t2, b1, b2);
    MulLe(BasePct * r1 * t1 * b1, BasePct * r2 * t2 * b2, o1, o2);
  }

  /** A larger factor product yields a returned share at least as large. */
  lemma OutputMonotone(one: real, bank: real, odds1: real, bo1: real, tier1: real, risk1: real,
                       odds2: real, bo2: real, tier2: real, risk2: real)
    requires 0.0 <= one
    requires 0.0 < bank && 1.0 < odds1 && ValidBo(bo1) && ValidTier(tier1) && ValidRisk(risk1)
    requires 1.0 < odds2 && ValidBo(bo2) && ValidTier(tier2) && ValidRisk(risk2)
    requires RiskFactor(risk1, one) <= RiskFactor(risk2, one) && TierFactor(tier1) <= TierFactor(tier2)
    requires BoFactor(bo1) <= BoFactor(bo2) && OddsFactor(odds1) <= OddsFactor(odds2)
    ensures CalcRecommendationWith(one, bank, odds1, bo1, tier1, risk1).rec.recommendedPct
         <= CalcRecommendationWith(one, bank, odds2, bo2, tier2, risk2).rec.recommendedPct
  {
    ProductMonotone(RiskFactor(risk1, one), TierFactor(tier1), BoFactor(bo1), OddsFactor(odds1),
                    RiskFactor(risk2, one), TierFactor(tier2), BoFactor(bo2), OddsFactor(odds2));
    ClampMonotone(Product(RiskFactor(risk1, one), TierFactor(tier1), BoFactor(bo1), OddsFactor(odds1)),
                  Product(RiskFactor(risk2, one), TierFactor(tier2), BoFactor(bo2), OddsFactor(odds2)), MinPct, MaxPct);
    ToFixed6Monotone(SharePct(odds1, bo1, tier1, risk1, one), SharePct(odds2, bo2, tier2, risk2, one));
  }

  /** The odds factor never rises with the odds, as the comment on it says. */
  lemma OddsFactorNonIncreasing(odds1: real, odds2: real)
    requires odds1 <= odds2
    ensures OddsFactor(odds2) <= OddsFactor(odds1)
  {
    ClampMonotone(1.08 - (odds2 - 1.0) * 0.12, 1.08 - (odds1 - 1.0) * 0.12, 0.85, 1.0);
  }

  /**
   * The header comment: higher risk, a weaker tier (larger number), a shorter
   * series or higher odds never raise the returned share. It holds for the
   * table as written and for the corrected one alike.
   */
  lemma ShareFollowsHeaderComment(one: real, bank: real, odds1: real, bo1: real, tier1: real, risk1: real,
                                  odds2: real, bo2: real, tier2: real, risk2: real)
    requires one == RiskOneAsWritten || one == RiskOneCommented
    requires 0.0 < bank && 1.0 < odds1 && ValidBo(bo1) && ValidTier(tier1) && ValidRisk(risk1)
    requires 1.0 < odds2 && ValidBo(bo2) && ValidTier(tier2) && ValidRisk(risk2)
    requires risk2 <= risk1 && tier2 <= tier1 && bo1 <= bo2 && odds2 <= odds1
    ensures CalcRecommendationWith(one, bank, odds1, bo1, tier1, risk1).rec.recommendedPct
         <= CalcRecommendationWith(one, bank, odds2, bo2, tier2, risk2).rec.recommendedPct
  {
    OddsFactorNonIncreasing(odds2, odds1);
    RiskFactorNonIncreasing(one, risk2, risk1);
    OutputMonotone(one, bank, odds1, bo1, tier1, risk1, odds2, bo2, tier2, risk2);
  }

  /** Risk 1 is entered as factor 5, so every valid input with risk 1 returns the 5% cap. */
  lemma RiskOnePinsCap(bank: real, odds: real, bo: real, tier: real)
    requires 0.0 < bank && 1.0 < odds && ValidBo(bo) && ValidTier(tier)
    ensures CalcRecommendation(bank, odds, bo, tier, 1.0).rec.recommendedPct == MaxPct
  {
    ProductMonotone(5.0, 0.8, 0.85, 0.85, RiskFactor(1.0, RiskOneAsWritten), TierFactor(tier), BoFactor(bo), OddsFactor(odds));
    assert SharePct(odds, bo, tier, 1.0, RiskOneAsWritten) == MaxPct;
    assert (MaxPct * Micro + 0.5).Floor == 50000;
  }

  /**
   * With the commented factor 1.2, risk 1 yields at most 2.52% of the bank
   * (1.2 x 1.0 x 1.05 x 1.0 of the 2% base), well inside the 5% cap.
   */
  lemma CorrectedRiskOneBelowCap(bank: real, odds: real, bo: real, tier: real)
    requires 0.0 < bank && 1.0 < odds && ValidBo(bo) && ValidTier(tier)
    ensures CalcRecommendationCorrected(bank, odds, bo, tier, 1.0).rec.recommendedPct <= 0.0252 < MaxPct
  {
    ProductMonotone(RiskFactor(1.0, RiskOneCommented), TierFactor(tier), BoFactor(bo), OddsFactor(odds), 1.2, 1.0, 1.05, 1.0);
    var pct := SharePct(odds, bo, tier, 1.0, RiskOneCommented);
    assert pct <= 0.0252;
    ToFixed6Within(pct, MinPct, 0.0252);
  }
}
