// The table-driven staking formula of `staking.js` ('risk_adjusted_v1'):
// a base share of the bank scaled by best-of, tier, risk and odds
// multipliers, clamped to [0.25%, 3%], with the stake rounded to cents.
// Nothing is validated: a key missing from a table counts as factor 1.0,
// and odds or a bank that `Number` cannot read (NaN, written `None`) carry
// NaN into the share and the stake.

module Staking {
  import opened JsMath
  import opened Wrappers

  const StakingModel: string := "risk_adjusted_v1"

  const BasePct: real := 0.01
  const MinPct: real := 0.0025
  const MaxPct: real := 0.03

  /** `cfg.bo[bo] ?? 1.0` */
  function BoFactor(bo: real): real {
    if bo == 1.0 then 0.90
    else if bo == 2.0 then 0.95
    else if bo == 3.0 then 1.00
    else if bo == 5.0 then 1.05
    else 1.0
  }

  /** `cfg.tier[tier] ?? 1.0` */
  function TierFactor(tier: real): real {
    if tier == 1.0 then 1.00
    else if tier == 2.0 then 0.95
    else if tier == 3.0 then 0.90
    else 1.0
  }

  /** `cfg.risk[risk] ?? 1.0`; risk 1 is entered as 100. */
  function RiskFactor(risk: real): real {
    if risk == 1.0 then 100.0
    else if risk == 2.0 then 1.00
    else if risk == 3.0 then 0.90
    else if risk == 4.0 then 0.80
    else if risk == 5.0 then 0.70
    else 1.0
  }

  /** `clamp((odds - 1) / 1.5, 0.85, 1.10)` */
  function OddsFactor(odds: real): (f: real)
    ensures 0.85 <= f <= 1.10
  {
    Clamp((odds - 1.0) / 1.5, 0.85, 1.10)
  }

  /** `cfg.basePct * mBO * mTier * mRisk * mOdds`, multiplied left to right. */
  function RawPct(odds: real, bo: real, tier: real, risk: real): real {
    BasePct * BoFactor(bo) * TierFactor(tier) * RiskFactor(risk) * OddsFactor(odds)
  }

  /** The result object; `None` is NaN. */
  datatype Recommendation = Recommendation(recommendedPct: Option<real>, recommendedStake: Option<real>, stakingModel: string)

  /**
   * `calcRecommendation({ bank, odds, bo, tier, risk })` of `staking.js`, with
   * `Number(odds)` and `Number(bank)` given: `None` for NaN. NaN odds make
   * `Math.min` and `Math.max` return NaN, so the share is NaN; a NaN share or
   * bank makes the stake NaN.
   */
  function CalcRecommendation(bank: Option<real>, odds: Option<real>, bo: real, tier: real, risk: real): (r: Recommendation)
    ensures r.recommendedPct.Some? <==> odds.Some?
    ensures r.recommendedPct.Some? ==> MinPct <= r.recommendedPct.value <= MaxPct
    ensures r.recommendedStake.Some? <==> odds.Some? && bank.Some?
    ensures r.recommendedStake.Some? ==> r.recommendedStake.value == StakeFor(bank.value, r.recommendedPct.value)
    ensures r.stakingModel == StakingModel
  {
    if odds.None? then Recommendation(None, None, StakingModel)
    else
      var pct := SharePct(odds.value, bo, tier, risk);
      Recommendation(Some(pct), if bank.Some? then Some(StakeFor(bank.value, pct)) else None, StakingModel)
  }

  /** `clamp(pct, cfg.minPct, cfg.maxPct)` */
  function SharePct(odds: real, bo: real, tier: real, risk: real): (pct: real)
    ensures MinPct <= pct <= MaxPct
  {
    Clamp(RawPct(odds, bo, tier, risk), MinPct, MaxPct)
  }

  /** `round2(Number(bank) * pct)` */
  function StakeFor(bank: real, pct: real): (stake: real)
    ensures bank * pct - 0.005 < stake <= bank * pct + 0.005
  {
    Round2(bank * pct)
  }

  /** Every bo, tier and numeric odds combination with risk 1 lands on the 3% ceiling. */
  lemma RiskOnePinsCeiling(bank: Option<real>, odds: real, bo: real, tier: real)
    ensures CalcRecommendation(bank, Some(odds), bo, tier, 1.0).recommendedPct == Some(MaxPct)
  {
    var b, t, o := BoFactor(bo), TierFactor(tier), OddsFactor(odds);
    assert 0.9 <= b && 0.9 <= t;
    MulLe(0.009, BasePct * b, 0.9, t);
    MulLe(0.0081, BasePct * b * t, 100.0, 100.0);
    MulLe(0.81, BasePct * b * t * 100.0, 0.85, o);
    assert RawPct(odds, bo, tier, 1.0) >= 0.6885;
  }

  /** A higher price never lowers the recommended share (other inputs fixed). */
  lemma PctMonotoneInOdds(bank: Option<real>, odds1: real, odds2: real, bo: real, tier: real, risk: real)
    requires odds1 <= odds2
    ensures CalcRecommendation(bank, Some(odds1), bo, tier, risk).recommendedPct.value
         <= CalcRecommendation(bank, Some(odds2), bo, tier, risk).recommendedPct.value
  {
    var k := BasePct * BoFactor(bo) * TierFactor(tier) * RiskFactor(risk);
    ClampMonotone((odds1 - 1.0) / 1.5, (odds2 - 1.0) / 1.5, 0.85, 1.10);
    MulLe(k, k, OddsFactor(odds1), OddsFactor(odds2));
    ClampMonotone(RawPct(odds1, bo, tier, risk), RawPct(odds2, bo, tier, risk), MinPct, MaxPct);
  }

  /**
   * A best-of, tier or risk value missing from the configuration behaves as the
   * entry whose factor is 1.0 (bo 3, tier 1, risk 2); no input is rejected.
   */
  lemma MissingKeysFallBack(bank: Option<real>, odds: Option<real>, bo: real, tier: real, risk: real)
    requires bo !in {1.0, 2.0, 3.0, 5.0}
    requires tier !in {1.0, 2.0, 3.0}
    requires risk !in {1.0, 2.0, 3.0, 4.0, 5.0}
    ensures CalcRecommendation(bank, odds, bo, tier, risk) == CalcRecommendation(bank, odds, 3.0, 1.0, 2.0)
  {
    SameFactorsSameResult(bank, odds, bo, tier, risk, 3.0, 1.0, 2.0);
  }

  lemma SameFactorsSameResult(bank: Option<real>, odds: Option<real>, bo: real, tier: real, risk: real, bo': real, tier': real, risk': real)
    requires BoFactor(bo) == BoFactor(bo') && TierFactor(tier) == TierFactor(tier') && RiskFactor(risk) == RiskFactor(risk')
    ensures CalcRecommendation(bank, odds, bo, tier, risk) == CalcRecommendation(bank, odds, bo', tier', risk')
  {
    if odds.Some? {
      assert RawPct(odds.value, bo, tier, risk) == RawPct(odds.value, bo', tier', risk');
    }
  }
}
