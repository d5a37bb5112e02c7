// The pure helpers of the terminal controller: request coercion
// (`safeEnum`, `safeIntEnum`) and the staking formula the handlers actually
// call, tagged 'kvantonium v3'.

module TerminalHelpers {
  import opened Wrappers
  import opened JsMath
  import opened Text

  /**
   * `safeEnum(v, allowed)`: `String(v || '').trim()` when it is one of the
   * allowed spellings, else null. A missing value arrives here as "".
   */
  function SafeEnum(v: string, allowed: seq<string>): (r: Option<string>)
    ensures r.Some? ==> r.value in allowed && r.value == Trim(v)
    ensures r.None? ==> Trim(v) !in allowed
  {
    var s := Trim(v);
    if s in allowed then Some(s) else None
  }

  /** White space on either side, of any length, never changes what `safeEnum` accepts. */
  lemma SafeEnumIgnoresPadding(pre: string, v: string, post: string, allowed: seq<string>)
    requires forall i :: 0 <= i < |pre| ==> IsSpace(pre[i])
    requires forall i :: 0 <= i < |post| ==> IsSpace(post[i])
    ensures SafeEnum(pre + v + post, allowed) == SafeEnum(v, allowed)
  {
    TrimPadding(pre, v, post);
  }

  lemma TrimPadding(pre: string, v: string, post: string)
    requires forall i :: 0 <= i < |pre| ==> IsSpace(pre[i])
    requires forall i :: 0 <= i < |post| ==> IsSpace(post[i])
    ensures Trim(pre + v + post) == Trim(v)
  {
    assert pre + v + post == pre + (v + post);
    TrimStartPrepend(pre, v + post);
    TrimStartAppend(v, post);
    TrimEndAppendAll(TrimStart(v), post);
  }

  /** Leading white space is all dropped. */
  lemma {:induction false} TrimStartPrepend(pre: string, v: string)
    requires forall i :: 0 <= i < |pre| ==> IsSpace(pre[i])
    ensures TrimStart(pre + v) == TrimStart(v)
    decreases |pre|
  {
    if |pre| > 0 {
      assert (pre + v)[0] == pre[0];
      assert (pre + v)[1..] == pre[1..] + v;
      TrimStartPrepend(pre[1..], v);
    } else {
      assert pre + v == v;
    }
  }

  /** Trailing white space is all dropped. */
  lemma {:induction false} TrimEndAppendAll(v: string, post: string)
    requires forall i :: 0 <= i < |post| ==> IsSpace(post[i])
    ensures TrimEnd(v + post) == TrimEnd(v)
    decreases |post|
  {
    if |post| > 0 {
      var init := post[..|post| - 1];
      assert v + post == (v + init) + [post[|post| - 1]];
      TrimEndAppendSpace(v + init, post[|post| - 1]);
      TrimEndAppendAll(v, init);
    } else {
      assert v + post == v;
    }
  }

  lemma TrimStartAppend(v: string, tail: string)
    requires forall i :: 0 <= i < |tail| ==> IsSpace(tail[i])
    ensures TrimStart(v + tail) == TrimStart(v) + tail || (TrimStart(v) == [] && TrimStart(v + tail) == [])
    decreases |v|
  {
    if |v| > 0 && IsSpace(v[0]) {
      assert (v + tail)[1..] == v[1..] + tail;
      TrimStartAppend(v[1..], tail);
    } else if |v| == 0 {
      assert v + tail == tail;
      TrimStartAllSpace(tail);
    }
  }

  lemma TrimStartAllSpace(s: string)
    requires forall i :: 0 <= i < |s| ==> IsSpace(s[i])
    ensures TrimStart(s) == []
  {
  }

  lemma TrimEndAppendSpace(v: string, c: char)
    requires IsSpace(c)
    ensures TrimEnd(v + [c]) == TrimEnd(v)
  {
    assert (v + [c])[..|v|] == v;
  }

  /**
   * `safeIntEnum(v, allowed)`: `Number(v)` when it is an integer listed in
   * `allowed`, else null. `None` stands for a value `Number` turns into NaN.
   */
  function SafeIntEnum(v: Option<real>, allowed: seq<int>): (r: Option<int>)
    ensures r.Some? <==> v.Some? && v.value == v.value.Floor as real && v.value.Floor in allowed
    ensures r.Some? ==> r.value in allowed && r.value as real == v.value
  {
    match v
    case None => None
    case Some(n) => if n == n.Floor as real && n.Floor in allowed then Some(n.Floor) else None
  }

  /**
   * `Math.pow(t, 0.9)` on [0, 1] is left as a parameter: any function that
   * maps [0, 1] into [0, 1].
   */
  type UnitCurve = f: real -> real | forall t :: 0.0 <= t <= 1.0 ==> 0.0 <= f(t) <= 1.0
    witness (t: real) => t

  const KvantoniumModel: string := "kvantonium v3"

  /** The best-of cut; anything other than 1, 2 or 3 is treated as a best-of-five. */
  function BoCut(bo: int): real {
    if bo == 1 then 0.78 else if bo == 2 then 0.88 else if bo == 3 then 1.00 else 1.06
  }

  function TierCut(tier: int): real {
    if tier == 1 then 1.00 else if tier == 2 then 0.78 else 0.62
  }

  function RiskCut(risk: int): real {
    if risk == 1 then 1.12 else if risk == 2 then 0.82 else if risk == 3 then 0.64
    else if risk == 4 then 0.47 else 0.34
  }

  /** `t = (clamp(o, 1.2, 3.0) - 1.2) / (3.0 - 1.2)`: the odds placed on [0, 1]. */
  function OddsPosition(odds: real): (t: real)
    ensures 0.0 <= t <= 1.0
    ensures odds <= 1.2 ==> t == 0.0
    ensures 3.0 <= odds ==> t == 1.0
  {
    (Clamp(odds, 1.2, 3.0) - 1.2) / (3.0 - 1.2)
  }

  /** `base = 0.022 - 0.010 * Math.pow(t, 0.9)`: between 2.2% and 1.2% of the bank. */
  function BaseShare(odds: real, curve: UnitCurve): (b: real)
    ensures 0.012 <= b <= 0.022
  {
    0.022 - 0.010 * curve(OddsPosition(odds))
  }

  /** `base * boFactor * tierFactor * riskFactor` */
  function CutShare(base: real, bo: int, tier: int, risk: int): real {
    base * BoCut(bo) * TierCut(tier) * RiskCut(risk)
  }

  function Times(pct: real, bank: real): real { pct * bank }

  datatype Recommendation = Recommendation(recommendedPct: real, recommendedStake: real, stakingModel: string)

  /** The controller's own `calcRecommendation({ bank, odds, bo, tier, risk })`. */
  function CalcRecommendation(bank: real, odds: real, bo: int, tier: int, risk: int, curve: UnitCurve): (r: Recommendation)
    ensures r.stakingModel == KvantoniumModel
    ensures !(0.0 < bank && 1.0 < odds) ==> r.recommendedPct == 0.0 && r.recommendedStake == 0.0
    ensures 0.0 < bank && 1.0 < odds ==> 0.001 <= r.recommendedPct <= 0.07
    ensures 0.0 < bank && 1.0 < odds ==> r.recommendedStake == Times(r.recommendedPct, bank)
  {
    if !(0.0 < bank) || !(1.0 < odds) then Recommendation(0.0, 0.0, KvantoniumModel)
    else
      var pct := Clamp(CutShare(BaseShare(odds, curve), bo, tier, risk), 0.001, 0.07);
      Recommendation(pct, Times(pct, bank), KvantoniumModel)
  }

  /**
   * The safety clamp to [0.1%, 7%] never binds: every factor combination keeps
   * the share between about 0.197% and 2.62% of the bank.
   */
  lemma ClampNeverBinds(bank: real, odds: real, bo: int, tier: int, risk: int, curve: UnitCurve)
    requires 0.0 < bank && 1.0 < odds
    ensures var r := CalcRecommendation(bank, odds, bo, tier, risk, curve);
      && r.recommendedPct == CutShare(BaseShare(odds, curve), bo, tier, risk)
      && 0.0019 <= r.recommendedPct <= 0.0262
  {
    var base := BaseShare(odds, curve);
    var b, t, k := BoCut(bo), TierCut(tier), RiskCut(risk);
    assert 0.78 <= b <= 1.06 && 0.62 <= t <= 1.0 && 0.34 <= k <= 1.12;
    MulLe(0.012, base, 0.78, b);
    MulLe(0.00936, base * b, 0.62, t);
    MulLe(0.0058032, base * b * t, 0.34, k);
    MulLe(base, 0.022, b, 1.06);
    MulLe(base * b, 0.02332, t, 1.0);
    MulLe(base * b * t, 0.02332, k, 1.12);
    assert 0.0019 <= CutShare(base, bo, tier, risk) <= 0.0262;
  }
}
