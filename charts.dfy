// The chart endpoints of the analytics controller. Each walks the caller's
// settled bets in settlement order and folds them into buckets keyed by a
// date string; `key` stands for `bucketKey(t, bucket)` with the requested
// bucket size, and times are integers.

module Charts {
  import opened Wrappers
  import opened JsMath
  import opened Text
  import opened Buckets

  /** `parseRangeDays(range)`; a missing range arrives as "" and becomes 'all'. */
  function ParseRangeDays(range: string): (r: Option<int>)
    ensures r.Some? <==> range == "7d" || range == "30d" || range == "90d"
    ensures r.Some? ==> r.value in {7, 30, 90}
  {
    var s := if range == "" then "all" else range;
    if s == "7d" then Some(7) else if s == "30d" then Some(30) else if s == "90d" then Some(90) else None
  }

  /** Each recognised range names its own number of days. */
  lemma ParseRangeDaysValues()
    ensures ParseRangeDays("7d") == Some(7) && ParseRangeDays("30d") == Some(30) && ParseRangeDays("90d") == Some(90)
    ensures ParseRangeDays("") == None && ParseRangeDays("all") == None
  {
  }

  /** A WIN or LOSE bet as the loader returns it; numeric fields are `Number(x || 0)`. */
  datatype SettledBet = SettledBet(won: bool, stake: real, recommendedStake: real, profit: real,
                                   settledAt: Option<int>, createdAt: int)

  /** `b.settledAt || b.createdAt` */
  function Time(b: SettledBet): int {
    b.settledAt.GetOr(b.createdAt)
  }

  /** The bucket of each bet. */
  function BucketKeys(bets: seq<SettledBet>, key: int -> string): (ks: seq<string>)
    ensures |ks| == |bets|
  {
    seq(|bets|, i requires 0 <= i < |bets| => key(Time(bets[i])))
  }

  function SumProfit(bets: seq<SettledBet>): real
    decreases |bets|
  {
    if bets == [] then 0.0 else SumProfit(bets[..|bets| - 1]) + bets[|bets| - 1].profit
  }

  // ---------------------------------------------------------------------------
  // Starting bank of the equity and drawdown charts

  /** The starting bank, or the status code of the rejection. */
  datatype StartBank = Rejected(code: int) | Start(mode: string, bank: real)

  function SumBanks(banks: seq<real>): real
    decreases |banks|
  {
    if banks == [] then 0.0 else SumBanks(banks[..|banks| - 1]) + banks[|banks| - 1]
  }

  /**
   * The prelude of `equityChart` and `drawdownChart`. `sessionId` is "" when
   * absent, `banks` are the `initialBank` values of the caller's sessions
   * (only the named one when a session is given). The mode defaults to
   * 'session' with a session and 'total' without.
   */
  function ChartStart(sessionId: string, modeParam: string, banks: seq<real>): (r: StartBank)
    ensures sessionId != "" && banks == [] ==> r == Rejected(404)
    ensures sessionId != "" && banks != [] && !IsUuid(sessionId) ==> r == Rejected(400)
    ensures r.Rejected? ==> r.code == 400 || r.code == 404
    ensures r.Start? ==> r.mode == (if modeParam != "" then modeParam else if sessionId != "" then "session" else "total")
    ensures r.Start? && r.mode == "session" ==> sessionId != "" && r.bank == banks[0]
    ensures r.Start? && r.mode != "session" ==> r.bank == SumBanks(banks)
    ensures sessionId == "" && modeParam == "session" ==> r == Rejected(400)
  {
    var mode := if modeParam != "" then modeParam else if sessionId != "" then "session" else "total";
    if sessionId != "" && banks == [] then Rejected(404)
    else if sessionId != "" && !IsUuid(sessionId) then Rejected(400)
    else if mode == "session" then (if sessionId == "" then Rejected(400) else Start(mode, banks[0]))
    else Start(mode, SumBanks(banks))
  }

  // ---------------------------------------------------------------------------
  // Equity and cumulative profit: the running bank, last value per bucket

  /** The bank once the bets `done` are settled, to six decimals. */
  function BankAfter(start: real, done: seq<SettledBet>): real {
    ToFixed6(start + SumProfit(done))
  }

  /** The bank after each bet: `bankStart` plus the profits so far. */
  function RunningBanks(start: real, bets: seq<SettledBet>): (vs: seq<real>)
    ensures |vs| == |bets|
    ensures forall i :: 0 <= i < |bets| ==> vs[i] == BankAfter(start, bets[..i + 1])
  {
    seq(|bets|, i requires 0 <= i < |bets| => BankAfter(start, bets[..i + 1]))
  }

  /** The loop of `equityChart`: `bank += profit`, then the bucket keeps the latest bank. */
  method EquityBuckets(start: real, bets: seq<SettledBet>, key: int -> string) returns (buckets: OrderedMap<real>)
    ensures buckets == Fold(BucketKeys(bets, key), RunningBanks(start, bets), Replace)
  {
    ghost var ks := BucketKeys(bets, key);
    ghost var vs := RunningBanks(start, bets);
    var bank := start;
    buckets := Empty();
    var i := 0;
    while i < |bets|
      invariant 0 <= i <= |bets|
      invariant bank == start + SumProfit(bets[..i])
      invariant buckets == Fold(ks[..i], vs[..i], Replace)
    {
      bank := bank + bets[i].profit;
      assert bets[..i + 1][..i] == bets[..i];
      assert ks[i] == key(Time(bets[i]));
      assert vs[i] == BankAfter(start, bets[..i + 1]) == ToFixed6(bank);
      FoldStep(ks, vs, Replace, i);
      buckets := buckets.Put(key(Time(bets[i])), ToFixed6(bank));
      i := i + 1;
    }
    assert ks[..i] == ks && vs[..i] == vs;
  }

  /**
   * Each bucket holds the bank right after its last bet: `bankStart` plus the
   * profits of every bet up to and including that one, to six decimals.
   */
  lemma EquityBucketIsLastBank(start: real, bets: seq<SettledBet>, key: int -> string, k: string)
    requires k in BucketKeys(bets, key)
    ensures var ks := BucketKeys(bets, key);
      var j := LastIndex(ks, k);
      var m := Fold(ks, RunningBanks(start, bets), Replace);
      && k in m.vals
      && m.vals[k] == BankAfter(start, bets[..j + 1])
      && forall i :: j < i < |bets| ==> key(Time(bets[i])) != k
  {
    var ks, vs := BucketKeys(bets, key), RunningBanks(start, bets);
    FoldReplaceKeepsLast(ks, vs, k);
    var j := LastIndex(ks, k);
    forall i | j < i < |bets|
      ensures key(Time(bets[i])) != k
    {
      assert ks[i] == key(Time(bets[i]));
    }
  }

  // ---------------------------------------------------------------------------
  // Profit per period

  function Profits(bets: seq<SettledBet>): (ps: seq<real>)
    ensures |ps| == |bets|
  {
    seq(|bets|, i requires 0 <= i < |bets| => bets[i].profit)
  }

  /** `prev.profit = Number((prev.profit + p).toFixed(6))`, starting from 0. */
  function AddRounded(previous: Option<real>, p: real): real {
    ToFixed6(previous.GetOr(0.0) + p)
  }

  /**
   * The loop of `profitChart`: per bucket, the rounded sum of its profits in
   * 'period' mode; otherwise the running total at the bucket's last bet.
   */
  method ProfitBuckets(mode: string, bets: seq<SettledBet>, key: int -> string) returns (buckets: OrderedMap<real>)
    ensures mode == "period" ==> buckets == Fold(BucketKeys(bets, key), Profits(bets), AddRounded)
    ensures mode != "period" ==> buckets == Fold(BucketKeys(bets, key), RunningBanks(0.0, bets), Replace)
  {
    ghost var ks := BucketKeys(bets, key);
    ghost var ps := Profits(bets);
    ghost var cs := RunningBanks(0.0, bets);
    buckets := Empty();
    var cum := 0.0;
    var i := 0;
    while i < |bets|
      invariant 0 <= i <= |bets|
      invariant mode == "period" ==> buckets == Fold(ks[..i], ps[..i], AddRounded)
      invariant mode != "period" ==> cum == SumProfit(bets[..i])
      invariant mode != "period" ==> buckets == Fold(ks[..i], cs[..i], Replace)
    {
      var k := key(Time(bets[i]));
      var p := bets[i].profit;
      assert ks[i] == k;
      if mode == "period" {
        assert ps[i] == p;
        FoldStep(ks, ps, AddRounded, i);
        buckets := buckets.Put(k, AddRounded(buckets.Get(k), p));
      } else {
        assert bets[..i + 1][..i] == bets[..i];
        assert SumProfit(bets[..i + 1]) == cum + p;
        assert cs[i] == BankAfter(0.0, bets[..i + 1]) == ToFixed6(cum + p);
        FoldStep(ks, cs, Replace, i);
        cum := cum + p;
        buckets := buckets.Put(k, ToFixed6(cum));
      }
      i := i + 1;
    }
    assert ks[..i] == ks && ps[..i] == ps && cs[..i] == cs;
  }

  function SumReals(ys: seq<real>): real
    decreases |ys|
  {
    if ys == [] then 0.0 else SumReals(ys[..|ys| - 1]) + ys[|ys| - 1]
  }

  /** With profits in whole cents (six decimals at most), rounding each partial sum loses nothing. */
  lemma {:induction false} RunAddRoundedIsSum(ys: seq<real>)
    requires forall y :: y in ys ==> SixDecimals(y)
    ensures ys != [] ==> Run(AddRounded, ys) == Some(SumReals(ys))
    ensures SixDecimals(SumReals(ys))
    decreases |ys|
  {
    if ys == [] {
      assert (0.0 * Micro).Floor == 0;
    } else {
      var n := |ys| - 1;
      assert forall y :: y in ys[..n] ==> y in ys;
      RunAddRoundedIsSum(ys[..n]);
      assert ys[n] in ys;
      SixDecimalsAdd(SumReals(ys[..n]), ys[n]);
      ToFixed6Exact(SumReals(ys[..n]) + ys[n]);
    }
  }

  /** In 'period' mode a bucket's value is the sum of its bets' profits, when those have six decimals at most. */
  lemma PeriodProfitIsBucketSum(bets: seq<SettledBet>, key: int -> string, k: string)
    requires forall i :: 0 <= i < |bets| ==> SixDecimals(bets[i].profit)
    requires k in BucketKeys(bets, key)
    ensures var ks := BucketKeys(bets, key);
      var m := Fold(ks, Profits(bets), AddRounded);
      k in m.vals && m.vals[k] == SumReals(Select(ks, Profits(bets), k))
  {
    var ks, ps := BucketKeys(bets, key), Profits(bets);
    FoldIsRunPerKey(ks, ps, AddRounded, k);
    SelectFrom(ks, ps, k);
    SelectCount(ks, ps, k);
    RunAddRoundedIsSum(Select(ks, ps, k));
  }

  // ---------------------------------------------------------------------------
  // Stake deviation

  datatype Deviation = Deviation(abs: real, pct: real)

  /** `devAbs = stake - rec`, `devPct = rec > 0 ? devAbs / rec : 0`. */
  function DeviationOf(b: SettledBet): Deviation {
    var devAbs := b.stake - b.recommendedStake;
    Deviation(devAbs, if b.recommendedStake > 0.0 then devAbs / b.recommendedStake else 0.0)
  }

  /**
   * The deviation is the overstake in money and, when a positive stake was
   * recommended, as a share of it: staking exactly the recommendation gives 0
   * and staking twice the recommendation gives 1. Without a recommendation the
   * share is 0.
   */
  lemma DeviationMeaning(b: SettledBet)
    ensures var d := DeviationOf(b);
      && d.abs == b.stake - b.recommendedStake
      && (b.recommendedStake <= 0.0 ==> d.pct == 0.0)
      && (0.0 < b.recommendedStake ==> d.pct * b.recommendedStake == d.abs)
      && (0.0 < b.recommendedStake && b.stake == b.recommendedStake ==> d.pct == 0.0)
      && (0.0 < b.recommendedStake && b.stake == 2.0 * b.recommendedStake ==> d.pct == 1.0)
  {
    var r := b.recommendedStake;
    var d := DeviationOf(b);
    if 0.0 < r {
      assert d.pct == d.abs / r;
      if b.stake == 2.0 * r {
        assert d.abs == r;
        assert d.pct == r / r == 1.0;
      }
    }
  }

  datatype DeviationPoint = DeviationPoint(t: string, stake: real, recommended: real, deviationAbs: real, deviationPct: real)

  /** The point of one bet, every amount to six decimals. */
  function PointOf(b: SettledBet, betKey: int -> string): (pt: DeviationPoint)
    ensures b.recommendedStake <= 0.0 ==> pt.deviationPct == 0.0
    ensures pt.t == betKey(Time(b))
  {
    var d := DeviationOf(b);
    assert b.recommendedStake <= 0.0 ==> ToFixed6(d.pct) == 0.0 by {
      assert (0.0 * Micro + 0.5).Floor == 0;
    }
    DeviationPoint(betKey(Time(b)), ToFixed6(b.stake), ToFixed6(b.recommendedStake), ToFixed6(d.abs), ToFixed6(d.pct))
  }

  /** 'bet' mode: one point per bet, `betKey` being `toISOString()`. */
  function DeviationPoints(bets: seq<SettledBet>, betKey: int -> string): (pts: seq<DeviationPoint>)
    ensures |pts| == |bets|
    ensures forall i :: 0 <= i < |bets| ==> pts[i] == PointOf(bets[i], betKey)
  {
    seq(|bets|, i requires 0 <= i < |bets| => PointOf(bets[i], betKey))
  }

  /** `{ n, devPctSum, devAbsSum }` of one bucket. */
  datatype DeviationAgg = DeviationAgg(n: nat, devPctSum: real, devAbsSum: real)

  function AddDeviation(previous: Option<DeviationAgg>, d: Deviation): DeviationAgg {
    var a := previous.GetOr(DeviationAgg(0, 0.0, 0.0));
    DeviationAgg(a.n + 1, a.devPctSum + d.pct, a.devAbsSum + d.abs)
  }

  function Deviations(bets: seq<SettledBet>): (ds: seq<Deviation>)
    ensures |ds| == |bets|
    ensures forall i :: 0 <= i < |bets| ==> ds[i] == DeviationOf(bets[i])
  {
    seq(|bets|, i requires 0 <= i < |bets| => DeviationOf(bets[i]))
  }

  /** The body of the 'avg' loop for bet `i`, whose bucket is `k`. */
  method DeviationNext(ghost ks: seq<string>, bets: seq<SettledBet>, i: nat, k: string, buckets: OrderedMap<DeviationAgg>)
    returns (buckets': OrderedMap<DeviationAgg>)
    requires |ks| == |bets| && i < |bets| && ks[i] == k
    requires buckets == Fold(ks[..i], Deviations(bets)[..i], AddDeviation)
    ensures buckets' == Fold(ks[..i + 1], Deviations(bets)[..i + 1], AddDeviation)
  {
    var d := DeviationOf(bets[i]);
    FoldStep(ks, Deviations(bets), AddDeviation, i);
    var agg := buckets.Get(k).GetOr(DeviationAgg(0, 0.0, 0.0));
    agg := agg.(n := agg.n + 1, devPctSum := agg.devPctSum + d.pct, devAbsSum := agg.devAbsSum + d.abs);
    assert agg == AddDeviation(buckets.Get(k), d);
    buckets' := buckets.Put(k, agg);
  }

  /** The 'avg' loop of `stakeDeviationChart`. */
  method DeviationBuckets(bets: seq<SettledBet>, key: int -> string) returns (buckets: OrderedMap<DeviationAgg>)
    ensures buckets == Fold(BucketKeys(bets, key), Deviations(bets), AddDeviation)
  {
    ghost var ks := BucketKeys(bets, key);
    ghost var ds := Deviations(bets);
    buckets := Empty();
    var i := 0;
    while i < |bets|
      invariant 0 <= i <= |bets|
      invariant buckets == Fold(ks[..i], ds[..i], AddDeviation)
    {
      buckets := DeviationNext(ks, bets, i, key(Time(bets[i])), buckets);
      i := i + 1;
    }
    assert ks[..i] == ks && ds[..i] == ds;
  }

  function SumAbs(ds: seq<Deviation>): real
    decreases |ds|
  {
    if ds == [] then 0.0 else SumAbs(ds[..|ds| - 1]) + ds[|ds| - 1].abs
  }

  function SumPct(ds: seq<Deviation>): real
    decreases |ds|
  {
    if ds == [] then 0.0 else SumPct(ds[..|ds| - 1]) + ds[|ds| - 1].pct
  }

  lemma {:induction false} RunAddDeviation(ds: seq<Deviation>)
    requires ds != []
    ensures Run(AddDeviation, ds) == Some(DeviationAgg(|ds|, SumPct(ds), SumAbs(ds)))
    decreases |ds|
  {
    var n := |ds| - 1;
    if n > 0 {
      RunAddDeviation(ds[..n]);
    }
  }

  /** In 'avg' mode `n` counts the bets of the bucket and the sums run over exactly those bets. */
  lemma DeviationBucketCounts(bets: seq<SettledBet>, key: int -> string, k: string)
    requires k in BucketKeys(bets, key)
    ensures var ks := BucketKeys(bets, key);
      var m := Fold(ks, Deviations(bets), AddDeviation);
      var ds := Select(ks, Deviations(bets), k);
      && k in m.vals
      && m.vals[k] == DeviationAgg(Count(ks, k), SumPct(ds), SumAbs(ds))
      && 0 < m.vals[k].n
  {
    var ks, ds := BucketKeys(bets, key), Deviations(bets);
    FoldIsRunPerKey(ks, ds, AddDeviation, k);
    SelectCount(ks, ds, k);
    RunAddDeviation(Select(ks, ds, k));
  }

  /** `x.n ? sum / x.n : 0`, to six decimals. */
  function Average(sum: real, n: nat): real {
    ToFixed6(if n > 0 then sum / n as real else 0.0)
  }

  /** One 'avg' point, as `Array.from(map.values()).map(...)` builds it from a bucket. */
  datatype AveragePoint = AveragePoint(t: string, avgDeviationPct: real, avgDeviationAbs: real, n: nat)

  function AveragePointOf(k: string, a: DeviationAgg): AveragePoint {
    AveragePoint(k, Average(a.devPctSum, a.n), Average(a.devAbsSum, a.n), a.n)
  }

  /**
   * Each 'avg' point is the mean deviation of exactly its bucket's bets, to
   * six decimals; the `x.n ? … : 0` guard never takes its 0 branch.
   */
  lemma AveragePointIsMean(bets: seq<SettledBet>, key: int -> string, k: string)
    requires k in BucketKeys(bets, key)
    ensures var ks := BucketKeys(bets, key);
      var ds := Select(ks, Deviations(bets), k);
      var m := Fold(ks, Deviations(bets), AddDeviation);
      && k in m.vals
      && var p := AveragePointOf(k, m.vals[k]);
      && p.t == k && p.n == Count(ks, k) > 0
      && p.avgDeviationPct == ToFixed6(SumPct(ds) / Count(ks, k) as real)
      && p.avgDeviationAbs == ToFixed6(SumAbs(ds) / Count(ks, k) as real)
  {
    DeviationBucketCounts(bets, key, k);
  }

  // ---------------------------------------------------------------------------
  // Winrate

  /** `Math.max(2, Math.min(200, Number(window || 20)))`; `None` is NaN, which both bounds pass through. */
  function WindowOf(param: Option<real>): (w: Option<real>)
    ensures w.Some? <==> param.Some?
    ensures w.Some? ==> 2.0 <= w.value <= 200.0
    ensures param.Some? && 2.0 <= param.value <= 200.0 ==> w == param
  {
    match param
    case None => None
    case Some(v) => Some(Max(2.0, Min(200.0, v)))
  }

  function Outcome(b: SettledBet): int {
    if b.won then 1 else 0
  }

  function Outcomes(bets: seq<SettledBet>): (os: seq<int>)
    ensures |os| == |bets|
    ensures forall i :: 0 <= i < |bets| ==> os[i] == Outcome(bets[i])
  {
    seq(|bets|, i requires 0 <= i < |bets| => Outcome(bets[i]))
  }

  function SumInts(xs: seq<int>): int
    decreases |xs|
  {
    if xs == [] then 0 else SumInts(xs[..|xs| - 1]) + xs[|xs| - 1]
  }

  lemma {:induction false} SumOfBits(xs: seq<int>)
    requires forall i :: 0 <= i < |xs| ==> xs[i] == 0 || xs[i] == 1
    ensures 0 <= SumInts(xs) <= |xs|
    decreases |xs|
  {
    if xs != [] {
      SumOfBits(xs[..|xs| - 1]);
    }
  }

  /** `buf.reduce((a, v) => a + v, 0) / buf.length` */
  function WinShare(buf: seq<int>): real
    requires buf != []
  {
    SumInts(buf) as real / |buf| as real
  }

  /** `buf.length > window`; never true for a NaN window. */
  function Overflows(length: nat, window: Option<real>): bool {
    window.Some? && length as real > window.value
  }

  /** The buffer length after bet `i` (0-based): push, then shift once if longer than the window. */
  function RollingLength(i: nat, window: Option<real>): (n: nat)
    requires window.Some? ==> 2.0 <= window.value
    ensures 1 <= n <= i + 1
    decreases i
  {
    var pushed := if i == 0 then 1 else RollingLength(i - 1, window) + 1;
    if Overflows(pushed, window) then pushed - 1 else pushed
  }

  /** The buffer holds `min(i + 1, floor(window))` results; with a NaN window it never shifts. */
  lemma {:induction false} RollingLengthIsMin(i: nat, window: Option<real>)
    requires window.Some? ==> 2.0 <= window.value
    ensures window.None? ==> RollingLength(i, window) == i + 1
    ensures window.Some? ==> RollingLength(i, window) == if (i + 1) as real <= window.value then i + 1 else window.value.Floor
    decreases i
  {
    if i > 0 {
      RollingLengthIsMin(i - 1, window);
    }
  }

  datatype RollingPoint = RollingPoint(t: string, winrate: real, n: nat)

  /** The share of wins among 0/1 results lies in [0, 1]. */
  lemma WinShareWithin(buf: seq<int>)
    requires buf != []
    requires forall i :: 0 <= i < |buf| ==> buf[i] == 0 || buf[i] == 1
    ensures 0.0 <= WinShare(buf) <= 1.0
  {
    SumOfBits(buf);
  }

  /** `{ t, winrate: Number(wr.toFixed(6)), n: buf.length }` */
  function RollingPointOf(t: string, buf: seq<int>): RollingPoint
    requires buf != []
  {
    RollingPoint(t, ToFixed6(WinShare(buf)), |buf|)
  }

  /** The buffer once `n` bets are seen: their last `RollingLength(n - 1, window)` results. */
  function Buffer(os: seq<int>, n: nat, window: Option<real>): (buf: seq<int>)
    requires n <= |os| && (window.Some? ==> 2.0 <= window.value)
    ensures n == 0 ==> buf == []
    ensures 0 < n ==> |buf| == RollingLength(n - 1, window)
  {
    if n == 0 then [] else os[n - RollingLength(n - 1, window) .. n]
  }

  /** One push and at most one shift turn the buffer before bet `i` into the one after it. */
  lemma BufferStep(os: seq<int>, i: nat, window: Option<real>)
    requires i < |os| && (window.Some? ==> 2.0 <= window.value)
    ensures var pushed := Buffer(os, i, window) + [os[i]];
      Buffer(os, i + 1, window) == if Overflows(|pushed|, window) then pushed[1..] else pushed
  {
    var pushed := Buffer(os, i, window) + [os[i]];
    var start := i + 1 - RollingLength(i, window);
    if i == 0 {
      assert pushed == os[0..1];
    } else {
      var before := i - RollingLength(i - 1, window);
      assert pushed == os[before..i + 1];
      if Overflows(|pushed|, window) {
        assert start == before + 1;
      } else {
        assert start == before;
      }
    }
  }

  /** The point of bet `i`. */
  function RollingAt(os: seq<int>, ts: seq<string>, window: Option<real>, i: nat): RollingPoint
    requires |os| == |ts| && i < |os| && (window.Some? ==> 2.0 <= window.value)
  {
    RollingPointOf(ts[i], Buffer(os, i + 1, window))
  }

  /** The points of the first `n` bets. */
  function RollingPoints(os: seq<int>, ts: seq<string>, window: Option<real>, n: nat): (ps: seq<RollingPoint>)
    requires |os| == |ts| && n <= |os| && (window.Some? ==> 2.0 <= window.value)
  {
    Scan(n, (j: nat) requires j < |os| => RollingAt(os, ts, window, j))
  }

  function BetKeys(bets: seq<SettledBet>, betKey: int -> string): (ts: seq<string>)
    ensures |ts| == |bets|
    ensures forall i :: 0 <= i < |bets| ==> ts[i] == betKey(Time(bets[i]))
  {
    seq(|bets|, i requires 0 <= i < |bets| => betKey(Time(bets[i])))
  }

  /**
   * Point `i` of the rolling chart is keyed by bet `i`'s time, counts the last
   * `min(i + 1, window)` results and has their share of wins, in [0, 1].
   */
  lemma RollingPointMeaning(bets: seq<SettledBet>, betKey: int -> string, window: Option<real>, i: nat)
    requires i < |bets| && (window.Some? ==> 2.0 <= window.value)
    ensures var p := RollingPoints(Outcomes(bets), BetKeys(bets, betKey), window, |bets|)[i];
      && p.t == betKey(Time(bets[i]))
      && p.n == (if window.None? || (i + 1) as real <= window.value then i + 1 else window.value.Floor)
      && p.winrate == ToFixed6(WinShare(Outcomes(bets)[i + 1 - p.n .. i + 1]))
      && 0.0 <= p.winrate <= 1.0
  {
    var os := Outcomes(bets);
    var ts := BetKeys(bets, betKey);
    ScanAt(|bets|, (j: nat) requires j < |os| => RollingAt(os, ts, window, j), i);
    RollingAtShape(os, ts, window, i);
    RollingAtWithin(os, ts, window, i);
  }

  /** Point `i` is keyed by `ts[i]` and averages the last `min(i + 1, window)` results. */
  lemma RollingAtShape(os: seq<int>, ts: seq<string>, window: Option<real>, i: nat)
    requires |os| == |ts| && i < |os| && (window.Some? ==> 2.0 <= window.value)
    ensures var p := RollingAt(os, ts, window, i);
      && p.t == ts[i]
      && p.n == (if window.None? || (i + 1) as real <= window.value then i + 1 else window.value.Floor)
      && 1 <= p.n <= i + 1
      && p.winrate == ToFixed6(WinShare(os[i + 1 - p.n .. i + 1]))
  {
    RollingLengthIsMin(i, window);
  }

  /** A point's winrate is a share of 0/1 results, so it lies in [0, 1]. */
  lemma RollingAtWithin(os: seq<int>, ts: seq<string>, window: Option<real>, i: nat)
    requires |os| == |ts| && i < |os| && (window.Some? ==> 2.0 <= window.value)
    requires forall j :: 0 <= j < |os| ==> os[j] == 0 || os[j] == 1
    ensures 0.0 <= RollingAt(os, ts, window, i).winrate <= 1.0
  {
    var buf := Buffer(os, i + 1, window);
    assert forall j :: 0 <= j < |buf| ==> buf[j] == os[i + 1 - |buf| + j];
    WinShareWithin(buf);
    ToFixed6Within(WinShare(buf), 0.0, 1.0);
  }

  /** The loop step of the rolling chart: push, maybe shift, then one more point. */
  lemma RollingStep(os: seq<int>, ts: seq<string>, window: Option<real>, i: nat, buf: seq<int>, points: seq<RollingPoint>)
    requires |os| == |ts| && i < |os| && (window.Some? ==> 2.0 <= window.value)
    requires buf == Buffer(os, i, window) && points == RollingPoints(os, ts, window, i)
    ensures var pushed := buf + [os[i]];
      var next := if Overflows(|pushed|, window) then pushed[1..] else pushed;
      && next == Buffer(os, i + 1, window)
      && points + [RollingPointOf(ts[i], next)] == RollingPoints(os, ts, window, i + 1)
  {
    BufferStep(os, i, window);
  }

  /** The body of the rolling loop for bet `i`, with outcome `o` and key `t`. */
  method RollingNext(ghost os: seq<int>, ghost ts: seq<string>, window: Option<real>, i: nat,
                     o: int, t: string, buf: seq<int>, points: seq<RollingPoint>)
    returns (buf': seq<int>, points': seq<RollingPoint>)
    requires |os| == |ts| && i < |os| && (window.Some? ==> 2.0 <= window.value)
    requires os[i] == o && ts[i] == t
    requires buf == Buffer(os, i, window) && points == RollingPoints(os, ts, window, i)
    ensures buf' == Buffer(os, i + 1, window) && points' == RollingPoints(os, ts, window, i + 1)
  {
    RollingStep(os, ts, window, i, buf, points);
    buf' := buf + [o];
    if Overflows(|buf'|, window) {
      buf' := buf'[1..];
    }
    points' := points + [RollingPointOf(t, buf')];
  }

  /** The 'rolling' loop of `winrateChart`: one point per bet. */
  method RollingWinrate(bets: seq<SettledBet>, window: Option<real>, betKey: int -> string) returns (points: seq<RollingPoint>)
    requires window.Some? ==> 2.0 <= window.value
    ensures points == RollingPoints(Outcomes(bets), BetKeys(bets, betKey), window, |bets|)
  {
    ghost var os := Outcomes(bets);
    ghost var ts := BetKeys(bets, betKey);
    var buf: seq<int> := [];
    points := [];
    var i := 0;
    while i < |bets|
      invariant 0 <= i <= |bets|
      invariant buf == Buffer(os, i, window)
      invariant points == RollingPoints(os, ts, window, i)
    {
      buf, points := RollingNext(os, ts, window, i, Outcome(bets[i]), betKey(Time(bets[i])), buf, points);
      i := i + 1;
    }
  }

  /** `{ winrate, wins, losses }` of a cumulative or period bucket. */
  datatype WinPoint = WinPoint(winrate: real, wins: nat, losses: nat)

  /** `denom ? wins / denom : 0` */
  function Rate(wins: nat, losses: nat): (r: real)
    ensures 0.0 <= r <= 1.0
    ensures wins + losses == 0 ==> r == 0.0
  {
    if wins + losses > 0 then wins as real / (wins + losses) as real else 0.0
  }

  function WinCount(bets: seq<SettledBet>): nat
    decreases |bets|
  {
    if bets == [] then 0 else WinCount(bets[..|bets| - 1]) + Outcome(bets[|bets| - 1])
  }

  lemma {:induction false} WinCountBound(bets: seq<SettledBet>)
    ensures WinCount(bets) <= |bets|
    decreases |bets|
  {
    if bets != [] {
      WinCountBound(bets[..|bets| - 1]);
    }
  }

  /** A point from its counts, the rate to six decimals. */
  function WinPointOf(wins: nat, losses: nat): (p: WinPoint)
    ensures p.wins == wins && p.losses == losses
    ensures 0.0 <= p.winrate <= 1.0
  {
    ToFixed6Within(Rate(wins, losses), 0.0, 1.0);
    WinPoint(ToFixed6(Rate(wins, losses)), wins, losses)
  }

  /** The cumulative point once the bets `done` are settled. */
  function CumulativeAfter(done: seq<SettledBet>): WinPoint {
    WinCountBound(done);
    WinPointOf(WinCount(done), |done| - WinCount(done))
  }

  /** The cumulative point after each bet: wins and losses so far and their rate. */
  function CumulativePoints(bets: seq<SettledBet>): (ps: seq<WinPoint>)
    ensures |ps| == |bets|
    ensures forall i :: 0 <= i < |bets| ==> ps[i] == CumulativeAfter(bets[..i + 1])
  {
    seq(|bets|, i requires 0 <= i < |bets| => CumulativeAfter(bets[..i + 1]))
  }

  /** `agg.wins++` or `agg.losses++`, then the bucket's winrate. */
  function CountOutcome(previous: Option<WinPoint>, won: bool): WinPoint {
    var a := previous.GetOr(WinPoint(0.0, 0, 0));
    var w := a.wins + (if won then 1 else 0);
    var l := a.losses + (if won then 0 else 1);
    WinPointOf(w, l)
  }

  function Results(bets: seq<SettledBet>): (rs: seq<bool>)
    ensures |rs| == |bets|
    ensures forall i :: 0 <= i < |bets| ==> rs[i] == bets[i].won
  {
    seq(|bets|, i requires 0 <= i < |bets| => bets[i].won)
  }

  /** A 'cumulative' step: bet `i`'s bucket now holds the counts so far. */
  lemma CumulativeStep(ks: seq<string>, bets: seq<SettledBet>, i: nat, cumW: nat, cumL: nat)
    requires |ks| == |bets| && i < |bets|
    requires cumW == WinCount(bets[..i + 1]) && cumW + cumL == i + 1
    ensures var cs := CumulativePoints(bets); var m := Fold(ks[..i], cs[..i], Replace);
      m.Put(ks[i], WinPointOf(cumW, cumL)) == Fold(ks[..i + 1], cs[..i + 1], Replace)
  {
    var cs := CumulativePoints(bets);
    assert cs[i] == CumulativeAfter(bets[..i + 1]) == WinPointOf(cumW, cumL);
    FoldStep(ks, cs, Replace, i);
  }

  /** A 'period' step: bet `i`'s bucket counts one more win or loss. */
  lemma PeriodStep(ks: seq<string>, bets: seq<SettledBet>, i: nat, agg: WinPoint)
    requires |ks| == |bets| && i < |bets|
    requires var m := Fold(ks[..i], Results(bets)[..i], CountOutcome);
      agg == CountOutcome(m.Get(ks[i]), bets[i].won)
    ensures var rs := Results(bets); var m := Fold(ks[..i], rs[..i], CountOutcome);
      m.Put(ks[i], agg) == Fold(ks[..i + 1], rs[..i + 1], CountOutcome)
  {
    var rs := Results(bets);
    assert rs[i] == bets[i].won;
    FoldStep(ks, rs, CountOutcome, i);
  }

  /** The body of the winrate loop for bet `i`, whose bucket is `k`. */
  method WinrateNext(ghost ks: seq<string>, cumulative: bool, bets: seq<SettledBet>, i: nat, k: string,
                     cumW: nat, cumL: nat, buckets: OrderedMap<WinPoint>)
    returns (cumW': nat, cumL': nat, buckets': OrderedMap<WinPoint>)
    requires |ks| == |bets| && i < |bets| && ks[i] == k
    requires cumW == WinCount(bets[..i]) && cumW + cumL == i
    requires cumulative ==> buckets == Fold(ks[..i], CumulativePoints(bets)[..i], Replace)
    requires !cumulative ==> buckets == Fold(ks[..i], Results(bets)[..i], CountOutcome)
    ensures cumW' == WinCount(bets[..i + 1]) && cumW' + cumL' == i + 1
    ensures cumulative ==> buckets' == Fold(ks[..i + 1], CumulativePoints(bets)[..i + 1], Replace)
    ensures !cumulative ==> buckets' == Fold(ks[..i + 1], Results(bets)[..i + 1], CountOutcome)
  {
    assert bets[..i + 1][..i] == bets[..i];
    cumW', cumL' := cumW, cumL;
    if bets[i].won { cumW' := cumW + 1; } else { cumL' := cumL + 1; }
    assert WinCount(bets[..i + 1]) == cumW';
    if cumulative {
      CumulativeStep(ks, bets, i, cumW', cumL');
      buckets' := buckets.Put(k, WinPointOf(cumW', cumL'));
    } else {
      var agg := buckets.Get(k).GetOr(WinPoint(0.0, 0, 0));
      if bets[i].won { agg := agg.(wins := agg.wins + 1); } else { agg := agg.(losses := agg.losses + 1); }
      agg := WinPointOf(agg.wins, agg.losses);
      PeriodStep(ks, bets, i, agg);
      buckets' := buckets.Put(k, agg);
    }
  }

  /** The 'cumulative' and 'period' loop of `winrateChart` (any mode other than 'cumulative' is 'period'). */
  method WinrateBuckets(mode: string, bets: seq<SettledBet>, key: int -> string) returns (buckets: OrderedMap<WinPoint>)
    ensures mode == "cumulative" ==> buckets == Fold(BucketKeys(bets, key), CumulativePoints(bets), Replace)
    ensures mode != "cumulative" ==> buckets == Fold(BucketKeys(bets, key), Results(bets), CountOutcome)
  {
    ghost var ks := BucketKeys(bets, key);
    ghost var cs := CumulativePoints(bets);
    ghost var rs := Results(bets);
    buckets := Empty();
    var cumulative := mode == "cumulative";
    var cumW: nat, cumL: nat := 0, 0;
    var i := 0;
    assert ks[..0] == [] && cs[..0] == [] && rs[..0] == [];
    while i < |bets|
      invariant 0 <= i <= |bets|
      invariant cumW == WinCount(bets[..i]) && cumW + cumL == i
      invariant cumulative ==> buckets == Fold(ks[..i], cs[..i], Replace)
      invariant !cumulative ==> buckets == Fold(ks[..i], rs[..i], CountOutcome)
    {
      cumW, cumL, buckets := WinrateNext(ks, cumulative, bets, i, key(Time(bets[i])), cumW, cumL, buckets);
      i := i + 1;
    }
    assert ks[..i] == ks && cs[..i] == cs && rs[..i] == rs;
  }

  /** A 'cumulative' bucket counts every bet up to its last one, with a rate in [0, 1]. */
  lemma CumulativeBucketCounts(bets: seq<SettledBet>, key: int -> string, k: string)
    requires k in BucketKeys(bets, key)
    ensures var ks := BucketKeys(bets, key);
      var m := Fold(ks, CumulativePoints(bets), Replace);
      && k in m.vals
      && m.vals[k].wins + m.vals[k].losses == LastIndex(ks, k) + 1
      && 0.0 <= m.vals[k].winrate <= 1.0
  {
    var ks := BucketKeys(bets, key);
    FoldReplaceKeepsLast(ks, CumulativePoints(bets), k);
    var j := LastIndex(ks, k);
    var w := WinCount(bets[..j + 1]);
    WinCountBound(bets[..j + 1]);
    ToFixed6Within(Rate(w, j + 1 - w), 0.0, 1.0);
  }

  function Trues(rs: seq<bool>): nat
    decreases |rs|
  {
    if rs == [] then 0 else Trues(rs[..|rs| - 1]) + (if rs[|rs| - 1] then 1 else 0)
  }

  lemma {:induction false} RunCountOutcome(rs: seq<bool>)
    requires rs != []
    ensures var p := Run(CountOutcome, rs).value;
      p.wins == Trues(rs) && p.wins + p.losses == |rs| && 0.0 <= p.winrate <= 1.0
    decreases |rs|
  {
    var n := |rs| - 1;
    if n > 0 {
      RunCountOutcome(rs[..n]);
    }
    var p := Run(CountOutcome, rs).value;
    ToFixed6Within(Rate(p.wins, p.losses), 0.0, 1.0);
  }

  /** A 'period' bucket counts exactly its own bets: wins + losses is the bucket size, the rate in [0, 1]. */
  lemma PeriodBucketCounts(bets: seq<SettledBet>, key: int -> string, k: string)
    requires k in BucketKeys(bets, key)
    ensures var ks := BucketKeys(bets, key);
      var m := Fold(ks, Results(bets), CountOutcome);
      && k in m.vals
      && m.vals[k].wins == Trues(Select(ks, Results(bets), k))
      && m.vals[k].wins + m.vals[k].losses == Count(ks, k)
      && 0.0 <= m.vals[k].winrate <= 1.0
  {
    var ks, rs := BucketKeys(bets, key), Results(bets);
    FoldIsRunPerKey(ks, rs, CountOutcome, k);
    SelectCount(ks, rs, k);
    RunCountOutcome(Select(ks, rs, k));
  }

  // ---------------------------------------------------------------------------
  // Drawdown

  /** The peak after the bets: the start or any later bank, whichever is highest. */
  function Peak(start: real, bets: seq<SettledBet>): (p: real)
    ensures start <= p
    ensures start + SumProfit(bets) <= p
    decreases |bets|
  {
    if bets == [] then start else Max(Peak(start, bets[..|bets| - 1]), start + SumProfit(bets))
  }

  /** The peak never decreases from one bet to the next. */
  lemma {:induction false} PeakMonotone(start: real, bets: seq<SettledBet>, i: nat, j: nat)
    requires i <= j <= |bets|
    ensures Peak(start, bets[..i]) <= Peak(start, bets[..j])
    decreases j - i
  {
    if i < j {
      PeakMonotone(start, bets, i, j - 1);
      assert bets[..j][..j - 1] == bets[..j - 1];
    }
  }

  datatype DrawdownPoint = DrawdownPoint(drawdownAbs: real, drawdownPct: real, peak: real, bank: real)

  /** The point of a bank under its peak: `ddAbs = bank - peak`, `ddPct = peak > 0 ? ddAbs / peak : 0`, all to six decimals. */
  function DrawdownOf(bank: real, peak: real): (p: DrawdownPoint)
    requires bank <= peak
    ensures p.drawdownAbs <= 0.0 && p.drawdownPct <= 0.0
  {
    var ddAbs := bank - peak;
    var ddPct := if peak > 0.0 then ddAbs / peak else 0.0;
    assert ddPct <= 0.0 by {
      if peak > 0.0 {
        assert ddPct * peak == ddAbs;
      }
    }
    DrawdownPoint(ToFixed6(ddAbs), ToFixed6(ddPct), ToFixed6(peak), ToFixed6(bank))
  }

  /** The point once the bets `done` are settled. */
  function DrawdownAfter(start: real, done: seq<SettledBet>): DrawdownPoint {
    DrawdownOf(start + SumProfit(done), Peak(start, done))
  }

  /** The point after each bet. */
  function DrawdownPoints(start: real, bets: seq<SettledBet>): (ps: seq<DrawdownPoint>)
  {
    Scan(|bets|, (j: nat) requires j < |bets| => DrawdownAfter(start, bets[..j + 1]))
  }

  lemma DrawdownPointsAt(start: real, bets: seq<SettledBet>, i: nat)
    requires i < |bets|
    ensures |DrawdownPoints(start, bets)| == |bets|
    ensures DrawdownPoints(start, bets)[i] == DrawdownAfter(start, bets[..i + 1])
  {
    ScanAt(|bets|, (j: nat) requires j < |bets| => DrawdownAfter(start, bets[..j + 1]), i);
  }

  /** The loop step of the drawdown chart: the bank moves by the profit and the peak follows it up. */
  lemma DrawdownStep(start: real, bets: seq<SettledBet>, i: nat, bank: real, peak: real)
    requires i < |bets|
    requires bank == start + SumProfit(bets[..i]) && peak == Peak(start, bets[..i])
    ensures var bank' := bank + bets[i].profit;
      var peak' := if bank' > peak then bank' else peak;
      && bank' == start + SumProfit(bets[..i + 1]) && peak' == Peak(start, bets[..i + 1])
      && DrawdownPoints(start, bets)[i] == DrawdownOf(bank', peak')
  {
    assert bets[..i + 1][..i] == bets[..i];
    DrawdownPointsAt(start, bets, i);
  }

  /** The body of the drawdown loop for bet `i`, whose bucket is `k`. */
  method DrawdownNext(ghost ks: seq<string>, ghost ds: seq<DrawdownPoint>, start: real, bets: seq<SettledBet>,
                      i: nat, k: string, bank: real, peak: real, buckets: OrderedMap<DrawdownPoint>)
    returns (bank': real, peak': real, buckets': OrderedMap<DrawdownPoint>)
    requires |ks| == |bets| && i < |bets| && ks[i] == k && ds == DrawdownPoints(start, bets)
    requires bank == start + SumProfit(bets[..i]) && peak == Peak(start, bets[..i])
    requires buckets == Fold(ks[..i], ds[..i], Replace)
    ensures bank' == start + SumProfit(bets[..i + 1]) && peak' == Peak(start, bets[..i + 1])
    ensures buckets' == Fold(ks[..i + 1], ds[..i + 1], Replace)
  {
    DrawdownStep(start, bets, i, bank, peak);
    bank' := bank + bets[i].profit;
    peak' := peak;
    if bank' > peak' {
      peak' := bank';
    }
    FoldStep(ks, ds, Replace, i);
    buckets' := buckets.Put(k, DrawdownOf(bank', peak'));
  }

  /** The loop of `drawdownChart`. */
  method DrawdownBuckets(start: real, bets: seq<SettledBet>, key: int -> string) returns (buckets: OrderedMap<DrawdownPoint>)
    ensures buckets == Fold(BucketKeys(bets, key), DrawdownPoints(start, bets), Replace)
  {
    ghost var ks := BucketKeys(bets, key);
    ghost var ds := DrawdownPoints(start, bets);
    var bank := start;
    var peak := start;
    buckets := Empty();
    var i := 0;
    while i < |bets|
      invariant 0 <= i <= |bets|
      invariant bank == start + SumProfit(bets[..i])
      invariant peak == Peak(start, bets[..i])
      invariant buckets == Fold(ks[..i], ds[..i], Replace)
    {
      bank, peak, buckets := DrawdownNext(ks, ds, start, bets, i, key(Time(bets[i])), bank, peak, buckets);
      i := i + 1;
    }
    assert ks[..i] == ks && ds[..i] == ds;
  }

  /**
   * Along the bets the peak never falls and never lies below the bank, so every
   * point's drawdown, absolute and relative, is at most zero.
   */
  lemma DrawdownSeries(start: real, bets: seq<SettledBet>, i: nat, j: nat)
    requires i <= j < |bets|
    ensures var ps := DrawdownPoints(start, bets);
      && Peak(start, bets[..i + 1]) <= Peak(start, bets[..j + 1])
      && start + SumProfit(bets[..j + 1]) <= Peak(start, bets[..j + 1])
      && ps[j].drawdownAbs <= 0.0 && ps[j].drawdownPct <= 0.0
      && ps[i].peak <= ps[j].peak
  {
    PeakMonotone(start, bets, i + 1, j + 1);
    ToFixed6Monotone(Peak(start, bets[..i + 1]), Peak(start, bets[..j + 1]));
    DrawdownPointsAt(start, bets, i);
    DrawdownPointsAt(start, bets, j);
  }
}
