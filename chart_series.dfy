// The client-side series of `charts/calc.js`: the bets of one session (or of
// all sessions) are put in time order, then one loop walks them, moving the
// bank and the cumulative profit on settled bets only and pushing one point
// per bet into each series; a second pass turns the equity curve into a
// drawdown percentage below the running peak.

module ChartSeries {
  import opened Wrappers
  import opened JsMath

  /**
   * A bet as the client holds it. Numeric fields are what `Number(...)` makes
   * of them; a date is `None` when it is missing or not a valid date (`toMs`
   * gives `null`), otherwise its time in milliseconds.
   */
  datatype ClientBet = ClientBet(status: string, profit: JsNum, stake: JsNum, recommendedStake: JsNum,
                                 createdAt: Option<int>, settledAt: Option<int>)

  /** `toMs(b.createdAt) ?? toMs(b.settledAt) ?? 0` */
  function SortKey(b: ClientBet): int {
    if b.createdAt.Some? then b.createdAt.value
    else if b.settledAt.Some? then b.settledAt.value
    else 0
  }

  predicate Sorted(bets: seq<ClientBet>) {
    forall i, j :: 0 <= i < j < |bets| ==> SortKey(bets[i]) <= SortKey(bets[j])
  }

  /** Puts `b` after every bet whose key is not larger: the step of a stable sort. */
  function Insert(sorted: seq<ClientBet>, b: ClientBet): (r: seq<ClientBet>)
    ensures |r| == |sorted| + 1
    decreases |sorted|
  {
    if sorted == [] || SortKey(sorted[|sorted| - 1]) <= SortKey(b) then sorted + [b]
    else Insert(sorted[..|sorted| - 1], b) + [sorted[|sorted| - 1]]
  }

  /** `list.slice().sort((a, b) => betSortKey(a) - betSortKey(b))`: a sorted copy, the input untouched. */
  function SortByKey(bets: seq<ClientBet>): (r: seq<ClientBet>)
    ensures |r| == |bets|
    decreases |bets|
  {
    if bets == [] then [] else Insert(SortByKey(bets[..|bets| - 1]), bets[|bets| - 1])
  }

  /** The last bet of an insertion is `b` itself or the last bet it was inserted before. */
  lemma InsertLast(sorted: seq<ClientBet>, b: ClientBet)
    ensures var r := Insert(sorted, b);
      r[|r| - 1] == b || (sorted != [] && r[|r| - 1] == sorted[|sorted| - 1] && SortKey(b) < SortKey(r[|r| - 1]))
  {
  }

  lemma {:induction false} InsertKeepsOrder(sorted: seq<ClientBet>, b: ClientBet)
    requires Sorted(sorted)
    ensures Sorted(Insert(sorted, b))
    decreases |sorted|
  {
    if sorted != [] && SortKey(sorted[|sorted| - 1]) > SortKey(b) {
      var n := |sorted| - 1;
      var front, last := sorted[..n], sorted[n];
      InsertKeepsOrder(front, b);
      InsertLast(front, b);
      var ins := Insert(front, b);
      assert SortKey(ins[|ins| - 1]) <= SortKey(last);
      forall i, j | 0 <= i < j < |ins| + 1
        ensures SortKey((ins + [last])[i]) <= SortKey((ins + [last])[j])
      {
        if j == |ins| && i < |ins| - 1 {
          assert SortKey(ins[i]) <= SortKey(ins[|ins| - 1]);
        }
      }
    }
  }

  lemma {:induction false} InsertKeepsBets(sorted: seq<ClientBet>, b: ClientBet)
    ensures multiset(Insert(sorted, b)) == multiset(sorted) + multiset{b}
    decreases |sorted|
  {
    if sorted != [] && SortKey(sorted[|sorted| - 1]) > SortKey(b) {
      var n := |sorted| - 1;
      InsertKeepsBets(sorted[..n], b);
      assert sorted == sorted[..n] + [sorted[n]];
    }
  }

  /** The sorted copy is in ascending key order and holds exactly the input bets. */
  lemma {:induction false} SortByKeySorts(bets: seq<ClientBet>)
    ensures Sorted(SortByKey(bets))
    ensures multiset(SortByKey(bets)) == multiset(bets)
    decreases |bets|
  {
    if bets != [] {
      var n := |bets| - 1;
      SortByKeySorts(bets[..n]);
      InsertKeepsOrder(SortByKey(bets[..n]), bets[n]);
      InsertKeepsBets(SortByKey(bets[..n]), bets[n]);
      assert bets == bets[..n] + [bets[n]];
    }
  }

  /** `b.status === 'WIN' || b.status === 'LOSE'` */
  predicate IsSettled(b: ClientBet) {
    b.status == "WIN" || b.status == "LOSE"
  }

  /** What the bet adds to bank and cumulative profit: `num(b.profit) ?? 0`, on settled bets only. */
  function Gain(b: ClientBet): real {
    if IsSettled(b) then FiniteOrNull(b.profit).GetOr(0.0) else 0.0
  }

  /** The cumulative profit once the bets `done` are walked. */
  function CumProfit(done: seq<ClientBet>): real
    decreases |done|
  {
    if done == [] then 0.0 else CumProfit(done[..|done| - 1]) + Gain(done[|done| - 1])
  }

  /** A pending (or unknown-status) bet moves neither the bank nor the cumulative profit. */
  lemma UnsettledAddsNothing(done: seq<ClientBet>, b: ClientBet)
    requires !IsSettled(b)
    ensures CumProfit(done + [b]) == CumProfit(done)
  {
    assert (done + [b])[..|done|] == done;
  }

  lemma PendingAddsNothing(bets: seq<ClientBet>, i: int)
    requires 0 < i < |bets| && !IsSettled(bets[i])
    ensures CumProfit(bets[..i + 1]) == CumProfit(bets[..(i - 1) + 1])
  {
    assert bets[..i + 1] == bets[..i] + [bets[i]];
    UnsettledAddsNothing(bets[..i], bets[i]);
  }

  /** `{ x, y }` of the equity, profit and drawdown series. */
  datatype Point = Point(x: int, y: real)

  /** `{ x, y }` of a stake series, `y` being `null` for a non-numeric stake. */
  datatype StakePoint = StakePoint(x: int, y: Option<real>)

  /** The point series of one walk over the sorted bets. */
  datatype Walk = Walk(equity: seq<Point>, profit: seq<Point>, stakeUser: seq<StakePoint>, stakeRec: seq<StakePoint>)

  /** The loop shared by `buildSessionSeries` and `buildTotalSeries`. */
  method WalkBets(start: real, bets: seq<ClientBet>) returns (w: Walk)
    ensures |w.equity| == |w.profit| == |w.stakeUser| == |w.stakeRec| == |bets|
    ensures forall i :: 0 <= i < |bets| ==> w.profit[i] == Point(i, CumProfit(bets[..i + 1]))
    ensures forall i :: 0 <= i < |bets| ==> w.equity[i] == Point(i, start + CumProfit(bets[..i + 1]))
    ensures forall i :: 0 <= i < |bets| ==> w.stakeUser[i] == StakePoint(i, FiniteOrNull(bets[i].stake))
    ensures forall i :: 0 <= i < |bets| ==> w.stakeRec[i] == StakePoint(i, FiniteOrNull(bets[i].recommendedStake))
  {
    var bank := start;
    var cumProfit := 0.0;
    var equity: seq<Point> := [];
    var profit: seq<Point> := [];
    var stakeUser: seq<StakePoint> := [];
    var stakeRec: seq<StakePoint> := [];
    var i := 0;
    while i < |bets|
      invariant 0 <= i <= |bets|
      invariant cumProfit == CumProfit(bets[..i]) && bank == start + cumProfit
      invariant |equity| == |profit| == |stakeUser| == |stakeRec| == i
      invariant forall j :: 0 <= j < i ==> profit[j] == Point(j, CumProfit(bets[..j + 1]))
      invariant forall j :: 0 <= j < i ==> equity[j] == Point(j, start + CumProfit(bets[..j + 1]))
      invariant forall j :: 0 <= j < i ==> stakeUser[j] == StakePoint(j, FiniteOrNull(bets[j].stake))
      invariant forall j :: 0 <= j < i ==> stakeRec[j] == StakePoint(j, FiniteOrNull(bets[j].recommendedStake))
    {
      var b := bets[i];
      assert bets[..i + 1][..i] == bets[..i];
      var p := FiniteOrNull(b.profit).GetOr(0.0);
      if IsSettled(b) {
        bank := bank + p;
        cumProfit := cumProfit + p;
      }
      equity := equity + [Point(i, bank)];
      profit := profit + [Point(i, cumProfit)];
      stakeUser := stakeUser + [StakePoint(i, FiniteOrNull(b.stake))];
      stakeRec := stakeRec + [StakePoint(i, FiniteOrNull(b.recommendedStake))];
      i := i + 1;
    }
    w := Walk(equity, profit, stakeUser, stakeRec);
  }

  /** `peak > 0 ? ((peak - y) / peak) * 100 : 0` */
  function DrawdownPctOf(peak: real, y: real): real {
    if peak > 0.0 then (peak - y) / peak * 100.0 else 0.0
  }

  /** The highest bank among points `0..i`: the peak once point `i` is seen. */
  function RunningPeak(equity: seq<Point>, i: nat): (peak: real)
    requires i < |equity|
    ensures peak >= equity[i].y
    decreases i
  {
    if i == 0 then equity[0].y else Max(RunningPeak(equity, i - 1), equity[i].y)
  }

  /** Drawdown point `i` of an equity curve. */
  function DrawdownAt(equity: seq<Point>, i: nat): Point
    requires i < |equity|
  {
    Point(equity[i].x, DrawdownPctOf(RunningPeak(equity, i), equity[i].y))
  }

  /** `equity.map(...)` with `peak` starting at `equity[0].y` and raised by every higher point. */
  method DrawdownSeries(equity: seq<Point>, start: real) returns (dd: seq<Point>)
    ensures |dd| == |equity|
    ensures forall i :: 0 <= i < |equity| ==> dd[i] == DrawdownAt(equity, i)
  {
    var peak := if |equity| > 0 then equity[0].y else start;
    dd := [];
    var i := 0;
    while i < |equity|
      invariant 0 <= i <= |equity|
      invariant 0 < |equity| ==> peak == RunningPeak(equity, if i == 0 then 0 else i - 1)
      invariant |dd| == i
      invariant forall j :: 0 <= j < i ==> dd[j] == DrawdownAt(equity, j)
    {
      var p := equity[i];
      if p.y > peak {
        peak := p.y;
      }
      assert peak == RunningPeak(equity, i);
      dd := dd + [Point(p.x, DrawdownPctOf(peak, p.y))];
      i := i + 1;
    }
  }

  /** The peak never falls from one point to the next. */
  lemma {:induction false} RunningPeakMonotone(equity: seq<Point>, i: nat, j: nat)
    requires i <= j < |equity|
    ensures RunningPeak(equity, i) <= RunningPeak(equity, j)
    decreases j - i
  {
    if i < j {
      RunningPeakMonotone(equity, i, j - 1);
    }
  }

  /** The running peak is the highest point seen so far, and is one of those points. */
  lemma {:induction false} RunningPeakIsMax(equity: seq<Point>, i: nat)
    requires i < |equity|
    ensures forall j :: 0 <= j <= i ==> equity[j].y <= RunningPeak(equity, i)
    ensures exists j :: 0 <= j <= i && equity[j].y == RunningPeak(equity, i)
    decreases i
  {
    if i > 0 {
      RunningPeakIsMax(equity, i - 1);
      if RunningPeak(equity, i) != equity[i].y {
        var j :| 0 <= j <= i - 1 && equity[j].y == RunningPeak(equity, i - 1);
        assert equity[j].y == RunningPeak(equity, i);
      } else {
        assert equity[i].y == RunningPeak(equity, i);
      }
    } else {
      assert equity[0].y == RunningPeak(equity, 0);
    }
  }

  /** Every drawdown is at least 0, and at most 100 when the point itself is not negative. */
  lemma DrawdownPctBounds(peak: real, y: real)
    requires y <= peak
    ensures 0.0 <= DrawdownPctOf(peak, y)
    ensures 0.0 <= y ==> DrawdownPctOf(peak, y) <= 100.0
  {
    if peak > 0.0 {
      var r := (peak - y) / peak;
      assert r * peak == peak - y;
      assert 0.0 <= r;
      if 0.0 <= y {
        assert r <= 1.0;
      }
    }
  }

  /** A session as the client receives it; the bet list may sit under `Bets` or `bets`. */
  datatype ClientSession = ClientSession(initialBank: JsNum, upperBets: Option<seq<ClientBet>>, lowerBets: Option<seq<ClientBet>>)

  /** Everything `buildSessionSeries` and `buildTotalSeries` return. */
  datatype Series = Series(equity: seq<Point>, profit: seq<Point>, drawdownPct: seq<Point>,
                           stakeUser: seq<StakePoint>, stakeRec: seq<StakePoint>, bankStart: real, betsCount: Option<nat>)

  /** `num(session?.initialBank) ?? 0` */
  function SessionStart(session: Option<ClientSession>): real {
    if session.None? then 0.0 else FiniteOrNull(session.value.initialBank).GetOr(0.0)
  }

  /** `session?.Bets || session?.bets || []`: an array, even an empty one, wins. */
  function SessionBets(session: Option<ClientSession>): seq<ClientBet> {
    if session.None? then []
    else if session.value.upperBets.Some? then session.value.upperBets.value
    else session.value.lowerBets.GetOr([])
  }

  /**
   * What both builders return for a start bank and a bet list: the list is
   * walked in key order, one point per bet in every series.
   */
  ghost predicate Describes(r: Series, start: real, list: seq<ClientBet>) {
    var bets := SortByKey(list);
    && r.bankStart == start
    && |r.equity| == |r.profit| == |r.drawdownPct| == |r.stakeUser| == |r.stakeRec| == |list|
    && (forall i :: 0 <= i < |list| ==> r.profit[i] == Point(i, CumProfit(bets[..i + 1])))
    && (forall i :: 0 <= i < |list| ==> r.equity[i] == Point(i, start + CumProfit(bets[..i + 1])))
    && (forall i :: 0 <= i < |list| ==> r.stakeUser[i] == StakePoint(i, FiniteOrNull(bets[i].stake)))
    && (forall i :: 0 <= i < |list| ==> r.stakeRec[i] == StakePoint(i, FiniteOrNull(bets[i].recommendedStake)))
    && (forall i :: 0 <= i < |list| ==> r.drawdownPct[i] == DrawdownAt(r.equity, i))
  }

  /** Both builders after their start and bet list are known. */
  method BuildSeries(start: real, list: seq<ClientBet>) returns (r: Series)
    ensures Describes(r, start, list) && r.betsCount == Some(|list|)
  {
    var bets := SortByKey(list);
    var w := WalkBets(start, bets);
    var dd := DrawdownSeries(w.equity, start);
    r := Series(w.equity, w.profit, dd, w.stakeUser, w.stakeRec, start, Some(|bets|));
  }

  /** `buildSessionSeries(session)` */
  method BuildSessionSeries(session: Option<ClientSession>) returns (r: Series)
    ensures Describes(r, SessionStart(session), SessionBets(session))
    ensures r.betsCount == Some(|SessionBets(session)|)
  {
    r := BuildSeries(SessionStart(session), SessionBets(session));
  }

  /** `sessions.reduce((acc, s) => acc + (num(s.initialBank) ?? 0), 0)` */
  function TotalStart(sessions: seq<ClientSession>): real
    decreases |sessions|
  {
    if sessions == [] then 0.0
    else TotalStart(sessions[..|sessions| - 1]) + FiniteOrNull(sessions[|sessions| - 1].initialBank).GetOr(0.0)
  }

  /** Sessions without a numeric initial bank add nothing to the total start. */
  lemma TotalStartSkipsNonNumeric(sessions: seq<ClientSession>, s: ClientSession)
    requires s.initialBank.NonFinite?
    ensures TotalStart(sessions + [s]) == TotalStart(sessions)
  {
    assert (sessions + [s])[..|sessions|] == sessions;
  }

  /** `buildTotalSeries({ sessions, bets })`; `bets` is `None` for `null`. It reports no bet count. */
  method BuildTotalSeries(sessions: seq<ClientSession>, bets: Option<seq<ClientBet>>) returns (r: Series)
    ensures Describes(r, TotalStart(sessions), bets.GetOr([]))
    ensures r.betsCount == None
  {
    r := BuildSeries(TotalStart(sessions), bets.GetOr([]));
    r := r.(betsCount := None);
  }

  /** Every equity point is the start bank plus the profit point of the same bet. */
  lemma EquityIsStartPlusProfit(r: Series, start: real, list: seq<ClientBet>, i: int)
    requires Describes(r, start, list) && 0 <= i < |list|
    ensures r.equity[i].x == r.profit[i].x == i
    ensures r.equity[i].y == r.bankStart + r.profit[i].y
  {
  }

  /** A bet that is not settled leaves the bank where the previous point had it. */
  lemma PendingPointIsFlat(r: Series, start: real, list: seq<ClientBet>, i: int)
    requires Describes(r, start, list) && 0 < i < |list|
    requires !IsSettled(SortByKey(list)[i])
    ensures r.equity[i].y == r.equity[i - 1].y && r.profit[i].y == r.profit[i - 1].y
  {
    PendingAddsNothing(SortByKey(list), i);
  }

  /**
   * Along a series the drawdown peak never falls, every drawdown is at least
   * 0, and it is at most 100 at every point whose bank is not negative.
   */
  lemma SeriesDrawdownBounds(r: Series, start: real, list: seq<ClientBet>, i: nat, j: nat)
    requires Describes(r, start, list)
    requires i <= j < |list|
    ensures RunningPeak(r.equity, i) <= RunningPeak(r.equity, j)
    ensures 0.0 <= r.drawdownPct[j].y
    ensures 0.0 <= r.equity[j].y ==> r.drawdownPct[j].y <= 100.0
  {
    RunningPeakMonotone(r.equity, i, j);
    RunningPeakIsMax(r.equity, j);
    DrawdownPctBounds(RunningPeak(r.equity, j), r.equity[j].y);
  }
}
