// `stats.controller.js`: one loop over the selected bet rows counts results
// and sums stakes, profits, odds and risks; the ratios are taken once the
// loop is done. `userStatsByPublicId` guards that loop with the blacklist and
// the owner's `showStats` flag.

module Stats {
  import opened Wrappers
  import opened Text
  import opened Social
  import Charts

  /**
   * A bet row as `findAll({ raw: true })` returns it. A numeric column is
   * `None` when it is null, which `Number(x || 0)` reads as 0; `createdAt`
   * is the row's time in milliseconds.
   */
  datatype Row = Row(status: string, stake: Option<real>, profit: Option<real>, odds: Option<real>,
                     risk: Option<real>, createdAt: int)

  function StakeOf(r: Row): real { r.stake.GetOr(0.0) }
  function ProfitOf(r: Row): real { r.profit.GetOr(0.0) }
  function OddsOf(r: Row): real { r.odds.GetOr(0.0) }
  function RiskOf(r: Row): real { r.risk.GetOr(0.0) }

  predicate IsWin(r: Row) { r.status == "WIN" }
  predicate IsLose(r: Row) { r.status == "LOSE" }
  /** Every status other than WIN and LOSE counts as pending. */
  predicate IsPending(r: Row) { !IsWin(r) && !IsLose(r) }
  predicate HasOdds(r: Row) { OddsOf(r) > 0.0 }
  predicate HasRisk(r: Row) { RiskOf(r) > 0.0 }
  predicate Any(r: Row) { true }

  /** The number of rows satisfying `p`. */
  function Count(rows: seq<Row>, p: Row -> bool): (c: nat)
    ensures c <= |rows|
    decreases |rows|
  {
    if rows == [] then 0 else Count(rows[..|rows| - 1], p) + (if p(rows[|rows| - 1]) then 1 else 0)
  }

  /** The sum of `f` over the rows satisfying `p`. */
  function SumIf(rows: seq<Row>, p: Row -> bool, f: Row -> real): real
    decreases |rows|
  {
    if rows == [] then 0.0 else SumIf(rows[..|rows| - 1], p, f) + (if p(rows[|rows| - 1]) then f(rows[|rows| - 1]) else 0.0)
  }

  /** `updatedAt`: the first row with the largest `createdAt`, `None` for no rows. */
  function Latest(rows: seq<Row>): (t: Option<int>)
    ensures t.None? <==> rows == []
    decreases |rows|
  {
    if rows == [] then None
    else
      var prev := Latest(rows[..|rows| - 1]);
      var c := rows[|rows| - 1].createdAt;
      if prev.None? || c > prev.value then Some(c) else prev
  }

  /** What `computeStats` returns. */
  datatype Summary = Summary(betsTotal: nat, wins: nat, losses: nat, pending: nat, winrate: real,
                             stakeSum: real, profitSum: real, roi: real, avgOdds: real, avgRisk: real,
                             updatedAt: Option<int>)

  /** `n ? sum / n : 0` */
  function Average(sum: real, n: nat): real {
    if n > 0 then sum / n as real else 0.0
  }

  /** The summary of a list of rows, field by field. */
  function SummaryOf(rows: seq<Row>): Summary {
    var wins := Count(rows, IsWin);
    var losses := Count(rows, IsLose);
    var stakeSum := SumIf(rows, Any, StakeOf);
    var profitSum := SumIf(rows, Any, ProfitOf);
    Summary(|rows|, wins, losses, Count(rows, IsPending),
            Average(wins as real, wins + losses),
            stakeSum, profitSum,
            if stakeSum > 0.0 then profitSum / stakeSum else 0.0,
            Average(SumIf(rows, HasOdds, OddsOf), Count(rows, HasOdds)),
            Average(SumIf(rows, HasRisk, RiskOf), Count(rows, HasRisk)),
            Latest(rows))
  }

  /** The running totals of the loop after some rows. */
  datatype Totals = Totals(wins: nat, losses: nat, pending: nat, stakeSum: real, profitSum: real,
                           oddsSum: real, oddsCnt: nat, riskSum: real, riskCnt: nat, updatedAt: Option<int>)

  ghost predicate TotalsOf(t: Totals, rows: seq<Row>) {
    && t.wins == Count(rows, IsWin) && t.losses == Count(rows, IsLose) && t.pending == Count(rows, IsPending)
    && t.stakeSum == SumIf(rows, Any, StakeOf) && t.profitSum == SumIf(rows, Any, ProfitOf)
    && t.oddsSum == SumIf(rows, HasOdds, OddsOf) && t.oddsCnt == Count(rows, HasOdds)
    && t.riskSum == SumIf(rows, HasRisk, RiskOf) && t.riskCnt == Count(rows, HasRisk)
    && t.updatedAt == Latest(rows)
  }

  /** The body of the `for (const r of rows)` loop. */
  method Tally(ghost rows: seq<Row>, i: nat, r: Row, t: Totals) returns (t': Totals)
    requires i < |rows| && rows[i] == r && TotalsOf(t, rows[..i])
    ensures TotalsOf(t', rows[..i + 1])
  {
    assert rows[..i + 1][..i] == rows[..i];
    t' := t;
    if t'.updatedAt.None? || r.createdAt > t'.updatedAt.value {
      t' := t'.(updatedAt := Some(r.createdAt));
    }
    if r.status == "WIN" {
      t' := t'.(wins := t'.wins + 1);
    } else if r.status == "LOSE" {
      t' := t'.(losses := t'.losses + 1);
    } else {
      t' := t'.(pending := t'.pending + 1);
    }
    var stake := r.stake.GetOr(0.0);
    var profit := r.profit.GetOr(0.0);
    t' := t'.(stakeSum := t'.stakeSum + stake, profitSum := t'.profitSum + profit);
    var odds := r.odds.GetOr(0.0);
    if odds > 0.0 {
      t' := t'.(oddsSum := t'.oddsSum + odds, oddsCnt := t'.oddsCnt + 1);
    }
    var risk := r.risk.GetOr(0.0);
    if risk > 0.0 {
      t' := t'.(riskSum := t'.riskSum + risk, riskCnt := t'.riskCnt + 1);
    }
  }

  /** `computeStats` on the rows the query selected. */
  method ComputeStats(rows: seq<Row>) returns (s: Summary)
    ensures s == SummaryOf(rows)
  {
    var t := Totals(0, 0, 0, 0.0, 0.0, 0.0, 0, 0.0, 0, None);
    var i := 0;
    while i < |rows|
      invariant 0 <= i <= |rows|
      invariant TotalsOf(t, rows[..i])
    {
      t := Tally(rows, i, rows[i], t);
      i := i + 1;
    }
    assert rows[..|rows|] == rows;
    var decided := t.wins + t.losses;
    var winrate := if decided > 0 then t.wins as real / decided as real else 0.0;
    var roi := if t.stakeSum > 0.0 then t.profitSum / t.stakeSum else 0.0;
    var avgOdds := if t.oddsCnt > 0 then t.oddsSum / t.oddsCnt as real else 0.0;
    var avgRisk := if t.riskCnt > 0 then t.riskSum / t.riskCnt as real else 0.0;
    s := Summary(|rows|, t.wins, t.losses, t.pending, winrate, t.stakeSum, t.profitSum, roi, avgOdds, avgRisk, t.updatedAt);
  }

  /** Every row is a win, a loss or pending, and exactly one of them. */
  lemma {:induction false} StatusPartition(rows: seq<Row>)
    ensures Count(rows, IsWin) + Count(rows, IsLose) + Count(rows, IsPending) == |rows|
    decreases |rows|
  {
    if rows != [] {
      StatusPartition(rows[..|rows| - 1]);
    }
  }

  /** Rows a predicate rejects add nothing to its sum. */
  lemma {:induction false} SumIfPositive(rows: seq<Row>, p: Row -> bool, f: Row -> real)
    requires forall r :: p(r) ==> f(r) > 0.0
    ensures SumIf(rows, p, f) >= 0.0
    ensures Count(rows, p) > 0 ==> SumIf(rows, p, f) > 0.0
    decreases |rows|
  {
    if rows != [] {
      SumIfPositive(rows[..|rows| - 1], p, f);
    }
  }

  /**
   * The counters cover every row; the win rate lies in [0, 1] and is 0 when
   * nothing is settled; the ROI is 0 unless some stake was placed; the odds
   * and risk averages are positive exactly when some row has a positive
   * value, and 0 otherwise.
   */
  lemma SummaryFacts(rows: seq<Row>)
    ensures var s := SummaryOf(rows);
      && s.betsTotal == s.wins + s.losses + s.pending
      && 0.0 <= s.winrate <= 1.0
      && (s.wins + s.losses == 0 ==> s.winrate == 0.0)
      && (s.stakeSum <= 0.0 ==> s.roi == 0.0)
      && (s.avgOdds > 0.0 <==> exists j :: 0 <= j < |rows| && HasOdds(rows[j]))
      && (s.avgRisk > 0.0 <==> exists j :: 0 <= j < |rows| && HasRisk(rows[j]))
  {
    StatusPartition(rows);
    ShareWithin(Count(rows, IsWin), Count(rows, IsLose));
    AverageOfPositives(rows, HasOdds, OddsOf);
    AverageOfPositives(rows, HasRisk, RiskOf);
  }

  /** `wins / (wins + losses)`, 0 when both are 0, is a share. */
  lemma ShareWithin(wins: nat, losses: nat)
    ensures 0.0 <= Average(wins as real, wins + losses) <= 1.0
  {
    if wins + losses > 0 {
      var d := (wins + losses) as real;
      var q := wins as real / d;
      assert q * d == wins as real;
    }
  }

  lemma AverageOfPositives(rows: seq<Row>, p: Row -> bool, f: Row -> real)
    requires forall r :: p(r) ==> f(r) > 0.0
    ensures Average(SumIf(rows, p, f), Count(rows, p)) > 0.0 <==> exists j :: 0 <= j < |rows| && p(rows[j])
  {
    SumIfPositive(rows, p, f);
    CountPositive(rows, p);
    AveragePositive(SumIf(rows, p, f), Count(rows, p));
  }

  lemma AveragePositive(sum: real, n: nat)
    ensures Average(sum, n) > 0.0 <==> n > 0 && sum > 0.0
  {
    if n > 0 {
      var q := sum / n as real;
      assert q * n as real == sum;
    }
  }

  /** A count is positive exactly when some row satisfies the predicate. */
  lemma {:induction false} CountPositive(rows: seq<Row>, p: Row -> bool)
    ensures Count(rows, p) > 0 <==> exists j :: 0 <= j < |rows| && p(rows[j])
    decreases |rows|
  {
    if rows != [] {
      var n := |rows| - 1;
      CountPositive(rows[..n], p);
      if Count(rows[..n], p) > 0 {
        var j :| 0 <= j < n && p(rows[..n][j]);
        assert p(rows[j]);
      }
      if exists j :: 0 <= j < |rows| && p(rows[j]) {
        var j :| 0 <= j < |rows| && p(rows[j]);
        if j < n {
          assert p(rows[..n][j]);
        }
      }
    }
  }

  /** `updatedAt` is the latest `createdAt` of the rows, and belongs to one of them. */
  lemma {:induction false} LatestIsMax(rows: seq<Row>)
    requires rows != []
    ensures forall j :: 0 <= j < |rows| ==> rows[j].createdAt <= Latest(rows).value
    ensures exists j :: 0 <= j < |rows| && rows[j].createdAt == Latest(rows).value
    decreases |rows|
  {
    var n := |rows| - 1;
    if n > 0 {
      LatestIsMax(rows[..n]);
      var prev := Latest(rows[..n]).value;
      forall j | 0 <= j < n ensures rows[j].createdAt <= prev {
        assert rows[..n][j] == rows[j];
      }
      if Latest(rows).value == prev {
        var j :| 0 <= j < n && rows[..n][j].createdAt == prev;
        assert rows[j].createdAt == prev;
      } else {
        assert rows[n].createdAt == Latest(rows).value;
      }
    } else {
      assert rows[0].createdAt == Latest(rows).value;
    }
  }

  /** The user record `userStatsByPublicId` looks up: its id and its `Privacy.showStats`, if any. */
  datatype Owner = Owner(id: string, showStats: Option<bool>)

  /** The query the gate lets through: whose bets, over how many days, in which session. */
  datatype StatsQuery = StatsQuery(ownerId: string, rangeDays: Option<int>, sessionId: Option<string>)

  /**
   * The checks of `userStatsByPublicId` before `computeStats` runs, in the
   * source's order. `users` maps public ids to users, `sessionOwner` maps a
   * session id to its owner; `sessionParam` is `None` when the query has no
   * (or an empty) `sessionId`.
   */
  function UserStatsGate(viewer: string, publicIdParam: string, range: string, sessionParam: Option<string>,
                         users: map<string, Owner>, blocks: set<Edge>, sessionOwner: map<string, string>): (r: (int, Option<StatsQuery>))
    ensures r.1.Some? <==> r.0 == Ok
  {
    var publicId := Trim(publicIdParam);
    if !IsPublicId(publicId) then (BadRequest, None)
    else if publicId !in users then (NotFound, None)
    else
      var user := users[publicId];
      if BlockedEitherWay(blocks, viewer, user.id) then (NotFound, None)
      else if !Visible(user.showStats, viewer, user.id) then (Forbidden, None)
      else if sessionParam.Some? && !IsUuid(sessionParam.value) then (BadRequest, None)
      else if sessionParam.Some? && (sessionParam.value !in sessionOwner || sessionOwner[sessionParam.value] != user.id) then (NotFound, None)
      else (Ok, Some(StatsQuery(user.id, Charts.ParseRangeDays(range), sessionParam)))
  }

  /**
   * A blacklist row in either direction reads as an unknown user; stats an
   * owner hides answer 403 to everyone else, never to the owner; a session
   * that is not the owner's answers 404; and a query that passes is about
   * that owner and, if any, that session.
   */
  lemma UserStatsGateDecides(viewer: string, publicIdParam: string, range: string, sessionParam: Option<string>,
                             users: map<string, Owner>, blocks: set<Edge>, sessionOwner: map<string, string>)
    requires IsPublicId(Trim(publicIdParam)) && Trim(publicIdParam) in users
    ensures var user := users[Trim(publicIdParam)];
      var r := UserStatsGate(viewer, publicIdParam, range, sessionParam, users, blocks, sessionOwner);
      && (BlockedEitherWay(blocks, viewer, user.id) ==> r.0 == NotFound)
      && (!BlockedEitherWay(blocks, viewer, user.id) && user.showStats == Some(false) && viewer != user.id ==> r.0 == Forbidden)
      && (r.0 == Forbidden ==> viewer != user.id && user.showStats == Some(false))
      && (&& !BlockedEitherWay(blocks, viewer, user.id) && sessionParam.Some? && IsUuid(sessionParam.value)
          && Visible(user.showStats, viewer, user.id)
          && (sessionParam.value !in sessionOwner || sessionOwner[sessionParam.value] != user.id)
          ==> r.0 == NotFound)
      && (r.0 == Ok ==> r.1.value.ownerId == user.id && r.1.value.sessionId == sessionParam
                        && !BlockedEitherWay(blocks, viewer, user.id)
                        && (sessionParam.Some? ==> sessionParam.value in sessionOwner && sessionOwner[sessionParam.value] == user.id))
  {
  }
}
