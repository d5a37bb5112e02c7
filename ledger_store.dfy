// The terminal controller's handlers as methods of one object that holds the
// three tables and changes them in place. Each method answers a status code
// and leaves the tables as the matching transition of module `Ledger` says;
// every rejection leaves them untouched.

module TerminalController {
  import opened Wrappers
  import opened Text
  import opened TerminalHelpers
  import opened Ledger

  /** `Bet.sum('stake', { where: { sessionId, status: 'PENDING' } })`, one row at a time. */
  method SumPendingStakes(bets: map<string, Bet>, sid: string) returns (sum: real)
    ensures sum == PendingExposure(bets, sid)
  {
    sum := 0.0;
    var rest := bets.Keys;
    while rest != {}
      invariant rest <= bets.Keys
      invariant sum + SumOver(bets, rest, sid, StakeOfPending) == PendingExposure(bets, sid)
      decreases rest
    {
      var k :| k in rest;
      SumOverRemove(bets, rest, k, sid, StakeOfPending);
      sum := sum + Weight(bets[k], sid, StakeOfPending);
      rest := rest - {k};
    }
  }

  /** The tables behind the terminal routes. */
  class Terminal {
    var sessions: map<string, Session>
    var bets: map<string, Bet>
    var attached: map<string, Option<string>>
    /** `t => Math.pow(t, 0.9)` of the inline staking formula. */
    const curve: UnitCurve

    function State(): Store
      reads this
    {
      Store(sessions, bets, attached)
    }

    ghost predicate Valid()
      reads this
    {
      Inv(State())
    }

    constructor (curve: UnitCurve)
      ensures State() == Store(map[], map[], map[]) && this.curve == curve
      ensures Valid()
    {
      sessions := map[];
      bets := map[];
      attached := map[];
      this.curve := curve;
    }

    /** `POST /sessions`; `newId` is the id the database assigns. */
    method CreateSession(userId: string, title: string, initialBank: Option<real>, newId: string) returns (code: int)
      requires Valid() && newId !in sessions
      modifies this
      ensures Reply(code, State()) == Ledger.CreateSession(old(State()), userId, title, initialBank, newId)
      ensures Valid()
    {
      CreateSessionKeepsInv(State(), userId, title, initialBank, newId);
      var t := Trim(title);
      if t == "" || |t| > 80 {
        return BadRequest;
      }
      if !(initialBank.Some? && 0.0 < initialBank.value) {
        return BadRequest;
      }
      sessions := sessions[newId := Session(userId, t, initialBank.value, initialBank.value, Open, None)];
      code := Created;
    }

    /** `POST /sessions/:id/bets`; `newBetId` is the id the database assigns. */
    method AddBetToSession(userId: string, sessionId: string, req: BetRequest, newBetId: string) returns (code: int)
      requires Valid() && newBetId !in bets
      modifies this
      ensures Reply(code, State()) == AddBet(old(State()), userId, sessionId, req, newBetId, curve)
      ensures Valid()
    {
      if !IsUuid(sessionId) {
        return BadRequest;
      }
      if !(sessionId in sessions && sessions[sessionId].userId == userId) {
        return NotFound;
      }
      var session := sessions[sessionId];
      if session.status != Open {
        return Conflict;
      }
      var fields := ValidateBet(req);
      if fields.None? {
        return BadRequest;
      }
      code := Place(sessionId, fields.value, newBetId);
    }

    /** The bank check and the insert of `addBetToSession`, once the fields are valid. */
    method Place(sessionId: string, f: BetFields, newBetId: string) returns (code: int)
      requires Valid() && newBetId !in bets && sessionId in sessions
      requires 1.0 < f.odds && 0.0 < f.stake
      modifies this
      ensures Reply(code, State()) == PlaceBet(old(State()), sessionId, f, newBetId, curve)
      ensures Valid()
    {
      PlaceBetKeepsInv(State(), sessionId, f, newBetId, curve);
      var pendingSum := SumPendingStakes(bets, sessionId);
      var bankAvailable := sessions[sessionId].currentBank - pendingSum;
      if !(0.0 < bankAvailable) {
        return Conflict;
      }
      if !(f.stake <= bankAvailable) {
        return Conflict;
      }
      var rec := CalcRecommendation(bankAvailable, f.odds, f.bo, f.tier, f.risk, curve);
      bets := bets[newBetId := NewBet(sessionId, f, rec)];
      code := Created;
    }

    /** `POST /bets/:id/settle` at time `now`. */
    method SettleBet(userId: string, betId: string, result: string, now: int) returns (code: int)
      requires Valid()
      modifies this
      ensures Reply(code, State()) == Settle(old(State()), userId, betId, result, now)
      ensures Valid()
    {
      SettleKeepsInv(State(), userId, betId, result, now);
      if !IsUuid(betId) {
        return BadRequest;
      }
      var res := SafeEnum(result, ["WIN", "LOSE"]);
      if res.None? {
        return BadRequest;
      }
      if !(betId in bets && bets[betId].sessionId in sessions && sessions[bets[betId].sessionId].userId == userId) {
        return NotFound;
      }
      var bet := bets[betId];
      var session := sessions[bet.sessionId];
      if session.status != Open {
        return Conflict;
      }
      if bet.status != Pending {
        return Conflict;
      }
      Apply(betId, if res.value == "WIN" then Win else Lose, now);
      code := Ok;
    }

    /** The two writes of a successful settle. */
    method Apply(betId: string, outcome: BetStatus, now: int)
      requires betId in bets && bets[betId].sessionId in sessions
      modifies this
      ensures State() == Settled(old(State()), betId, outcome, now)
    {
      var bet := bets[betId];
      var session := sessions[bet.sessionId];
      var profit := ProfitOf(bet.stake, bet.odds, outcome);
      bets := bets[betId := bet.(status := outcome, profit := profit, settledAt := Some(now))];
      sessions := sessions[bet.sessionId := session.(currentBank := session.currentBank + profit)];
    }

    /** `DELETE /bets/:id` */
    method DeleteBet(userId: string, betId: string) returns (code: int)
      requires Valid()
      modifies this
      ensures Reply(code, State()) == Ledger.DeleteBet(old(State()), userId, betId)
      ensures Valid()
    {
      DeleteBetKeepsInv(State(), userId, betId);
      if !IsUuid(betId) {
        return BadRequest;
      }
      if !(betId in bets && bets[betId].sessionId in sessions && sessions[bets[betId].sessionId].userId == userId) {
        return NotFound;
      }
      var bet := bets[betId];
      if bet.status == Win || bet.status == Lose {
        var session := sessions[bet.sessionId];
        sessions := sessions[bet.sessionId := session.(currentBank := session.currentBank - bet.profit)];
      }
      attached := Unlink(attached, {betId});
      bets := bets - {betId};
      code := Ok;
    }

    /** `POST /sessions/:id/close` at time `now`. */
    method CloseSession(userId: string, sessionId: string, now: int) returns (code: int)
      requires Valid()
      modifies this
      ensures Reply(code, State()) == Ledger.CloseSession(old(State()), userId, sessionId, now)
      ensures Valid()
    {
      CloseSessionKeepsInv(State(), userId, sessionId, now);
      if !IsUuid(sessionId) {
        return BadRequest;
      }
      if !(sessionId in sessions && sessions[sessionId].userId == userId) {
        return NotFound;
      }
      var session := sessions[sessionId];
      if session.status == Closed {
        return Conflict;
      }
      sessions := sessions[sessionId := session.(status := Closed, closedAt := Some(now))];
      code := Ok;
    }

    /** `DELETE /sessions/:id` */
    method DeleteSession(userId: string, sessionId: string) returns (code: int)
      requires Valid()
      modifies this
      ensures Reply(code, State()) == Ledger.DeleteSession(old(State()), userId, sessionId)
      ensures Valid()
    {
      DeleteSessionKeepsInv(State(), userId, sessionId);
      if !IsUuid(sessionId) {
        return BadRequest;
      }
      if !(sessionId in sessions && sessions[sessionId].userId == userId) {
        return NotFound;
      }
      var betIds := BetsOf(bets, sessionId);
      if betIds != {} {
        attached := Unlink(attached, betIds);
      }
      bets := BetsOutside(bets, sessionId);
      sessions := sessions - {sessionId};
      code := Ok;
    }

    /** `POST /sessions/:id/recommend`: reads the tables and changes nothing. */
    method RecommendBet(userId: string, sessionId: string, odds: Option<real>, bo: Option<real>,
                        tier: Option<real>, risk: Option<real>) returns (r: Advice)
      ensures r == Ledger.RecommendBet(State(), userId, sessionId, odds, bo, tier, risk, curve)
    {
      if !IsUuid(sessionId) {
        return Advice(BadRequest, 0.0, None);
      }
      if !(sessionId in sessions && sessions[sessionId].userId == userId) {
        return Advice(NotFound, 0.0, None);
      }
      var pendingSum := SumPendingStakes(bets, sessionId);
      var bank := sessions[sessionId].currentBank - pendingSum;
      if !(0.0 < bank) {
        return Advice(Conflict, 0.0, None);
      }
      if !(odds.Some? && 1.0 < odds.value) {
        return Advice(BadRequest, 0.0, None);
      }
      var b := SafeIntEnum(bo, BoValues);
      var t := SafeIntEnum(tier, TierValues);
      var k := SafeIntEnum(risk, RiskValues);
      if b.None? || t.None? || k.None? {
        return Advice(BadRequest, 0.0, None);
      }
      r := Advice(Ok, bank, Some(CalcRecommendation(bank, odds.value, b.value, t.value, k.value, curve)));
    }
  }
}
