// The bankroll ledger of the terminal controller, as transitions over a store
// of three tables: bank sessions, their bets, and the `attachedBetId` that posts
// keep as a weak reference to a bet. Each handler is a function from the store
// before the call to a status code and the store after it; the class in
// `ledger_store.dfy` performs the same steps in place.

module Ledger {
  import opened Wrappers
  import opened Text
  import opened JsMath
  import opened TerminalHelpers

  const Ok: int := 200
  const Created: int := 201
  const BadRequest: int := 400
  const NotFound: int := 404
  const Conflict: int := 409

  datatype SessionStatus = Open | Closed
  datatype BetStatus = Pending | Win | Lose

  /** A `BankSession` row; `closedAt` is a timestamp supplied by the caller. */
  datatype Session = Session(userId: string, title: string, initialBank: real, currentBank: real,
                             status: SessionStatus, closedAt: Option<int>)

  /** A `Bet` row. */
  datatype Bet = Bet(sessionId: string, game: string, tournament: string, team1: string, team2: string,
                     pickTeam: Option<string>, betType: string, bo: int, tier: int, risk: int,
                     odds: real, stake: real, recommendedPct: real, recommendedStake: real,
                     stakingModel: string, status: BetStatus, profit: real, settledAt: Option<int>)

  /** Sessions and bets by id, and each post's `attachedBetId` by post id. */
  datatype Store = Store(sessions: map<string, Session>, bets: map<string, Bet>, attached: map<string, Option<string>>)

  datatype Reply = Reply(code: int, store: Store)

  // ---------------------------------------------------------------------------
  // Sums over the bet table

  /** The two sums the controller relies on. */
  datatype Measure = ProfitOfSettled | StakeOfPending

  /** What one bet adds to a session's sum. */
  function Weight(b: Bet, sid: string, m: Measure): real {
    if b.sessionId != sid then 0.0
    else match m
      case ProfitOfSettled => if b.status == Pending then 0.0 else b.profit
      case StakeOfPending => if b.status == Pending then b.stake else 0.0
  }

  ghost function SumOver(bets: map<string, Bet>, keys: set<string>, sid: string, m: Measure): real
    requires keys <= bets.Keys
    decreases keys
  {
    if keys == {} then 0.0
    else var k :| k in keys; Weight(bets[k], sid, m) + SumOver(bets, keys - {k}, sid, m)
  }

  ghost function Total(bets: map<string, Bet>, sid: string, m: Measure): real {
    SumOver(bets, bets.Keys, sid, m)
  }

  /** `Bet.sum('stake', { where: { sessionId, status: 'PENDING' } })` */
  ghost function PendingExposure(bets: map<string, Bet>, sid: string): real {
    Total(bets, sid, StakeOfPending)
  }

  /** The sum of `profit` over the session's WIN and LOSE bets. */
  ghost function SettledProfit(bets: map<string, Bet>, sid: string): real {
    Total(bets, sid, ProfitOfSettled)
  }

  /** The sum does not depend on the order in which keys are taken out. */
  lemma {:induction false} SumOverRemove(bets: map<string, Bet>, keys: set<string>, k: string, sid: string, m: Measure)
    requires keys <= bets.Keys && k in keys
    ensures SumOver(bets, keys, sid, m) == Weight(bets[k], sid, m) + SumOver(bets, keys - {k}, sid, m)
    decreases keys
  {
    var j :| j in keys && SumOver(bets, keys, sid, m) == Weight(bets[j], sid, m) + SumOver(bets, keys - {j}, sid, m);
    if j != k {
      SumOverRemove(bets, keys - {j}, k, sid, m);
      SumOverRemove(bets, keys - {k}, j, sid, m);
      assert keys - {j} - {k} == keys - {k} - {j};
    }
  }

  /** Two tables that weigh the same on `keys` have the same sum over `keys`. */
  lemma {:induction false} SumOverFrame(b1: map<string, Bet>, b2: map<string, Bet>, keys: set<string>, sid: string, m: Measure)
    requires keys <= b1.Keys && keys <= b2.Keys
    requires forall k :: k in keys ==> Weight(b1[k], sid, m) == Weight(b2[k], sid, m)
    ensures SumOver(b1, keys, sid, m) == SumOver(b2, keys, sid, m)
    decreases keys
  {
    if keys != {} {
      var k :| k in keys;
      SumOverRemove(b1, keys, k, sid, m);
      SumOverRemove(b2, keys, k, sid, m);
      SumOverFrame(b1, b2, keys - {k}, sid, m);
    }
  }

  lemma {:induction false} SumOverZero(bets: map<string, Bet>, keys: set<string>, sid: string, m: Measure)
    requires keys <= bets.Keys
    requires forall k :: k in keys ==> Weight(bets[k], sid, m) == 0.0
    ensures SumOver(bets, keys, sid, m) == 0.0
    decreases keys
  {
    if keys != {} {
      var k :| k in keys;
      SumOverRemove(bets, keys, k, sid, m);
      SumOverZero(bets, keys - {k}, sid, m);
    }
  }

  lemma {:induction false} SumOverSplit(bets: map<string, Bet>, a: set<string>, b: set<string>, sid: string, m: Measure)
    requires a <= bets.Keys && b <= bets.Keys && a !! b
    ensures SumOver(bets, a + b, sid, m) == SumOver(bets, a, sid, m) + SumOver(bets, b, sid, m)
    decreases b
  {
    if b != {} {
      var k :| k in b;
      var rest := b - {k};
      assert (a + b) - {k} == a + rest;
      SumOverRemove(bets, a + b, k, sid, m);
      SumOverRemove(bets, b, k, sid, m);
      SumOverSplit(bets, a, rest, sid, m);
      calc {
        SumOver(bets, a + b, sid, m);
        Weight(bets[k], sid, m) + SumOver(bets, a + rest, sid, m);
        Weight(bets[k], sid, m) + SumOver(bets, a, sid, m) + SumOver(bets, rest, sid, m);
        SumOver(bets, a, sid, m) + SumOver(bets, b, sid, m);
      }
    } else {
      assert a + b == a;
    }
  }

  /** Inserting a new bet adds exactly its weight. */
  lemma TotalInsert(bets: map<string, Bet>, k: string, b: Bet, sid: string, m: Measure)
    requires k !in bets
    ensures Total(bets[k := b], sid, m) == Total(bets, sid, m) + Weight(b, sid, m)
  {
    var bets' := bets[k := b];
    SumOverRemove(bets', bets'.Keys, k, sid, m);
    assert bets'.Keys - {k} == bets.Keys;
    SumOverFrame(bets', bets, bets.Keys, sid, m);
  }

  /** Replacing a bet swaps its old weight for the new one. */
  lemma TotalUpdate(bets: map<string, Bet>, k: string, b: Bet, sid: string, m: Measure)
    requires k in bets
    ensures Total(bets[k := b], sid, m) == Total(bets, sid, m) - Weight(bets[k], sid, m) + Weight(b, sid, m)
  {
    var bets' := bets[k := b];
    assert bets'.Keys == bets.Keys;
    SumOverRemove(bets', bets.Keys, k, sid, m);
    SumOverRemove(bets, bets.Keys, k, sid, m);
    SumOverFrame(bets', bets, bets.Keys - {k}, sid, m);
  }

  /** Removing a bet subtracts exactly its weight. */
  lemma TotalRemove(bets: map<string, Bet>, k: string, sid: string, m: Measure)
    requires k in bets
    ensures Total(bets - {k}, sid, m) == Total(bets, sid, m) - Weight(bets[k], sid, m)
  {
    SumOverRemove(bets, bets.Keys, k, sid, m);
    assert (bets - {k}).Keys == bets.Keys - {k};
    SumOverFrame(bets - {k}, bets, bets.Keys - {k}, sid, m);
  }

  /** A session none of whose bets are in the table sums to zero. */
  lemma TotalOfAbsentSession(bets: map<string, Bet>, sid: string, m: Measure)
    requires forall k :: k in bets ==> bets[k].sessionId != sid
    ensures Total(bets, sid, m) == 0.0
  {
    SumOverZero(bets, bets.Keys, sid, m);
  }

  /** The bets left after every bet of session `gone` is dropped. */
  function BetsOutside(bets: map<string, Bet>, gone: string): (r: map<string, Bet>)
    ensures forall k :: k in r <==> k in bets && bets[k].sessionId != gone
    ensures forall k :: k in r ==> r[k] == bets[k]
  {
    map k | k in bets && bets[k].sessionId != gone :: bets[k]
  }

  /** Dropping another session's bets leaves a session's sums unchanged. */
  lemma TotalWithoutSession(bets: map<string, Bet>, gone: string, sid: string, m: Measure)
    requires sid != gone
    ensures Total(BetsOutside(bets, gone), sid, m) == Total(bets, sid, m)
  {
    var kept := BetsOutside(bets, gone);
    var dropped := bets.Keys - kept.Keys;
    assert bets.Keys == kept.Keys + dropped;
    SumOverSplit(bets, kept.Keys, dropped, sid, m);
    SumOverZero(bets, dropped, sid, m);
    SumOverFrame(kept, bets, kept.Keys, sid, m);
  }

  // ---------------------------------------------------------------------------
  // Invariants

  /** The rules every stored bet obeys: validated odds and stake, and a profit that matches the status. */
  predicate WellFormedBet(b: Bet) {
    && 1.0 < b.odds && 0.0 < b.stake
    && (b.status == Pending ==> b.profit == 0.0 && b.settledAt == None)
    && (b.status != Pending ==> b.profit == ProfitOf(b.stake, b.odds, b.status))
  }

  /** `currentBank = initialBank + Σ profit of the session's WIN/LOSE bets`. */
  ghost predicate BankIdentity(st: Store, sid: string)
    requires sid in st.sessions
  {
    st.sessions[sid].currentBank == st.sessions[sid].initialBank + SettledProfit(st.bets, sid)
  }

  /** Every bet belongs to a stored session, is well formed, and every session keeps its bank identity. */
  ghost predicate Inv(st: Store) {
    && (forall k :: k in st.bets ==> st.bets[k].sessionId in st.sessions)
    && (forall k :: k in st.bets ==> WellFormedBet(st.bets[k]))
    && (forall sid :: sid in st.sessions ==> BankIdentity(st, sid))
  }

  /** The placement rule: the stakes still pending fit in the session's bank. */
  ghost predicate WithinBank(st: Store, sid: string) {
    sid in st.sessions ==> PendingExposure(st.bets, sid) <= st.sessions[sid].currentBank
  }

  predicate OwnsSession(st: Store, sid: string, userId: string) {
    sid in st.sessions && st.sessions[sid].userId == userId
  }

  /** The bet exists and its session belongs to the caller (the join on `Session.userId`). */
  predicate OwnsBet(st: Store, betId: string, userId: string) {
    betId in st.bets && OwnsSession(st, st.bets[betId].sessionId, userId)
  }

  /** `Post.update({ attachedBetId: null }, { where: { attachedBetId: in doomed } })` */
  function Unlink(attached: map<string, Option<string>>, doomed: set<string>): (r: map<string, Option<string>>)
    ensures r.Keys == attached.Keys
    ensures forall p :: p in r ==> (r[p] == None <==> attached[p] == None || attached[p].value in doomed)
    ensures forall p :: p in r && r[p] != None ==> r[p] == attached[p]
  {
    map p | p in attached :: if attached[p].Some? && attached[p].value in doomed then None else attached[p]
  }

  // ---------------------------------------------------------------------------
  // createSession

  /** `createSession`: `title` is `String(body.title || '')`, `initialBank` is `Number(body.initialBank)` (None for NaN). */
  function CreateSession(st: Store, userId: string, title: string, initialBank: Option<real>, newId: string): (r: Reply)
    ensures r.code == Created || r.code == BadRequest
    ensures r.code == BadRequest ==> r.store == st
    ensures r.code == Created <==> 0 < |Trim(title)| <= 80 && initialBank.Some? && 0.0 < initialBank.value
  {
    var t := Trim(title);
    if t == "" || |t| > 80 then Reply(BadRequest, st)
    else if !(initialBank.Some? && 0.0 < initialBank.value) then Reply(BadRequest, st)
    else Reply(Created, st.(sessions := st.sessions[newId := Session(userId, t, initialBank.value, initialBank.value, Open, None)]))
  }

  /** A new session is OPEN with its whole initial bank, and the invariant holds for it at once. */
  lemma CreateSessionKeepsInv(st: Store, userId: string, title: string, initialBank: Option<real>, newId: string)
    requires Inv(st) && newId !in st.sessions
    ensures var r := CreateSession(st, userId, title, initialBank, newId);
      && Inv(r.store)
      && (r.code == Created ==>
            && r.store.sessions == st.sessions[newId := r.store.sessions[newId]]
            && r.store.bets == st.bets
            && r.store.sessions[newId].status == Open
            && r.store.sessions[newId].userId == userId
            && r.store.sessions[newId].currentBank == r.store.sessions[newId].initialBank == initialBank.value
            && SettledProfit(r.store.bets, newId) == 0.0)
  {
    var r := CreateSession(st, userId, title, initialBank, newId);
    if r.code == Created {
      TotalOfAbsentSession(st.bets, newId, ProfitOfSettled);
      forall sid | sid in r.store.sessions ensures BankIdentity(r.store, sid) {
        if sid != newId {
          assert BankIdentity(st, sid);
        }
      }
    }
  }

  // ---------------------------------------------------------------------------
  // addBetToSession

  /** The body of a placement request after `String(...)`/`Number(...)` coercion; `None` is NaN. */
  datatype BetRequest = BetRequest(game: string, tournament: string, team1: string, team2: string, pickTeam: string,
                                   betType: string, bo: Option<real>, tier: Option<real>, risk: Option<real>,
                                   odds: Option<real>, stake: Option<real>)

  /** The validated fields of a placement. */
  datatype BetFields = BetFields(game: string, tournament: string, team1: string, team2: string, pickTeam: Option<string>,
                                 betType: string, bo: int, tier: int, risk: int, odds: real, stake: real)

  const Games: seq<string> := ["DOTA2", "CS2"]
  const BetTypes: seq<string> := ["HANDICAP", "MAP_WIN", "MATCH_WIN"]
  const BoValues: seq<int> := [1, 2, 3, 5]
  const TierValues: seq<int> := [1, 2, 3]
  const RiskValues: seq<int> := [1, 2, 3, 4, 5]

  /** The field checks that answer 400, in the controller's order. */
  function ValidateBet(req: BetRequest): (r: Option<BetFields>)
    ensures r.Some? ==>
      && r.value.game in Games && r.value.betType in BetTypes
      && r.value.tournament != "" && r.value.team1 != "" && r.value.team2 != ""
      && r.value.bo in BoValues && r.value.tier in TierValues && r.value.risk in RiskValues
      && 1.0 < r.value.odds && 0.0 < r.value.stake
      && Some(r.value.stake) == req.stake && Some(r.value.odds) == req.odds
    ensures r.None? <==>
      || Trim(req.game) !in Games || Trim(req.tournament) == "" || Trim(req.team1) == "" || Trim(req.team2) == ""
      || Trim(req.betType) !in BetTypes
      || SafeIntEnum(req.bo, BoValues).None? || SafeIntEnum(req.tier, TierValues).None? || SafeIntEnum(req.risk, RiskValues).None?
      || !(req.odds.Some? && 1.0 < req.odds.value) || !(req.stake.Some? && 0.0 < req.stake.value)
  {
    var game := SafeEnum(req.game, Games);
    var tournament := Trim(req.tournament);
    var team1 := Trim(req.team1);
    var team2 := Trim(req.team2);
    var pickTeam := if req.pickTeam != "" then Some(Trim(req.pickTeam)) else None;
    var betType := SafeEnum(req.betType, BetTypes);
    var bo := SafeIntEnum(req.bo, BoValues);
    var tier := SafeIntEnum(req.tier, TierValues);
    var risk := SafeIntEnum(req.risk, RiskValues);
    if game.None? || tournament == "" || team1 == "" || team2 == "" || betType.None?
       || bo.None? || tier.None? || risk.None? then None
    else if !(req.odds.Some? && 1.0 < req.odds.value) then None
    else if !(req.stake.Some? && 0.0 < req.stake.value) then None
    else Some(BetFields(game.value, tournament, team1, team2, pickTeam, betType.value,
                        bo.value, tier.value, risk.value, req.odds.value, req.stake.value))
  }

  /** The row `Bet.create` inserts for a validated placement. */
  function NewBet(sessionId: string, f: BetFields, rec: Recommendation): Bet {
    Bet(sessionId, f.game, f.tournament, f.team1, f.team2, f.pickTeam, f.betType, f.bo, f.tier, f.risk,
        f.odds, f.stake, rec.recommendedPct, rec.recommendedStake, rec.stakingModel, Pending, 0.0, None)
  }

  /** `currentBank - Σ PENDING stakes`: what the next placement may still use. */
  ghost function Available(st: Store, sid: string): real
    requires sid in st.sessions
  {
    st.sessions[sid].currentBank - PendingExposure(st.bets, sid)
  }

  /** `addBetToSession`; `newBetId` is the id the database assigns. */
  ghost function AddBet(st: Store, userId: string, sessionId: string, req: BetRequest, newBetId: string, curve: UnitCurve): (r: Reply)
    ensures r.code in {Created, BadRequest, NotFound, Conflict}
    ensures r.code != Created ==> r.store == st
  {
    if !IsUuid(sessionId) then Reply(BadRequest, st)
    else if !OwnsSession(st, sessionId, userId) then Reply(NotFound, st)
    else if st.sessions[sessionId].status != Open then Reply(Conflict, st)
    else match ValidateBet(req)
      case None => Reply(BadRequest, st)
      case Some(f) => PlaceBet(st, sessionId, f, newBetId, curve)
  }

  /** The bank check and the insert, once the fields have passed validation. */
  ghost function PlaceBet(st: Store, sessionId: string, f: BetFields, newBetId: string, curve: UnitCurve): (r: Reply)
    requires sessionId in st.sessions
    ensures r.code == Created || r.code == Conflict
    ensures r.code == Conflict <==> !(0.0 < Available(st, sessionId) && f.stake <= Available(st, sessionId))
    ensures r.code == Conflict ==> r.store == st
  {
    var available := Available(st, sessionId);
    if !(0.0 < available) then Reply(Conflict, st)
    else if !(f.stake <= available) then Reply(Conflict, st)
    else
      var rec := CalcRecommendation(available, f.odds, f.bo, f.tier, f.risk, curve);
      Reply(Created, st.(bets := st.bets[newBetId := NewBet(sessionId, f, rec)]))
  }

  /** The rejections of a placement, in the controller's order: ownership and status come before any field check. */
  lemma AddBetRejections(st: Store, userId: string, sessionId: string, req: BetRequest, newBetId: string, curve: UnitCurve)
    ensures var r := AddBet(st, userId, sessionId, req, newBetId, curve);
      && (!IsUuid(sessionId) ==> r.code == BadRequest)
      && (IsUuid(sessionId) && !OwnsSession(st, sessionId, userId) ==> r.code == NotFound)
      && (IsUuid(sessionId) && OwnsSession(st, sessionId, userId) && st.sessions[sessionId].status == Closed ==> r.code == Conflict)
      && (IsUuid(sessionId) && OwnsSession(st, sessionId, userId) && st.sessions[sessionId].status == Open ==>
            && (ValidateBet(req).None? ==> r.code == BadRequest)
            && (ValidateBet(req).Some? && !(0.0 < Available(st, sessionId)) ==> r.code == Conflict)
            && (ValidateBet(req).Some? && ValidateBet(req).value.stake > Available(st, sessionId) ==> r.code == Conflict))
  {
  }

  /**
   * A successful placement inserts exactly one PENDING bet with profit 0 and the
   * caller's stake, leaves every bank unchanged, and afterwards the pending
   * stakes of the session fit in its bank.
   */
  lemma AddBetPlacesWithinBank(st: Store, userId: string, sessionId: string, req: BetRequest, newBetId: string, curve: UnitCurve)
    requires newBetId !in st.bets
    ensures var r := AddBet(st, userId, sessionId, req, newBetId, curve);
      r.code == Created ==>
        && r.store.sessions == st.sessions && r.store.attached == st.attached
        && r.store.bets.Keys == st.bets.Keys + {newBetId}
        && (forall k :: k in st.bets ==> r.store.bets[k] == st.bets[k])
        && r.store.bets[newBetId].sessionId == sessionId
        && r.store.bets[newBetId].status == Pending && r.store.bets[newBetId].profit == 0.0
        && Some(r.store.bets[newBetId].stake) == req.stake
        && PendingExposure(r.store.bets, sessionId) == PendingExposure(st.bets, sessionId) + r.store.bets[newBetId].stake
        && WithinBank(r.store, sessionId)
  {
    var r := AddBet(st, userId, sessionId, req, newBetId, curve);
    if r.code == Created {
      var f := ValidateBet(req).value;
      PlaceBetWithinBank(st, sessionId, f, newBetId, curve);
    }
  }

  lemma PlaceBetWithinBank(st: Store, sessionId: string, f: BetFields, newBetId: string, curve: UnitCurve)
    requires sessionId in st.sessions && newBetId !in st.bets
    ensures var r := PlaceBet(st, sessionId, f, newBetId, curve);
      r.code == Created ==>
        && r.store.sessions == st.sessions && r.store.attached == st.attached
        && r.store.bets.Keys == st.bets.Keys + {newBetId}
        && (forall k :: k in st.bets ==> r.store.bets[k] == st.bets[k])
        && r.store.bets[newBetId].sessionId == sessionId
        && r.store.bets[newBetId].status == Pending && r.store.bets[newBetId].profit == 0.0
        && r.store.bets[newBetId].stake == f.stake
        && PendingExposure(r.store.bets, sessionId) == PendingExposure(st.bets, sessionId) + f.stake
        && WithinBank(r.store, sessionId)
  {
    var r := PlaceBet(st, sessionId, f, newBetId, curve);
    if r.code == Created {
      TotalInsert(st.bets, newBetId, r.store.bets[newBetId], sessionId, StakeOfPending);
    }
  }

  /** The recommendation stored with a placed bet is computed on the available bank. */
  lemma AddBetRecommendsOnAvailableBank(st: Store, userId: string, sessionId: string, req: BetRequest, newBetId: string, curve: UnitCurve)
    ensures var r := AddBet(st, userId, sessionId, req, newBetId, curve);
      r.code == Created ==>
        var b := r.store.bets[newBetId];
        && CalcRecommendation(Available(st, sessionId), b.odds, b.bo, b.tier, b.risk, curve)
           == Recommendation(b.recommendedPct, b.recommendedStake, b.stakingModel)
        && b.stakingModel == KvantoniumModel
        && 0.001 <= b.recommendedPct <= 0.07
  {
  }

  lemma AddBetKeepsInv(st: Store, userId: string, sessionId: string, req: BetRequest, newBetId: string, curve: UnitCurve)
    requires Inv(st) && newBetId !in st.bets
    ensures Inv(AddBet(st, userId, sessionId, req, newBetId, curve).store)
  {
    var r := AddBet(st, userId, sessionId, req, newBetId, curve);
    if r.code == Created {
      PlaceBetKeepsInv(st, sessionId, ValidateBet(req).value, newBetId, curve);
    }
  }

  lemma PlaceBetKeepsInv(st: Store, sessionId: string, f: BetFields, newBetId: string, curve: UnitCurve)
    requires Inv(st) && newBetId !in st.bets && sessionId in st.sessions
    requires 1.0 < f.odds && 0.0 < f.stake
    ensures Inv(PlaceBet(st, sessionId, f, newBetId, curve).store)
  {
    var r := PlaceBet(st, sessionId, f, newBetId, curve);
    if r.code == Created {
      var b := r.store.bets[newBetId];
      assert r.store.bets == st.bets[newBetId := b] && r.store.sessions == st.sessions;
      assert WellFormedBet(b);
      forall sid | sid in r.store.sessions ensures BankIdentity(r.store, sid) {
        assert BankIdentity(st, sid);
        TotalInsert(st.bets, newBetId, b, sid, ProfitOfSettled);
      }
    }
  }

  // ---------------------------------------------------------------------------
  // settleBet

  /** `stake * (odds - 1)` for a win, `-stake` for a loss. */
  function ProfitOf(stake: real, odds: real, result: BetStatus): real {
    if result == Win then stake * (odds - 1.0) else -stake
  }

  /** `settleBet`; `result` is `body.result` and `now` the settlement time. */
  function Settle(st: Store, userId: string, betId: string, result: string, now: int): (r: Reply)
    ensures r.code in {Ok, BadRequest, NotFound, Conflict}
    ensures r.code != Ok ==> r.store == st
  {
    if !IsUuid(betId) then Reply(BadRequest, st)
    else match SafeEnum(result, ["WIN", "LOSE"])
      case None => Reply(BadRequest, st)
      case Some(res) =>
        if !OwnsBet(st, betId, userId) then Reply(NotFound, st)
        else
          var bet := st.bets[betId];
          var session := st.sessions[bet.sessionId];
          if session.status != Open then Reply(Conflict, st)
          else if bet.status != Pending then Reply(Conflict, st)
          else
            Reply(Ok, Settled(st, betId, if res == "WIN" then Win else Lose, now))
  }

  /** The writes of a successful settle: the bet gets its outcome and profit, the session's bank moves by the profit. */
  function Settled(st: Store, betId: string, outcome: BetStatus, now: int): Store
    requires betId in st.bets && st.bets[betId].sessionId in st.sessions
  {
    var bet := st.bets[betId];
    var session := st.sessions[bet.sessionId];
    var profit := ProfitOf(bet.stake, bet.odds, outcome);
    st.(bets := st.bets[betId := bet.(status := outcome, profit := profit, settledAt := Some(now))],
        sessions := st.sessions[bet.sessionId := session.(currentBank := session.currentBank + profit)])
  }

  /** A closed session or an already settled bet answers 409, so a repeated settle changes nothing. */
  lemma SettleRejectsClosedOrSettled(st: Store, userId: string, betId: string, result: string, now: int)
    requires IsUuid(betId) && Trim(result) in ["WIN", "LOSE"] && OwnsBet(st, betId, userId)
    requires st.sessions[st.bets[betId].sessionId].status == Closed || st.bets[betId].status != Pending
    ensures Settle(st, userId, betId, result, now) == Reply(Conflict, st)
  {
  }

  lemma SettleIsNotRepeatable(st: Store, userId: string, betId: string, result: string, now: int, result': string, now': int)
    requires Settle(st, userId, betId, result, now).code == Ok
    ensures var st' := Settle(st, userId, betId, result, now).store;
      Settle(st', userId, betId, result', now').store == st'
  {
  }

  /**
   * A successful settle gives the bet the requested status and the profit that
   * status implies, and raises the session's bank by exactly that profit.
   */
  lemma SettleAppliesProfit(st: Store, userId: string, betId: string, result: string, now: int)
    ensures var r := Settle(st, userId, betId, result, now);
      r.code == Ok ==>
        var b := st.bets[betId];
        var b' := r.store.bets[betId];
        && b.status == Pending
        && b'.status == (if Trim(result) == "WIN" then Win else Lose)
        && b'.profit == ProfitOf(b.stake, b.odds, b'.status)
        && b'.settledAt == Some(now)
        && b'.stake == b.stake && b'.odds == b.odds && b'.sessionId == b.sessionId
        && r.store.bets == st.bets[betId := b']
        && r.store.sessions.Keys == st.sessions.Keys
        && r.store.sessions[b.sessionId] == st.sessions[b.sessionId].(currentBank := st.sessions[b.sessionId].currentBank + b'.profit)
        && (forall sid :: sid in st.sessions && sid != b.sessionId ==> r.store.sessions[sid] == st.sessions[sid])
        && r.store.attached == st.attached
  {
  }

  lemma SettleKeepsInv(st: Store, userId: string, betId: string, result: string, now: int)
    requires Inv(st)
    ensures Inv(Settle(st, userId, betId, result, now).store)
  {
    var r := Settle(st, userId, betId, result, now);
    if r.code == Ok {
      SettleAppliesProfit(st, userId, betId, result, now);
      var b := st.bets[betId];
      var b' := r.store.bets[betId];
      assert WellFormedBet(b);
      assert WellFormedBet(b');
      var home := b.sessionId;
      forall sid | sid in r.store.sessions ensures BankIdentity(r.store, sid) {
        assert BankIdentity(st, sid);
        TotalUpdate(st.bets, betId, b', sid, ProfitOfSettled);
        if sid != home {
          assert r.store.sessions[sid] == st.sessions[sid];
        }
      }
    }
  }

  /**
   * Settling preserves the placement rule: a loss lowers bank and pending
   * stakes by the same amount, a win raises the bank.
   */
  lemma SettleKeepsWithinBank(st: Store, userId: string, betId: string, result: string, now: int, sid: string)
    requires Inv(st) && WithinBank(st, sid)
    ensures WithinBank(Settle(st, userId, betId, result, now).store, sid)
  {
    if Settle(st, userId, betId, result, now).code == Ok {
      var res := SafeEnum(result, ["WIN", "LOSE"]).value;
      SettledKeepsWithinBank(st, betId, if res == "WIN" then Win else Lose, now, sid);
    }
  }

  /** Settling a pending bet frees its stake and moves the bank by at least minus that stake. */
  lemma SettledKeepsWithinBank(st: Store, betId: string, outcome: BetStatus, now: int, sid: string)
    requires Inv(st) && WithinBank(st, sid)
    requires betId in st.bets && st.bets[betId].status == Pending && outcome != Pending
    ensures WithinBank(Settled(st, betId, outcome, now), sid)
  {
    var b := st.bets[betId];
    var st' := Settled(st, betId, outcome, now);
    if sid in st.sessions {
      TotalUpdate(st.bets, betId, st'.bets[betId], sid, StakeOfPending);
      assert WellFormedBet(b);
      if b.sessionId == sid && outcome == Win {
        MulLe(0.0, b.stake, 0.0, b.odds - 1.0);
      }
    }
  }

  // ---------------------------------------------------------------------------
  // deleteBet

  /** `deleteBet`: allowed whatever the session's status. */
  function DeleteBet(st: Store, userId: string, betId: string): (r: Reply)
    ensures r.code in {Ok, BadRequest, NotFound}
    ensures r.code != Ok ==> r.store == st
  {
    if !IsUuid(betId) then Reply(BadRequest, st)
    else if !OwnsBet(st, betId, userId) then Reply(NotFound, st)
    else
      var bet := st.bets[betId];
      var session := st.sessions[bet.sessionId];
      var sessions' :=
        if bet.status == Win || bet.status == Lose
        then st.sessions[bet.sessionId := session.(currentBank := session.currentBank - bet.profit)]
        else st.sessions;
      Reply(Ok, Store(sessions', st.bets - {betId}, Unlink(st.attached, {betId})))
  }

  /**
   * Deleting a bet takes a settled bet's profit back out of the bank, leaves
   * the bank alone for a pending one, unlinks every post that pointed at it and
   * removes only that bet.
   */
  lemma DeleteBetReversesProfit(st: Store, userId: string, betId: string)
    ensures var r := DeleteBet(st, userId, betId);
      r.code == Ok ==>
        var b := st.bets[betId];
        && r.store.bets == st.bets - {betId}
        && r.store.sessions.Keys == st.sessions.Keys
        && r.store.sessions[b.sessionId].currentBank
           == st.sessions[b.sessionId].currentBank - (if b.status == Pending then 0.0 else b.profit)
        && r.store.sessions[b.sessionId].status == st.sessions[b.sessionId].status
        && (forall sid :: sid in st.sessions && sid != b.sessionId ==> r.store.sessions[sid] == st.sessions[sid])
        && r.store.attached.Keys == st.attached.Keys
        && (forall p :: p in st.attached ==> (r.store.attached[p] == if st.attached[p] == Some(betId) then None else st.attached[p]))
  {
  }

  /** Deletion is not blocked by a closed session. */
  lemma DeleteBetIgnoresSessionStatus(st: Store, userId: string, betId: string)
    requires IsUuid(betId) && OwnsBet(st, betId, userId)
    ensures DeleteBet(st, userId, betId).code == Ok
  {
  }

  lemma DeleteBetKeepsInv(st: Store, userId: string, betId: string)
    requires Inv(st)
    ensures Inv(DeleteBet(st, userId, betId).store)
  {
    var r := DeleteBet(st, userId, betId);
    if r.code == Ok {
      forall sid | sid in r.store.sessions ensures BankIdentity(r.store, sid) {
        assert BankIdentity(st, sid);
        TotalRemove(st.bets, betId, sid, ProfitOfSettled);
      }
    }
  }

  /**
   * Deleting a won bet takes its profit out of the bank while pending stakes
   * placed against that profit stay: the placement rule does not survive
   * `deleteBet`. Bank 100, a bet of 50 at odds 3 won (bank 200), then 150
   * placed and pending; deleting the won bet leaves 150 pending on a bank of 100.
   */
  lemma DeleteBetCanBreakWithinBank()
    ensures exists st: Store, userId: string, betId: string, sid: string ::
      && Inv(st) && WithinBank(st, sid)
      && DeleteBet(st, userId, betId).code == Ok
      && Inv(DeleteBet(st, userId, betId).store)
      && !WithinBank(DeleteBet(st, userId, betId).store, sid)
  {
    var st := SampleStore();
    SampleStoreFacts();
    var r := DeleteBet(st, "u", SampleWon);
    DeleteBetKeepsInv(st, "u", SampleWon);
    TotalRemove(st.bets, SampleWon, SampleSid, StakeOfPending);
    assert r.code == Ok;
    assert r.store.sessions[SampleSid].currentBank == 100.0;
    assert PendingExposure(r.store.bets, SampleSid) == 150.0;
    assert Inv(st) && WithinBank(st, SampleSid) && r.code == Ok && Inv(r.store) && !WithinBank(r.store, SampleSid);
  }

  const SampleSid: string := "00000000-0000-4000-8000-000000000000"
  const SampleWon: string := "00000000-0000-4000-8000-000000000001"
  const SampleOpen: string := "00000000-0000-4000-8000-000000000002"

  function SampleBet(odds: real, stake: real, status: BetStatus, profit: real): Bet {
    Bet(SampleSid, "CS2", "Major", "A", "B", None, "MATCH_WIN", 3, 1, 2, odds, stake, 0.0, 0.0, "",
        status, profit, if status == Pending then None else Some(0))
  }

  /** One session of bank 100 with a won bet (50 at odds 3) and a pending bet of 150. */
  function SampleStore(): Store {
    Store(map[SampleSid := Session("u", "bank", 100.0, 200.0, Open, None)],
          map[SampleWon := SampleBet(3.0, 50.0, Win, 100.0)][SampleOpen := SampleBet(2.0, 150.0, Pending, 0.0)],
          map[])
  }

  lemma SampleStoreFacts()
    ensures Inv(SampleStore()) && WithinBank(SampleStore(), SampleSid)
    ensures IsUuid(SampleWon) && OwnsBet(SampleStore(), SampleWon, "u")
    ensures PendingExposure(SampleStore().bets, SampleSid) == 150.0
  {
    var bets0: map<string, Bet> := map[];
    var won := SampleBet(3.0, 50.0, Win, 100.0);
    var open := SampleBet(2.0, 150.0, Pending, 0.0);
    var bets1 := bets0[SampleWon := won];
    assert SampleStore().bets == bets1[SampleOpen := open];
    assert Total(bets0, SampleSid, ProfitOfSettled) == 0.0 && Total(bets0, SampleSid, StakeOfPending) == 0.0;
    TotalInsert(bets0, SampleWon, won, SampleSid, ProfitOfSettled);
    TotalInsert(bets0, SampleWon, won, SampleSid, StakeOfPending);
    TotalInsert(bets1, SampleOpen, open, SampleSid, ProfitOfSettled);
    TotalInsert(bets1, SampleOpen, open, SampleSid, StakeOfPending);
    assert WellFormedBet(won) && WellFormedBet(open);
    assert BankIdentity(SampleStore(), SampleSid);
    SampleWonIsUuid();
  }

  lemma SampleWonIsUuid()
    ensures IsUuid(SampleWon)
  {
    var s := SampleWon;
    forall i | 0 <= i < 36 ensures UuidCharOk(s, i) {
    }
  }

  /** Settling a bet and then deleting it puts the session's bank back where it was. */
  lemma SettleThenDeleteRestoresBank(st: Store, userId: string, betId: string, result: string, now: int)
    requires Settle(st, userId, betId, result, now).code == Ok
    ensures var st1 := Settle(st, userId, betId, result, now).store;
      var r := DeleteBet(st1, userId, betId);
      var sid := st.bets[betId].sessionId;
      && r.code == Ok
      && r.store.sessions[sid].currentBank == st.sessions[sid].currentBank
      && r.store.bets == st.bets - {betId}
  {
    var st1 := Settle(st, userId, betId, result, now).store;
    assert st1.bets - {betId} == st.bets - {betId};
  }

  // ---------------------------------------------------------------------------
  // closeSession and deleteSession

  /** `closeSession` */
  function CloseSession(st: Store, userId: string, sessionId: string, now: int): (r: Reply)
    ensures r.code in {Ok, BadRequest, NotFound, Conflict}
    ensures r.code != Ok ==> r.store == st
  {
    if !IsUuid(sessionId) then Reply(BadRequest, st)
    else if !OwnsSession(st, sessionId, userId) then Reply(NotFound, st)
    else if st.sessions[sessionId].status == Closed then Reply(Conflict, st)
    else
      var s := st.sessions[sessionId];
      Reply(Ok, st.(sessions := st.sessions[sessionId := s.(status := Closed, closedAt := Some(now))]))
  }

  /** A session closes once: the bank is unchanged, and a second call answers 409 and changes nothing. */
  lemma CloseSessionOnce(st: Store, userId: string, sessionId: string, now: int, now': int)
    ensures var r := CloseSession(st, userId, sessionId, now);
      r.code == Ok ==>
        && st.sessions[sessionId].status == Open
        && r.store.sessions[sessionId].status == Closed
        && r.store.sessions[sessionId].currentBank == st.sessions[sessionId].currentBank
        && r.store.bets == st.bets
        && CloseSession(r.store, userId, sessionId, now') == Reply(Conflict, r.store)
  {
  }

  lemma CloseSessionKeepsInv(st: Store, userId: string, sessionId: string, now: int)
    requires Inv(st)
    ensures Inv(CloseSession(st, userId, sessionId, now).store)
  {
    var r := CloseSession(st, userId, sessionId, now);
    if r.code == Ok {
      forall sid | sid in r.store.sessions ensures BankIdentity(r.store, sid) {
        assert BankIdentity(st, sid);
      }
    }
  }

  /** The ids of the session's bets. */
  function BetsOf(bets: map<string, Bet>, sid: string): (ids: set<string>)
    ensures forall k :: k in ids <==> k in bets && bets[k].sessionId == sid
  {
    set k | k in bets && bets[k].sessionId == sid
  }

  /** `deleteSession`: unlinks posts from the session's bets, then deletes the bets and the session. */
  function DeleteSession(st: Store, userId: string, sessionId: string): (r: Reply)
    ensures r.code in {Ok, BadRequest, NotFound}
    ensures r.code != Ok ==> r.store == st
  {
    if !IsUuid(sessionId) then Reply(BadRequest, st)
    else if !OwnsSession(st, sessionId, userId) then Reply(NotFound, st)
    else
      Reply(Ok, Store(st.sessions - {sessionId}, BetsOutside(st.bets, sessionId),
                      Unlink(st.attached, BetsOf(st.bets, sessionId))))
  }

  /**
   * Deleting a session removes it and exactly its bets, and clears the
   * attachment of exactly the posts that pointed at one of those bets.
   */
  lemma DeleteSessionRemovesItsBets(st: Store, userId: string, sessionId: string)
    ensures var r := DeleteSession(st, userId, sessionId);
      r.code == Ok ==>
        && r.store.sessions == st.sessions - {sessionId}
        && (forall k :: k in r.store.bets <==> k in st.bets && st.bets[k].sessionId != sessionId)
        && (forall k :: k in r.store.bets ==> r.store.bets[k] == st.bets[k])
        && r.store.attached.Keys == st.attached.Keys
        && (forall p :: p in st.attached ==>
              (r.store.attached[p] == None <==>
                 st.attached[p] == None
                 || (st.attached[p].value in st.bets && st.bets[st.attached[p].value].sessionId == sessionId)))
  {
  }

  lemma DeleteSessionKeepsInv(st: Store, userId: string, sessionId: string)
    requires Inv(st)
    ensures Inv(DeleteSession(st, userId, sessionId).store)
  {
    var r := DeleteSession(st, userId, sessionId);
    if r.code == Ok {
      forall sid | sid in r.store.sessions ensures BankIdentity(r.store, sid) {
        assert BankIdentity(st, sid);
        TotalWithoutSession(st.bets, sessionId, sid, ProfitOfSettled);
      }
    }
  }

  // ---------------------------------------------------------------------------
  // recommendBet

  /** The JSON answer of `recommendBet`: status, the bank used, and the recommendation on 200. */
  datatype Advice = Advice(code: int, bank: real, rec: Option<Recommendation>)

  /** `recommendBet`; each number is `Number(body.x)`, `None` for NaN. The session's status is not consulted. */
  ghost function RecommendBet(st: Store, userId: string, sessionId: string, odds: Option<real>, bo: Option<real>,
                              tier: Option<real>, risk: Option<real>, curve: UnitCurve): (r: Advice)
    ensures r.code in {Ok, BadRequest, NotFound, Conflict}
    ensures r.code == Ok <==> r.rec.Some?
  {
    if !IsUuid(sessionId) then Advice(BadRequest, 0.0, None)
    else if !OwnsSession(st, sessionId, userId) then Advice(NotFound, 0.0, None)
    else
      var bank := Available(st, sessionId);
      if !(0.0 < bank) then Advice(Conflict, 0.0, None)
      else if !(odds.Some? && 1.0 < odds.value) then Advice(BadRequest, 0.0, None)
      else match (SafeIntEnum(bo, BoValues), SafeIntEnum(tier, TierValues), SafeIntEnum(risk, RiskValues))
        case (Some(b), Some(t), Some(k)) => Advice(Ok, bank, Some(CalcRecommendation(bank, odds.value, b, t, k, curve)))
        case _ => Advice(BadRequest, 0.0, None)
  }

  /**
   * A recommendation is computed on `currentBank - Σ PENDING stakes`, answers
   * 409 when that is not positive, and is given for CLOSED sessions too.
   */
  lemma RecommendBetUsesAvailableBank(st: Store, userId: string, sessionId: string, odds: Option<real>, bo: Option<real>,
                                      tier: Option<real>, risk: Option<real>, curve: UnitCurve)
    requires IsUuid(sessionId) && OwnsSession(st, sessionId, userId)
    ensures var r := RecommendBet(st, userId, sessionId, odds, bo, tier, risk, curve);
      && (!(0.0 < Available(st, sessionId)) ==> r.code == Conflict)
      && (r.code == Ok ==>
            && r.bank == Available(st, sessionId) && 0.0 < r.bank
            && 0.001 <= r.rec.value.recommendedPct <= 0.07
            && r.rec.value.recommendedStake == Times(r.rec.value.recommendedPct, r.bank)
            && r.rec.value.stakingModel == KvantoniumModel)
      && (0.0 < Available(st, sessionId) && odds.Some? && 1.0 < odds.value
          && SafeIntEnum(bo, BoValues).Some? && SafeIntEnum(tier, TierValues).Some? && SafeIntEnum(risk, RiskValues).Some?
          ==> r.code == Ok)
  {
  }
}
