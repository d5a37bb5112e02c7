// The optimistic cache patches the frontend applies to a cached
// `getSessionById` result while a settle or delete request is in flight. A
// cached session is an object whose `currentBank` and bet list the patches
// change in place; this file models one such cached session.

module TerminalPatches {
  import opened Wrappers
  import opened JsMath

  /** A bet as cached on the client; numeric fields are what `Number(...)` makes of them. */
  datatype DraftBet = DraftBet(id: string, status: string, stake: JsNum, odds: JsNum, profit: JsNum, settledAt: Option<int>)

  /** A cached session: its status, its bank, and its bet list (`None` when the list is not an array). */
  datatype Draft = Draft(status: string, currentBank: JsNum, bets: Option<seq<DraftBet>>)

  /** `bets.findIndex((b) => b.id === betId)` */
  function FirstIndex(bets: seq<DraftBet>, id: string): (i: int)
    ensures -1 <= i < |bets|
    ensures 0 <= i ==> bets[i].id == id && forall j :: 0 <= j < i ==> bets[j].id != id
    ensures i == -1 <==> forall j :: 0 <= j < |bets| ==> bets[j].id != id
  {
    if |bets| == 0 then -1
    else if bets[0].id == id then 0
    else
      var k := FirstIndex(bets[1..], id);
      if k == -1 then -1 else k + 1
  }

  /** The same search as a loop over the list. */
  method FindBet(bets: seq<DraftBet>, id: string) returns (idx: int)
    ensures idx == FirstIndex(bets, id)
  {
    var i := 0;
    while i < |bets|
      invariant 0 <= i <= |bets|
      invariant forall j :: 0 <= j < i ==> bets[j].id != id
    {
      if bets[i].id == id {
        FirstIndexIsFirstMatch(bets, id, i);
        return i;
      }
      i := i + 1;
    }
    return -1;
  }

  lemma {:induction false} FirstIndexIsFirstMatch(bets: seq<DraftBet>, id: string, i: int)
    requires 0 <= i < |bets| && bets[i].id == id
    requires forall j :: 0 <= j < i ==> bets[j].id != id
    ensures FirstIndex(bets, id) == i
  {
    var k := FirstIndex(bets, id);
    assert k != -1;
  }

  /** The profit the settle patch computes: `-stake` for LOSE, `stake * (odds - 1)` for WIN with numeric odds. */
  function PatchProfit(stake: JsNum, odds: JsNum, result: string): (p: Option<real>)
    ensures p.Some? <==> stake.Finite? && (result == "LOSE" || (result == "WIN" && odds.Finite?))
    ensures stake.Finite? && result == "LOSE" ==> p == Some(-stake.value)
    ensures stake.Finite? && result == "WIN" && odds.Finite? ==> p == Some(WinProfit(stake.value, odds.value))
  {
    match FiniteOrNull(stake)
    case None => None
    case Some(s) =>
      if result == "WIN" && odds.Finite? then Some(WinProfit(s, odds.value))
      else if result == "LOSE" then Some(-s)
      else None
  }

  function WinProfit(stake: real, odds: real): real { stake * (odds - 1.0) }

  /** The recipe of the settle patch on one cached session. */
  function SettleDraft(d: Draft, betId: string, result: string, now: int): (r: Draft)
    ensures r.status == d.status
    ensures d.bets.None? ==> r == d
    ensures r.bets.Some? <==> d.bets.Some?
    ensures d.bets.Some? ==> |r.bets.value| == |d.bets.value|
  {
    match d.bets
    case None => d
    case Some(bets) =>
      var i := FirstIndex(bets, betId);
      if i == -1 then d
      else
        var bet := bets[i];
        if bet.status == "WIN" || bet.status == "LOSE" then d
        else
          var p := PatchProfit(bet.stake, bet.odds, result);
          var bet' := bet.(status := result, settledAt := Some(now),
                           profit := if p.Some? then Finite(Round2(p.value)) else bet.profit);
          var bank := if p.Some? && d.currentBank.Finite? then Finite(Round2(d.currentBank.value + p.value)) else d.currentBank;
          d.(currentBank := bank, bets := Some(bets[i := bet']))
  }

  /** A bet already WIN or LOSE (or no bet with that id) is left exactly as it was. */
  lemma SettleDraftSkipsSettled(d: Draft, betId: string, result: string, now: int)
    requires d.bets.Some?
    requires var i := FirstIndex(d.bets.value, betId); i == -1 || d.bets.value[i].status in {"WIN", "LOSE"}
    ensures SettleDraft(d, betId, result, now) == d
  {
  }

  /** Only the first bet with the matching id changes; every other bet and the list length stay. */
  lemma SettleDraftTouchesOnlyMatch(d: Draft, betId: string, result: string, now: int)
    requires d.bets.Some?
    ensures var r := SettleDraft(d, betId, result, now);
      var i := FirstIndex(d.bets.value, betId);
      forall j :: 0 <= j < |d.bets.value| && j != i ==> r.bets.value[j] == d.bets.value[j]
  {
  }

  /**
   * On a pending bet the patch always sets the status and the settlement time;
   * when the stake is numeric and a profit is defined, the profit is stored in
   * cents and a numeric bank moves by it, rounded to cents. Otherwise profit and
   * bank are untouched.
   */
  lemma SettleDraftApplies(d: Draft, betId: string, result: string, now: int)
    requires d.bets.Some?
    requires var i := FirstIndex(d.bets.value, betId); i != -1 && d.bets.value[i].status !in {"WIN", "LOSE"}
    ensures var r := SettleDraft(d, betId, result, now);
      var i := FirstIndex(d.bets.value, betId);
      var b := d.bets.value[i];
      var b' := r.bets.value[i];
      var p := PatchProfit(b.stake, b.odds, result);
      && b'.status == result && b'.settledAt == Some(now)
      && b'.id == b.id && b'.stake == b.stake && b'.odds == b.odds
      && (p.None? ==> b'.profit == b.profit && r.currentBank == d.currentBank)
      && (p.Some? ==> b'.profit == Finite(Round2(p.value)))
      && (p.Some? && d.currentBank.Finite? ==> r.currentBank == Finite(Round2(d.currentBank.value + p.value)))
      && (!d.currentBank.Finite? ==> r.currentBank == d.currentBank)
  {
  }

  /** Unlike the server, the patch never looks at the session's status. */
  lemma SettleDraftIgnoresSessionStatus(d: Draft, status: string, betId: string, result: string, now: int)
    ensures SettleDraft(d.(status := status), betId, result, now) == SettleDraft(d, betId, result, now).(status := status)
  {
  }

  /** The recipe of the delete patch: `bets.splice(findIndex(...), 1)` when found. */
  function DeleteDraft(d: Draft, betId: string): (r: Draft)
    ensures r.status == d.status && r.currentBank == d.currentBank
    ensures r.bets.Some? <==> d.bets.Some?
  {
    match d.bets
    case None => d
    case Some(bets) =>
      var i := FirstIndex(bets, betId);
      if i == -1 then d else d.(bets := Some(bets[..i] + bets[i + 1..]))
  }

  /**
   * The delete patch removes exactly the first bet with the id (no-op when it
   * is absent) and never adjusts the bank, even for a settled bet.
   */
  lemma DeleteDraftRemovesFirst(d: Draft, betId: string)
    requires d.bets.Some?
    ensures var r := DeleteDraft(d, betId);
      var bets := d.bets.value;
      var i := FirstIndex(bets, betId);
      && r.currentBank == d.currentBank
      && (i == -1 ==> r == d)
      && (i != -1 ==> |r.bets.value| == |bets| - 1
                      && (forall j :: 0 <= j < i ==> r.bets.value[j] == bets[j])
                      && (forall j :: i <= j < |r.bets.value| ==> r.bets.value[j] == bets[j + 1]))
  {
  }

  /**
   * The client and the server disagree after a settle and a delete: on a bank
   * of 100 a lost stake of 10 leaves the cached bank at 90 once the bet is
   * deleted, where the server puts the 10 back.
   */
  lemma SettleThenDeleteKeepsLossInDraft()
    ensures var d := Draft("OPEN", Finite(100.0), Some([DraftBet("b", "PENDING", Finite(10.0), Finite(2.0), Finite(0.0), None)]));
      DeleteDraft(SettleDraft(d, "b", "LOSE", 0), "b") == Draft("OPEN", Finite(90.0), Some([]))
  {
    var d := Draft("OPEN", Finite(100.0), Some([DraftBet("b", "PENDING", Finite(10.0), Finite(2.0), Finite(0.0), None)]));
    assert FirstIndex(d.bets.value, "b") == 0;
    assert RoundHalfUp(100.0 * 90.0) == 9000;
    var s := SettleDraft(d, "b", "LOSE", 0);
    assert s.currentBank == Finite(90.0);
    assert FirstIndex(s.bets.value, "b") == 0;
    assert s.bets.value[..0] + s.bets.value[1..] == [];
  }

  /** A cached `getSessionById` result that the patches update in place. */
  class CachedSession {
    var status: string
    var currentBank: JsNum
    var bets: Option<seq<DraftBet>>

    function Snapshot(): Draft
      reads this
    {
      Draft(status, currentBank, bets)
    }

    constructor (d: Draft)
      ensures Snapshot() == d
    {
      status := d.status;
      currentBank := d.currentBank;
      bets := d.bets;
    }

    /** The `updateQueryData` recipe of `settleBet`'s `onQueryStarted`; `now` is `nowIso()`. */
    method SettlePatch(betId: string, result: string, now: int)
      modifies this
      ensures Snapshot() == SettleDraft(old(Snapshot()), betId, result, now)
    {
      if bets.None? {
        return;
      }
      var list := bets.value;
      var idx := FindBet(list, betId);
      if idx == -1 {
        return;
      }
      var bet := list[idx];
      if bet.status == "WIN" || bet.status == "LOSE" {
        return;
      }
      bet := bet.(status := result, settledAt := Some(now));
      var stake := FiniteOrNull(bet.stake);
      var odds := FiniteOrNull(bet.odds);
      if stake.Some? {
        var p: Option<real> := None;
        if result == "LOSE" {
          p := Some(-stake.value);
        }
        if result == "WIN" && odds.Some? {
          p := Some(WinProfit(stake.value, odds.value));
        }
        if p.Some? {
          bet := bet.(profit := Finite(Round2(p.value)));
          var cur := FiniteOrNull(currentBank);
          if cur.Some? {
            currentBank := Finite(Round2(cur.value + p.value));
          }
        }
      }
      bets := Some(list[idx := bet]);
    }

    /** The `updateQueryData` recipe of `deleteBet`'s `onQueryStarted`. */
    method DeletePatch(betId: string)
      modifies this
      ensures Snapshot() == DeleteDraft(old(Snapshot()), betId)
    {
      if bets.None? {
        return;
      }
      var list := bets.value;
      var idx := FindBet(list, betId);
      if idx == -1 {
        return;
      }
      bets := Some(list[..idx] + list[idx + 1..]);
    }
  }
}
