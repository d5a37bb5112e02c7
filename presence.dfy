// `presence.js`: the server's process-local record of which users have a
// socket open, keyed by the string form of their id.

module Presence {
  import opened Wrappers
  import opened Seqs

  /** A user id as callers pass it: missing, a number or a string. */
  datatype UserId = Missing | Num(n: int) | Str(s: string)

  /** `!userId` is false: no missing id, no 0, no empty string. */
  predicate Truthy(id: UserId) {
    match id
    case Missing => false
    case Num(n) => n != 0
    case Str(s) => s != ""
  }

  function DigitChar(d: nat): (c: char)
    requires d < 10
    ensures '0' <= c <= '9'
  {
    "0123456789"[d]
  }

  /** The decimal digits of a natural number. */
  function Digits(n: nat): (r: string)
    ensures 1 <= |r| && forall i :: 0 <= i < |r| ==> '0' <= r[i] <= '9'
    decreases n
  {
    if n < 10 then [DigitChar(n)] else Digits(n / 10) + [DigitChar(n % 10)]
  }

  /** `String(n)` for an integer. */
  function DecimalString(n: int): (r: string)
    ensures r != ""
    ensures n >= 0 ==> r[0] != '-'
    ensures n < 0 ==> r[0] == '-'
  {
    if n < 0 then "-" + Digits(-n) else Digits(n)
  }

  /** `String(userId)` */
  function Key(id: UserId): string
    requires Truthy(id)
  {
    match id
    case Num(n) => DecimalString(n)
    case Str(s) => s
  }

  /**
   * A number and its decimal string name the same entry, and different
   * numbers name different entries; the number 0 is ignored while the string
   * "0" is an ordinary id.
   */
  lemma KeyForms(n: int, m: int)
    requires n != 0
    ensures Truthy(Str(DecimalString(n))) && Key(Num(n)) == Key(Str(DecimalString(n)))
    ensures !Truthy(Num(0)) && Truthy(Str(DecimalString(0)))
    ensures n != m && m != 0 ==> Key(Num(n)) != Key(Num(m))
  {
    if DecimalString(n) == DecimalString(m) {
      DecimalStringInjective(n, m);
    }
  }

  lemma DigitCharInjective(d: nat, e: nat)
    requires d < 10 && e < 10 && DigitChar(d) == DigitChar(e)
    ensures d == e
  {
  }

  /** A number is its last digit plus ten times the rest. */
  lemma SplitLast(a: nat)
    ensures a == 10 * (a / 10) + a % 10
  {
  }

  lemma {:induction false} DigitsInjective(a: nat, b: nat)
    requires Digits(a) == Digits(b)
    ensures a == b
    decreases a
  {
    var da, db := Digits(a), Digits(b);
    if a < 10 && b < 10 {
      DigitCharInjective(a, b);
    } else if a >= 10 && b >= 10 {
      assert da == Digits(a / 10) + [DigitChar(a % 10)];
      assert db == Digits(b / 10) + [DigitChar(b % 10)];
      assert da[..|da| - 1] == Digits(a / 10) && db[..|db| - 1] == Digits(b / 10);
      DigitsInjective(a / 10, b / 10);
      DigitCharInjective(a % 10, b % 10);
      SplitLast(a);
      SplitLast(b);
    }
  }

  lemma DecimalStringInjective(n: int, m: int)
    requires DecimalString(n) == DecimalString(m)
    ensures n == m
  {
    if n < 0 && m < 0 {
      assert Digits(-n) == DecimalString(n)[1..] && Digits(-m) == DecimalString(m)[1..];
      DigitsInjective(-n, -m);
    } else if n >= 0 && m >= 0 {
      DigitsInjective(n, m);
    }
  }

  /**
   * The `online` map: connection times by key, and the keys in insertion
   * order, which `Array.from(online.keys())` reports.
   */
  class Tracker {
    var order: seq<string>
    var connectedAt: map<string, int>

    ghost predicate Valid()
      reads this
    {
      Distinct(order) && forall k :: k in connectedAt <==> k in order
    }

    constructor ()
      ensures Valid() && order == [] && connectedAt == map[]
    {
      order := [];
      connectedAt := map[];
    }

    /** `setOnline(userId)`: a known key keeps its place and gets the new time. */
    method SetOnline(id: UserId, now: int)
      requires Valid()
      modifies this
      ensures Valid()
      ensures !Truthy(id) ==> order == old(order) && connectedAt == old(connectedAt)
      ensures Truthy(id) ==> connectedAt == old(connectedAt)[Key(id) := now]
      ensures Truthy(id) && Key(id) in old(connectedAt) ==> order == old(order)
      ensures Truthy(id) && Key(id) !in old(connectedAt) ==> order == old(order) + [Key(id)]
    {
      if !Truthy(id) {
        return;
      }
      var k := Key(id);
      if k !in connectedAt {
        forall i, j | 0 <= i < j < |order + [k]| ensures (order + [k])[i] != (order + [k])[j] {
          assert (order + [k])[i] == order[i];
        }
        order := order + [k];
      }
      connectedAt := connectedAt[k := now];
    }

    /** `setOffline(userId)` */
    method SetOffline(id: UserId)
      requires Valid()
      modifies this
      ensures Valid()
      ensures !Truthy(id) ==> order == old(order) && connectedAt == old(connectedAt)
      ensures Truthy(id) ==> connectedAt == old(connectedAt) - {Key(id)} && order == Without(old(order), Key(id))
    {
      if !Truthy(id) {
        return;
      }
      var k := Key(id);
      WithoutDistinct(order, k);
      order := Without(order, k);
      connectedAt := connectedAt - {k};
    }

    /** `isOnline(userId)` */
    predicate IsOnline(id: UserId)
      reads this
    {
      Truthy(id) && Key(id) in connectedAt
    }

    /** `snapshotOnlineIds()`: every online key once, oldest first. */
    method Snapshot() returns (ids: seq<string>)
      requires Valid()
      ensures ids == order && Distinct(ids)
      ensures forall k :: k in ids <==> k in connectedAt
    {
      ids := order;
    }
  }

  /** Going online then offline leaves a user offline and every other user as they were; a falsy id is never online. */
  method PresenceRoundTrip(t: Tracker, a: UserId, b: UserId, now: int)
    requires t.Valid() && Truthy(a) && Truthy(b) && Key(a) != Key(b)
    modifies t
    ensures t.Valid()
    ensures !t.IsOnline(a) && t.IsOnline(b) == old(t.IsOnline(b))
    ensures !t.IsOnline(Missing) && !t.IsOnline(Num(0)) && !t.IsOnline(Str(""))
  {
    t.SetOnline(a, now);
    t.SetOffline(a);
  }
}
