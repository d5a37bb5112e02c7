// `presenceStore.js`: the browser's presence record per user, merged field
// by field, and the listeners told of every change.

module PresenceStore {
  import opened Wrappers
  import opened Presence

  /** A field of a presence record (`online`, `lastSeenAt`, ...). */
  datatype Value = Flag(b: bool) | Stamp(t: int) | Word(s: string)

  type Record = map<string, Value>

  /** `{ ...prev, ...next }` */
  function Merge(prev: Record, next: Record): (r: Record)
    ensures r.Keys == prev.Keys + next.Keys
    ensures forall k :: k in next ==> r[k] == next[k]
    ensures forall k :: k in prev && k !in next ==> r[k] == prev[k]
  {
    prev + next
  }

  /** Merging the same fields twice changes nothing more, and merging nothing changes nothing. */
  lemma MergeIdempotent(prev: Record, next: Record)
    ensures Merge(Merge(prev, next), next) == Merge(prev, next)
    ensures Merge(prev, map[]) == prev
  {
  }

  /** A listener is a callback, named here by a number. */
  type Listener = nat

  /** How often each listener has been called, after one more call of each in `ls`. */
  function Notified(calls: map<Listener, nat>, ls: set<Listener>): (r: map<Listener, nat>)
    ensures r.Keys == calls.Keys + ls
  {
    map l | l in calls.Keys + ls :: (if l in calls then calls[l] else 0) + (if l in ls then 1 else 0)
  }

  /** Each listener in `ls` has one call more than before; every other count is as it was. */
  lemma NotifiedMeaning(calls: map<Listener, nat>, ls: set<Listener>)
    ensures forall l :: l in ls ==> Notified(calls, ls)[l] == (if l in calls then calls[l] else 0) + 1
    ensures forall l :: l in calls && l !in ls ==> Notified(calls, ls)[l] == calls[l]
  {
  }

  /** `after` holds one call more for each listener in `ls` than `calls` and the same count for every other. */
  predicate CountedOnce(calls: map<Listener, nat>, ls: set<Listener>, after: map<Listener, nat>) {
    && after.Keys == calls.Keys + ls
    && (forall l :: l in ls ==> after[l] == (if l in calls then calls[l] else 0) + 1)
    && (forall l :: l in calls && l !in ls ==> after[l] == calls[l])
  }

  /** The counts `CountedOnce` describes are exactly `Notified`. */
  lemma NotifiedExactly(calls: map<Listener, nat>, ls: set<Listener>, after: map<Listener, nat>)
    requires CountedOnce(calls, ls, after)
    ensures after == Notified(calls, ls)
  {
    NotifiedMeaning(calls, ls);
  }

  /** The module-level `presence` map and `listeners` set, with the calls listeners have received. */
  class Store {
    var presence: map<string, Record>
    var listeners: set<Listener>
    var calls: map<Listener, nat>

    constructor ()
      ensures presence == map[] && listeners == {} && calls == map[]
    {
      presence := map[];
      listeners := {};
      calls := map[];
    }

    /** `emit()`: every listener once; one that throws is skipped over and changes nothing. */
    method Emit()
      modifies this
      ensures presence == old(presence) && listeners == old(listeners)
      ensures calls == Notified(old(calls), listeners)
    {
      ghost var start := calls;
      var todo := listeners;
      while todo != {}
        invariant todo <= listeners
        invariant presence == old(presence) && listeners == old(listeners)
        invariant CountedOnce(start, listeners - todo, calls)
        decreases todo
      {
        var l :| l in todo;
        calls := calls[l := (if l in calls then calls[l] else 0) + 1];
        todo := todo - {l};
      }
      NotifiedExactly(start, listeners, calls);
    }

    /** `setPresence(userId, next)` */
    method SetPresence(id: UserId, next: Record)
      modifies this
      ensures listeners == old(listeners)
      ensures !Truthy(id) ==> presence == old(presence) && calls == old(calls)
      ensures Truthy(id) ==> presence == old(presence)[Key(id) := Merge(if Key(id) in old(presence) then old(presence)[Key(id)] else map[], next)]
      ensures Truthy(id) ==> calls == Notified(old(calls), listeners)
    {
      if !Truthy(id) {
        return;
      }
      var k := Key(id);
      var prev := if k in presence then presence[k] else map[];
      presence := presence[k := Merge(prev, next)];
      Emit();
    }

    /** `getPresence(userId)`: `None` for a falsy or unknown id. */
    function GetPresence(id: UserId): (r: Option<Record>)
      reads this
      ensures r.Some? <==> Truthy(id) && Key(id) in presence
      ensures r.Some? ==> r.value == presence[Key(id)]
    {
      if Truthy(id) && Key(id) in presence then Some(presence[Key(id)]) else None
    }

    /** `subscribePresence(cb)`; the returned function is `Unsubscribe(cb)`. */
    method Subscribe(cb: Listener)
      modifies this
      ensures listeners == old(listeners) + {cb}
      ensures presence == old(presence) && calls == old(calls)
    {
      listeners := listeners + {cb};
    }

    /** The function `subscribePresence` returns: `listeners.delete(cb)`. */
    method Unsubscribe(cb: Listener)
      modifies this
      ensures listeners == old(listeners) - {cb}
      ensures presence == old(presence) && calls == old(calls)
    {
      listeners := listeners - {cb};
    }
  }
}
