/** Futures and the dictionary that lists them, as objects. Each method is proved to do to
    the heap what Futures says it does to a table. */
module FutureTable {
  import opened Wrappers
  import F = Futures

  class Future<A> {
    /** Tells futures apart in proofs. */
    ghost const id: nat
    var result: Option<A>
    var cancelled: bool

    constructor (ghost id: nat)
      ensures this.id == id && result == None && !cancelled
    {
      this.id := id;
      result := None;
      cancelled := false;
    }

    predicate Done()
      reads this
    {
      result.Some? || cancelled
    }

    ghost function State(): (Option<A>, bool)
      reads this
    {
      (result, cancelled)
    }
  }

  /** A future in this state belongs to a waiter of this fate. */
  ghost predicate Shows<A>(state: (Option<A>, bool), fate: F.Fate<A>)
  {
    match fate
    case Waiting => state == (None, false)
    case Settled(a) => state == (Some(a), false)
    case Returned(_) => state != (None, false)
    case Withdrawn => state != (None, false)
  }

  /** The state of one future once every listed key outside `todo` has been settled. */
  ghost function After<K, A>(t: F.Table<K, A>, w: nat, before: (Option<A>, bool), a: A, todo: set<K>): (Option<A>, bool)
    requires w in t.waiters
  {
    if before == (None, false) && F.IsListed(t, w) && t.waiters[w].key !in todo
    then (Some(a), false) else before
  }

  lemma FailAllShows<K, A>(t: F.Table<K, A>, w: nat, before: (Option<A>, bool), a: A)
    requires w in t.waiters && Shows(before, t.waiters[w].fate)
    ensures Shows(After(t, w, before, a, {}), F.FailAll(t, a).waiters[w].fate)
  {}

  class WaiterTable<K(==), A> {
    var entries: map<K, Future<A>>

    /** Every future ever made: a call keeps hold of its own after the entry is gone. */
    ghost var issued: map<nat, Future<A>>
    ghost var table: F.Table<K, A>

    ghost predicate Valid()
      reads this, issued.Values
    {
      && table.waiters.Keys == issued.Keys
      && table.entries.Keys == entries.Keys
      && (forall k :: k in entries ==> table.entries[k] in issued && entries[k] == issued[table.entries[k]])
      && (forall k :: k in entries ==> table.waiters[table.entries[k]].key == k)
      && (forall w :: w in issued ==> issued[w].id == w && Shows(issued[w].State(), table.waiters[w].fate))
    }

    constructor ()
      ensures Valid() && table == F.Empty<K, A>() && issued == map[]
    {
      entries := map[];
      issued := map[];
      table := F.Empty();
    }

    /** `self._acks[run_id] = loop.create_future()` */
    method Register(ghost w: nat, k: K) returns (waiter: Future<A>)
      requires Valid() && w !in issued
      modifies this
      ensures Valid() && fresh(waiter) && issued == old(issued)[w := waiter]
      ensures table == F.Register(old(table), w, k)
    {
      waiter := new Future(w);
      entries := entries[k := waiter];
      issued := issued[w := waiter];
      table := F.Register(table, w, k);
    }

    method Resolve(k: K, a: A)
      requires Valid()
      modifies this`table, issued.Values
      ensures Valid() && issued == old(issued)
      ensures table == F.Resolve(old(table), k, a)
    {
      if k in entries && !entries[k].Done() {
        entries[k].result := Some(a);
      }
      table := F.Resolve(table, k, a);
    }

    /** The wait is over because the future has its answer. */
    method Resume(ghost w: nat, k: K, waiter: Future<A>) returns (answer: A)
      requires Valid() && w in issued && issued[w] == waiter && table.waiters[w].key == k
      requires table.waiters[w].fate.Settled?
      modifies this`entries, this`table
      ensures Valid() && issued == old(issued)
      ensures table == F.Resume(old(table), w) && answer == old(table).waiters[w].fate.answer
    {
      answer := waiter.result.value;
      entries := entries - {k};
      table := F.Resume(table, w);
    }

    /** The wait times out; `wait_for` cancels the future, and the caller gives `a`. */
    method Expire(ghost w: nat, k: K, waiter: Future<A>, ghost a: A)
      requires Valid() && w in issued && issued[w] == waiter && table.waiters[w].key == k
      requires table.waiters[w].fate.Waiting?
      modifies this`entries, this`table, waiter
      ensures Valid() && issued == old(issued)
      ensures table == F.Expire(old(table), w, a)
    {
      waiter.cancelled := true;
      entries := entries - {k};
      table := F.Expire(table, w, a);
    }

    /** The caller itself is cancelled. */
    method Withdraw(ghost w: nat, k: K, waiter: Future<A>)
      requires Valid() && w in issued && issued[w] == waiter && table.waiters[w].key == k
      requires table.waiters[w].IsLive()
      modifies this`entries, this`table, waiter
      ensures Valid() && issued == old(issued)
      ensures table == F.Withdraw(old(table), w)
    {
      waiter.cancelled := true;
      entries := entries - {k};
      table := F.Withdraw(table, w);
    }

    /** The loop of `fail_pending`: over the listed futures, in whatever order. */
    method SettleListed(a: A)
      requires Valid()
      modifies issued.Values
      ensures forall w :: w in issued ==> issued[w].State() == After(table, w, old(issued[w].State()), a, {})
    {
      var todo := entries.Keys;
      while todo != {}
        invariant todo <= entries.Keys
        invariant forall w :: w in issued ==> issued[w].State() == After(table, w, old(issued[w].State()), a, todo)
      {
        var k :| k in todo;
        var waiter := entries[k];
        if !waiter.Done() {
          waiter.result := Some(a);
        }
        todo := todo - {k};
      }
    }

    method FailAll(a: A)
      requires Valid()
      modifies this`entries, this`table, issued.Values
      ensures Valid() && issued == old(issued)
      ensures table == F.FailAll(old(table), a) && entries == map[]
    {
      SettleListed(a);
      forall w | w in issued ensures Shows(issued[w].State(), F.FailAll(table, a).waiters[w].fate) {
        FailAllShows(table, w, old(issued[w].State()), a);
      }
      table := F.FailAll(table, a);
      entries := map[];
    }
  }
}
