/** A correlation table of futures: who waits for which key. The gateway's table of acks
    and the provider's table of queries are both one of these (souk_server/ws_provider.py,
    souk-agent-sdk/souk_agent_sdk/client.py). */
module Futures {
  import opened Wrappers

  /** `Settled`: the future has its answer, the call that waits has not resumed yet.
      `Returned`: the call is over. `Withdrawn`: the call was cancelled. */
  datatype Fate<A> = Waiting | Settled(answer: A) | Returned(answer: A) | Withdrawn

  datatype Waiter<K, A> = Waiter(key: K, fate: Fate<A>)
  {
    predicate IsLive()
    {
      fate.Waiting? || fate.Settled?
    }
  }

  datatype Table<K, A> = Table(entries: map<K, nat>, waiters: map<nat, Waiter<K, A>>)

  function Empty<K, A>(): Table<K, A>
  {
    Table(map[], map[])
  }

  // ---- Operations

  /** A call starts to wait: the entry under its key is now this waiter. */
  function Register<K, A>(t: Table<K, A>, w: nat, k: K): Table<K, A>
  {
    if w in t.waiters then t
    else Table(t.entries[k := w], t.waiters[w := Waiter(k, Waiting)])
  }

  function SetFate<K, A>(t: Table<K, A>, w: nat, fate: Fate<A>): Table<K, A>
    requires w in t.waiters
  {
    t.(waiters := t.waiters[w := t.waiters[w].(fate := fate)])
  }

  /** An answer arrives for a key. Nobody there, or already answered: dropped. */
  function Resolve<K, A>(t: Table<K, A>, k: K, a: A): Table<K, A>
  {
    if k in t.entries && t.entries[k] in t.waiters && t.waiters[t.entries[k]].fate.Waiting?
    then SetFate(t, t.entries[k], Settled(a)) else t
  }

  /** The `finally` of a call pops whatever stands under its key. */
  function Leave<K, A>(t: Table<K, A>, w: nat, fate: Fate<A>): Table<K, A>
    requires w in t.waiters
  {
    SetFate(t, w, fate).(entries := t.entries - {t.waiters[w].key})
  }

  function Resume<K, A>(t: Table<K, A>, w: nat): Table<K, A>
  {
    if w in t.waiters && t.waiters[w].fate.Settled? then Leave(t, w, Returned(t.waiters[w].fate.answer)) else t
  }

  function Expire<K, A>(t: Table<K, A>, w: nat, a: A): Table<K, A>
  {
    if w in t.waiters && t.waiters[w].fate.Waiting? then Leave(t, w, Returned(a)) else t
  }

  function Withdraw<K, A>(t: Table<K, A>, w: nat): Table<K, A>
  {
    if w in t.waiters && t.waiters[w].IsLive() then Leave(t, w, Withdrawn) else t
  }

  predicate IsListed<K, A>(t: Table<K, A>, w: nat)
    requires w in t.waiters
  {
    t.waiters[w].key in t.entries && t.entries[t.waiters[w].key] == w
  }

  /** The socket is gone: every listed waiter still waiting gets `a`. */
  function FailAll<K, A>(t: Table<K, A>, a: A): Table<K, A>
  {
    Table(map[],
          map w | w in t.waiters ::
            if t.waiters[w].fate.Waiting? && IsListed(t, w) then t.waiters[w].(fate := Settled(a)) else t.waiters[w])
  }

  datatype Op<K, A> =
    | DoRegister(w: nat, key: K)
    | DoResolve(key: K, answer: A)
    | DoResume(w: nat)
    | DoExpire(w: nat, answer: A)
    | DoWithdraw(w: nat)
    | DoFailAll(answer: A)

  function Apply<K, A>(t: Table<K, A>, op: Op<K, A>): Table<K, A>
  {
    match op
    case DoRegister(w, k) => Register(t, w, k)
    case DoResolve(k, a) => Resolve(t, k, a)
    case DoResume(w) => Resume(t, w)
    case DoExpire(w, a) => Expire(t, w, a)
    case DoWithdraw(w) => Withdraw(t, w)
    case DoFailAll(a) => FailAll(t, a)
  }

  function RunFrom<K, A>(t: Table<K, A>, ops: seq<Op<K, A>>): Table<K, A>
  {
    if ops == [] then t else Apply(RunFrom(t, ops[..|ops| - 1]), ops[|ops| - 1])
  }

  function Run<K, A>(ops: seq<Op<K, A>>): Table<K, A>
  {
    RunFrom(Empty(), ops)
  }

  // ---- An answer is given at most once

  function Decision<A>(f: Fate<A>): Option<A>
  {
    match f
    case Settled(a) => Some(a)
    case Returned(a) => Some(a)
    case Waiting => None
    case Withdrawn => None
  }

  /** What can still become of a waiter: a call that is over stays as it ended, and a
      settled one keeps its answer unless the call is cancelled before it resumes. */
  predicate MayBecome<A(==)>(f: Fate<A>, g: Fate<A>)
  {
    match f
    case Waiting => true
    case Settled(a) => g == Settled(a) || g == Returned(a) || g == Withdrawn
    case Returned(_) => g == f
    case Withdrawn => g == f
  }

  lemma OpKeepsDecisions<K, A>(t: Table<K, A>, op: Op<K, A>, w: nat)
    requires w in t.waiters
    ensures var t' := Apply(t, op);
            w in t'.waiters && t'.waiters[w].key == t.waiters[w].key
            && MayBecome(t.waiters[w].fate, t'.waiters[w].fate)
  {}

  /** Over every continuation of every run: whoever has been answered is never answered
      again, whatever acks, timeouts and drops follow. */
  lemma {:induction false} NobodyIsAnsweredTwice<K, A>(ops: seq<Op<K, A>>, more: seq<Op<K, A>>, w: nat)
    requires w in Run(ops).waiters
    ensures w in Run(ops + more).waiters
    ensures Run(ops + more).waiters[w].key == Run(ops).waiters[w].key
    ensures MayBecome(Run(ops).waiters[w].fate, Run(ops + more).waiters[w].fate)
  {
    if more == [] {
      assert ops + more == ops;
    } else {
      var n := |more| - 1;
      NobodyIsAnsweredTwice(ops, more[..n], w);
      assert (ops + more)[..|ops + more| - 1] == ops + more[..n];
      OpKeepsDecisions(Run(ops + more[..n]), more[n], w);
    }
  }

  // ---- Without overlapping calls, everyone who waits is listed

  predicate NoLiveCall<K(==), A>(t: Table<K, A>, k: K)
  {
    forall w :: w in t.waiters && t.waiters[w].IsLive() ==> t.waiters[w].key != k
  }

  /** No call starts for a key while an earlier one for it is still going on. */
  ghost predicate Orderly<K, A>(ops: seq<Op<K, A>>)
  {
    forall i :: 0 <= i < |ops| && ops[i].DoRegister? ==> NoLiveCall(Run(ops[..i]), ops[i].key)
  }

  ghost predicate EveryWaiterIsListed<K, A>(t: Table<K, A>)
  {
    forall w :: w in t.waiters && t.waiters[w].fate.Waiting? ==> IsListed(t, w)
  }

  ghost predicate TableInv<K, A>(t: Table<K, A>)
  {
    && EveryWaiterIsListed(t)
    && (forall v, w :: v in t.waiters && w in t.waiters && v != w && t.waiters[v].IsLive() && t.waiters[w].IsLive() ==>
          t.waiters[v].key != t.waiters[w].key)
    && (forall k :: k in t.entries ==>
          t.entries[k] in t.waiters && t.waiters[t.entries[k]].key == k && t.waiters[t.entries[k]].IsLive())
  }

  ghost predicate IsKeyed<K, A>(t: Table<K, A>)
  {
    forall k :: k in t.entries ==> t.entries[k] in t.waiters && t.waiters[t.entries[k]].key == k
  }

  lemma OpKeepsKeys<K, A>(t: Table<K, A>, op: Op<K, A>)
    requires IsKeyed(t)
    ensures IsKeyed(Apply(t, op))
  {}

  lemma OpKeepsInv<K, A>(t: Table<K, A>, op: Op<K, A>)
    requires TableInv(t) && (op.DoRegister? ==> NoLiveCall(t, op.key))
    ensures TableInv(Apply(t, op))
  {}

  lemma {:induction false} OrderlyRunKeepsInv<K, A>(ops: seq<Op<K, A>>)
    requires Orderly(ops)
    ensures TableInv(Run(ops))
  {
    if ops != [] {
      var n := |ops| - 1;
      forall i | 0 <= i < n && ops[..n][i].DoRegister? ensures NoLiveCall(Run(ops[..n][..i]), ops[..n][i].key) {
        assert ops[..n][..i] == ops[..i];
      }
      OrderlyRunKeepsInv(ops[..n]);
      OpKeepsInv(Run(ops[..n]), ops[n]);
    }
  }

  /** Each offer settles exactly once. While it waits it is listed, so the first matching
      answer reaches it; unknown keys change nothing; and once the socket is gone the table
      is empty and nobody waits. */
  lemma EachCallSettlesOnce<K, A>(ops: seq<Op<K, A>>, w: nat, k: K, a: A)
    requires Orderly(ops) && w in Run(ops).waiters
    ensures var t := Run(ops);
            && (t.waiters[w].fate.Waiting? ==> Resolve(t, t.waiters[w].key, a).waiters[w].fate == Settled(a))
            && (k !in t.entries ==> Resolve(t, k, a) == t)
            && FailAll(t, a).entries == map[]
            && !FailAll(t, a).waiters[w].fate.Waiting?
            && (t.waiters[w].fate.Waiting? ==> FailAll(t, a).waiters[w].fate == Settled(a))
            && (!t.waiters[w].fate.Waiting? ==> FailAll(t, a).waiters[w].fate == t.waiters[w].fate)
  {
    OrderlyRunKeepsInv(ops);
  }

  /** After a call is over, by an answer, a timeout or a cancellation, its key is free. */
  lemma CallLeavesNoEntry<K, A>(t: Table<K, A>, w: nat, a: A)
    requires w in t.waiters
    ensures t.waiters[w].fate.Settled? ==> t.waiters[w].key !in Resume(t, w).entries
    ensures t.waiters[w].fate.Waiting? ==> t.waiters[w].key !in Expire(t, w, a).entries
                                           && Expire(t, w, a).waiters[w].fate == Returned(a)
    ensures t.waiters[w].IsLive() ==> t.waiters[w].key !in Withdraw(t, w).entries
  {}

  // ---- Overlapping calls

  ghost predicate NobodyWaits<K, A>(t: Table<K, A>)
  {
    forall w :: w in t.waiters ==> !t.waiters[w].fate.Waiting?
  }

  /** A lost socket settles every call exactly when everyone who waits is listed. */
  lemma DropSettlesWhoIsListed<K, A>(t: Table<K, A>, a: A)
    ensures EveryWaiterIsListed(t) <==> NobodyWaits(FailAll(t, a))
  {
    if NobodyWaits(FailAll(t, a)) {
      forall w | w in t.waiters && t.waiters[w].fate.Waiting? ensures IsListed(t, w) {
        assert !FailAll(t, a).waiters[w].fate.Waiting?;
      }
    }
  }

  predicate StartsNoCall<K, A>(ops: seq<Op<K, A>>)
  {
    forall i :: 0 <= i < |ops| ==> !ops[i].DoRegister?
  }

  lemma {:induction false} NoNewCallKeepsInv<K, A>(t: Table<K, A>, ops: seq<Op<K, A>>)
    requires TableInv(t) && StartsNoCall(ops)
    ensures TableInv(RunFrom(t, ops))
  {
    if ops != [] {
      var n := |ops| - 1;
      NoNewCallKeepsInv(t, ops[..n]);
      OpKeepsInv(RunFrom(t, ops[..n]), ops[n]);
    }
  }

  /** What comes of a call for `k`, whatever follows short of further calls: will a lost
      socket settle everybody? */
  ghost predicate DropAlwaysSettles<K(!new), A(!new)>(t: Table<K, A>, w: nat, k: K, a: A)
  {
    forall ops :: StartsNoCall(ops) ==> NobodyWaits(FailAll(RunFrom(Register(t, w, k), ops), a))
  }

  /** The steps after which a call that overlaps `v` leaves somebody waiting: none when `v`
      still waits; its late return, which pops the newcomer's entry, when `v` is settled. */
  lemma OverlapOrphansSomebody<K, A>(t: Table<K, A>, w: nat, k: K, a: A, v: nat) returns (ops: seq<Op<K, A>>)
    requires TableInv(t) && w !in t.waiters && v in t.waiters && t.waiters[v].IsLive() && t.waiters[v].key == k
    ensures StartsNoCall(ops) && !NobodyWaits(FailAll(RunFrom(Register(t, w, k), ops), a))
  {
    var t1 := Register(t, w, k);
    if t.waiters[v].fate.Waiting? {
      ops := [];
      assert t1.waiters[v].fate.Waiting? && !IsListed(t1, v);
      DropSettlesWhoIsListed(t1, a);
    } else {
      ops := [DoResume(v)];
      assert ops[..|ops| - 1] == [] && RunFrom(t1, []) == t1;
      var t2 := RunFrom(t1, ops);
      assert t2 == Resume(t1, v);
      assert t2.waiters[w].fate.Waiting? && !IsListed(t2, w);
      DropSettlesWhoIsListed(t2, a);
    }
  }

  /** Exactly when a lost socket settles everybody after a new call, over every
      continuation: no earlier call for its key is still going on, be it waiting or
      answered and not yet returned. */
  lemma OverlapIsWhatOrphans<K(!new), A(!new)>(t: Table<K, A>, w: nat, k: K, a: A)
    requires TableInv(t) && w !in t.waiters
    ensures NoLiveCall(t, k) <==> DropAlwaysSettles(t, w, k, a)
  {
    if NoLiveCall(t, k) {
      OpKeepsInv(t, DoRegister(w, k));
      forall ops | StartsNoCall(ops) ensures NobodyWaits(FailAll(RunFrom(Register(t, w, k), ops), a)) {
        NoNewCallKeepsInv(Register(t, w, k), ops);
        DropSettlesWhoIsListed(RunFrom(Register(t, w, k), ops), a);
      }
    } else {
      var v :| v in t.waiters && t.waiters[v].IsLive() && t.waiters[v].key == k;
      var ops := OverlapOrphansSomebody(t, w, k, a, v);
    }
  }

  /** Two calls waiting for one key: when the socket goes, the first is left waiting. */
  lemma OverlappingCallIsNotFailed<K, A>(k: K, a: A)
    ensures var t := FailAll(Register(Register(Empty<K, A>(), 0, k), 1, k), a);
            0 in t.waiters && t.waiters[0].fate.Waiting? && t.entries == map[]
  {
    var t1 := Register(Empty<K, A>(), 0, k);
    assert t1.waiters[0] == Waiter(k, Waiting);
    var t2 := Register(t1, 1, k);
    assert t2.waiters[0] == Waiter(k, Waiting) && t2.entries[k] == 1;
    assert !IsListed(t2, 0);
  }

  /** A call for a key whose last call is answered and not yet returned: the late return
      takes the new entry with it, so the new call's answer is dropped, and it is left
      waiting when the socket goes. */
  lemma LateReturnOrphansTheNextCall<K, A>(k: K, a: A, b: A)
    ensures var t := Resume(Register(Resolve(Register(Empty<K, A>(), 0, k), k, a), 1, k), 0);
            && t.entries == map[] && Resolve(t, k, b) == t
            && 1 in t.waiters && t.waiters[1].fate.Waiting? && FailAll(t, b).waiters[1].fate.Waiting?
  {
    var t1 := Resolve(Register(Empty<K, A>(), 0, k), k, a);
    assert t1.waiters[0] == Waiter(k, Settled(a));
    var t2 := Register(t1, 1, k);
    assert t2.waiters[0] == Waiter(k, Settled(a)) && t2.waiters[1] == Waiter(k, Waiting) && t2.entries == map[k := 1];
    var t3 := Resume(t2, 0);
    assert t3.entries == map[] && t3.waiters[1] == Waiter(k, Waiting) && !IsListed(t3, 1);
  }
}
