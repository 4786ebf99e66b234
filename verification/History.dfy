/** The thread's history merged into what the caller sent, together with the limit the
    gateway applies (providers/pydantic-ai-agent/pydantic_ai_agent/history.py). */
module History {
  import opened Wrappers
  import opened ProviderWire

  datatype RunInput = RunInput(thread: Option<string>, messages: Option<seq<Message>>)

  /** Present and not empty, as Python tests it. */
  predicate HasId(m: Message)
  {
    m.id.Some? && m.id.value != ""
  }

  function Seen(history: seq<Message>): set<string>
  {
    set m | m in history && HasId(m) :: m.id.value
  }

  predicate IsNew(seen: set<string>, m: Message)
  {
    m.id.None? || m.id.value !in seen
  }

  /** What of the caller's messages the history does not hold. */
  function Tail(seen: set<string>, messages: seq<Message>): seq<Message>
  {
    if messages == [] then []
    else
      var n := |messages| - 1;
      Tail(seen, messages[..n]) + if IsNew(seen, messages[n]) then [messages[n]] else []
  }

  function Sent(input: RunInput): seq<Message>
  {
    if input.messages.Some? then input.messages.value else []
  }

  predicate Asks(input: RunInput, linked: bool, limit: Option<int>)
  {
    limit.Some? && limit.value != 0 && input.thread.Some? && input.thread.value != "" && linked
  }

  /** `with_thread_history`; `outcome` is what the query gives, should it be asked. */
  function WithThreadHistory(input: RunInput, linked: bool, limit: Option<int>, outcome: QueryOutcome): RunInput
  {
    if !Asks(input, linked, limit) then input
    else
      match outcome
      case QueryFailed(_) => input
      case Rows(history) =>
        var tail := Tail(Seen(history), Sent(input));
        if history == [] then input else input.(messages := Some(history + tail))
  }

  /** When history is merged at all: a limit other than zero, a thread, a link, and an answer
      with at least one message. Otherwise the run sees just what the caller sent. */
  lemma MergeIsExact(input: RunInput, linked: bool, limit: Option<int>, outcome: QueryOutcome)
    ensures var merged := WithThreadHistory(input, linked, limit, outcome);
            var isMerged := limit != None && limit != Some(0) && input.thread != None && input.thread != Some("")
                            && linked && outcome.Rows? && outcome.rows != [];
            && (!isMerged ==> merged == input)
            && (isMerged ==>
                  && merged.thread == input.thread && merged.messages.Some?
                  && outcome.rows <= merged.messages.value
                  && forall m :: m in merged.messages.value[|outcome.rows|..] <==>
                       m in Sent(input) && (m.id.None? || forall h :: h in outcome.rows && HasId(h) ==> h.id != m.id))
  {
    if Asks(input, linked, limit) && outcome.Rows? && outcome.rows != [] {
      var seen := Seen(outcome.rows);
      var tail := Tail(seen, Sent(input));
      assert (outcome.rows + tail)[|outcome.rows|..] == tail;
      forall m ensures m in tail <==> m in Sent(input) && IsNew(seen, m) {
        TailHoldsTheNew(seen, Sent(input), m);
      }
    }
  }

  // ---- Filters

  lemma {:induction false} TailSplits(seen: set<string>, a: seq<Message>, b: seq<Message>)
    ensures Tail(seen, a + b) == Tail(seen, a) + Tail(seen, b)
  {
    if b == [] {
      assert a + b == a;
    } else {
      var n := |b| - 1;
      TailSplits(seen, a, b[..n]);
      assert (a + b)[..|a + b| - 1] == a + b[..n];
    }
  }

  lemma {:induction false} AllNewStay(seen: set<string>, messages: seq<Message>)
    requires forall m :: m in messages ==> IsNew(seen, m)
    ensures Tail(seen, messages) == messages
  {
    if messages != [] {
      var n := |messages| - 1;
      assert messages == messages[..n] + [messages[n]];
      assert IsNew(seen, messages[n]);
      AllNewStay(seen, messages[..n]);
    }
  }

  lemma {:induction false} NoneNewGo(seen: set<string>, messages: seq<Message>)
    requires forall m :: m in messages ==> !IsNew(seen, m)
    ensures Tail(seen, messages) == []
  {
    if messages != [] {
      NoneNewGo(seen, messages[..|messages| - 1]);
    }
  }

  /** The tail holds the new messages and no others. */
  lemma {:induction false} TailHoldsTheNew(seen: set<string>, messages: seq<Message>, m: Message)
    ensures m in Tail(seen, messages) <==> m in messages && IsNew(seen, m)
  {
    if messages != [] {
      var n := |messages| - 1;
      TailHoldsTheNew(seen, messages[..n], m);
      assert messages == messages[..n] + [messages[n]];
    }
  }

  // ---- With the gateway's limit

  predicate AllHaveIds(messages: seq<Message>)
  {
    forall m :: m in messages ==> HasId(m)
  }

  /** No two messages carry the same id. */
  predicate NoIdTwice(messages: seq<Message>)
  {
    forall i, j :: 0 <= i < j < |messages| && HasId(messages[i]) && HasId(messages[j]) ==>
      messages[i].id != messages[j].id
  }

  function Outcome(store: Store, key: string, thread: string, limit: Option<int>): QueryOutcome
    requires thread != ""
  {
    AnswerQuery(store, key, Query("q", THREAD_MESSAGES, thread, limit)).outcome
  }

  lemma ResentGoes(history: seq<Message>, again: seq<Message>)
    requires AllHaveIds(history) && (forall m :: m in again ==> m in history)
    ensures Tail(Seen(history), again) == []
  {
    forall m | m in again ensures !IsNew(Seen(history), m) {
      assert m in history && HasId(m);
    }
    NoneNewGo(Seen(history), again);
  }

  lemma MergedParts(history: seq<Message>, older: seq<Message>, again: seq<Message>, unsaved: seq<Message>)
    requires AllHaveIds(history) && (forall m :: m in again ==> m in history)
    requires forall m :: m in older ==> IsNew(Seen(history), m)
    requires forall m :: m in unsaved ==> IsNew(Seen(history), m)
    ensures Tail(Seen(history), older + again + unsaved) == older + unsaved
  {
    var seen := Seen(history);
    AllNewStay(seen, older);
    AllNewStay(seen, unsaved);
    ResentGoes(history, again);
    TailSplits(seen, older, again);
    assert Tail(seen, older + again) == older + [] == older;
    TailSplits(seen, older + again, unsaved);
  }

  lemma OlderIsNew(stored: seq<Message>, from: nat, m: Message)
    requires AllHaveIds(stored) && NoIdTwice(stored) && from <= |stored| && m in stored[..from]
    ensures IsNew(Seen(stored[from..]), m)
  {
    var i :| 0 <= i < from && stored[i] == m;
    forall o | o in stored[from..] && HasId(o) ensures o.id != m.id {
      var j :| 0 <= j < |stored[from..]| && stored[from..][j] == o;
      assert stored[from + j] == o && HasId(stored[i]);
    }
  }

  lemma SuffixesNest(stored: seq<Message>, from: nat, back: nat, m: Message)
    requires from <= back <= |stored| && m in stored[back..]
    ensures m in stored[from..]
  {
    var i :| 0 <= i < |stored| - back && stored[back..][i] == m;
    assert stored[from..][back - from + i] == m;
  }

  /** The thread is `stored`, its last part `stored[from..]` is what the gateway gives, and
      the caller resent `stored[back..]`. */
  lemma ResentFrom(stored: seq<Message>, from: nat, back: nat, unsaved: seq<Message>)
    requires from <= |stored| && back <= |stored| && AllHaveIds(stored) && NoIdTwice(stored)
    requires forall m :: m in unsaved ==> IsNew(Seen(stored), m)
    ensures Tail(Seen(stored[from..]), stored[back..] + unsaved)
         == (if back < from then stored[back..from] else []) + unsaved
  {
    var history := stored[from..];
    var older := if back < from then stored[back..from] else [];
    var again := if back < from then history else stored[back..];
    assert stored[back..] == older + again;
    forall m | m in again ensures m in history {
      if from <= back { SuffixesNest(stored, from, back, m); }
    }
    forall m | m in older ensures IsNew(Seen(history), m) {
      SuffixesNest(stored[..from], 0, back, m);
      assert stored[..from][0..] == stored[..from];
      OlderIsNew(stored, from, m);
    }
    forall m | m in unsaved ensures IsNew(Seen(history), m) {
      assert Seen(history) <= Seen(stored);
    }
    MergedParts(history, older, again, unsaved);
  }

  /** What the run sees, given the thread there is and what the caller sent. */
  function RunSees(store: Store, key: string, thread: string, limit: nat, sent: seq<Message>): seq<Message>
    requires thread != ""
  {
    var outcome := Outcome(store, key, thread, Some(limit));
    Sent(WithThreadHistory(RunInput(Some(thread), Some(sent)), true, Some(limit), outcome))
  }

  lemma MergedWithLast(store: Store, key: string, thread: string, limit: nat, sent: seq<Message>, history: seq<Message>)
    requires thread != "" && thread in store && store[thread].owner == key && limit > 0
    requires history == LastOf(store[thread].messages, Some(limit))
    ensures RunSees(store, key, thread, limit, sent) == history + Tail(Seen(history), sent)
  {
    assert Outcome(store, key, thread, Some(limit)) == Rows(history);
    if history == [] {
      AllNewStay(Seen(history), sent);
      assert [] + sent == sent;
    }
  }

  /** What the caller resent from before the last `limit` messages. */
  function BeforeTheLimit(stored: seq<Message>, limit: nat, k: nat): (r: seq<Message>)
    requires k <= |stored|
    ensures r == [] <==> k <= limit
  {
    if limit < k then stored[|stored| - k..|stored| - limit] else []
  }

  /** What the caller sends: the last `k` stored messages, then messages not stored yet. */
  function Resent(stored: seq<Message>, k: nat, unsaved: seq<Message>): seq<Message>
    requires k <= |stored|
  {
    stored[|stored| - k..] + unsaved
  }

  lemma LastIsFrom(stored: seq<Message>, limit: nat) returns (from: nat)
    requires limit > 0
    ensures from <= |stored| && LastOf(stored, Some(limit)) == stored[from..]
    ensures from == if limit < |stored| then |stored| - limit else 0
  {
    from := if limit < |stored| then |stored| - limit else 0;
  }

  lemma MergedTail(stored: seq<Message>, limit: nat, k: nat, unsaved: seq<Message>)
    requires limit > 0 && k <= |stored| && AllHaveIds(stored) && NoIdTwice(stored)
    requires forall m :: m in unsaved ==> IsNew(Seen(stored), m)
    ensures Tail(Seen(LastOf(stored, Some(limit))), Resent(stored, k, unsaved))
         == BeforeTheLimit(stored, limit, k) + unsaved
  {
    var from := LastIsFrom(stored, limit);
    ResentFrom(stored, from, |stored| - k, unsaved);
  }

  /** The caller resent the last `k` stored messages, then messages not stored yet. The run
      sees the last `limit` stored messages, then whatever the caller resent from before
      those, then the unsaved ones. */
  lemma ResentSuffix(store: Store, key: string, thread: string, limit: nat, k: nat, unsaved: seq<Message>)
    requires thread != "" && thread in store && store[thread].owner == key && limit > 0
    requires var stored := store[thread].messages;
             k <= |stored| && AllHaveIds(stored) && NoIdTwice(stored)
             && forall m :: m in unsaved ==> IsNew(Seen(stored), m)
    ensures var stored := store[thread].messages;
            RunSees(store, key, thread, limit, Resent(stored, k, unsaved))
              == LastOf(stored, Some(limit)) + (BeforeTheLimit(stored, limit, k) + unsaved)
  {
    var stored := store[thread].messages;
    MergedTail(stored, limit, k, unsaved);
    MergedWithLast(store, key, thread, limit, Resent(stored, k, unsaved), LastOf(stored, Some(limit)));
  }

  /** So the run sees the thread as it happened, exactly when the caller resent no more than
      the limit. */
  lemma ThreadAsItHappened(store: Store, key: string, thread: string, limit: nat, k: nat, unsaved: seq<Message>)
    requires thread != "" && thread in store && store[thread].owner == key && limit > 0
    requires var stored := store[thread].messages;
             k <= |stored| && AllHaveIds(stored) && NoIdTwice(stored)
             && forall m :: m in unsaved ==> IsNew(Seen(stored), m)
    ensures var stored := store[thread].messages;
            var seen := RunSees(store, key, thread, limit, Resent(stored, k, unsaved));
            seen == LastOf(stored, Some(limit)) + unsaved <==> k <= limit
  {
    var stored := store[thread].messages;
    ResentSuffix(store, key, thread, limit, k, unsaved);
    SameWithout(LastOf(stored, Some(limit)), BeforeTheLimit(stored, limit, k), unsaved);
  }

  lemma SameWithout(a: seq<Message>, b: seq<Message>, c: seq<Message>)
    ensures a + (b + c) == a + c <==> b == []
  {
    if b == [] {
      assert b + c == c;
    } else {
      assert |a + (b + c)| > |a + c|;
    }
  }

  /** A thread that is absent, or somebody else's, or an invalid limit: the run sees what
      the caller sent. */
  lemma UnreadableThreadChangesNothing(store: Store, key: string, input: RunInput, linked: bool, limit: Option<int>)
    requires input.thread.Some? && input.thread.value != ""
    requires (limit.Some? && limit.value <= 0) || input.thread.value !in store || store[input.thread.value].owner != key
    ensures WithThreadHistory(input, linked, limit, Outcome(store, key, input.thread.value, limit)) == input
  {}

  // ---- The merge by itself

  /** Merging twice is merging once, exactly when every message of the history carries an
      id (souk mints one for each). */
  lemma MergeIsIdempotent(input: RunInput, limit: Option<int>, history: seq<Message>)
    requires Asks(input, true, limit)
    ensures var once := WithThreadHistory(input, true, limit, Rows(history));
            WithThreadHistory(once, true, limit, Rows(history)) == once <==> AllHaveIds(history)
  {
    var seen := Seen(history);
    var tail := Tail(seen, Sent(input));
    TailSplits(seen, history, tail);
    forall m | m in tail ensures IsNew(seen, m) {
      TailHoldsTheNew(seen, Sent(input), m);
    }
    AllNewStay(seen, tail);
    if AllHaveIds(history) {
      forall m | m in history ensures !IsNew(seen, m) {}
      NoneNewGo(seen, history);
      assert [] + tail == tail;
    } else {
      var m :| m in history && !HasId(m);
      TailHoldsTheNew(seen, history, m);
      assert |history + (Tail(seen, history) + tail)| > |history + tail|;
    }
  }

  function WithoutIds(messages: seq<Message>): seq<Message>
  {
    if messages == [] then []
    else
      var n := |messages| - 1;
      WithoutIds(messages[..n]) + if HasId(messages[n]) then [] else [messages[n]]
  }

  lemma {:induction false} WithoutIdsSplits(a: seq<Message>, b: seq<Message>)
    ensures WithoutIds(a + b) == WithoutIds(a) + WithoutIds(b)
  {
    if b == [] {
      assert a + b == a;
    } else {
      var n := |b| - 1;
      WithoutIdsSplits(a, b[..n]);
      assert (a + b)[..|a + b| - 1] == a + b[..n];
    }
  }

  lemma WithoutIdsOne(m: Message)
    ensures WithoutIds([m]) == if HasId(m) then [] else [m]
  {
    assert [m][..0] == [];
  }

  lemma {:induction false} TailKeepsWithoutIds(seen: set<string>, messages: seq<Message>)
    requires "" !in seen
    ensures WithoutIds(Tail(seen, messages)) == WithoutIds(messages)
  {
    if messages != [] {
      var n := |messages| - 1;
      var m, t := messages[n], Tail(seen, messages[..n]);
      TailKeepsWithoutIds(seen, messages[..n]);
      if IsNew(seen, m) {
        WithoutIdsSplits(t, [m]);
        WithoutIdsOne(m);
      } else {
        assert HasId(m);
        assert t + [] == t;
      }
    }
  }

  /** Every message of the caller that carries no id is kept, in order. */
  lemma MessagesWithoutIdsAreKept(input: RunInput, linked: bool, limit: Option<int>, outcome: QueryOutcome)
    ensures var kept := WithoutIds(Sent(WithThreadHistory(input, linked, limit, outcome)));
            |kept| >= |WithoutIds(Sent(input))|
            && kept[|kept| - |WithoutIds(Sent(input))|..] == WithoutIds(Sent(input))
  {
    if Asks(input, linked, limit) && outcome.Rows? && outcome.rows != [] {
      TailKeepsWithoutIds(Seen(outcome.rows), Sent(input));
      WithoutIdsSplits(outcome.rows, Tail(Seen(outcome.rows), Sent(input)));
    }
  }

  lemma {:induction false} TailRepeatsNoId(seen: set<string>, messages: seq<Message>)
    requires NoIdTwice(messages)
    ensures NoIdTwice(Tail(seen, messages))
  {
    if messages != [] {
      var n := |messages| - 1;
      TailRepeatsNoId(seen, messages[..n]);
      var t := Tail(seen, messages[..n]);
      forall i | 0 <= i < |t| && HasId(t[i]) && HasId(messages[n]) ensures t[i].id != messages[n].id {
        TailHoldsTheNew(seen, messages[..n], t[i]);
      }
    }
  }

  /** The run sees no id twice when neither the history nor the caller repeats one. */
  lemma MergeRepeatsNoId(input: RunInput, linked: bool, limit: Option<int>, history: seq<Message>)
    requires NoIdTwice(history) && NoIdTwice(Sent(input))
    ensures NoIdTwice(Sent(WithThreadHistory(input, linked, limit, Rows(history))))
  {
    var seen := Seen(history);
    var tail := Tail(seen, Sent(input));
    TailRepeatsNoId(seen, Sent(input));
    forall i, j | 0 <= i < |history| && 0 <= j < |tail| && HasId(history[i]) && HasId(tail[j])
      ensures history[i].id != tail[j].id
    {
      TailHoldsTheNew(seen, Sent(input), tail[j]);
      assert history[i].id.value in seen;
    }
  }
}
