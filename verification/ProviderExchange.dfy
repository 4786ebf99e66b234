/** What the provider relay achieves when nobody interferes: one offer and one query, frame
    by frame from call to return (souk_server/ws_provider.py,
    souk-agent-sdk/souk_agent_sdk/client.py). */
module ProviderExchange {
  import opened Wrappers
  import opened ProviderWire
  import opened ProviderRelay
  import P = Pipeline
  import F = Futures
  import S = ProviderSocket
  import C = SoukClient

  /** Where frames are on connection `c`, the provider's current one, its wire whole:
      queued, in hand and in transit towards the provider; waiting to be looked up; queued,
      in hand and in transit towards the gateway. */
  datatype Frames = Frames(
    outbound: seq<DownFrame>, hand: seq<DownFrame>, down: seq<DownFrame>, jobs: seq<UpFrame>,
    queue: seq<UpFrame>, said: seq<UpFrame>, up: seq<UpFrame>)

  const NOWHERE := Frames([], [], [], [], [], [], [])

  ghost predicate IsUp(r: Relay, c: nat)
  {
    && c < |r.conns| == |r.client.pipe.lines| && r.client.pipe.current == Some(c)
    && r.conns[c].open && !r.client.pipe.lines[c].cut && r.client.pipe.lines[c].lost == []
  }

  ghost predicate At(r: Relay, c: nat, f: Frames)
  {
    && IsUp(r, c)
    && r.conns[c].socket.outbound == f.outbound && r.conns[c].hand == f.hand && r.conns[c].down == f.down
    && r.conns[c].jobs == f.jobs
    && r.client.pipe.queue == f.queue && r.client.pipe.hand == f.said && r.client.pipe.lines[c].transit == f.up
  }

  /** Everything but where the frames are. */
  ghost predicate SameCalls(r: Relay, r': Relay, c: nat)
    requires IsUp(r, c) && IsUp(r', c)
  {
    && r'.conns[c].socket.acks == r.conns[c].socket.acks && r'.client.queries == r.client.queries
    && r'.store == r.store && r'.key == r.key && r'.client.hosted == r.client.hosted
  }

  /** A connection that has just been made is such a one. */
  lemma FreshConnectionIsQuiet(key: string, hosted: set<string>)
    ensures At(Step(Begin(key, hosted), Connect), 0, NOWHERE)
  {}

  /** A lost connection is followed by a new one: its wire is whole, nothing is on it, and
      what the provider had queued waits for it. */
  lemma ReconnectStartsAfresh(r: Relay, c: nat)
    requires |r.conns| == |r.client.pipe.lines| && r.client.pipe.current == Some(c) && c < |r.conns|
    ensures var r' := Step(Step(r, ClientTeardown), Connect);
            At(r', |r.conns|, NOWHERE.(queue := r.client.pipe.queue)) && r'.client.queries.entries == map[]
  {
    var r1 := Step(r, ClientTeardown);
    assert r1.client.pipe.current == None && r1.client.pipe.queue == r.client.pipe.queue && r1.client.pipe.hand == [];
    assert r1.conns == r.conns && |r1.client.pipe.lines| == |r.conns|;
  }

  // ---- One frame, one way

  lemma GatewaySends(r: Relay, c: nat, f: DownFrame)
    requires At(r, c, NOWHERE.(outbound := [f]))
    ensures var r' := Step(Step(r, GateTake(c)), GateSend(c));
            At(r', c, NOWHERE.(down := [f])) && SameCalls(r, r', c)
  {
    var r1 := Step(r, GateTake(c));
    assert At(r1, c, NOWHERE.(hand := [f]));
    assert SameCalls(r, r1, c);
    assert [] + [f] == [f];
  }

  lemma ProviderSends(r: Relay, c: nat, f: UpFrame)
    requires At(r, c, NOWHERE.(queue := [f]))
    ensures var r' := Step(Step(r, ClientTake), ClientSend);
            At(r', c, NOWHERE.(up := [f])) && SameCalls(r, r', c)
  {
    var r1 := Step(r, ClientTake);
    assert At(r1, c, NOWHERE.(said := [f]));
    assert SameCalls(r, r1, c);
    assert [] + [f] == [f];
  }

  // ---- An offer

  lemma OfferGoesOut(r: Relay, c: nat, w: nat, run: RunId, agent: string)
    requires At(r, c, NOWHERE) && w !in r.conns[c].socket.acks.waiters
    ensures var r' := Step(r, Offer(c, w, run, agent, true, ""));
            && At(r', c, NOWHERE.(outbound := [DownFrame.Run(run, agent)]))
            && r'.conns[c].socket.acks == F.Register(r.conns[c].socket.acks, w, run)
            && r'.client.hosted == r.client.hosted
  {
    assert [] + [DownFrame.Run(run, agent)] == [DownFrame.Run(run, agent)];
  }

  lemma OfferIsAnswered(r: Relay, c: nat, run: RunId, agent: string, v: C.Verdict)
    requires At(r, c, NOWHERE.(down := [DownFrame.Run(run, agent)]))
    ensures var r' := Step(r, ClientReceive(v));
            && At(r', c, NOWHERE.(queue := [C.AckFor(r.client, run, agent, v)]))
            && r'.conns[c].socket.acks == r.conns[c].socket.acks
  {
    assert [] + [C.AckFor(r.client, run, agent, v)] == [C.AckFor(r.client, run, agent, v)];
  }

  lemma AckSettles(r: Relay, c: nat, w: nat, run: RunId, accepted: Option<bool>, reason: Option<string>)
    requires At(r, c, NOWHERE.(up := [Ack(run, accepted, reason)]))
    requires var t := r.conns[c].socket.acks;
             w in t.waiters && t.waiters[w] == F.Waiter(run, F.Waiting) && run in t.entries && t.entries[run] == w
    ensures var r' := Step(Step(r, GateReceive(c)), OfferResumes(c, w));
            && At(r', c, NOWHERE) && w in r'.conns[c].socket.acks.waiters
            && r'.conns[c].socket.acks.waiters[w] == F.Waiter(run, F.Returned(AnswerOf(accepted, reason)))
  {
    var r1 := Step(r, GateReceive(c));
    assert At(r1, c, NOWHERE);
    assert r1.conns[c].socket.acks.waiters[w] == F.Waiter(run, F.Settled(AnswerOf(accepted, reason)));
  }

  /** What `deliver` should return: what the provider's side says of the run. */
  function Outcome(hosted: set<string>, agent: string, v: C.Verdict): Answer
  {
    if agent !in hosted then Declined
    else if !v.validates then Refusal(C.RefusalReason(v.why))
    else if v.accepted then Taken else Declined
  }

  lemma AckCarriesOutcome(client: C.Client, run: RunId, agent: string, v: C.Verdict)
    ensures var ack := C.AckFor(client, run, agent, v);
            ack.Ack? && ack.run == run && AnswerOf(ack.accepted, ack.reason) == Outcome(client.hosted, agent, v)
  {
    assert |C.RefusalReason(v.why)| > 0;
  }

  /** An offer nobody interferes with: `deliver` returns what the provider's side decided,
      with its reason when it refuses for good. */
  lemma UndisturbedOffer(r: Relay, c: nat, w: nat, run: RunId, agent: string, v: C.Verdict)
    requires At(r, c, NOWHERE) && w !in r.conns[c].socket.acks.waiters
    ensures var offered := Step(r, Offer(c, w, run, agent, true, ""));
            var arrived := Step(Step(offered, GateTake(c)), GateSend(c));
            var answered := Step(Step(Step(arrived, ClientReceive(v)), ClientTake), ClientSend);
            var over := Step(Step(answered, GateReceive(c)), OfferResumes(c, w));
            && At(over, c, NOWHERE) && w in over.conns[c].socket.acks.waiters
            && over.conns[c].socket.acks.waiters[w] == F.Waiter(run, F.Returned(Outcome(r.client.hosted, agent, v)))
  {
    var offered := Step(r, Offer(c, w, run, agent, true, ""));
    OfferGoesOut(r, c, w, run, agent);
    GatewaySends(offered, c, DownFrame.Run(run, agent));
    var arrived := Step(Step(offered, GateTake(c)), GateSend(c));
    OfferIsAnswered(arrived, c, run, agent, v);
    var ack := C.AckFor(arrived.client, run, agent, v);
    AckCarriesOutcome(arrived.client, run, agent, v);
    ProviderSends(Step(arrived, ClientReceive(v)), c, ack);
    var answered := Step(Step(Step(arrived, ClientReceive(v)), ClientTake), ClientSend);
    AckSettles(answered, c, w, run, ack.accepted, ack.reason);
  }

  // ---- A query

  lemma QueryGoesOut(r: Relay, c: nat, w: nat, id: QueryId, thread: string, limit: Option<int>)
    requires At(r, c, NOWHERE) && w !in r.client.queries.waiters && id !in r.ledger.asked
    ensures var r' := Step(r, Ask(w, id, thread, limit));
            && At(r', c, NOWHERE.(queue := [Query(id, THREAD_MESSAGES, thread, limit)]))
            && r'.client.queries == F.Register(r.client.queries, w, id) && r'.store == r.store && r'.key == r.key
  {
    var q := Query(id, THREAD_MESSAGES, thread, limit);
    assert [] + [q] == [q];
  }

  lemma QueryIsAnswered(r: Relay, c: nat, q: UpFrame)
    requires q.Query? && At(r, c, NOWHERE.(up := [q]))
    ensures var r' := Step(Step(r, GateReceive(c)), AnswerJob(c, 0));
            At(r', c, NOWHERE.(outbound := [AnswerQuery(r.store, r.key, q)])) && r'.client.queries == r.client.queries
  {
    var r1 := Step(r, GateReceive(c));
    assert [] + [q] == [q] && [q][1..] == [];
    assert At(r1, c, NOWHERE.(jobs := [q]));
    assert r1.store == r.store && r1.key == r.key && r1.client.queries == r.client.queries;
    var a := AnswerQuery(r.store, r.key, q);
    assert [q][..0] + [q][1..] == [] && [] + [a] == [a];
  }

  lemma ResultSettles(r: Relay, c: nat, w: nat, id: QueryId, outcome: QueryOutcome, v: C.Verdict)
    requires At(r, c, NOWHERE.(down := [QueryResult(id, outcome)]))
    requires var t := r.client.queries;
             w in t.waiters && t.waiters[w] == F.Waiter(id, F.Waiting) && id in t.entries && t.entries[id] == w
    ensures var r' := Step(Step(r, ClientReceive(v)), QueryResumes(w));
            && At(r', c, NOWHERE) && w in r'.client.queries.waiters
            && r'.client.queries.waiters[w] == F.Waiter(id, F.Returned(outcome))
  {
    var r1 := Step(r, ClientReceive(v));
    assert At(r1, c, NOWHERE);
    assert r1.client.queries.waiters[w] == F.Waiter(id, F.Settled(outcome));
  }

  /** A query nobody interferes with: the call is given what the gateway answers to it, so
      rows exactly when the thread is there and belongs to this key. */
  lemma UndisturbedQuery(r: Relay, c: nat, w: nat, id: QueryId, thread: string, limit: Option<int>, v: C.Verdict)
    requires At(r, c, NOWHERE) && w !in r.client.queries.waiters && id !in r.ledger.asked
    requires id != "" && thread != "" && (limit.Some? ==> limit.value > 0)
    ensures var asked := Step(Step(Step(r, Ask(w, id, thread, limit)), ClientTake), ClientSend);
            var answered := Step(Step(asked, GateReceive(c)), AnswerJob(c, 0));
            var arrived := Step(Step(answered, GateTake(c)), GateSend(c));
            var over := Step(Step(arrived, ClientReceive(v)), QueryResumes(w));
            && At(over, c, NOWHERE) && w in over.client.queries.waiters
            && over.client.queries.waiters[w] == F.Waiter(id, F.Returned(
                 if thread in r.store && r.store[thread].owner == r.key
                 then Rows(LastOf(r.store[thread].messages, limit)) else QueryFailed(NO_SUCH_THREAD)))
  {
    var q := Query(id, THREAD_MESSAGES, thread, limit);
    QueryGoesOut(r, c, w, id, thread, limit);
    ProviderSends(Step(r, Ask(w, id, thread, limit)), c, q);
    var asked := Step(Step(Step(r, Ask(w, id, thread, limit)), ClientTake), ClientSend);
    QueryIsAnswered(asked, c, q);
    var answered := Step(Step(asked, GateReceive(c)), AnswerJob(c, 0));
    var result := AnswerQuery(r.store, r.key, q);
    GatewaySends(answered, c, result);
    var arrived := Step(Step(answered, GateTake(c)), GateSend(c));
    ResultSettles(arrived, c, w, id, result.outcome, v);
  }
}
