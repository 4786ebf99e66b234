/** The provider's end of its socket: answers to offers, frames of its runs, and the
    questions it asks (souk-agent-sdk/souk_agent_sdk/client.py). */
module SoukClient {
  import opened Wrappers
  import opened ProviderWire
  import opened Pipeline
  import F = Futures
  import FutureTable

  datatype Client = Client(hosted: set<string>, pipe: Pipe<UpFrame>, queries: F.Table<QueryId, QueryOutcome>)

  function Say(c: Client, f: UpFrame): Client
  {
    c.(pipe := Enqueue(c.pipe, f))
  }

  /** What the runtime and the validator say when an offer reaches them. */
  datatype Verdict = Verdict(validates: bool, why: string, accepted: bool)

  function RefusalReason(why: string): string
  {
    "frame does not validate as a DeliveredRun: " + why
  }

  /** A refusal says why, in the validator's words. */
  lemma RefusalSaysWhy(why: string)
    ensures RefusalReason(why) != "" && RefusalReason(why)[|RefusalReason(why)| - |why|..] == why
  {}

  predicate ReachesRuntime(c: Client, agent: string, v: Verdict)
  {
    agent in c.hosted && v.validates
  }

  /** `_offer` */
  function AckFor(c: Client, run: RunId, agent: string, v: Verdict): UpFrame
  {
    if agent !in c.hosted then Ack(run, Some(false), None)
    else if !v.validates then Ack(run, Some(false), Some(RefusalReason(v.why)))
    else Ack(run, Some(v.accepted), None)
  }

  /** One turn of the read loop. */
  function OnFrame(c: Client, f: DownFrame, v: Verdict): Client
  {
    match f
    case Run(run, agent) => Say(c, AckFor(c, run, agent, v))
    case QueryResult(id, outcome) => c.(queries := F.Resolve(c.queries, id, outcome))
    case _ => c
  }

  function Ask(c: Client, w: nat, id: QueryId, thread: string, limit: Option<int>): Client
  {
    Say(c.(queries := F.Register(c.queries, w, id)), Query(id, THREAD_MESSAGES, thread, limit))
  }

  /** The end of a connection: its queries die with it, its runs and frames do not. */
  function Disconnect(c: Client): Client
  {
    c.(queries := F.FailAll(c.queries, QueryFailed("souk connection closed")), pipe := TearDown(c.pipe))
  }

  class SoukProvider {
    const agents: set<string>
    const pending: FutureTable.WaiterTable<QueryId, QueryOutcome>
    var outbound: seq<UpFrame>
    ghost var pipe: Pipe<UpFrame>

    ghost predicate Valid()
      reads this, pending, pending.issued.Values
    {
      pending.Valid() && pipe.queue == outbound
    }

    ghost function Value(): Client
      reads this, pending
    {
      Client(agents, pipe, pending.table)
    }

    constructor (agents: set<string>)
      ensures Valid() && fresh(pending) && Value() == Client(agents, NewPipe(), F.Empty())
    {
      this.agents := agents;
      pending := new FutureTable.WaiterTable();
      outbound := [];
      pipe := NewPipe();
    }

    method PutNowait(f: UpFrame)
      requires Valid()
      modifies this
      ensures Valid() && Value() == Say(old(Value()), f)
    {
      outbound := outbound + [f];
      pipe := Enqueue(pipe, f);
    }

    /** `_offer`, with the runtime's verdict given. */
    method OnOffer(run: RunId, agent: string, v: Verdict) returns (asked: bool)
      requires Valid()
      modifies this
      ensures Valid() && Value() == Say(old(Value()), AckFor(old(Value()), run, agent, v))
      ensures asked <==> ReachesRuntime(old(Value()), agent, v)
    {
      asked := false;
      if agent !in agents {
        PutNowait(Ack(run, Some(false), None));
        return;
      }
      if !v.validates {
        PutNowait(Ack(run, Some(false), Some(RefusalReason(v.why))));
        return;
      }
      asked := true;
      PutNowait(Ack(run, Some(v.accepted), None));
    }

    /** `thread_messages` up to its wait. */
    method BeginQuery(ghost w: nat, id: QueryId, thread: string, limit: Option<int>)
      returns (waiter: FutureTable.Future<QueryOutcome>)
      requires Valid() && w !in pending.issued
      modifies this, pending
      ensures Valid() && fresh(waiter) && pending.issued == old(pending.issued)[w := waiter]
      ensures Value() == Ask(old(Value()), w, id, thread, limit)
    {
      waiter := pending.Register(w, id);
      PutNowait(Query(id, THREAD_MESSAGES, thread, limit));
    }

    /** `_resolve_query` */
    method ResolveQuery(id: QueryId, outcome: QueryOutcome)
      requires Valid()
      modifies pending`table, pending.issued.Values
      ensures Valid() && pending.issued == old(pending.issued)
      ensures Value() == OnFrame(old(Value()), QueryResult(id, outcome), Verdict(true, "", true))
    {
      pending.Resolve(id, outcome);
    }

    /** The `finally` of a connection. */
    method OnDisconnect()
      requires Valid()
      modifies this`pipe, pending`entries, pending`table, pending.issued.Values
      ensures Valid() && Value() == Disconnect(old(Value())) && outbound == old(outbound)
    {
      pending.FailAll(QueryFailed("souk connection closed"));
      pipe := TearDown(pipe);
    }
  }
}
