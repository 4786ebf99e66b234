/** The provider socket end to end: one provider, the connections it opens one after
    another, and core behind them. Offers, acks, queries, timeouts, drops and reconnects
    in any interleaving. */
module ProviderRelay {
  import opened Wrappers
  import opened ProviderWire
  import P = Pipeline
  import F = Futures
  import S = ProviderSocket
  import C = SoukClient

  /** The gateway's side of one connection. `hand` is the frame its writer holds, `down`
      what is in transit to the provider, `jobs` the queries whose answers are still being
      looked up. What is in transit to the gateway is on the provider's line. */
  datatype Conn = Conn(
    socket: S.Socket, hand: seq<DownFrame>, down: seq<DownFrame>, jobs: seq<UpFrame>, open: bool)

  const NEW_CONN := Conn(S.Socket(F.Empty(), []), [], [], [], true)

  /** What a question asked for, and how long its thread was when it was asked. */
  datatype Asked = Asked(thread: string, limit: Option<int>, since: nat)

  /** A record of what happened outside the wire: runs the runtime accepted, runs one side
      refused for good and why, every run the runtime was offered, every question. */
  datatype Ledger = Ledger(
    taken: set<RunId>, refusals: set<(RunId, string)>, toRuntime: seq<(RunId, string)>, asked: map<QueryId, Asked>)

  datatype Relay = Relay(key: string, client: C.Client, conns: seq<Conn>, store: Store, ledger: Ledger)

  function Begin(key: string, hosted: set<string>): Relay
  {
    Relay(key, C.Client(hosted, P.NewPipe(), F.Empty()), [], map[], Ledger({}, {}, [], map[]))
  }

  datatype Label =
    | Connect
    | Offer(c: nat, w: nat, run: RunId, agent: string, validates: bool, why: string)
    | OfferResumes(c: nat, w: nat)
    | OfferTimesOut(c: nat, w: nat)
    | OfferWithdrawn(c: nat, w: nat)
    | CancelRun(c: nat, run: RunId)
    | GateTake(c: nat)
    | GateSend(c: nat)
    | GateReceive(c: nat)
    | AnswerJob(c: nat, job: nat)
    | GateTeardown(c: nat)
    | NewThread(thread: string, owner: string)
    | NewMessage(thread: string, message: Message)
    | ClientReceive(verdict: C.Verdict)
    | Report(run: RunId, event: string)
    | FinishRun(run: RunId)
    | Ask(w: nat, id: QueryId, thread: string, limit: Option<int>)
    | QueryResumes(w: nat)
    | QueryTimesOut(w: nat)
    | QueryWithdrawn(w: nat)
    | ClientTake
    | ClientSend
    | ClientTeardown
    | CutWire(c: nat, keepDown: nat, keepUp: nat)

  // ---- Steps

  const NO_ANSWER := "souk did not answer"

  function SetConn(r: Relay, c: nat, k: Conn): Relay
    requires c < |r.conns|
  {
    r.(conns := r.conns[c := k])
  }

  function WithPipe(r: Relay, pipe: P.Pipe<UpFrame>): Relay
  {
    r.(client := r.client.(pipe := pipe))
  }

  function ThreadLength(store: Store, thread: string): nat
  {
    if thread in store then |store[thread].messages| else 0
  }

  /** `deliver` up to its wait. Input that does not validate is refused without a frame. */
  function OfferOn(r: Relay, c: nat, w: nat, run: RunId, agent: string, validates: bool, why: string): Relay
    requires c < |r.conns|
  {
    var k := r.conns[c];
    if w in k.socket.acks.waiters then r
    else if validates then SetConn(r, c, k.(socket := S.Offer(k.socket, w, run, agent)))
    else
      var refused := F.Waiter(run, F.Returned(Refusal(S.InputRefusal(why))));
      var acks := k.socket.acks.(waiters := k.socket.acks.waiters[w := refused]);
      SetConn(r, c, k.(socket := k.socket.(acks := acks)))
        .(ledger := r.ledger.(refusals := r.ledger.refusals + {(run, S.InputRefusal(why))}))
  }

  function WithAcks(r: Relay, c: nat, acks: F.Table<RunId, Answer>): Relay
    requires c < |r.conns|
  {
    SetConn(r, c, r.conns[c].(socket := r.conns[c].socket.(acks := acks)))
  }

  function CallOn(r: Relay, c: nat, op: F.Op<RunId, Answer>): Relay
  {
    if c < |r.conns| then WithAcks(r, c, F.Apply(r.conns[c].socket.acks, op)) else r
  }

  function CancelOn(r: Relay, c: nat, run: RunId): Relay
    requires c < |r.conns|
  {
    SetConn(r, c, r.conns[c].(socket := S.Push(r.conns[c].socket, Cancel(run))))
  }

  function GateTakeOn(r: Relay, c: nat): Relay
    requires c < |r.conns| && r.conns[c].socket.outbound != []
  {
    var k := r.conns[c];
    SetConn(r, c, k.(hand := [k.socket.outbound[0]], socket := k.socket.(outbound := k.socket.outbound[1..])))
  }

  function GateSendOn(r: Relay, c: nat): Relay
    requires c < |r.conns| && c < |r.client.pipe.lines|
  {
    var k := r.conns[c];
    SetConn(r, c, k.(hand := [], down := if r.client.pipe.lines[c].cut then k.down else k.down + k.hand))
  }

  function GateTeardownOn(r: Relay, c: nat): Relay
    requires c < |r.conns| && c < |r.client.pipe.lines|
  {
    var k := r.conns[c].(socket := S.FailPending(r.conns[c].socket), hand := [], open := false);
    WithPipe(SetConn(r, c, k), P.Cut(r.client.pipe, c, |r.client.pipe.lines[c].transit|))
  }

  function CutOn(r: Relay, c: nat, keepDown: nat, keepUp: nat): Relay
    requires c < |r.conns|
  {
    WithPipe(SetConn(r, c, r.conns[c].(down := Keep(r.conns[c].down, keepDown))), P.Cut(r.client.pipe, c, keepUp))
  }

  /** What the gateway does with a frame from the provider. Events and finishes go to core,
      which is not part of this model. */
  function Dispatch(k: Conn, f: UpFrame): Conn
  {
    match f
    case Ack(run, accepted, reason) => k.(socket := S.AckArrives(k.socket, run, accepted, reason))
    case Query(_, _, _, _) => k.(jobs := k.jobs + [f])
    case Event(_, _) => k
    case Finish(_) => k
  }

  function GateReceiveOn(r: Relay, c: nat): Relay
    requires c < |r.conns| && c < |r.client.pipe.lines| && r.client.pipe.lines[c].transit != []
  {
    var f := r.client.pipe.lines[c].transit[0];
    WithPipe(SetConn(r, c, Dispatch(r.conns[c], f)), P.Receive(r.client.pipe, c))
  }

  function AnswerJobOn(r: Relay, c: nat, job: nat): Relay
    requires c < |r.conns| && job < |r.conns[c].jobs| && r.conns[c].jobs[job].Query?
  {
    var k := r.conns[c];
    var answer := AnswerQuery(r.store, r.key, k.jobs[job]);
    SetConn(r, c, k.(jobs := k.jobs[..job] + k.jobs[job + 1..], socket := S.Push(k.socket, answer)))
  }

  /** The head of what is in transit on the provider's current connection. */
  predicate ClientHasFrame(r: Relay)
  {
    r.client.pipe.current.Some? && r.client.pipe.current.value < |r.conns|
    && r.conns[r.client.pipe.current.value].down != []
  }

  function Record(r: Relay, f: DownFrame, v: C.Verdict): Ledger
  {
    if !f.Run? then r.ledger
    else if C.ReachesRuntime(r.client, f.agent, v)
    then r.ledger.(toRuntime := r.ledger.toRuntime + [(f.run, f.agent)],
                   taken := r.ledger.taken + if v.accepted then {f.run} else {})
    else if f.agent in r.client.hosted
    then r.ledger.(refusals := r.ledger.refusals + {(f.run, C.RefusalReason(v.why))})
    else r.ledger
  }

  function ClientReceiveOn(r: Relay, v: C.Verdict): Relay
    requires ClientHasFrame(r)
  {
    var c := r.client.pipe.current.value;
    var k := r.conns[c];
    SetConn(r, c, k.(down := k.down[1..]))
      .(client := C.OnFrame(r.client, k.down[0], v), ledger := Record(r, k.down[0], v))
  }

  function AskOn(r: Relay, w: nat, id: QueryId, thread: string, limit: Option<int>): Relay
  {
    r.(client := C.Ask(r.client, w, id, thread, limit),
       ledger := r.ledger.(asked := r.ledger.asked[id := Asked(thread, limit, ThreadLength(r.store, thread))]))
  }

  /** What a step other than asking does to the table of queries. */
  function QueryOp(l: Label): F.Op<QueryId, QueryOutcome>
    requires l.QueryResumes? || l.QueryTimesOut? || l.QueryWithdrawn?
  {
    match l
    case QueryResumes(w) => F.DoResume(w)
    case QueryTimesOut(w) => F.DoExpire(w, QueryFailed(NO_ANSWER))
    case QueryWithdrawn(w) => F.DoWithdraw(w)
  }

  function QueryOn(r: Relay, op: F.Op<QueryId, QueryOutcome>): Relay
  {
    r.(client := r.client.(queries := F.Apply(r.client.queries, op)))
  }

  function PipeOn(r: Relay, m: P.Move<UpFrame>): Relay
  {
    WithPipe(r, P.Apply(r.client.pipe, m))
  }

  function ThreadOn(r: Relay, thread: string, t: Thread): Relay
  {
    r.(store := r.store[thread := t])
  }

  /** One step; what is not enabled changes nothing. Query ids are minted once. */
  function Step(r: Relay, l: Label): Relay
  {
    match l
    case Connect =>
      if r.client.pipe.current.Some? then r
      else r.(client := r.client.(pipe := P.Connect(r.client.pipe)), conns := r.conns + [NEW_CONN])
    case Offer(c, w, run, agent, validates, why) =>
      if c < |r.conns| then OfferOn(r, c, w, run, agent, validates, why) else r
    case OfferResumes(c, w) => CallOn(r, c, F.DoResume(w))
    case OfferTimesOut(c, w) => CallOn(r, c, F.DoExpire(w, Declined))
    case OfferWithdrawn(c, w) => CallOn(r, c, F.DoWithdraw(w))
    case CancelRun(c, run) => if c < |r.conns| then CancelOn(r, c, run) else r
    case GateTake(c) =>
      if c < |r.conns| && r.conns[c].open && r.conns[c].hand == [] && r.conns[c].socket.outbound != []
      then GateTakeOn(r, c) else r
    case GateSend(c) => if c < |r.conns| && c < |r.client.pipe.lines| then GateSendOn(r, c) else r
    case GateReceive(c) =>
      if c < |r.conns| && r.conns[c].open && c < |r.client.pipe.lines| && r.client.pipe.lines[c].transit != []
      then GateReceiveOn(r, c) else r
    case AnswerJob(c, job) =>
      if c < |r.conns| && job < |r.conns[c].jobs| && r.conns[c].jobs[job].Query? then AnswerJobOn(r, c, job) else r
    case GateTeardown(c) =>
      if c < |r.conns| && r.conns[c].open && c < |r.client.pipe.lines| then GateTeardownOn(r, c) else r
    case NewThread(thread, owner) => if thread in r.store then r else ThreadOn(r, thread, Thread(owner, []))
    case NewMessage(thread, m) =>
      if thread in r.store
      then ThreadOn(r, thread, r.store[thread].(messages := r.store[thread].messages + [m])) else r
    case ClientReceive(v) => if ClientHasFrame(r) then ClientReceiveOn(r, v) else r
    case Report(run, event) => r.(client := C.Say(r.client, Event(run, event)))
    case FinishRun(run) => r.(client := C.Say(r.client, Finish(run)))
    case Ask(w, id, thread, limit) =>
      if w in r.client.queries.waiters || id in r.ledger.asked then r else AskOn(r, w, id, thread, limit)
    case QueryResumes(_) => QueryOn(r, QueryOp(l))
    case QueryTimesOut(_) => QueryOn(r, QueryOp(l))
    case QueryWithdrawn(_) => QueryOn(r, QueryOp(l))
    case ClientTake => PipeOn(r, P.DoTake)
    case ClientSend => PipeOn(r, P.DoSend)
    case ClientTeardown => if r.client.pipe.current.Some? then r.(client := C.Disconnect(r.client)) else r
    case CutWire(c, keepDown, keepUp) => if c < |r.conns| then CutOn(r, c, keepDown, keepUp) else r
  }

  function Run(start: Relay, labels: seq<Label>): Relay
  {
    if labels == [] then start else Step(Run(start, labels[..|labels| - 1]), labels[|labels| - 1])
  }

  // ---- What every frame and every answer rests on

  /** An ack that accepts means the runtime accepted the run; one with a reason means the
      run was refused, in those words. A query is the question that was asked. */
  ghost predicate UpIsHonest(l: Ledger, f: UpFrame)
  {
    match f
    case Ack(run, accepted, reason) =>
      && (AnswerOf(accepted, reason) == Taken ==> run in l.taken)
      && (AnswerOf(accepted, reason).Refusal? ==> (run, AnswerOf(accepted, reason).reason) in l.refusals)
    case Query(id, _, thread, limit) =>
      id in l.asked && l.asked[id].thread == thread && l.asked[id].limit == limit
    case _ => true
  }

  /** The rows are the last ones of the thread that was asked for, as it stood at some
      moment since the question, and the thread belongs to the key. */
  ghost predicate Truthful(key: string, store: Store, a: Asked, rows: seq<Message>)
  {
    && a.thread in store && store[a.thread].owner == key
    && (a.limit.Some? ==> a.limit.value > 0)
    && exists n :: a.since <= n <= |store[a.thread].messages|
         && rows == LastOf(store[a.thread].messages[..n], a.limit)
  }

  ghost predicate DownIsHonest(key: string, store: Store, l: Ledger, f: DownFrame)
  {
    f.QueryResult? && f.outcome.Rows? ==> f.id in l.asked && Truthful(key, store, l.asked[f.id], f.outcome.rows)
  }

  ghost predicate AnswerIsHonest(l: Ledger, run: RunId, a: Option<Answer>)
  {
    && (a == Some(Taken) ==> run in l.taken)
    && (a.Some? && a.value.Refusal? ==> (run, a.value.reason) in l.refusals)
  }

  ghost predicate AnswersAreHonest(l: Ledger, t: F.Table<RunId, Answer>)
  {
    && F.IsKeyed(t)
    && forall w :: w in t.waiters ==> AnswerIsHonest(l, t.waiters[w].key, F.Decision(t.waiters[w].fate))
  }

  ghost predicate OutcomeIsHonest(key: string, store: Store, l: Ledger, id: QueryId, o: Option<QueryOutcome>)
  {
    id in l.asked && (o.Some? && o.value.Rows? ==> Truthful(key, store, l.asked[id], o.value.rows))
  }

  ghost predicate RowsAreHonest(key: string, store: Store, l: Ledger, t: F.Table<QueryId, QueryOutcome>)
  {
    && F.TableInv(t)
    && forall w :: w in t.waiters ==> OutcomeIsHonest(key, store, l, t.waiters[w].key, F.Decision(t.waiters[w].fate))
  }

  /** Lengths at the time of asking are still within the thread. */
  ghost predicate SinceIsPast(store: Store, l: Ledger)
  {
    forall id :: id in l.asked ==> l.asked[id].since <= ThreadLength(store, l.asked[id].thread)
  }

  ghost predicate ConnIsHonest(key: string, store: Store, l: Ledger, k: Conn)
  {
    && AnswersAreHonest(l, k.socket.acks)
    && (forall f :: f in k.socket.outbound ==> DownIsHonest(key, store, l, f))
    && (forall f :: f in k.hand ==> DownIsHonest(key, store, l, f))
    && (forall f :: f in k.down ==> DownIsHonest(key, store, l, f))
    && (forall f :: f in k.jobs ==> f.Query? && UpIsHonest(l, f))
  }

  ghost predicate ClientIsHonest(r: Relay)
  {
    && P.PipeInv(r.client.pipe)
    && (forall f :: f in r.client.pipe.enqueued ==> UpIsHonest(r.ledger, f))
    && RowsAreHonest(r.key, r.store, r.ledger, r.client.queries)
    && (forall i :: 0 <= i < |r.ledger.toRuntime| ==> r.ledger.toRuntime[i].1 in r.client.hosted)
  }

  ghost predicate Inv(r: Relay)
  {
    && |r.conns| == |r.client.pipe.lines|
    && SinceIsPast(r.store, r.ledger)
    && ClientIsHonest(r)
    && (forall c :: 0 <= c < |r.conns| ==> ConnIsHonest(r.key, r.store, r.ledger, r.conns[c]))
  }

  // ---- The record only grows

  /** Threads keep their owner and only gain messages; the ledger only gains entries. */
  ghost predicate Grows(store: Store, l: Ledger, store': Store, l': Ledger)
  {
    && l.taken <= l'.taken && l.refusals <= l'.refusals
    && (forall id :: id in l.asked ==> id in l'.asked && l'.asked[id] == l.asked[id])
    && (forall t :: t in store ==>
          t in store' && store'[t].owner == store[t].owner && store[t].messages <= store'[t].messages)
  }

  lemma TruthfulGrows(key: string, store: Store, l: Ledger, store': Store, l': Ledger, a: Asked, rows: seq<Message>)
    requires Grows(store, l, store', l') && Truthful(key, store, a, rows)
    ensures Truthful(key, store', a, rows)
  {
    var old_, new_ := store[a.thread].messages, store'[a.thread].messages;
    var n :| a.since <= n <= |old_| && rows == LastOf(old_[..n], a.limit);
    assert new_[..n] == old_[..n];
  }

  lemma DownGrows(key: string, store: Store, l: Ledger, store': Store, l': Ledger, f: DownFrame)
    requires Grows(store, l, store', l') && DownIsHonest(key, store, l, f)
    ensures DownIsHonest(key, store', l', f)
  {
    if f.QueryResult? && f.outcome.Rows? {
      TruthfulGrows(key, store, l, store', l', l.asked[f.id], f.outcome.rows);
    }
  }

  lemma ConnGrows(key: string, store: Store, l: Ledger, store': Store, l': Ledger, k: Conn)
    requires Grows(store, l, store', l') && ConnIsHonest(key, store, l, k)
    ensures ConnIsHonest(key, store', l', k)
  {
    forall f | f in k.socket.outbound ensures DownIsHonest(key, store', l', f) {
      DownGrows(key, store, l, store', l', f);
    }
    forall f | f in k.hand ensures DownIsHonest(key, store', l', f) {
      DownGrows(key, store, l, store', l', f);
    }
    forall f | f in k.down ensures DownIsHonest(key, store', l', f) {
      DownGrows(key, store, l, store', l', f);
    }
  }

  lemma RowsGrow(key: string, store: Store, l: Ledger, store': Store, l': Ledger, t: F.Table<QueryId, QueryOutcome>)
    requires Grows(store, l, store', l') && RowsAreHonest(key, store, l, t)
    ensures RowsAreHonest(key, store', l', t)
  {
    forall w | w in t.waiters
      ensures OutcomeIsHonest(key, store', l', t.waiters[w].key, F.Decision(t.waiters[w].fate))
    {
      var o := F.Decision(t.waiters[w].fate);
      if o.Some? && o.value.Rows? {
        TruthfulGrows(key, store, l, store', l', l.asked[t.waiters[w].key], o.value.rows);
      }
    }
  }

  /** Connections other than `c` are carried over a step that only lets the record grow. */
  lemma OthersCarryOver(r: Relay, r': Relay, c: nat)
    requires Inv(r) && r'.key == r.key && Grows(r.store, r.ledger, r'.store, r'.ledger)
    requires |r'.conns| == |r.conns|
    requires forall d :: 0 <= d < |r.conns| && d != c ==> r'.conns[d] == r.conns[d]
    ensures forall d :: 0 <= d < |r.conns| && d != c ==> ConnIsHonest(r'.key, r'.store, r'.ledger, r'.conns[d])
  {
    forall d | 0 <= d < |r.conns| && d != c ensures ConnIsHonest(r'.key, r'.store, r'.ledger, r'.conns[d]) {
      ConnGrows(r.key, r.store, r.ledger, r'.store, r'.ledger, r.conns[d]);
    }
  }

  /** A step that replaces at most one connection by an honest one, adds at most one
      honest frame to the pipe, and only lets the record grow. */
  lemma GrowingStep(r: Relay, r': Relay, c: nat)
    requires Inv(r) && r'.key == r.key && Grows(r.store, r.ledger, r'.store, r'.ledger)
    requires |r'.conns| == |r.conns| == |r'.client.pipe.lines|
    requires forall d :: 0 <= d < |r.conns| && d != c ==> r'.conns[d] == r.conns[d]
    requires c < |r.conns| ==> ConnIsHonest(r'.key, r'.store, r'.ledger, r'.conns[c])
    requires SinceIsPast(r'.store, r'.ledger)
    requires RowsAreHonest(r'.key, r'.store, r'.ledger, r'.client.queries)
    requires P.PipeInv(r'.client.pipe)
    requires forall f :: f in r'.client.pipe.enqueued ==> f in r.client.pipe.enqueued || UpIsHonest(r'.ledger, f)
    requires forall i :: 0 <= i < |r'.ledger.toRuntime| ==> r'.ledger.toRuntime[i].1 in r'.client.hosted
    ensures Inv(r')
  {
    OthersCarryOver(r, r', c);
    forall f | f in r'.client.pipe.enqueued ensures UpIsHonest(r'.ledger, f) {
      assert f in r.client.pipe.enqueued ==> UpIsHonest(r.ledger, f);
    }
  }

  /** A step at the gateway's end: one connection changes, the record does not. */
  lemma ConnStep(r: Relay, c: nat, k: Conn)
    requires Inv(r) && c < |r.conns| && ConnIsHonest(r.key, r.store, r.ledger, k)
    ensures Inv(SetConn(r, c, k))
  {}

  /** A step of the provider alone: its pipe or its table of queries moves. */
  lemma ClientStep(r: Relay, pipe: P.Pipe<UpFrame>, queries: F.Table<QueryId, QueryOutcome>)
    requires Inv(r) && P.PipeInv(pipe) && |pipe.lines| == |r.conns|
    requires forall f :: f in pipe.enqueued ==> f in r.client.pipe.enqueued || UpIsHonest(r.ledger, f)
    requires RowsAreHonest(r.key, r.store, r.ledger, queries)
    ensures Inv(r.(client := r.client.(pipe := pipe, queries := queries)))
  {}

  // ---- Tables

  /** What `op` may bring into a table of acks. */
  ghost predicate OpIsHonest(l: Ledger, op: F.Op<RunId, Answer>)
  {
    match op
    case DoResolve(run, a) => AnswerIsHonest(l, run, Some(a))
    case DoExpire(_, a) => a == Declined
    case DoFailAll(a) => a == Declined
    case _ => true
  }

  lemma AcksStayHonest(l: Ledger, t: F.Table<RunId, Answer>, op: F.Op<RunId, Answer>)
    requires AnswersAreHonest(l, t) && OpIsHonest(l, op)
    ensures AnswersAreHonest(l, F.Apply(t, op))
  {
    F.OpKeepsKeys(t, op);
    var t' := F.Apply(t, op);
    forall w | w in t'.waiters ensures AnswerIsHonest(l, t'.waiters[w].key, F.Decision(t'.waiters[w].fate)) {
      assert w in t.waiters ==> AnswerIsHonest(l, t.waiters[w].key, F.Decision(t.waiters[w].fate));
    }
  }

  ghost predicate QueryOpIsHonest(key: string, store: Store, l: Ledger, t: F.Table<QueryId, QueryOutcome>,
                                  op: F.Op<QueryId, QueryOutcome>)
  {
    match op
    case DoRegister(_, id) => id in l.asked && F.NoLiveCall(t, id)
    case DoResolve(id, o) => o.Rows? && id in l.asked ==> Truthful(key, store, l.asked[id], o.rows)
    case DoExpire(_, o) => o.QueryFailed?
    case DoFailAll(o) => o.QueryFailed?
    case _ => true
  }

  lemma QueriesStayHonest(key: string, store: Store, l: Ledger, t: F.Table<QueryId, QueryOutcome>,
                          op: F.Op<QueryId, QueryOutcome>)
    requires RowsAreHonest(key, store, l, t) && QueryOpIsHonest(key, store, l, t, op)
    ensures RowsAreHonest(key, store, l, F.Apply(t, op))
  {
    F.OpKeepsInv(t, op);
    var t' := F.Apply(t, op);
    forall w | w in t'.waiters
      ensures OutcomeIsHonest(key, store, l, t'.waiters[w].key, F.Decision(t'.waiters[w].fate))
    {
      assert w in t.waiters ==> OutcomeIsHonest(key, store, l, t.waiters[w].key, F.Decision(t.waiters[w].fate));
    }
  }

  // ---- Each kind of step

  /** A step that moves the provider's pipe and enqueues nothing. */
  lemma PipeStep(r: Relay, pipe: P.Pipe<UpFrame>)
    requires Inv(r) && P.PipeInv(pipe) && |pipe.lines| == |r.conns| && pipe.enqueued == r.client.pipe.enqueued
    ensures Inv(WithPipe(r, pipe))
  {
    ClientStep(r, pipe, r.client.queries);
  }

  lemma RefusedIsHonest(l: Ledger, l': Ledger, t: F.Table<RunId, Answer>, w: nat, run: RunId, reason: string)
    requires AnswersAreHonest(l', t) && w !in t.waiters && (run, reason) in l'.refusals
    ensures AnswersAreHonest(l', t.(waiters := t.waiters[w := F.Waiter(run, F.Returned(Refusal(reason)))]))
  {}

  lemma RefusalKeepsInv(r: Relay, c: nat, w: nat, run: RunId, agent: string, why: string)
    requires Inv(r) && c < |r.conns| && w !in r.conns[c].socket.acks.waiters
    ensures Inv(OfferOn(r, c, w, run, agent, false, why))
  {
    var k, r' := r.conns[c], OfferOn(r, c, w, run, agent, false, why);
    ConnGrows(r.key, r.store, r.ledger, r'.store, r'.ledger, k);
    RowsGrow(r.key, r.store, r.ledger, r'.store, r'.ledger, r.client.queries);
    RefusedIsHonest(r.ledger, r'.ledger, k.socket.acks, w, run, S.InputRefusal(why));
    GrowingStep(r, r', c);
  }

  lemma OfferKeepsInv(r: Relay, c: nat, w: nat, run: RunId, agent: string, validates: bool, why: string)
    requires Inv(r) && c < |r.conns|
    ensures Inv(OfferOn(r, c, w, run, agent, validates, why))
  {
    var k := r.conns[c];
    if w !in k.socket.acks.waiters {
      if validates {
        AcksStayHonest(r.ledger, k.socket.acks, F.DoRegister(w, run));
        ConnStep(r, c, k.(socket := S.Offer(k.socket, w, run, agent)));
      } else {
        RefusalKeepsInv(r, c, w, run, agent, why);
      }
    }
  }

  lemma CallKeepsInv(r: Relay, c: nat, op: F.Op<RunId, Answer>)
    requires Inv(r) && OpIsHonest(r.ledger, op)
    ensures Inv(CallOn(r, c, op))
  {
    if c < |r.conns| {
      var k := r.conns[c];
      AcksStayHonest(r.ledger, k.socket.acks, op);
      ConnStep(r, c, k.(socket := k.socket.(acks := F.Apply(k.socket.acks, op))));
    }
  }

  lemma CancelKeepsInv(r: Relay, c: nat, run: RunId)
    requires Inv(r) && c < |r.conns|
    ensures Inv(CancelOn(r, c, run))
  {
    ConnStep(r, c, CancelOn(r, c, run).conns[c]);
  }

  lemma GateTakeKeepsInv(r: Relay, c: nat)
    requires Inv(r) && c < |r.conns| && r.conns[c].socket.outbound != []
    ensures Inv(GateTakeOn(r, c))
  {
    ConnStep(r, c, GateTakeOn(r, c).conns[c]);
  }

  lemma GateSendKeepsInv(r: Relay, c: nat)
    requires Inv(r) && c < |r.conns|
    ensures Inv(GateSendOn(r, c))
  {
    ConnStep(r, c, GateSendOn(r, c).conns[c]);
  }

  lemma GateTeardownKeepsInv(r: Relay, c: nat)
    requires Inv(r) && c < |r.conns|
    ensures Inv(GateTeardownOn(r, c))
  {
    var k := r.conns[c].(socket := S.FailPending(r.conns[c].socket), hand := [], open := false);
    AcksStayHonest(r.ledger, r.conns[c].socket.acks, F.DoFailAll(Declined));
    ConnStep(r, c, k);
    P.CutKeepsInv(r.client.pipe, c, |r.client.pipe.lines[c].transit|);
    PipeStep(SetConn(r, c, k), P.Cut(r.client.pipe, c, |r.client.pipe.lines[c].transit|));
  }

  lemma CutKeepsInv(r: Relay, c: nat, keepDown: nat, keepUp: nat)
    requires Inv(r) && c < |r.conns|
    ensures Inv(CutOn(r, c, keepDown, keepUp))
  {
    var k := r.conns[c].(down := Keep(r.conns[c].down, keepDown));
    ConnStep(r, c, k);
    P.CutKeepsInv(r.client.pipe, c, keepUp);
    PipeStep(SetConn(r, c, k), P.Cut(r.client.pipe, c, keepUp));
  }

  lemma DispatchIsHonest(r: Relay, c: nat, f: UpFrame)
    requires Inv(r) && c < |r.conns| && UpIsHonest(r.ledger, f)
    ensures ConnIsHonest(r.key, r.store, r.ledger, Dispatch(r.conns[c], f))
  {
    if f.Ack? {
      AcksStayHonest(r.ledger, r.conns[c].socket.acks, F.DoResolve(f.run, AnswerOf(f.accepted, f.reason)));
    }
  }

  lemma GateReceiveKeepsInv(r: Relay, c: nat)
    requires Inv(r) && c < |r.conns| && r.client.pipe.lines[c].transit != []
    ensures Inv(GateReceiveOn(r, c))
  {
    var f := r.client.pipe.lines[c].transit[0];
    P.ArrivingWasEnqueued(r.client.pipe, c);
    DispatchIsHonest(r, c, f);
    ConnStep(r, c, Dispatch(r.conns[c], f));
    P.ReceiveKeepsInv(r.client.pipe, c);
    PipeStep(SetConn(r, c, Dispatch(r.conns[c], f)), P.Receive(r.client.pipe, c));
  }

  /** The gateway's lookup answers the very question that was asked. */
  lemma AnswerIsTruthful(key: string, store: Store, l: Ledger, q: UpFrame)
    requires q.Query? && UpIsHonest(l, q) && SinceIsPast(store, l)
    ensures DownIsHonest(key, store, l, AnswerQuery(store, key, q))
  {
    var a := AnswerQuery(store, key, q);
    if a.QueryResult? && a.outcome.Rows? {
      var all := store[q.thread].messages;
      assert all[..|all|] == all;
      assert l.asked[q.id].since <= ThreadLength(store, l.asked[q.id].thread);
    }
  }

  lemma AnswerJobKeepsInv(r: Relay, c: nat, job: nat)
    requires Inv(r) && c < |r.conns| && job < |r.conns[c].jobs| && r.conns[c].jobs[job].Query?
    ensures Inv(AnswerJobOn(r, c, job))
  {
    var q := r.conns[c].jobs[job];
    assert q in r.conns[c].jobs;
    AnswerIsTruthful(r.key, r.store, r.ledger, q);
    ConnStep(r, c, AnswerJobOn(r, c, job).conns[c]);
  }

  /** A thread is made, or gains messages. */
  lemma ThreadKeepsInv(r: Relay, thread: string, t: Thread)
    requires Inv(r)
    requires thread in r.store ==> t.owner == r.store[thread].owner && r.store[thread].messages <= t.messages
    ensures Inv(ThreadOn(r, thread, t))
  {
    var r' := ThreadOn(r, thread, t);
    assert Grows(r.store, r.ledger, r'.store, r'.ledger);
    RowsGrow(r.key, r.store, r.ledger, r'.store, r'.ledger, r.client.queries);
    LengthsGrow(r, r');
    GrowingStep(r, r', |r.conns|);
  }

  lemma LengthsGrow(r: Relay, r': Relay)
    requires SinceIsPast(r.store, r.ledger) && Grows(r.store, r.ledger, r'.store, r'.ledger) && r'.ledger == r.ledger
    ensures SinceIsPast(r'.store, r'.ledger)
  {
    forall id | id in r.ledger.asked
      ensures r.ledger.asked[id].since <= ThreadLength(r'.store, r.ledger.asked[id].thread)
    {
      assert r.ledger.asked[id].since <= ThreadLength(r.store, r.ledger.asked[id].thread);
    }
  }

  lemma SayKeepsPipe(p: P.Pipe<UpFrame>, f: UpFrame)
    requires P.PipeInv(p)
    ensures P.PipeInv(P.Enqueue(p, f))
  {
    P.MoveKeepsInv(p, P.DoEnqueue(f));
  }

  lemma RecordGrows(r: Relay, f: DownFrame, v: C.Verdict)
    ensures Grows(r.store, r.ledger, r.store, Record(r, f, v)) && Record(r, f, v).asked == r.ledger.asked
  {}

  lemma AckIsHonest(r: Relay, f: DownFrame, v: C.Verdict)
    requires f.Run?
    ensures UpIsHonest(Record(r, f, v), C.AckFor(r.client, f.run, f.agent, v))
  {}

  lemma ReceivedPipeIsHonest(r: Relay, f: DownFrame, v: C.Verdict)
    requires Inv(r)
    ensures var pipe := C.OnFrame(r.client, f, v).pipe;
            && P.PipeInv(pipe) && |pipe.lines| == |r.conns|
            && forall g :: g in pipe.enqueued ==> g in r.client.pipe.enqueued || UpIsHonest(Record(r, f, v), g)
  {
    if f.Run? {
      SayKeepsPipe(r.client.pipe, C.AckFor(r.client, f.run, f.agent, v));
      AckIsHonest(r, f, v);
    }
  }

  lemma ReceivedRowsAreHonest(r: Relay, f: DownFrame, v: C.Verdict)
    requires Inv(r) && DownIsHonest(r.key, r.store, r.ledger, f)
    ensures RowsAreHonest(r.key, r.store, Record(r, f, v), C.OnFrame(r.client, f, v).queries)
  {
    RecordGrows(r, f, v);
    RowsGrow(r.key, r.store, r.ledger, r.store, Record(r, f, v), r.client.queries);
    if f.QueryResult? {
      QueriesStayHonest(r.key, r.store, r.ledger, r.client.queries, F.DoResolve(f.id, f.outcome));
    }
  }

  lemma ClientReceiveKeepsInv(r: Relay, v: C.Verdict)
    requires Inv(r) && ClientHasFrame(r)
    ensures Inv(ClientReceiveOn(r, v))
  {
    var c := r.client.pipe.current.value;
    var k := r.conns[c];
    var f, r' := k.down[0], ClientReceiveOn(r, v);
    assert f in k.down;
    RecordGrows(r, f, v);
    ConnGrows(r.key, r.store, r.ledger, r.store, r'.ledger, k);
    assert ConnIsHonest(r.key, r.store, r'.ledger, k.(down := k.down[1..]));
    ReceivedRowsAreHonest(r, f, v);
    ReceivedPipeIsHonest(r, f, v);
    GrowingStep(r, r', c);
  }

  lemma AskedRowsAreHonest(r: Relay, w: nat, id: QueryId, asked: Asked)
    requires Inv(r) && id !in r.ledger.asked
    ensures RowsAreHonest(r.key, r.store, r.ledger.(asked := r.ledger.asked[id := asked]),
                          F.Register(r.client.queries, w, id))
  {
    var l := r.ledger.(asked := r.ledger.asked[id := asked]);
    RowsGrow(r.key, r.store, r.ledger, r.store, l, r.client.queries);
    forall v | v in r.client.queries.waiters ensures r.client.queries.waiters[v].key != id {
      assert OutcomeIsHonest(r.key, r.store, r.ledger, r.client.queries.waiters[v].key,
                             F.Decision(r.client.queries.waiters[v].fate));
    }
    QueriesStayHonest(r.key, r.store, l, r.client.queries, F.DoRegister(w, id));
  }

  lemma AskKeepsInv(r: Relay, w: nat, id: QueryId, thread: string, limit: Option<int>)
    requires Inv(r) && id !in r.ledger.asked
    ensures Inv(AskOn(r, w, id, thread, limit))
  {
    var r' := AskOn(r, w, id, thread, limit);
    AskedRowsAreHonest(r, w, id, Asked(thread, limit, ThreadLength(r.store, thread)));
    SayKeepsPipe(r.client.pipe, Query(id, THREAD_MESSAGES, thread, limit));
    GrowingStep(r, r', |r.conns|);
  }

  lemma SayKeepsInv(r: Relay, f: UpFrame)
    requires Inv(r) && UpIsHonest(r.ledger, f)
    ensures Inv(r.(client := C.Say(r.client, f)))
  {
    SayKeepsPipe(r.client.pipe, f);
    ClientStep(r, P.Enqueue(r.client.pipe, f), r.client.queries);
  }

  lemma QueriesKeepInv(r: Relay, op: F.Op<QueryId, QueryOutcome>)
    requires Inv(r) && QueryOpIsHonest(r.key, r.store, r.ledger, r.client.queries, op)
    ensures Inv(QueryOn(r, op))
  {
    QueriesStayHonest(r.key, r.store, r.ledger, r.client.queries, op);
    ClientStep(r, r.client.pipe, F.Apply(r.client.queries, op));
  }

  lemma PipeKeepsInv(r: Relay, m: P.Move<UpFrame>)
    requires Inv(r) && (m.DoTake? || m.DoSend? || m.DoTearDown?)
    ensures Inv(PipeOn(r, m))
  {
    P.MoveKeepsInv(r.client.pipe, m);
    PipeStep(r, P.Apply(r.client.pipe, m));
  }

  lemma TeardownKeepsInv(r: Relay)
    requires Inv(r)
    ensures Inv(r.(client := C.Disconnect(r.client)))
  {
    PipeKeepsInv(r, P.DoTearDown);
    QueriesKeepInv(PipeOn(r, P.DoTearDown), F.DoFailAll(QueryFailed("souk connection closed")));
  }

  lemma ConnectKeepsInv(r: Relay)
    requires Inv(r) && r.client.pipe.current.None?
    ensures Inv(Step(r, Connect))
  {
    var r' := Step(r, Connect);
    P.MoveKeepsInv(r.client.pipe, P.DoConnect);
    forall d | 0 <= d < |r'.conns| ensures ConnIsHonest(r'.key, r'.store, r'.ledger, r'.conns[d]) {
      assert d < |r.conns| ==> ConnIsHonest(r.key, r.store, r.ledger, r.conns[d]);
    }
  }

  predicate IsCall(l: Label)
  {
    l.Offer? || l.OfferResumes? || l.OfferTimesOut? || l.OfferWithdrawn?
  }

  predicate IsGateWriter(l: Label)
  {
    l.CancelRun? || l.GateTake? || l.GateSend?
  }

  predicate IsGateOther(l: Label)
  {
    l.GateReceive? || l.AnswerJob? || l.GateTeardown? || l.CutWire?
  }

  predicate IsQuery(l: Label)
  {
    l.Ask? || l.QueryResumes? || l.QueryTimesOut? || l.QueryWithdrawn?
  }

  lemma CallStepKeepsInv(r: Relay, l: Label)
    requires Inv(r) && IsCall(l)
    ensures Inv(Step(r, l))
  {
    match l
    case Offer(c, w, run, agent, validates, why) =>
      if c < |r.conns| { OfferKeepsInv(r, c, w, run, agent, validates, why); }
    case OfferResumes(c, w) => CallKeepsInv(r, c, F.DoResume(w));
    case OfferTimesOut(c, w) => CallKeepsInv(r, c, F.DoExpire(w, Declined));
    case OfferWithdrawn(c, w) => CallKeepsInv(r, c, F.DoWithdraw(w));
  }

  lemma GateWriterKeepsInv(r: Relay, l: Label)
    requires Inv(r) && IsGateWriter(l)
    ensures Inv(Step(r, l))
  {
    if l.c < |r.conns| {
      match l
      case CancelRun(c, run) => CancelKeepsInv(r, c, run);
      case GateTake(c) => if r.conns[c].socket.outbound != [] { GateTakeKeepsInv(r, c); }
      case GateSend(c) => GateSendKeepsInv(r, c);
    }
  }

  lemma GateReaderKeepsInv(r: Relay, l: Label)
    requires Inv(r) && (l.GateReceive? || l.AnswerJob?)
    ensures Inv(Step(r, l))
  {
    if l.c < |r.conns| {
      match l
      case GateReceive(c) => if r.client.pipe.lines[c].transit != [] { GateReceiveKeepsInv(r, c); }
      case AnswerJob(c, job) =>
        if job < |r.conns[c].jobs| && r.conns[c].jobs[job].Query? { AnswerJobKeepsInv(r, c, job); }
    }
  }

  lemma GateEndKeepsInv(r: Relay, l: Label)
    requires Inv(r) && (l.GateTeardown? || l.CutWire?)
    ensures Inv(Step(r, l))
  {
    if l.c < |r.conns| {
      match l
      case GateTeardown(c) => GateTeardownKeepsInv(r, c);
      case CutWire(c, keepDown, keepUp) => CutKeepsInv(r, c, keepDown, keepUp);
    }
  }

  lemma AskStepKeepsInv(r: Relay, l: Label)
    requires Inv(r) && l.Ask?
    ensures Inv(Step(r, l))
  {
    if l.id !in r.ledger.asked {
      AskKeepsInv(r, l.w, l.id, l.thread, l.limit);
    }
  }

  lemma QueryStepKeepsInv(r: Relay, l: Label)
    requires Inv(r) && IsQuery(l) && !l.Ask?
    ensures Inv(Step(r, l))
  {
    QueriesKeepInv(r, QueryOp(l));
  }

  lemma ThreadStepKeepsInv(r: Relay, l: Label)
    requires Inv(r) && (l.NewThread? || l.NewMessage?)
    ensures Inv(Step(r, l))
  {
    match l
    case NewThread(thread, owner) => if thread !in r.store { ThreadKeepsInv(r, thread, Thread(owner, [])); }
    case NewMessage(thread, m) =>
      if thread in r.store {
        ThreadKeepsInv(r, thread, r.store[thread].(messages := r.store[thread].messages + [m]));
      }
  }

  lemma ProviderStepKeepsInv(r: Relay, l: Label)
    requires Inv(r) && !IsCall(l) && !IsGateWriter(l) && !IsGateOther(l) && !IsQuery(l)
    requires !l.NewThread? && !l.NewMessage?
    ensures Inv(Step(r, l))
  {
    match l
    case Connect => if r.client.pipe.current.None? { ConnectKeepsInv(r); }
    case ClientReceive(v) => if ClientHasFrame(r) { ClientReceiveKeepsInv(r, v); }
    case Report(run, event) => SayKeepsInv(r, Event(run, event));
    case FinishRun(run) => SayKeepsInv(r, Finish(run));
    case ClientTake => PipeKeepsInv(r, P.DoTake);
    case ClientSend => PipeKeepsInv(r, P.DoSend);
    case ClientTeardown => TeardownKeepsInv(r);
    case _ =>
  }

  lemma StepKeepsInv(r: Relay, l: Label)
    requires Inv(r)
    ensures Inv(Step(r, l))
  {
    if IsCall(l) {
      CallStepKeepsInv(r, l);
    } else if IsGateWriter(l) {
      GateWriterKeepsInv(r, l);
    } else if IsGateOther(l) {
      if l.GateReceive? || l.AnswerJob? { GateReaderKeepsInv(r, l); } else { GateEndKeepsInv(r, l); }
    } else if IsQuery(l) {
      if l.Ask? { AskStepKeepsInv(r, l); } else { QueryStepKeepsInv(r, l); }
    } else if l.NewThread? || l.NewMessage? {
      ThreadStepKeepsInv(r, l);
    } else {
      ProviderStepKeepsInv(r, l);
    }
  }

  lemma {:induction false} RunKeepsInv(key: string, hosted: set<string>, labels: seq<Label>)
    ensures Inv(Run(Begin(key, hosted), labels))
  {
    if labels != [] {
      var n := |labels| - 1;
      RunKeepsInv(key, hosted, labels[..n]);
      StepKeepsInv(Run(Begin(key, hosted), labels[..n]), labels[n]);
    }
  }

  // ---- Offers: both ends agree

  /** At this step the provider's runtime accepts an offer of `run`. */
  predicate Accepts(r: Relay, l: Label, run: RunId)
  {
    l.ClientReceive? && ClientHasFrame(r)
    && var f := r.conns[r.client.pipe.current.value].down[0];
       f.Run? && f.run == run && f.agent in r.client.hosted && l.verdict.validates && l.verdict.accepted
  }

  /** At this step `run` fails validation, at the gateway or at the provider. */
  predicate Refuses(r: Relay, l: Label, run: RunId, why: string)
  {
    || (l.Offer? && l.c < |r.conns| && l.run == run && !l.validates && why == S.InputRefusal(l.why))
    || (l.ClientReceive? && ClientHasFrame(r)
        && var f := r.conns[r.client.pipe.current.value].down[0];
           f.Run? && f.run == run && f.agent in r.client.hosted && !l.verdict.validates
           && why == C.RefusalReason(l.verdict.why))
  }

  lemma StepRecords(r: Relay, l: Label, run: RunId, why: string)
    ensures run in Step(r, l).ledger.taken ==> run in r.ledger.taken || Accepts(r, l, run)
    ensures (run, why) in Step(r, l).ledger.refusals ==> (run, why) in r.ledger.refusals || Refuses(r, l, run, why)
  {}

  lemma {:induction false} RecordIsHistory(start: Relay, labels: seq<Label>, run: RunId, why: string)
    requires start.ledger.taken == {} && start.ledger.refusals == {}
    ensures run in Run(start, labels).ledger.taken ==>
              exists i :: 0 <= i < |labels| && Accepts(Run(start, labels[..i]), labels[i], run)
    ensures (run, why) in Run(start, labels).ledger.refusals ==>
              exists i :: 0 <= i < |labels| && Refuses(Run(start, labels[..i]), labels[i], run, why)
  {
    if labels != [] {
      var n := |labels| - 1;
      RecordIsHistory(start, labels[..n], run, why);
      StepRecords(Run(start, labels[..n]), labels[n], run, why);
      forall i | 0 <= i < n ensures labels[..n][..i] == labels[..i] {}
    }
  }

  /** Offer agreement, over every interleaving of offers, timeouts, late acks, drops and
      reconnects that flush stale acks: `deliver` gives true only for a run the provider's
      runtime accepted, and refuses only a run that failed validation, in those words. */
  lemma OfferAgreement(key: string, hosted: set<string>, labels: seq<Label>, c: nat, w: nat, why: string)
    requires var r := Run(Begin(key, hosted), labels);
             c < |r.conns| && w in r.conns[c].socket.acks.waiters
    ensures var start := Begin(key, hosted);
            var call := Run(start, labels).conns[c].socket.acks.waiters[w];
            && (call.fate == F.Returned(Taken) ==>
                  exists i :: 0 <= i < |labels| && Accepts(Run(start, labels[..i]), labels[i], call.key))
            && (call.fate == F.Returned(Refusal(why)) ==>
                  exists i :: 0 <= i < |labels| && Refuses(Run(start, labels[..i]), labels[i], call.key, why))
  {
    var r := Run(Begin(key, hosted), labels);
    RunKeepsInv(key, hosted, labels);
    var call := r.conns[c].socket.acks.waiters[w];
    assert ConnIsHonest(r.key, r.store, r.ledger, r.conns[c]);
    assert AnswerIsHonest(r.ledger, call.key, F.Decision(call.fate));
    RecordIsHistory(Begin(key, hosted), labels, call.key, why);
  }

  /** A name the provider does not host never reaches its runtime. */
  lemma {:induction false} OnlyHostedNamesReachTheRuntime(key: string, hosted: set<string>, labels: seq<Label>, i: nat)
    requires i < |Run(Begin(key, hosted), labels).ledger.toRuntime|
    ensures Run(Begin(key, hosted), labels).ledger.toRuntime[i].1 in hosted
  {
    RunKeepsInv(key, hosted, labels);
    HostedNamesAreFixed(key, hosted, labels);
  }

  lemma {:induction false} HostedNamesAreFixed(key: string, hosted: set<string>, labels: seq<Label>)
    ensures Run(Begin(key, hosted), labels).client.hosted == hosted
    ensures Run(Begin(key, hosted), labels).key == key
  {
    if labels != [] {
      HostedNamesAreFixed(key, hosted, labels[..|labels| - 1]);
      StepKeepsNames(Run(Begin(key, hosted), labels[..|labels| - 1]), labels[|labels| - 1]);
    }
  }

  lemma StepKeepsNames(r: Relay, l: Label)
    ensures Step(r, l).client.hosted == r.client.hosted && Step(r, l).key == r.key
  {}

  // ---- Calls, once settled, stay settled

  ghost predicate CarriesOn<K, A>(t: F.Table<K, A>, t': F.Table<K, A>)
  {
    forall w :: w in t.waiters ==>
      w in t'.waiters && t'.waiters[w].key == t.waiters[w].key && F.MayBecome(t.waiters[w].fate, t'.waiters[w].fate)
  }

  /** What may happen to the calls there are, on either side. */
  ghost predicate CallsCarryOn(r: Relay, r': Relay)
  {
    && |r.conns| <= |r'.conns|
    && (forall c :: 0 <= c < |r.conns| ==> CarriesOn(r.conns[c].socket.acks, r'.conns[c].socket.acks))
    && CarriesOn(r.client.queries, r'.client.queries)
    && (forall id :: id in r.ledger.asked ==> id in r'.ledger.asked && r'.ledger.asked[id] == r.ledger.asked[id])
  }

  lemma OpCarriesOn<K, A>(t: F.Table<K, A>, op: F.Op<K, A>)
    ensures CarriesOn(t, F.Apply(t, op))
  {
    forall w | w in t.waiters
      ensures w in F.Apply(t, op).waiters && F.Apply(t, op).waiters[w].key == t.waiters[w].key
              && F.MayBecome(t.waiters[w].fate, F.Apply(t, op).waiters[w].fate)
    {
      F.OpKeepsDecisions(t, op, w);
    }
  }

  lemma NothingChanges<K, A>(t: F.Table<K, A>)
    ensures CarriesOn(t, t)
  {}

  /** One connection's calls carry on, and nothing else happens to any call. */
  lemma OneConnCarriesOn(r: Relay, r': Relay, c: nat)
    requires c < |r.conns| == |r'.conns| && CarriesOn(r.conns[c].socket.acks, r'.conns[c].socket.acks)
    requires forall d :: 0 <= d < |r.conns| && d != c ==> r'.conns[d].socket.acks == r.conns[d].socket.acks
    requires r'.client.queries == r.client.queries && r'.ledger.asked == r.ledger.asked
    ensures CallsCarryOn(r, r')
  {}

  lemma CallCarriesOn(r: Relay, c: nat, op: F.Op<RunId, Answer>)
    ensures CallsCarryOn(r, CallOn(r, c, op))
  {
    if c < |r.conns| {
      OpCarriesOn(r.conns[c].socket.acks, op);
      OneConnCarriesOn(r, CallOn(r, c, op), c);
    }
  }

  lemma OfferCarriesOn(r: Relay, c: nat, w: nat, run: RunId, agent: string, validates: bool, why: string)
    requires c < |r.conns|
    ensures CallsCarryOn(r, OfferOn(r, c, w, run, agent, validates, why))
  {
    OpCarriesOn(r.conns[c].socket.acks, F.DoRegister(w, run));
    OneConnCarriesOn(r, OfferOn(r, c, w, run, agent, validates, why), c);
  }

  lemma GateReceiveCarriesOn(r: Relay, c: nat)
    requires c < |r.conns| && c < |r.client.pipe.lines| && r.client.pipe.lines[c].transit != []
    ensures CallsCarryOn(r, GateReceiveOn(r, c))
  {
    var f := r.client.pipe.lines[c].transit[0];
    if f.Ack? {
      OpCarriesOn(r.conns[c].socket.acks, F.DoResolve(f.run, AnswerOf(f.accepted, f.reason)));
    }
    OneConnCarriesOn(r, GateReceiveOn(r, c), c);
  }

  lemma GateTeardownCarriesOn(r: Relay, c: nat)
    requires c < |r.conns| && c < |r.client.pipe.lines|
    ensures CallsCarryOn(r, GateTeardownOn(r, c))
  {
    OpCarriesOn(r.conns[c].socket.acks, F.DoFailAll(Declined));
    OneConnCarriesOn(r, GateTeardownOn(r, c), c);
  }

  /** The provider's questions carry on, and nothing else happens to any call. */
  lemma QueriesCarryOn(r: Relay, r': Relay, op: F.Op<QueryId, QueryOutcome>)
    requires |r'.conns| == |r.conns| && forall d :: 0 <= d < |r.conns| ==> r'.conns[d].socket == r.conns[d].socket
    requires r'.client.queries == F.Apply(r.client.queries, op)
    requires forall id :: id in r.ledger.asked ==> id in r'.ledger.asked && r'.ledger.asked[id] == r.ledger.asked[id]
    ensures CallsCarryOn(r, r')
  {
    OpCarriesOn(r.client.queries, op);
  }

  /** Steps that touch no call. */
  lemma OtherCallsCarryOn(r: Relay, r': Relay)
    requires |r.conns| <= |r'.conns| && r'.client.queries == r.client.queries && r'.ledger.asked == r.ledger.asked
    requires forall d :: 0 <= d < |r.conns| ==> r'.conns[d].socket.acks == r.conns[d].socket.acks
    ensures CallsCarryOn(r, r')
  {}

  lemma ClientReceiveCarriesOn(r: Relay, v: C.Verdict)
    requires ClientHasFrame(r)
    ensures CallsCarryOn(r, ClientReceiveOn(r, v))
  {
    var f := r.conns[r.client.pipe.current.value].down[0];
    RecordGrows(r, f, v);
    if f.QueryResult? {
      QueriesCarryOn(r, ClientReceiveOn(r, v), F.DoResolve(f.id, f.outcome));
    } else {
      OtherCallsCarryOn(r, ClientReceiveOn(r, v));
    }
  }

  lemma CallStepCarriesOn(r: Relay, l: Label)
    requires IsCall(l)
    ensures CallsCarryOn(r, Step(r, l))
  {
    match l
    case Offer(c, w, run, agent, validates, why) =>
      if c < |r.conns| { OfferCarriesOn(r, c, w, run, agent, validates, why); }
    case OfferResumes(c, w) => CallCarriesOn(r, c, F.DoResume(w));
    case OfferTimesOut(c, w) => CallCarriesOn(r, c, F.DoExpire(w, Declined));
    case OfferWithdrawn(c, w) => CallCarriesOn(r, c, F.DoWithdraw(w));
  }

  lemma GateStepCarriesOn(r: Relay, l: Label)
    requires IsGateOther(l) || IsGateWriter(l)
    ensures CallsCarryOn(r, Step(r, l))
  {
    if l.GateReceive? && Step(r, l) != r {
      GateReceiveCarriesOn(r, l.c);
    } else if l.GateTeardown? && Step(r, l) != r {
      GateTeardownCarriesOn(r, l.c);
    } else {
      OtherCallsCarryOn(r, Step(r, l));
    }
  }

  lemma QueryStepCarriesOn(r: Relay, l: Label)
    requires IsQuery(l)
    ensures CallsCarryOn(r, Step(r, l))
  {
    if !l.Ask? {
      QueriesCarryOn(r, QueryOn(r, QueryOp(l)), QueryOp(l));
    } else if l.w !in r.client.queries.waiters && l.id !in r.ledger.asked {
      QueriesCarryOn(r, AskOn(r, l.w, l.id, l.thread, l.limit), F.DoRegister(l.w, l.id));
    } else {
      OtherCallsCarryOn(r, r);
    }
  }

  lemma RestCarriesOn(r: Relay, l: Label)
    requires !IsCall(l) && !IsGateOther(l) && !IsGateWriter(l) && !IsQuery(l)
    ensures CallsCarryOn(r, Step(r, l))
  {
    if l.ClientReceive? && ClientHasFrame(r) {
      ClientReceiveCarriesOn(r, l.verdict);
    } else if l.ClientTeardown? && r.client.pipe.current.Some? {
      QueriesCarryOn(r, Step(r, l), F.DoFailAll(QueryFailed("souk connection closed")));
    } else {
      OtherCallsCarryOn(r, Step(r, l));
    }
  }

  lemma StepCarriesOn(r: Relay, l: Label)
    ensures CallsCarryOn(r, Step(r, l))
  {
    if IsCall(l) {
      CallStepCarriesOn(r, l);
    } else if IsGateOther(l) || IsGateWriter(l) {
      GateStepCarriesOn(r, l);
    } else if IsQuery(l) {
      QueryStepCarriesOn(r, l);
    } else {
      RestCarriesOn(r, l);
    }
  }

  lemma CarryingOnChains(a: Relay, b: Relay, c: Relay)
    requires CallsCarryOn(a, b) && CallsCarryOn(b, c)
    ensures CallsCarryOn(a, c)
  {
    forall d | 0 <= d < |a.conns| ensures CarriesOn(a.conns[d].socket.acks, c.conns[d].socket.acks) {
      assert CarriesOn(a.conns[d].socket.acks, b.conns[d].socket.acks);
      assert CarriesOn(b.conns[d].socket.acks, c.conns[d].socket.acks);
    }
  }

  /** No later frame changes a settled call: not an ack for an earlier offer, not the
      answer to a stale query flushed on the next socket, not a drop. */
  lemma {:induction false} SettledCallsStaySettled(start: Relay, labels: seq<Label>)
    ensures CallsCarryOn(start, Run(start, labels))
  {
    if labels != [] {
      var n := |labels| - 1;
      SettledCallsStaySettled(start, labels[..n]);
      StepCarriesOn(Run(start, labels[..n]), labels[n]);
      CarryingOnChains(start, Run(start, labels[..n]), Run(start, labels));
    }
  }

  lemma {:induction false} RunInTwoParts(start: Relay, first: seq<Label>, more: seq<Label>)
    ensures Run(start, first + more) == Run(Run(start, first), more)
  {
    if more == [] {
      assert first + more == first;
    } else {
      var n := |more| - 1;
      RunInTwoParts(start, first, more[..n]);
      assert (first + more)[..|first + more| - 1] == first + more[..n];
    }
  }

  // ---- Queries end to end

  /** A call that asks in state `r` and is over after `more`: if it was given rows, they are
      the last min(limit, n) messages of the thread it named, as that thread stood at some
      moment since it asked, and the thread is owned by this provider's key. Otherwise it
      raised. Any number of other questions may be open and answered in any order. */
  lemma QueryEndToEnd(key: string, hosted: set<string>, before: seq<Label>, w: nat, id: QueryId, thread: string,
                      limit: Option<int>, more: seq<Label>)
    requires var r := Run(Begin(key, hosted), before);
             w !in r.client.queries.waiters && id !in r.ledger.asked
    ensures var r := Run(Begin(key, hosted), before);
            var r' := Run(Begin(key, hosted), before + [Ask(w, id, thread, limit)] + more);
            && w in r'.client.queries.waiters
            && var fate := r'.client.queries.waiters[w].fate;
               fate.Returned? && fate.answer.Rows? ==>
                 Truthful(key, r'.store, Asked(thread, limit, ThreadLength(r.store, thread)), fate.answer.rows)
  {
    var start := Begin(key, hosted);
    var r := Run(start, before);
    var asks := before + [Ask(w, id, thread, limit)];
    var r' := Run(start, asks + more);
    RunInTwoParts(start, before, [Ask(w, id, thread, limit)]);
    RunInTwoParts(start, asks, more);
    assert Run(r, [Ask(w, id, thread, limit)]) == AskOn(r, w, id, thread, limit);
    SettledCallsStaySettled(AskOn(r, w, id, thread, limit), more);
    RunKeepsInv(key, hosted, asks + more);
    HostedNamesAreFixed(key, hosted, asks + more);
    assert OutcomeIsHonest(key, r'.store, r'.ledger, r'.client.queries.waiters[w].key,
                           F.Decision(r'.client.queries.waiters[w].fate));
  }

  /** When the connection goes, every open question fails at once. */
  lemma DropFailsEveryQuery(key: string, hosted: set<string>, labels: seq<Label>, w: nat)
    requires var r := Run(Begin(key, hosted), labels);
             r.client.pipe.current.Some? && w in r.client.queries.waiters
    ensures var r := Run(Begin(key, hosted), labels);
            var r' := Step(r, ClientTeardown);
            && r'.client.queries.entries == map[]
            && r'.client.queries.waiters[w].fate ==
                 if r.client.queries.waiters[w].fate.Waiting?
                 then F.Settled(QueryFailed("souk connection closed")) else r.client.queries.waiters[w].fate
  {
    RunKeepsInv(key, hosted, labels);
  }

  // ---- Conservation

  /** Everything the provider ever said is, in order, what each connection carried plus at
      most one frame lost with it, then what is in hand and queued. So what the gateway
      received over all connections is what was said with some frames struck out, never
      repeated or reordered; likewise for the frames of any one run. */
  lemma ProviderFramesAreConserved(key: string, hosted: set<string>, labels: seq<Label>, run: RunId)
    ensures var pipe := Run(Begin(key, hosted), labels).client.pipe;
            && pipe.enqueued == P.Drained(pipe.lines) + pipe.hand + pipe.queue
            && (forall c :: 0 <= c < |pipe.lines| ==>
                  |pipe.lines[c].lost| <= 1 && pipe.lines[c].got + pipe.lines[c].transit <= pipe.lines[c].sent)
            && P.IsSubsequence(P.Received(pipe.lines), pipe.enqueued)
            && P.IsSubsequence(P.OfKind(P.Received(pipe.lines), f => IsOfRun(f, run)),
                               P.OfKind(pipe.enqueued, f => IsOfRun(f, run)))
  {
    RunKeepsInv(key, hosted, labels);
    P.NothingTwiceOrOutOfOrder(Run(Begin(key, hosted), labels).client.pipe, f => IsOfRun(f, run));
  }

  predicate IsOfRun(f: UpFrame, run: RunId)
  {
    !f.Query? && f.run == run
  }
}
