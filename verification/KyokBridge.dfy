/** The caller's end of one KYOK connection: a task per completion request, one outbound
    queue for the connection and one writer (souk-client-sdk/souk_client_sdk/kyok_bridge.py). */
module KyokBridge {
  import opened Wrappers
  import opened KyokLink

  datatype TaskState = Running | Finished | Errored(fault: Fault) | Cancelled

  /** One `_serve_one`: what its handler was given and has yielded, and what it has put
      on the queue for souk to read. */
  datatype Task = Task(body: string, yielded: seq<Chunk>, emitted: seq<Item>, state: TaskState)

  /** `hand` is the frame the writer has taken and not yet sent. */
  datatype Bridge = Bridge(outbound: seq<InFrame>, hand: seq<InFrame>, tasks: map<ReqId, Task>, open: bool)

  const NEW_BRIDGE := Bridge([], [], map[], true)

  function IsRunning(b: Bridge, id: ReqId): bool
  {
    id in b.tasks && b.tasks[id].state.Running?
  }

  /** A request starts a task; every other frame is only logged. */
  function Receive(b: Bridge, f: OutFrame): Bridge
  {
    match f
    case CompletionRequest(id, body) => b.(tasks := b.tasks[id := Task(body, [], [], Running)])
    case Complaint(_, _) => b
  }

  /** Puts the frame for `item` on the queue. */
  function Put(b: Bridge, id: ReqId, f: InFrame, item: Item, t: Task): Bridge
  {
    b.(outbound := b.outbound + [f], tasks := b.tasks[id := t.(emitted := t.emitted + [item])])
  }

  function YieldChunk(b: Bridge, id: ReqId, c: Chunk): Bridge
    requires id in b.tasks
  {
    var t := b.tasks[id];
    Put(b, id, ChunkFrame(id, Some(c)), Data(c), t.(yielded := t.yielded + [c]))
  }

  function FinishTask(b: Bridge, id: ReqId): Bridge
    requires id in b.tasks
  {
    Put(b, id, DoneFrame(id), Done, b.tasks[id].(state := Finished))
  }

  const REFUSED := "refused by the LLM provider"

  function RefuseTask(b: Bridge, id: ReqId, refusal: string): Bridge
    requires id in b.tasks
  {
    Put(b, id, ErrorFrame(id, Some(refusal), REFUSED), Fail(Refused(refusal)),
        b.tasks[id].(state := Errored(Refused(refusal))))
  }

  /** The handler raised, or the request was malformed. */
  function CrashTask(b: Bridge, id: ReqId, message: string): Bridge
    requires id in b.tasks
  {
    Put(b, id, ErrorFrame(id, None, message), Fail(ReportedAs(message)),
        b.tasks[id].(state := Errored(ReportedAs(message))))
  }

  function Take(b: Bridge): Bridge
    requires b.outbound != [] && b.hand == []
  {
    b.(outbound := b.outbound[1..], hand := [b.outbound[0]])
  }

  /** The socket is gone: the writer and every running task are cancelled. */
  function TearDown(b: Bridge): Bridge
  {
    Bridge([], [],
           map id | id in b.tasks ::
             if b.tasks[id].state.Running? then b.tasks[id].(state := Cancelled) else b.tasks[id],
           false)
  }

  // ---- What every bridge keeps

  function Terminal(s: TaskState): seq<Item>
  {
    match s
    case Running => []
    case Finished => [Done]
    case Errored(f) => [Fail(f)]
    case Cancelled => []
  }

  /** A task puts out what its handler yielded, in order, and then one last word. */
  ghost predicate TaskInv(t: Task)
  {
    t.emitted == AsData(t.yielded) + Terminal(t.state)
  }

  ghost predicate BridgeInv(b: Bridge)
  {
    && |b.hand| <= 1
    && (forall id :: id in b.tasks ==> TaskInv(b.tasks[id]))
  }

  lemma ChunkKeepsTaskInv(t: Task, c: Chunk)
    requires TaskInv(t) && t.state.Running?
    ensures TaskInv(t.(yielded := t.yielded + [c], emitted := t.emitted + [Data(c)]))
  {
    assert AsData(t.yielded + [c]) == AsData(t.yielded) + [Data(c)];
  }

  lemma LastWordKeepsTaskInv(t: Task, s: TaskState)
    requires TaskInv(t) && t.state.Running?
    ensures TaskInv(t.(state := s, emitted := t.emitted + Terminal(s)))
  {
    assert t.emitted == AsData(t.yielded);
  }

  lemma PutKeepsInv(b: Bridge, id: ReqId, f: InFrame, item: Item, t: Task)
    requires BridgeInv(b) && id in b.tasks && TaskInv(t.(emitted := t.emitted + [item]))
    ensures BridgeInv(Put(b, id, f, item, t)) && Put(b, id, f, item, t).tasks.Keys == b.tasks.Keys
  {}

  lemma TearDownKeepsInv(b: Bridge)
    requires BridgeInv(b)
    ensures var b' := TearDown(b);
            && BridgeInv(b') && b'.tasks.Keys == b.tasks.Keys
            && (forall id :: id in b.tasks ==> b'.tasks[id].emitted == b.tasks[id].emitted)
  {}

  /** When the socket goes, what was still to be sent is forgotten, every running task is
      cancelled, and the others stay as they ended. */
  lemma TearDownStopsEverything(b: Bridge)
    ensures var b' := TearDown(b);
            && b'.outbound == [] && b'.hand == [] && !b'.open && b'.tasks.Keys == b.tasks.Keys
            && (forall id :: id in b.tasks ==>
                  b'.tasks[id].state == if b.tasks[id].state == Running then Cancelled else b.tasks[id].state)
            && (forall id :: !IsRunning(b', id))
  {}

  // ---- The program

  datatype Ending = Exhausted | RefusedBy(refusal: string) | RaisedWith(message: string)

  /** A handler's whole answer as steps of its task. */
  function Serve(b: Bridge, id: ReqId, chunks: seq<Chunk>, ending: Ending): Bridge
    requires id in b.tasks
    decreases chunks
  {
    if chunks != [] then Serve(YieldChunk(b, id, chunks[0]), id, chunks[1..], ending)
    else
      match ending
      case Exhausted => FinishTask(b, id)
      case RefusedBy(r) => RefuseTask(b, id, r)
      case RaisedWith(m) => CrashTask(b, id, m)
  }

  function LastWord(id: ReqId, ending: Ending): InFrame
  {
    match ending
    case Exhausted => DoneFrame(id)
    case RefusedBy(r) => ErrorFrame(id, Some(r), REFUSED)
    case RaisedWith(m) => ErrorFrame(id, None, m)
  }

  /** One frame for each chunk, in order, and then one last word. */
  function AnswerFrames(id: ReqId, chunks: seq<Chunk>, ending: Ending): (r: seq<InFrame>)
    ensures |r| == |chunks| + 1 && r[|chunks|] == LastWord(id, ending)
    ensures forall i :: 0 <= i < |chunks| ==> r[i] == ChunkFrame(id, Some(chunks[i]))
  {
    if chunks == [] then [LastWord(id, ending)]
    else [ChunkFrame(id, Some(chunks[0]))] + AnswerFrames(id, chunks[1..], ending)
  }

  lemma LastWordIsQueued(b: Bridge, id: ReqId, ending: Ending)
    requires id in b.tasks
    ensures Serve(b, id, [], ending).outbound == b.outbound + [LastWord(id, ending)]
  {}

  lemma ChunkIsQueued(b: Bridge, id: ReqId, c: Chunk)
    requires id in b.tasks
    ensures YieldChunk(b, id, c).outbound == b.outbound + [ChunkFrame(id, Some(c))] && id in YieldChunk(b, id, c).tasks
  {}

  lemma OneFrameAhead(queued: seq<InFrame>, first: InFrame, rest: seq<InFrame>)
    ensures queued + [first] + rest == queued + ([first] + rest)
  {}

  /** Serving a request queues its answer's frames behind what was queued. */
  lemma {:induction false} ServeQueues(b: Bridge, id: ReqId, chunks: seq<Chunk>, ending: Ending)
    requires id in b.tasks
    ensures Serve(b, id, chunks, ending).outbound == b.outbound + AnswerFrames(id, chunks, ending)
    decreases chunks
  {
    if chunks == [] {
      LastWordIsQueued(b, id, ending);
    } else {
      ChunkIsQueued(b, id, chunks[0]);
      ServeQueues(YieldChunk(b, id, chunks[0]), id, chunks[1..], ending);
      OneFrameAhead(b.outbound, ChunkFrame(id, Some(chunks[0])), AnswerFrames(id, chunks[1..], ending));
    }
  }

  class Connection {
    var outbound: seq<InFrame>
    var inFlight: set<ReqId>
    ghost var bridge: Bridge

    ghost predicate Valid()
      reads this
    {
      && bridge.outbound == outbound
      && inFlight == set id | id in bridge.tasks && bridge.tasks[id].state.Running?
    }

    constructor ()
      ensures Valid() && bridge == NEW_BRIDGE
    {
      outbound := [];
      inFlight := {};
      bridge := NEW_BRIDGE;
    }

    /** One turn of the read loop. */
    method OnFrame(f: OutFrame)
      requires Valid()
      modifies this
      ensures Valid() && bridge == Receive(old(bridge), f)
    {
      match f {
        case CompletionRequest(id, body) =>
          inFlight := inFlight + {id};
        case Complaint(_, _) =>
      }
      bridge := Receive(bridge, f);
    }

    /** `_serve_one`, with the handler's stream given as what it yields and how it ends. */
    method ServeOne(id: ReqId, wellFormed: bool, chunks: seq<Chunk>, ending: Ending)
      requires Valid() && IsRunning(bridge, id)
      modifies this
      ensures Valid()
      ensures bridge == if wellFormed then Serve(old(bridge), id, chunks, ending)
                        else CrashTask(old(bridge), id, "malformed completionRequest")
      ensures outbound == old(outbound) + if wellFormed then AnswerFrames(id, chunks, ending)
                                          else [ErrorFrame(id, None, "malformed completionRequest")]
    {
      if !wellFormed {
        outbound := outbound + [ErrorFrame(id, None, "malformed completionRequest")];
        bridge := CrashTask(bridge, id, "malformed completionRequest");
        inFlight := inFlight - {id};
        return;
      }
      var n := 0;
      while n < |chunks|
        invariant n <= |chunks| && Valid() && IsRunning(bridge, id)
        invariant Serve(old(bridge), id, chunks, ending) == Serve(bridge, id, chunks[n..], ending)
      {
        outbound := outbound + [ChunkFrame(id, Some(chunks[n]))];
        assert chunks[n..][1..] == chunks[n + 1..];
        bridge := YieldChunk(bridge, id, chunks[n]);
        n := n + 1;
      }
      match ending {
        case Exhausted => outbound := outbound + [DoneFrame(id)];
        case RefusedBy(r) => outbound := outbound + [ErrorFrame(id, Some(r), REFUSED)];
        case RaisedWith(m) => outbound := outbound + [ErrorFrame(id, None, m)];
      }
      bridge := Serve(bridge, id, [], ending);
      ServeQueues(old(bridge), id, chunks, ending);
      inFlight := inFlight - {id};
    }

    /** The writer's `outbound.get()`. */
    method TakeFrame() returns (f: InFrame)
      requires Valid() && outbound != [] && bridge.hand == []
      modifies this
      ensures Valid() && bridge == Take(old(bridge)) && bridge.hand == [f]
    {
      f := outbound[0];
      outbound := outbound[1..];
      bridge := Take(bridge);
    }
  }
}
