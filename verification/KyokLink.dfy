/** The gateway's end of one KYOK connection: a table of in-flight completions, one
    answer queue each, and the stream core reads (souk_server/ws_kyok.py). */
module KyokLink {
  import opened Wrappers

  type ReqId = string

  /** One chunk as it arrives: its content, and whether it validates as a
      ChatCompletionChunk. */
  datatype Chunk = Chunk(content: string, valid: bool)

  datatype Fault = Refused(refusal: string) | Reported(message: string) | Disconnected

  /** What an answer queue holds. */
  datatype Item = Data(chunk: Chunk) | Done | Fail(fault: Fault)

  datatype Failure = Raised(fault: Fault) | GapTimeout | InvalidChunk

  datatype StreamState = NotStarted | Reading | Completed | Failed(why: Failure) | Abandoned

  /** One completion's answer: its queue, what core has read, and the item that ended it.
      `fed` and `dropped` record what went into the queue and whether the socket went. */
  datatype Stream = Stream(
    queue: seq<Item>, read: seq<Chunk>, last: seq<Item>, state: StreamState, fed: seq<Item>, dropped: bool)
  {
    predicate IsOpen()
    {
      state.NotStarted? || state.Reading?
    }
  }

  datatype OutFrame =
    | CompletionRequest(id: ReqId, body: string)
    | Complaint(about: Option<ReqId>, message: string)

  datatype InFrame =
    | Unparseable
    | UnknownType(kind: string)
    | NoRequestId
    | ChunkFrame(id: ReqId, data: Option<Chunk>)
    | DoneFrame(id: ReqId)
    | ErrorFrame(id: ReqId, refusal: Option<string>, message: string)

  datatype Link = Link(inFlight: set<ReqId>, streams: map<ReqId, Stream>, outbound: seq<OutFrame>)

  const NEW_LINK := Link({}, map[], [])

  // ---- Operations on a link

  function Complete(l: Link, id: ReqId, body: string): Link
  {
    Link(l.inFlight + {id},
         l.streams[id := Stream([], [], [], NotStarted, [], false)],
         l.outbound + [CompletionRequest(id, body)])
  }

  function Reply(l: Link, f: OutFrame): Link
  {
    l.(outbound := l.outbound + [f])
  }

  function FeedStream(s: Stream, item: Item): Stream
  {
    s.(queue := s.queue + [item], fed := s.fed + [item])
  }

  /** Nothing happens unless this connection has `id` in flight. */
  function Feed(l: Link, id: ReqId, item: Item): Link
  {
    if id in l.inFlight && id in l.streams
    then l.(streams := l.streams[id := FeedStream(l.streams[id], item)]) else l
  }

  const DEFAULT_ERROR := "LLM provider reported an error"

  function ReportedAs(message: string): Fault
  {
    if |message| == 0 then Reported(DEFAULT_ERROR) else Reported(message)
  }

  /** The request a frame answers and the item it carries. */
  function ItemOf(f: InFrame): Option<(ReqId, Item)>
  {
    match f
    case ChunkFrame(id, Some(c)) => Some((id, Data(c)))
    case DoneFrame(id) => Some((id, Done))
    case ErrorFrame(id, Some(r), _) => Some((id, Fail(Refused(r))))
    case ErrorFrame(id, None, m) => Some((id, Fail(ReportedAs(m))))
    case _ => None
  }

  /** What is said about a frame that carries no item. */
  function ComplaintAbout(f: InFrame): OutFrame
  {
    match f
    case Unparseable => Complaint(None, "unparseable frame")
    case UnknownType(kind) => Complaint(None, "unknown frame type " + kind)
    case NoRequestId => Complaint(None, "frame needs a requestId")
    case ChunkFrame(id, None) => Complaint(Some(id), "chunk data must be an object")
    case _ => Complaint(None, "")
  }

  /** The body of the receive loop. */
  function Dispatch(l: Link, f: InFrame): Link
  {
    match ItemOf(f)
    case None => Reply(l, ComplaintAbout(f))
    case Some((id, item)) =>
      if id in l.inFlight then Feed(l, id, item)
      else Reply(l, Complaint(Some(id), "no such in-flight completion on this connection"))
  }

  /** An item for `id`: one connection has it in flight and gets it, or it is complained of. */
  ghost predicate Delivers(l: Link, l': Link, id: ReqId, item: Item)
    requires l.inFlight <= l.streams.Keys
  {
    if id in l.inFlight then
      var s := l.streams[id];
      l' == l.(streams := l.streams[id := s.(queue := s.queue + [item], fed := s.fed + [item])])
    else
      l' == l.(outbound := l.outbound + [Complaint(Some(id), "no such in-flight completion on this connection")])
  }

  /** What each kind of frame comes to. */
  lemma DispatchIsExact(l: Link, f: InFrame)
    requires l.inFlight <= l.streams.Keys
    ensures var l' := Dispatch(l, f);
            match f
            case Unparseable => l' == l.(outbound := l.outbound + [Complaint(None, "unparseable frame")])
            case UnknownType(k) => l' == l.(outbound := l.outbound + [Complaint(None, "unknown frame type " + k)])
            case NoRequestId => l' == l.(outbound := l.outbound + [Complaint(None, "frame needs a requestId")])
            case ChunkFrame(id, None) =>
              l' == l.(outbound := l.outbound + [Complaint(Some(id), "chunk data must be an object")])
            case ChunkFrame(id, Some(c)) => Delivers(l, l', id, Data(c))
            case DoneFrame(id) => Delivers(l, l', id, Done)
            case ErrorFrame(id, Some(r), _) => Delivers(l, l', id, Fail(Refused(r)))
            case ErrorFrame(id, None, m) =>
              Delivers(l, l', id, Fail(Reported(if m == "" then "LLM provider reported an error" else m)))
  {}

  function DropStream(s: Stream): Stream
  {
    s.(queue := s.queue + [Fail(Disconnected)], dropped := true)
  }

  /** The socket is gone: every in-flight answer gets the failure as its last item. */
  function FailPending(l: Link): Link
  {
    l.(inFlight := {},
       streams := map id | id in l.streams :: if id in l.inFlight then DropStream(l.streams[id]) else l.streams[id])
  }

  // ---- What core does with a stream

  function PullStream(s: Stream): Stream
    requires s.queue != []
  {
    var rest := s.(queue := s.queue[1..]);
    match s.queue[0]
    case Done => rest.(last := [Done], state := Completed)
    case Fail(f) => rest.(last := [Fail(f)], state := Failed(Raised(f)))
    case Data(c) =>
      if c.valid then rest.(read := s.read + [c])
      else rest.(last := [Data(c)], state := Failed(InvalidChunk))
  }

  /** The generator's `finally`. */
  function Put(l: Link, id: ReqId, s: Stream): Link
  {
    l.(streams := l.streams[id := s], inFlight := if s.IsOpen() then l.inFlight else l.inFlight - {id})
  }

  function StartReading(l: Link, id: ReqId): Link
  {
    if id in l.streams && l.streams[id].state.NotStarted?
    then Put(l, id, l.streams[id].(state := Reading)) else l
  }

  function Pull(l: Link, id: ReqId): Link
  {
    if id in l.streams && l.streams[id].state.Reading? && l.streams[id].queue != []
    then Put(l, id, PullStream(l.streams[id])) else l
  }

  function TimeOut(l: Link, id: ReqId): Link
  {
    if id in l.streams && l.streams[id].state.Reading? && l.streams[id].queue == []
    then Put(l, id, l.streams[id].(state := Failed(GapTimeout))) else l
  }

  /** Core drops the iterator. One that was never started has no `finally` to run. */
  function Abandon(l: Link, id: ReqId): Link
  {
    if id in l.streams && l.streams[id].state.Reading?
    then Put(l, id, l.streams[id].(state := Abandoned))
    else if id in l.streams && l.streams[id].state.NotStarted?
    then l.(streams := l.streams[id := l.streams[id].(state := Abandoned)])
    else l
  }

  // ---- What every link keeps, whoever is on the other end

  function AsData(cs: seq<Chunk>): (r: seq<Item>)
    ensures |r| == |cs|
    ensures forall i :: 0 <= i < |r| ==> r[i] == Data(cs[i])
  {
    seq(|cs|, i requires 0 <= i < |cs| => Data(cs[i]))
  }

  function Tail(s: Stream): seq<Item>
  {
    if s.dropped then [Fail(Disconnected)] else []
  }

  ghost predicate EndsAsItSays(s: Stream)
  {
    match s.state
    case NotStarted => s.last == [] && s.read == []
    case Reading => s.last == []
    case Completed => s.last == [Done]
    case Failed(Raised(f)) => s.last == [Fail(f)]
    case Failed(InvalidChunk) => |s.last| == 1 && s.last[0].Data? && !s.last[0].chunk.valid
    case Failed(GapTimeout) => s.last == []
    case Abandoned => s.last == []
  }

  /** Nothing that went into the queue is lost, duplicated or reordered. */
  ghost predicate Conserved(s: Stream)
  {
    AsData(s.read) + s.last + s.queue == s.fed + Tail(s)
  }

  ghost predicate StreamInv(s: Stream)
  {
    Conserved(s) && EndsAsItSays(s) && (forall i :: 0 <= i < |s.read| ==> s.read[i].valid)
  }

  ghost predicate LinkInv(l: Link)
  {
    && l.inFlight <= l.streams.Keys
    && (forall id :: id in l.streams ==> StreamInv(l.streams[id]))
    && (forall id :: id in l.inFlight ==> !l.streams[id].dropped)
    && (forall id :: id in l.streams && l.streams[id].IsOpen() ==> id in l.inFlight || l.streams[id].dropped)
  }

  lemma FeedKeepsStreamInv(s: Stream, item: Item)
    requires StreamInv(s) && !s.dropped
    ensures StreamInv(FeedStream(s, item))
  {
    var t := FeedStream(s, item);
    assert AsData(t.read) + t.last + t.queue == AsData(s.read) + s.last + s.queue + [item];
    assert t.fed + Tail(t) == s.fed + Tail(s) + [item];
  }

  lemma DropKeepsStreamInv(s: Stream)
    requires StreamInv(s) && !s.dropped
    ensures StreamInv(DropStream(s))
  {
    var t := DropStream(s);
    assert AsData(t.read) + t.last + t.queue == AsData(s.read) + s.last + s.queue + [Fail(Disconnected)];
    assert s.fed + Tail(s) + [Fail(Disconnected)] == t.fed + Tail(t);
  }

  lemma PullKeepsStreamInv(s: Stream)
    requires StreamInv(s) && s.state.Reading? && s.queue != []
    ensures StreamInv(PullStream(s))
  {
    var t := PullStream(s);
    assert s.queue == [s.queue[0]] + s.queue[1..];
    assert AsData(t.read) + t.last == AsData(s.read) + [s.queue[0]];
    assert AsData(t.read) + t.last + t.queue == AsData(s.read) + s.last + s.queue;
  }

  lemma DispatchKeepsInv(l: Link, f: InFrame)
    requires LinkInv(l)
    ensures LinkInv(Dispatch(l, f))
  {
    match ItemOf(f)
    case None =>
    case Some((id, item)) =>
      if id in l.inFlight {
        FeedKeepsStreamInv(l.streams[id], item);
      }
  }

  lemma FailPendingKeepsInv(l: Link)
    requires LinkInv(l)
    ensures LinkInv(FailPending(l))
  {
    forall id | id in l.inFlight ensures StreamInv(DropStream(l.streams[id])) {
      DropKeepsStreamInv(l.streams[id]);
    }
  }

  lemma CompleteKeepsInv(l: Link, id: ReqId, body: string)
    requires LinkInv(l) && id !in l.streams
    ensures LinkInv(Complete(l, id, body))
  {}

  /** Reading, timing out and abandoning feed nothing and put nothing in flight. */
  ghost predicate FeedsNothing(l: Link, l': Link)
  {
    && l'.outbound == l.outbound && l'.streams.Keys == l.streams.Keys && l'.inFlight <= l.inFlight
    && (forall id :: id in l.streams ==> l'.streams[id].fed == l.streams[id].fed)
  }

  lemma PutKeepsInv(l: Link, id: ReqId, s: Stream)
    requires LinkInv(l) && id in l.streams && StreamInv(s) && s.fed == l.streams[id].fed
    requires s.dropped == l.streams[id].dropped && (s.IsOpen() ==> l.streams[id].IsOpen())
    ensures LinkInv(Put(l, id, s)) && FeedsNothing(l, Put(l, id, s))
  {}

  lemma StartKeepsInv(l: Link, id: ReqId)
    requires LinkInv(l)
    ensures LinkInv(StartReading(l, id)) && FeedsNothing(l, StartReading(l, id))
  {
    if id in l.streams && l.streams[id].state.NotStarted? {
      PutKeepsInv(l, id, l.streams[id].(state := Reading));
    }
  }

  lemma TimeOutKeepsInv(l: Link, id: ReqId)
    requires LinkInv(l)
    ensures LinkInv(TimeOut(l, id)) && FeedsNothing(l, TimeOut(l, id))
  {
    if id in l.streams && l.streams[id].state.Reading? && l.streams[id].queue == [] {
      PutKeepsInv(l, id, l.streams[id].(state := Failed(GapTimeout)));
    }
  }

  lemma AbandonKeepsInv(l: Link, id: ReqId)
    requires LinkInv(l)
    ensures LinkInv(Abandon(l, id)) && FeedsNothing(l, Abandon(l, id))
  {
    if id in l.streams && l.streams[id].IsOpen() {
      var s := l.streams[id].(state := Abandoned);
      assert StreamInv(s);
      if l.streams[id].state.Reading? {
        PutKeepsInv(l, id, s);
      }
    }
  }

  lemma PullKeepsInv(l: Link, id: ReqId)
    requires LinkInv(l)
    ensures LinkInv(Pull(l, id)) && FeedsNothing(l, Pull(l, id))
  {
    if id in l.streams && l.streams[id].state.Reading? && l.streams[id].queue != [] {
      PullKeepsStreamInv(l.streams[id]);
      PutKeepsInv(l, id, PullStream(l.streams[id]));
    }
  }

  // ---- After the socket is gone

  /** `n` reads in a row. */
  function PullMany(s: Stream, n: nat): Stream
    decreases n
  {
    if n == 0 || !s.state.Reading? || s.queue == [] then s
    else PullMany(PullStream(s), n - 1)
  }

  /** Reading `items` ends the stream normally: only good chunks stand before a done. */
  predicate ReachesDone(items: seq<Item>)
  {
    items != [] && (items[0].Done? || (items[0].Data? && items[0].chunk.valid && ReachesDone(items[1..])))
  }

  lemma {:induction false} FailureEndsStream(s: Stream)
    requires s.state.Reading? && s.queue != [] && s.queue[|s.queue| - 1].Fail?
    ensures var t := PullMany(s, |s.queue|);
            && !t.IsOpen()
            && (t.state.Completed? <==> ReachesDone(s.queue))
            && (!t.state.Completed? ==> t.state.Failed?)
    decreases |s.queue|
  {
    var t := PullStream(s);
    if t.state.Reading? {
      assert t.queue == s.queue[1..];
      FailureEndsStream(t);
    } else {
      assert PullMany(t, |s.queue| - 1) == t;
    }
  }

  /** Reading what is queued ends the stream: normally exactly when a done is there behind
      good chunks, and as a failure otherwise. */
  ghost predicate EndsWithinItsQueue(s: Stream)
  {
    var t := PullMany(s.(state := Reading), |s.queue|);
    && !t.IsOpen()
    && (t.state.Completed? <==> ReachesDone(s.queue))
    && (!t.state.Completed? ==> t.state.Failed?)
  }

  /** A stream that was told the socket is gone ends within the items already queued. */
  lemma DroppedStreamEnds(s: Stream)
    requires StreamInv(s) && s.IsOpen() && s.dropped
    ensures EndsWithinItsQueue(s)
  {
    OpenDroppedQueueEndsInFailure(s);
    FailureEndsStream(s.(state := Reading));
  }

  /** When the socket goes, every stream core still holds open is told, as the last item
      of its queue; streams that have ended stay as they ended. */
  lemma DropReachesEveryOpenStream(l: Link, id: ReqId)
    requires LinkInv(l) && id in l.streams
    ensures var s, s' := l.streams[id], FailPending(l).streams[id];
            && s'.state == s.state && s'.read == s.read
            && (s.IsOpen() ==> s'.dropped && StreamInv(s'))
            && (s.IsOpen() && !s.dropped ==> s'.queue == s.queue + [Fail(Disconnected)])
    ensures FailPending(l).inFlight == {}
  {
    FailPendingKeepsInv(l);
  }

  lemma DropEndsOpenStream(l: Link, id: ReqId)
    requires LinkInv(l) && id in l.streams && l.streams[id].IsOpen()
    ensures EndsWithinItsQueue(FailPending(l).streams[id])
  {
    DropReachesEveryOpenStream(l, id);
    DroppedStreamEnds(FailPending(l).streams[id]);
  }

  /** A done that waits in a queue was fed to it. */
  lemma QueuedDoneWasFed(s: Stream) returns (m: nat)
    requires StreamInv(s) && Done in s.queue
    ensures m < |s.fed| && s.fed[m] == Done
  {
    var n :| 0 <= n < |s.queue| && s.queue[n] == Done;
    m := |s.read| + |s.last| + n;
    var all := AsData(s.read) + s.last + s.queue;
    assert all == s.fed + Tail(s) && all[m] == Done;
  }

  lemma OpenDroppedQueueEndsInFailure(s: Stream)
    requires StreamInv(s) && s.IsOpen() && s.dropped
    ensures s.queue != [] && s.queue[|s.queue| - 1] == Fail(Disconnected)
  {
    var all := AsData(s.read) + s.queue;
    assert all == s.fed + [Fail(Disconnected)];
    assert all[|all| - 1] == Fail(Disconnected);
    DataIsNoFailure(s.read);
    assert Fail(Disconnected) in all;
  }

  lemma DataIsNoFailure(cs: seq<Chunk>)
    ensures Fail(Disconnected) !in AsData(cs)
  {}
}
