/** What the KYOK relay achieves when nobody interferes: one completion, frame by frame,
    from core's call to the end of its stream (souk_server/ws_kyok.py,
    souk-client-sdk/souk_client_sdk/kyok_bridge.py). */
module KyokExchange {
  import opened Wrappers
  import opened KyokLink
  import opened KyokRelay
  import B = KyokBridge

  /** The wire holds, both ends are open, and nothing is on its way. */
  ghost predicate IsQuiet(k: Conn)
  {
    && !k.cut && k.gateOpen && k.bridge.open
    && k.link.outbound == [] && k.hand == [] && k.down == []
    && k.bridge.outbound == [] && k.bridge.hand == [] && k.up == []
  }

  /** The one frame on its way stands on the bridge's queue. */
  ghost predicate HasFrame(k: Conn, f: InFrame)
  {
    && !k.cut && k.gateOpen && k.bridge.open
    && k.link.outbound == [] && k.hand == [] && k.down == []
    && k.bridge.outbound == [f] && k.bridge.hand == [] && k.up == []
  }

  /** Core is reading this stream, has read `read`, and nothing is queued for it. */
  ghost predicate IsRead(k: Conn, id: ReqId, read: seq<Chunk>)
  {
    && id in k.link.inFlight && id in k.link.streams
    && k.link.streams[id].state.Reading? && k.link.streams[id].queue == [] && k.link.streams[id].read == read
  }

  // ---- The request goes out

  function AfterAsking(k: Conn, id: ReqId, body: string): Conn
  {
    Act(Act(Act(Act(k, AskFor(id, body)), GateTake), GateSend), BridgeReceive)
  }

  lemma RequestIsSent(k: Conn, id: ReqId, body: string)
    requires IsQuiet(k)
    ensures Act(Act(Act(k, AskFor(id, body)), GateTake), GateSend)
         == k.(link := Complete(k.link, id, body).(outbound := []), down := [CompletionRequest(id, body)])
  {
    var k1 := Act(k, AskFor(id, body));
    assert k1.link.outbound == [CompletionRequest(id, body)];
    var k2 := Act(k1, GateTake);
    assert k2 == k1.(hand := [CompletionRequest(id, body)], link := k1.link.(outbound := []));
    assert [] + [CompletionRequest(id, body)] == [CompletionRequest(id, body)];
  }

  /** A completion on a quiet connection: its handler is running, with the body core asked
      for, and core has a stream that nothing has gone into. */
  lemma UndisturbedRequest(k: Conn, id: ReqId, body: string)
    requires IsQuiet(k)
    ensures var k' := AfterAsking(k, id, body);
            && IsQuiet(k') && id in k'.bridge.tasks && k'.bridge.tasks[id] == B.Task(body, [], [], B.Running)
            && id in k'.link.inFlight && id in k'.link.streams
            && k'.link.streams[id] == Stream([], [], [], NotStarted, [], false)
  {
    RequestIsSent(k, id, body);
  }

  // ---- One frame comes up

  function AfterFrame(k: Conn): Conn
  {
    Act(Act(Act(k, BridgeTake), BridgeSend), GateReceive)
  }

  lemma FrameIsSent(k: Conn, f: InFrame)
    requires HasFrame(k, f)
    ensures Act(Act(k, BridgeTake), BridgeSend) == k.(bridge := k.bridge.(outbound := []), up := [f])
  {
    var k1 := Act(k, BridgeTake);
    assert k1 == k.(bridge := k.bridge.(outbound := [], hand := [f]));
    assert [] + [f] == [f];
  }

  lemma FrameArrives(k: Conn, f: InFrame, id: ReqId, item: Item, read: seq<Chunk>)
    requires HasFrame(k, f) && ItemOf(f) == Some((id, item)) && IsRead(k, id, read)
    ensures var k' := AfterFrame(k);
            && IsQuiet(k') && k'.bridge.tasks == k.bridge.tasks
            && id in k'.link.inFlight && id in k'.link.streams
            && k'.link.streams[id] == FeedStream(k.link.streams[id], item)
  {
    FrameIsSent(k, f);
  }

  lemma ItemIsRead(k: Conn, id: ReqId, item: Item, read: seq<Chunk>)
    requires IsQuiet(k) && id in k.link.inFlight && id in k.link.streams
    requires k.link.streams[id].state.Reading? && k.link.streams[id].read == read && k.link.streams[id].queue == [item]
    ensures var k' := Act(k, ReadItem(id));
            && IsQuiet(k') && k'.bridge == k.bridge && id in k'.link.streams
            && (item.Data? && item.chunk.valid ==> IsRead(k', id, read + [item.chunk]))
            && (item == Done ==> k'.link.streams[id].state == Completed && k'.link.streams[id].read == read)
            && (item.Fail? ==>
                  k'.link.streams[id].state == Failed(Raised(item.fault)) && k'.link.streams[id].read == read)
  {}

  // ---- The answer comes up

  function AfterChunk(k: Conn, id: ReqId, c: Chunk): Conn
  {
    Act(AfterFrame(Act(k, HandlerYields(id, c))), ReadItem(id))
  }

  ghost predicate IsServed(k: Conn, id: ReqId, read: seq<Chunk>)
  {
    IsQuiet(k) && B.IsRunning(k.bridge, id) && IsRead(k, id, read)
  }

  lemma ChunkIsRead(k: Conn, id: ReqId, c: Chunk, read: seq<Chunk>)
    requires IsServed(k, id, read) && c.valid
    ensures IsServed(AfterChunk(k, id, c), id, read + [c])
  {
    var k1 := Act(k, HandlerYields(id, c));
    assert k1 == k.(bridge := B.YieldChunk(k.bridge, id, c));
    assert HasFrame(k1, ChunkFrame(id, Some(c)));
    FrameArrives(k1, ChunkFrame(id, Some(c)), id, Data(c), read);
    assert [] + [Data(c)] == [Data(c)];
    ItemIsRead(AfterFrame(k1), id, Data(c), read);
  }

  function LastAct(id: ReqId, ending: B.Ending): Action
  {
    match ending
    case Exhausted => HandlerEnds(id)
    case RefusedBy(r) => HandlerRefuses(id, r)
    case RaisedWith(m) => HandlerRaises(id, m)
  }

  /** How core's stream should end. */
  function EndOf(ending: B.Ending): StreamState
  {
    match ending
    case Exhausted => Completed
    case RefusedBy(r) => Failed(Raised(Refused(r)))
    case RaisedWith(m) => Failed(Raised(Reported(if m == "" then "LLM provider reported an error" else m)))
  }

  function LastItem(ending: B.Ending): Item
  {
    match ending
    case Exhausted => Done
    case RefusedBy(r) => Fail(Refused(r))
    case RaisedWith(m) => Fail(ReportedAs(m))
  }

  lemma LastWordGoesOut(k: Conn, id: ReqId, ending: B.Ending)
    requires IsQuiet(k) && B.IsRunning(k.bridge, id)
    ensures var k1 := Act(k, LastAct(id, ending));
            HasFrame(k1, B.LastWord(id, ending)) && k1.link == k.link
  {
    var k1 := Act(k, LastAct(id, ending));
    assert k1 == HandlerActsOn(k, LastAct(id, ending));
    assert [] + [B.LastWord(id, ending)] == [B.LastWord(id, ending)];
  }

  lemma LastWordCarries(id: ReqId, ending: B.Ending)
    ensures ItemOf(B.LastWord(id, ending)) == Some((id, LastItem(ending)))
    ensures LastItem(ending) == Done ==> EndOf(ending) == Completed
    ensures LastItem(ending).Fail? ==> EndOf(ending) == Failed(Raised(LastItem(ending).fault))
    ensures !LastItem(ending).Data?
  {}

  function AfterLastWord(k: Conn, id: ReqId, ending: B.Ending): Conn
  {
    Act(AfterFrame(Act(k, LastAct(id, ending))), ReadItem(id))
  }

  lemma LastWordIsRead(k: Conn, id: ReqId, ending: B.Ending, read: seq<Chunk>)
    requires IsServed(k, id, read)
    ensures var k' := AfterLastWord(k, id, ending);
            && IsQuiet(k') && id in k'.link.streams
            && k'.link.streams[id].read == read && k'.link.streams[id].state == EndOf(ending)
  {
    var k1 := Act(k, LastAct(id, ending));
    LastWordGoesOut(k, id, ending);
    LastWordCarries(id, ending);
    FrameArrives(k1, B.LastWord(id, ending), id, LastItem(ending), read);
    assert [] + [LastItem(ending)] == [LastItem(ending)];
    ItemIsRead(AfterFrame(k1), id, LastItem(ending), read);
  }

  // ---- The whole exchange

  function Acts(k: Conn, actions: seq<Action>): Conn
    decreases actions
  {
    if actions == [] then k else Acts(Act(k, actions[0]), actions[1..])
  }

  lemma {:induction false} ActsInTwoParts(k: Conn, first: seq<Action>, more: seq<Action>)
    ensures Acts(k, first + more) == Acts(Acts(k, first), more)
    decreases first
  {
    if first == [] {
      assert first + more == more;
    } else {
      ActsInTwoParts(Act(k, first[0]), first[1..], more);
      assert (first + more)[0] == first[0] && (first + more)[1..] == first[1..] + more;
    }
  }

  lemma FirstAct(k: Conn, a: Action, rest: seq<Action>, all: seq<Action>)
    requires all == [a] + rest
    ensures Acts(k, all) == Acts(Act(k, a), rest)
  {
    assert all[0] == a && all[1..] == rest;
  }

  lemma FiveActs(k: Conn, a: Action, b: Action, c: Action, d: Action, e: Action)
    ensures Acts(k, [a, b, c, d, e]) == Act(Act(Act(Act(Act(k, a), b), c), d), e)
  {
    var k1 := Act(k, a);
    var k2 := Act(k1, b);
    var k3 := Act(k2, c);
    var k4 := Act(k3, d);
    FirstAct(k, a, [b, c, d, e], [a, b, c, d, e]);
    FirstAct(k1, b, [c, d, e], [b, c, d, e]);
    FirstAct(k2, c, [d, e], [c, d, e]);
    FirstAct(k3, d, [e], [d, e]);
    FirstAct(k4, e, [], [e]);
  }

  function AskActs(id: ReqId, body: string): seq<Action>
  {
    [AskFor(id, body), GateTake, GateSend, BridgeReceive, StartRead(id)]
  }

  function ChunkActs(id: ReqId, c: Chunk): seq<Action>
  {
    [HandlerYields(id, c), BridgeTake, BridgeSend, GateReceive, ReadItem(id)]
  }

  function LastActs(id: ReqId, ending: B.Ending): seq<Action>
  {
    [LastAct(id, ending), BridgeTake, BridgeSend, GateReceive, ReadItem(id)]
  }

  function AnswerActs(id: ReqId, chunks: seq<Chunk>, ending: B.Ending): seq<Action>
  {
    if chunks == [] then LastActs(id, ending) else ChunkActs(id, chunks[0]) + AnswerActs(id, chunks[1..], ending)
  }

  /** The stream has ended as the handler did, with `read` read. */
  ghost predicate IsOver(k: Conn, id: ReqId, read: seq<Chunk>, ending: B.Ending)
  {
    && IsQuiet(k) && id in k.link.streams
    && k.link.streams[id].read == read && k.link.streams[id].state == EndOf(ending)
  }

  lemma RequestWasServed(k: Conn, id: ReqId, body: string, acts: seq<Action>) returns (k': Conn)
    requires IsQuiet(k) && acts == AskActs(id, body)
    ensures k' == Acts(k, acts) && IsServed(k', id, []) && k'.bridge.tasks[id].body == body
  {
    FiveActs(k, AskFor(id, body), GateTake, GateSend, BridgeReceive, StartRead(id));
    var k1 := AfterAsking(k, id, body);
    UndisturbedRequest(k, id, body);
    k' := Act(k1, StartRead(id));
    assert k' == k1.(link := StartReading(k1.link, id));
  }

  lemma ChunkWasRead(k: Conn, id: ReqId, c: Chunk, read: seq<Chunk>, acts: seq<Action>) returns (k': Conn)
    requires IsServed(k, id, read) && c.valid && acts == ChunkActs(id, c)
    ensures k' == Acts(k, acts) && IsServed(k', id, read + [c])
  {
    FiveActs(k, HandlerYields(id, c), BridgeTake, BridgeSend, GateReceive, ReadItem(id));
    ChunkIsRead(k, id, c, read);
    k' := AfterChunk(k, id, c);
  }

  lemma LastWordWasRead(k: Conn, id: ReqId, ending: B.Ending, read: seq<Chunk>, acts: seq<Action>) returns (k': Conn)
    requires IsServed(k, id, read) && acts == LastActs(id, ending)
    ensures k' == Acts(k, acts) && IsOver(k', id, read, ending)
  {
    FiveActs(k, LastAct(id, ending), BridgeTake, BridgeSend, GateReceive, ReadItem(id));
    LastWordIsRead(k, id, ending, read);
    k' := AfterLastWord(k, id, ending);
  }

  lemma {:induction false} AnswerIsRead(k: Conn, id: ReqId, chunks: seq<Chunk>, ending: B.Ending, read: seq<Chunk>)
      returns (k': Conn)
    requires IsServed(k, id, read) && forall i :: 0 <= i < |chunks| ==> chunks[i].valid
    ensures k' == Acts(k, AnswerActs(id, chunks, ending)) && IsOver(k', id, read + chunks, ending)
    decreases chunks
  {
    if chunks == [] {
      assert read + chunks == read;
      k' := LastWordWasRead(k, id, ending, read, AnswerActs(id, [], ending));
    } else {
      var first, rest := ChunkActs(id, chunks[0]), AnswerActs(id, chunks[1..], ending);
      var k1 := ChunkWasRead(k, id, chunks[0], read, first);
      k' := AnswerIsRead(k1, id, chunks[1..], ending, read + [chunks[0]]);
      ActsInTwoParts(k, first, rest);
      assert read + [chunks[0]] + chunks[1..] == read + chunks;
    }
  }

  /** One completion nobody interferes with, on any quiet connection and for any answer of
      valid chunks: core reads every chunk the handler yields, in order, and its stream ends
      as the handler did: normally, refused with the handler's refusal, or failed in the
      handler's words. The connection is quiet again. */
  lemma UndisturbedCompletion(k: Conn, id: ReqId, body: string, chunks: seq<Chunk>, ending: B.Ending)
    requires IsQuiet(k) && forall i :: 0 <= i < |chunks| ==> chunks[i].valid
    ensures var k' := Acts(k, AskActs(id, body) + AnswerActs(id, chunks, ending));
            && IsQuiet(k') && id in k'.link.streams
            && k'.link.streams[id].read == chunks && k'.link.streams[id].state == EndOf(ending)
  {
    var k1 := RequestWasServed(k, id, body, AskActs(id, body));
    var k2 := AnswerIsRead(k1, id, chunks, ending, []);
    ActsInTwoParts(k, AskActs(id, body), AnswerActs(id, chunks, ending));
    assert [] + chunks == chunks;
  }

  /** A connection that has just been made is quiet. */
  lemma FreshConnectionIsQuiet()
    ensures IsQuiet(NEW_CONN)
  {}
}
