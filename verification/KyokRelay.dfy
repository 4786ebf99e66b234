/** The KYOK completion relay end to end: any number of connections and completions,
    handlers, writers, readers, timeouts and drops in any interleaving. */
module KyokRelay {
  import opened Wrappers
  import opened KyokLink
  import B = KyokBridge

  /** One connection. `up` and `down` are the frames in transit on a reliable FIFO wire
      that `cut` ends; `hand` is the frame the gateway's writer holds. */
  datatype Conn = Conn(
    link: Link, hand: seq<OutFrame>, down: seq<OutFrame>, up: seq<InFrame>, cut: bool, gateOpen: bool, bridge: B.Bridge)

  const NEW_CONN := Conn(NEW_LINK, [], [], [], false, true, B.NEW_BRIDGE)

  datatype Action =
    | AskFor(id: ReqId, body: string)
    | StartRead(id: ReqId)
    | ReadItem(id: ReqId)
    | GapPasses(id: ReqId)
    | DropIterator(id: ReqId)
    | GateTake
    | GateSend
    | GateReceive
    | GateTeardown
    | BridgeReceive
    | HandlerYields(id: ReqId, chunk: Chunk)
    | HandlerEnds(id: ReqId)
    | HandlerRefuses(id: ReqId, refusal: string)
    | HandlerRaises(id: ReqId, message: string)
    | BridgeTake
    | BridgeSend
    | BridgeTeardown
    | CutWire(keepDown: nat, keepUp: nat)

  function GateReceiveOn(k: Conn): Conn
    requires k.up != []
  {
    k.(up := k.up[1..], link := Dispatch(k.link, k.up[0]))
  }

  function BridgeReceiveOn(k: Conn): Conn
    requires k.down != []
  {
    k.(down := k.down[1..], bridge := B.Receive(k.bridge, k.down[0]))
  }

  /** A frame sent on a cut wire is lost. */
  function BridgeSendOn(k: Conn): Conn
  {
    k.(bridge := k.bridge.(hand := []), up := if k.cut then k.up else k.up + k.bridge.hand)
  }

  function GateSendOn(k: Conn): Conn
  {
    k.(hand := [], down := if k.cut then k.down else k.down + k.hand)
  }

  /** What a handler's step does to its bridge. */
  function HandlerStep(b: B.Bridge, a: Action): B.Bridge
    requires IsHandlers(a) && a.id in b.tasks
  {
    match a
    case HandlerYields(id, c) => B.YieldChunk(b, id, c)
    case HandlerEnds(id) => B.FinishTask(b, id)
    case HandlerRefuses(id, r) => B.RefuseTask(b, id, r)
    case HandlerRaises(id, m) => B.CrashTask(b, id, m)
  }

  predicate IsHandlers(a: Action)
  {
    a.HandlerYields? || a.HandlerEnds? || a.HandlerRefuses? || a.HandlerRaises?
  }

  /** A task that has been cancelled, or has had its last word, does nothing more. */
  function HandlerActsOn(k: Conn, a: Action): Conn
    requires IsHandlers(a)
  {
    if B.IsRunning(k.bridge, a.id) then k.(bridge := HandlerStep(k.bridge, a)) else k
  }

  /** One step of one connection; what is not enabled changes nothing. */
  function Act(k: Conn, a: Action): Conn
  {
    match a
    case AskFor(id, body) => k.(link := Complete(k.link, id, body))
    case StartRead(id) => k.(link := StartReading(k.link, id))
    case ReadItem(id) => k.(link := Pull(k.link, id))
    case GapPasses(id) => k.(link := TimeOut(k.link, id))
    case DropIterator(id) => k.(link := Abandon(k.link, id))
    case GateTake =>
      if k.gateOpen && k.hand == [] && k.link.outbound != []
      then k.(hand := [k.link.outbound[0]], link := k.link.(outbound := k.link.outbound[1..])) else k
    case GateSend => GateSendOn(k)
    case GateReceive => if k.gateOpen && k.up != [] then GateReceiveOn(k) else k
    case GateTeardown =>
      if k.gateOpen then k.(link := FailPending(k.link), hand := [], cut := true, gateOpen := false) else k
    case BridgeReceive => if k.bridge.open && k.down != [] then BridgeReceiveOn(k) else k
    case HandlerYields(_, _) => HandlerActsOn(k, a)
    case HandlerEnds(_) => HandlerActsOn(k, a)
    case HandlerRefuses(_, _) => HandlerActsOn(k, a)
    case HandlerRaises(_, _) => HandlerActsOn(k, a)
    case BridgeTake =>
      if k.bridge.open && k.bridge.hand == [] && k.bridge.outbound != [] then k.(bridge := B.Take(k.bridge)) else k
    case BridgeSend => BridgeSendOn(k)
    case BridgeTeardown => k.(bridge := B.TearDown(k.bridge), cut := true)
    case CutWire(keepDown, keepUp) => k.(cut := true, down := Keep(k.down, keepDown), up := Keep(k.up, keepUp))
  }

  // ---- The whole system

  type System = map<nat, Conn>

  datatype Label = Connect(c: nat) | On(c: nat, action: Action)

  /** `new_id` never mints an id twice, on any connection. */
  predicate FreshId(s: System, id: ReqId)
  {
    forall c :: c in s ==> id !in s[c].link.streams
  }

  predicate Enabled(s: System, l: Label)
  {
    match l
    case Connect(c) => c !in s
    case On(c, a) => c in s && (a.AskFor? ==> FreshId(s, a.id))
  }

  function Step(s: System, l: Label): System
  {
    if !Enabled(s, l) then s
    else
      match l
      case Connect(c) => s[c := NEW_CONN]
      case On(c, a) => s[c := Act(s[c], a)]
  }

  function Run(labels: seq<Label>): System
  {
    if labels == [] then map[] else Step(Run(labels[..|labels| - 1]), labels[|labels| - 1])
  }

  // ---- What travels for one request

  /** The items for `id` among some frames, in order. */
  function Items(frames: seq<InFrame>, id: ReqId): seq<Item>
  {
    if frames == [] then []
    else
      (match ItemOf(frames[0])
       case Some((i, item)) => if i == id then [item] else []
       case None => [])
      + Items(frames[1..], id)
  }

  lemma {:induction false} ItemsAppend(a: seq<InFrame>, b: seq<InFrame>, id: ReqId)
    ensures Items(a + b, id) == Items(a, id) + Items(b, id)
  {
    if a == [] {
      assert a + b == b;
    } else {
      assert (a + b)[0] == a[0] && (a + b)[1..] == a[1..] + b;
      ItemsAppend(a[1..], b, id);
    }
  }

  /** Every item among `frames` answers a request in `ids`. */
  ghost predicate AnswersOnly(frames: seq<InFrame>, ids: set<ReqId>)
  {
    forall f :: f in frames && ItemOf(f).Some? ==> ItemOf(f).value.0 in ids
  }

  lemma {:induction false} NoItemsForOthers(frames: seq<InFrame>, ids: set<ReqId>, id: ReqId)
    requires AnswersOnly(frames, ids) && id !in ids
    ensures Items(frames, id) == []
  {
    if frames != [] {
      assert frames[0] in frames;
      assert forall f :: f in frames[1..] ==> f in frames;
      NoItemsForOthers(frames[1..], ids, id);
    }
  }

  /** The ids requested among some frames, in order. */
  function Requests(frames: seq<OutFrame>): seq<ReqId>
  {
    if frames == [] then []
    else (if frames[0].CompletionRequest? then [frames[0].id] else []) + Requests(frames[1..])
  }

  lemma {:induction false} RequestsAppend(a: seq<OutFrame>, b: seq<OutFrame>)
    ensures Requests(a + b) == Requests(a) + Requests(b)
  {
    if a == [] {
      assert a + b == b;
    } else {
      assert (a + b)[0] == a[0] && (a + b)[1..] == a[1..] + b;
      RequestsAppend(a[1..], b);
    }
  }

  ghost predicate Distinct<T(!new)>(s: seq<T>)
  {
    forall i, j :: 0 <= i < j < |s| ==> s[i] != s[j]
  }

  // ---- The invariant of one connection

  /** Requests on their way to the bridge, oldest first. */
  function PendingRequests(k: Conn): seq<ReqId>
  {
    Requests(k.down) + Requests(k.hand) + Requests(k.link.outbound)
  }

  function Emitted(k: Conn, id: ReqId): seq<Item>
  {
    if id in k.bridge.tasks then k.bridge.tasks[id].emitted else []
  }

  /** `fed`: what the gateway put into a request's queue; `up`, `hand`, `out`: what is on
      the wire, in the writer's hand and on the bridge's queue for it; `emitted`: all its
      task ever put out. While the request is live these line up: exactly while the wire
      holds, and as a prefix of what was put out once it is cut. */
  ghost predicate Follows(
    fed: seq<Item>, live: bool, cut: bool, up: seq<Item>, hand: seq<Item>, out: seq<Item>, emitted: seq<Item>)
  {
    && fed <= emitted
    && (live ==> if cut then fed + up <= emitted else fed + up + hand + out == emitted)
  }

  ghost predicate Tracks(k: Conn, id: ReqId)
    requires id in k.link.streams
  {
    Follows(k.link.streams[id].fed, id in k.link.inFlight, k.cut,
            Items(k.up, id), Items(k.bridge.hand, id), Items(k.bridge.outbound, id), Emitted(k, id))
  }

  ghost predicate PendingOk(pending: seq<ReqId>, asked: set<ReqId>, started: set<ReqId>)
  {
    && Distinct(pending)
    && (forall id :: id in pending ==> id in asked && id !in started)
    && started <= asked
  }

  /** Each request reaches the bridge at most once. */
  ghost predicate RequestsInv(k: Conn)
  {
    PendingOk(PendingRequests(k), k.link.streams.Keys, k.bridge.tasks.Keys)
  }

  ghost predicate FramesInv(k: Conn)
  {
    && AnswersOnly(k.up, k.bridge.tasks.Keys)
    && AnswersOnly(k.bridge.hand, k.bridge.tasks.Keys)
    && AnswersOnly(k.bridge.outbound, k.bridge.tasks.Keys)
  }

  ghost predicate ConnInv(k: Conn)
  {
    && LinkInv(k.link) && B.BridgeInv(k.bridge)
    && RequestsInv(k) && FramesInv(k)
    && (forall id :: id in k.link.streams ==> Tracks(k, id))
  }

  lemma QuietTracks(k: Conn, k': Conn, id: ReqId)
    requires k'.bridge == k.bridge && k'.up == k.up && k'.cut == k.cut
    requires id in k.link.streams && id in k'.link.streams && Tracks(k, id)
    requires k'.link.streams[id].fed == k.link.streams[id].fed
    requires id in k'.link.inFlight ==> id in k.link.inFlight
    ensures Tracks(k', id)
  {}

  /** A step that feeds nothing and leaves the pipe and the tasks alone. */
  lemma QuietStep(k: Conn, k': Conn)
    requires ConnInv(k) && k'.bridge == k.bridge && k'.up == k.up && k'.cut == k.cut
    requires LinkInv(k'.link) && RequestsInv(k')
    requires FeedsNothing(k.link, k'.link.(outbound := k.link.outbound))
    ensures ConnInv(k')
  {
    forall id | id in k'.link.streams ensures Tracks(k', id) {
      QuietTracks(k, k', id);
    }
  }

  lemma NewRequestTracks(k: Conn, id: ReqId, body: string)
    requires ConnInv(k) && id !in k.link.streams
    ensures Tracks(Act(k, AskFor(id, body)), id)
  {
    NoItemsForOthers(k.up, k.bridge.tasks.Keys, id);
    NoItemsForOthers(k.bridge.hand, k.bridge.tasks.Keys, id);
    NoItemsForOthers(k.bridge.outbound, k.bridge.tasks.Keys, id);
  }

  lemma AskKeepsRequests(k: Conn, id: ReqId, body: string)
    requires RequestsInv(k) && id !in k.link.streams
    ensures RequestsInv(Act(k, AskFor(id, body)))
  {
    var k' := Act(k, AskFor(id, body));
    RequestsAppend(k.link.outbound, [CompletionRequest(id, body)]);
    assert [CompletionRequest(id, body)][1..] == [];
    assert PendingRequests(k') == PendingRequests(k) + [id];
    assert forall i :: i in PendingRequests(k) ==> i != id;
  }

  lemma AskKeepsInv(k: Conn, id: ReqId, body: string)
    requires ConnInv(k) && id !in k.link.streams
    ensures ConnInv(Act(k, AskFor(id, body)))
  {
    var k' := Act(k, AskFor(id, body));
    CompleteKeepsInv(k.link, id, body);
    AskKeepsRequests(k, id, body);
    forall i | i in k'.link.streams ensures Tracks(k', i) {
      if i == id { NewRequestTracks(k, id, body); } else { QuietTracks(k, k', i); }
    }
  }

  lemma ReaderKeepsInv(k: Conn, a: Action)
    requires ConnInv(k) && (a.StartRead? || a.ReadItem? || a.GapPasses? || a.DropIterator?)
    ensures ConnInv(Act(k, a))
  {
    match a {
      case StartRead(id) => StartKeepsInv(k.link, id);
      case ReadItem(id) => PullKeepsInv(k.link, id);
      case GapPasses(id) => TimeOutKeepsInv(k.link, id);
      case DropIterator(id) => AbandonKeepsInv(k.link, id);
    }
    QuietStep(k, Act(k, a));
  }

  lemma GateTakeKeepsInv(k: Conn)
    requires ConnInv(k)
    ensures ConnInv(Act(k, GateTake))
  {
    var k' := Act(k, GateTake);
    if k' != k {
      var out := k.link.outbound;
      assert out == [out[0]] + out[1..];
      RequestsAppend([out[0]], out[1..]);
      assert PendingRequests(k') == PendingRequests(k);
    }
    QuietStep(k, k');
  }

  lemma GateSendKeepsInv(k: Conn)
    requires ConnInv(k)
    ensures ConnInv(Act(k, GateSend))
  {
    var k' := Act(k, GateSend);
    var down, hand, out := Requests(k.down), Requests(k.hand), Requests(k.link.outbound);
    if k.cut {
      assert PendingRequests(k) == down + hand + out;
      PendingThins(down, hand, out, k.link.streams.Keys, k.bridge.tasks.Keys);
      assert PendingRequests(k') == down + out;
    } else {
      RequestsAppend(k.down, k.hand);
      assert PendingRequests(k') == PendingRequests(k);
    }
    QuietStep(k, k');
  }

  /** Losing some pending requests does no harm. */
  lemma PendingThins(a: seq<ReqId>, b: seq<ReqId>, c: seq<ReqId>, asked: set<ReqId>, started: set<ReqId>)
    requires PendingOk(a + b + c, asked, started)
    ensures PendingOk(a + c, asked, started)
  {
    var s, t := a + b + c, a + c;
    forall i, j | 0 <= i < j < |t| ensures t[i] != t[j] {
      var i' := if i < |a| then i else i + |b|;
      var j' := if j < |a| then j else j + |b|;
      assert t[i] == s[i'] && t[j] == s[j'];
    }
    forall x | x in t ensures x in s {}
  }

  lemma GateTeardownKeepsInv(k: Conn)
    requires ConnInv(k) && k.gateOpen
    ensures ConnInv(Act(k, GateTeardown))
  {
    var k' := Act(k, GateTeardown);
    FailPendingKeepsInv(k.link);
    PendingThins(Requests(k.down), Requests(k.hand), Requests(k.link.outbound),
                 k.link.streams.Keys, k.bridge.tasks.Keys);
    assert PendingRequests(k') == Requests(k.down) + Requests(k.link.outbound);
    forall id | id in k'.link.streams ensures Tracks(k', id) {
      GateDownTracks(k, id);
    }
  }

  lemma GateDownTracks(k: Conn, id: ReqId)
    requires id in k.link.streams && Tracks(k, id)
    ensures Tracks(Act(k, GateTeardown), id)
  {}

  // ---- How frames move

  lemma FollowsReceive(
    fed: seq<Item>, cut: bool, x: seq<Item>, up: seq<Item>, hand: seq<Item>, out: seq<Item>, emitted: seq<Item>)
    requires Follows(fed, true, cut, x + up, hand, out, emitted)
    ensures Follows(fed + x, true, cut, up, hand, out, emitted)
  {
    assert fed + (x + up) == fed + x + up;
    if !cut {
      assert fed + (x + up) + hand + out == (fed + x) + (up + hand + out);
    }
  }

  lemma FollowsSend(
    fed: seq<Item>, live: bool, cut: bool, up: seq<Item>, hand: seq<Item>, out: seq<Item>, emitted: seq<Item>)
    requires Follows(fed, live, cut, up, hand, out, emitted)
    ensures Follows(fed, live, cut, if cut then up else up + hand, [], out, emitted)
  {
    assert fed + (up + hand) + [] + out == fed + up + hand + out;
  }

  lemma FollowsTake(
    fed: seq<Item>, live: bool, cut: bool, up: seq<Item>, x: seq<Item>, out: seq<Item>, emitted: seq<Item>)
    requires Follows(fed, live, cut, up, [], x + out, emitted)
    ensures Follows(fed, live, cut, up, x, out, emitted)
  {
    assert fed + up + [] + (x + out) == fed + up + x + out;
  }

  lemma FollowsEmit(
    fed: seq<Item>, live: bool, cut: bool, up: seq<Item>, hand: seq<Item>, out: seq<Item>, x: seq<Item>,
    emitted: seq<Item>)
    requires Follows(fed, live, cut, up, hand, out, emitted)
    ensures Follows(fed, live, cut, up, hand, out + x, emitted + x)
  {
    assert fed + up + hand + (out + x) == fed + up + hand + out + x;
  }

  lemma FollowsCut(
    fed: seq<Item>, live: bool, cut: bool, up: seq<Item>, lost: seq<Item>, hand: seq<Item>, out: seq<Item>,
    emitted: seq<Item>)
    requires Follows(fed, live, cut, up + lost, hand, out, emitted)
    ensures Follows(fed, live, true, up, [], [], emitted)
    ensures Follows(fed, live, true, up, hand, out, emitted)
  {
    if live {
      assert fed + (up + lost) == (fed + up) + lost;
      if !cut {
        assert fed + (up + lost) + hand + out == (fed + up) + (lost + hand + out);
      }
    }
  }

  lemma HeadItems(frames: seq<InFrame>, id: ReqId)
    requires frames != []
    ensures Items(frames, id) == Items([frames[0]], id) + Items(frames[1..], id)
  {
    assert [frames[0]][1..] == [];
  }

  lemma DispatchFeeds(l: Link, f: InFrame, id: ReqId)
    requires id in l.streams && l.inFlight <= l.streams.Keys
    ensures var l' := Dispatch(l, f);
            && l'.inFlight == l.inFlight && l'.streams.Keys == l.streams.Keys
            && l'.streams[id].fed == l.streams[id].fed + if id in l.inFlight then Items([f], id) else []
  {
    assert [f][1..] == [];
  }

  /** The first frame of the pipe is fed to its queue. */
  lemma ReceivedTracks(k: Conn, id: ReqId)
    requires k.up != [] && id in k.link.streams && k.link.inFlight <= k.link.streams.Keys && Tracks(k, id)
    ensures id in GateReceiveOn(k).link.streams && Tracks(GateReceiveOn(k), id)
  {
    DispatchFeeds(k.link, k.up[0], id);
    HeadItems(k.up, id);
    if id in k.link.inFlight {
      FollowsReceive(k.link.streams[id].fed, k.cut, Items([k.up[0]], id), Items(k.up[1..], id),
                     Items(k.bridge.hand, id), Items(k.bridge.outbound, id), Emitted(k, id));
    }
  }

  lemma GateReceiveKeepsInv(k: Conn)
    requires ConnInv(k) && k.up != []
    ensures ConnInv(GateReceiveOn(k))
  {
    var k' := GateReceiveOn(k);
    DispatchKeepsInv(k.link, k.up[0]);
    DispatchRequestsNothing(k.link, k.up[0]);
    assert PendingRequests(k') == PendingRequests(k);
    assert forall f :: f in k'.up ==> f in k.up;
    forall id | id in k'.link.streams ensures Tracks(k', id) {
      ReceivedTracks(k, id);
    }
  }

  lemma DispatchRequestsNothing(l: Link, f: InFrame)
    ensures Requests(Dispatch(l, f).outbound) == Requests(l.outbound)
    ensures Dispatch(l, f).streams.Keys == l.streams.Keys
  {
    var l' := Dispatch(l, f);
    if l'.outbound != l.outbound {
      var c := l'.outbound[|l.outbound|];
      assert l'.outbound == l.outbound + [c];
      assert [c][1..] == [];
      RequestsAppend(l.outbound, [c]);
    }
  }

  lemma TakenTracks(k: Conn, id: ReqId)
    requires id in k.link.streams && Tracks(k, id)
    ensures Tracks(Act(k, BridgeTake), id)
  {
    if k.bridge.open && k.bridge.hand == [] && k.bridge.outbound != [] {
      HeadItems(k.bridge.outbound, id);
      FollowsTake(k.link.streams[id].fed, id in k.link.inFlight, k.cut, Items(k.up, id),
                  Items([k.bridge.outbound[0]], id), Items(k.bridge.outbound[1..], id), Emitted(k, id));
    }
  }

  lemma SentTracks(k: Conn, id: ReqId)
    requires id in k.link.streams && Tracks(k, id)
    ensures Tracks(Act(k, BridgeSend), id)
  {
    ItemsAppend(k.up, k.bridge.hand, id);
    FollowsSend(k.link.streams[id].fed, id in k.link.inFlight, k.cut, Items(k.up, id),
                Items(k.bridge.hand, id), Items(k.bridge.outbound, id), Emitted(k, id));
  }

  lemma BridgeWriterKeepsInv(k: Conn, a: Action)
    requires ConnInv(k) && (a.BridgeTake? || a.BridgeSend?)
    ensures ConnInv(Act(k, a))
  {
    var k' := Act(k, a);
    forall id | id in k'.link.streams ensures Tracks(k', id) {
      if a.BridgeTake? { TakenTracks(k, id); } else { SentTracks(k, id); }
    }
  }

  /** One of the four ways a task puts a frame on the queue. */
  ghost predicate TaskStep(k: Conn, k': Conn, id: ReqId, f: InFrame, item: Item, t: B.Task)
  {
    && id in k.bridge.tasks && ItemOf(f) == Some((id, item))
    && t.emitted == k.bridge.tasks[id].emitted
    && k' == k.(bridge := B.Put(k.bridge, id, f, item, t))
  }

  lemma TaskStepTracks(k: Conn, k': Conn, id: ReqId, f: InFrame, item: Item, t: B.Task, i: ReqId)
    requires TaskStep(k, k', id, f, item, t) && i in k.link.streams && Tracks(k, i)
    ensures Tracks(k', i)
  {
    ItemsAppend(k.bridge.outbound, [f], i);
    assert [f][1..] == [];
    var x := if i == id then [item] else [];
    assert Items([f], i) == x;
    FollowsEmit(k.link.streams[i].fed, i in k.link.inFlight, k.cut, Items(k.up, i),
                Items(k.bridge.hand, i), Items(k.bridge.outbound, i), x, Emitted(k, i));
    assert Emitted(k', i) == Emitted(k, i) + x;
  }

  lemma TaskStepFrames(k: Conn, k': Conn, id: ReqId, f: InFrame, item: Item, t: B.Task)
    requires FramesInv(k) && TaskStep(k, k', id, f, item, t)
    ensures FramesInv(k')
  {
    assert k'.bridge.tasks.Keys == k.bridge.tasks.Keys;
    assert forall g :: g in k'.bridge.outbound ==> g in k.bridge.outbound || g == f;
  }

  lemma TaskStepKeepsInv(k: Conn, k': Conn, id: ReqId, f: InFrame, item: Item, t: B.Task)
    requires ConnInv(k) && TaskStep(k, k', id, f, item, t)
    requires B.TaskInv(t.(emitted := t.emitted + [item]))
    ensures ConnInv(k')
  {
    B.PutKeepsInv(k.bridge, id, f, item, t);
    TaskStepFrames(k, k', id, f, item, t);
    assert PendingRequests(k') == PendingRequests(k);
    forall i | i in k'.link.streams ensures Tracks(k', i) {
      TaskStepTracks(k, k', id, f, item, t, i);
    }
  }

  lemma YieldKeepsInv(k: Conn, id: ReqId, c: Chunk)
    requires ConnInv(k) && B.IsRunning(k.bridge, id)
    ensures ConnInv(k.(bridge := B.YieldChunk(k.bridge, id, c)))
  {
    var t := k.bridge.tasks[id];
    B.ChunkKeepsTaskInv(t, c);
    TaskStepKeepsInv(k, k.(bridge := B.YieldChunk(k.bridge, id, c)), id,
                     ChunkFrame(id, Some(c)), Data(c), t.(yielded := t.yielded + [c]));
  }

  lemma EndKeepsInv(k: Conn, id: ReqId)
    requires ConnInv(k) && B.IsRunning(k.bridge, id)
    ensures ConnInv(k.(bridge := B.FinishTask(k.bridge, id)))
  {
    B.LastWordKeepsTaskInv(k.bridge.tasks[id], B.Finished);
    TaskStepKeepsInv(k, k.(bridge := B.FinishTask(k.bridge, id)), id,
                     DoneFrame(id), Done, k.bridge.tasks[id].(state := B.Finished));
  }

  /** A running task's last word is an error. */
  lemma ErrorKeepsInv(k: Conn, id: ReqId, f: InFrame, fault: Fault, b: B.Bridge)
    requires ConnInv(k) && B.IsRunning(k.bridge, id) && ItemOf(f) == Some((id, Fail(fault)))
    requires b == B.Put(k.bridge, id, f, Fail(fault), k.bridge.tasks[id].(state := B.Errored(fault)))
    ensures ConnInv(k.(bridge := b))
  {
    var t := k.bridge.tasks[id].(state := B.Errored(fault));
    B.LastWordKeepsTaskInv(k.bridge.tasks[id], B.Errored(fault));
    TaskStepKeepsInv(k, k.(bridge := b), id, f, Fail(fault), t);
  }

  lemma RefuseKeepsInv(k: Conn, id: ReqId, r: string)
    requires ConnInv(k) && B.IsRunning(k.bridge, id)
    ensures ConnInv(k.(bridge := B.RefuseTask(k.bridge, id, r)))
  {
    ErrorKeepsInv(k, id, ErrorFrame(id, Some(r), B.REFUSED), Refused(r), B.RefuseTask(k.bridge, id, r));
  }

  lemma RaiseKeepsInv(k: Conn, id: ReqId, m: string)
    requires ConnInv(k) && B.IsRunning(k.bridge, id)
    ensures ConnInv(k.(bridge := B.CrashTask(k.bridge, id, m)))
  {
    var fault := ReportedAs(m);
    assert ItemOf(ErrorFrame(id, None, m)) == Some((id, Fail(fault)));
    ErrorKeepsInv(k, id, ErrorFrame(id, None, m), fault, B.CrashTask(k.bridge, id, m));
  }

  /** A delivered request moves from the pending ones to the tasks. */
  lemma PendingStarts(id: ReqId, rest: seq<ReqId>, asked: set<ReqId>, started: set<ReqId>)
    requires PendingOk([id] + rest, asked, started)
    ensures PendingOk(rest, asked, started + {id})
  {
    var s := [id] + rest;
    forall i, j | 0 <= i < j < |rest| ensures rest[i] != rest[j] {
      assert s[i + 1] != s[j + 1];
    }
    forall x | x in rest ensures x in asked && x !in started + {id} {
      var i :| 0 <= i < |rest| && rest[i] == x;
      assert s[i + 1] == x && s[0] != s[i + 1];
    }
    assert id in s;
  }

  lemma StartedTracks(k: Conn, id: ReqId)
    requires k.down != [] && id in k.link.streams && Tracks(k, id)
    requires k.down[0].CompletionRequest? ==> k.down[0].id !in k.bridge.tasks
    ensures Tracks(BridgeReceiveOn(k), id)
  {}

  lemma ReceivedIsNoLongerPending(k: Conn)
    requires k.down != []
    ensures PendingRequests(k)
         == (if k.down[0].CompletionRequest? then [k.down[0].id] else []) + PendingRequests(BridgeReceiveOn(k))
  {
    var first := if k.down[0].CompletionRequest? then [k.down[0].id] else [];
    var rest, hand, out := Requests(k.down[1..]), Requests(k.hand), Requests(k.link.outbound);
    assert first + rest + hand + out == first + (rest + hand + out);
  }

  lemma StartKeepsRequests(k: Conn)
    requires RequestsInv(k) && k.down != []
    ensures RequestsInv(BridgeReceiveOn(k))
    ensures k.down[0].CompletionRequest? ==> k.down[0].id !in k.bridge.tasks
  {
    var f, rest := k.down[0], PendingRequests(BridgeReceiveOn(k));
    ReceivedIsNoLongerPending(k);
    if f.CompletionRequest? {
      assert ([f.id] + rest)[0] == f.id;
      PendingStarts(f.id, rest, k.link.streams.Keys, k.bridge.tasks.Keys);
      assert BridgeReceiveOn(k).bridge.tasks.Keys == k.bridge.tasks.Keys + {f.id};
    } else {
      assert [] + rest == rest;
    }
  }

  lemma StartKeepsTasks(k: Conn)
    requires B.BridgeInv(k.bridge) && FramesInv(k) && k.down != []
    ensures B.BridgeInv(BridgeReceiveOn(k).bridge) && FramesInv(BridgeReceiveOn(k))
  {}

  lemma BridgeReceiveKeepsInv(k: Conn)
    requires ConnInv(k) && k.down != []
    ensures ConnInv(BridgeReceiveOn(k))
  {
    StartKeepsRequests(k);
    StartKeepsTasks(k);
    forall id | id in k.link.streams ensures Tracks(BridgeReceiveOn(k), id) {
      StartedTracks(k, id);
    }
  }

  lemma TeardownTracks(k: Conn, id: ReqId)
    requires id in k.link.streams && Tracks(k, id)
    ensures Tracks(Act(k, BridgeTeardown), id)
  {
    assert Items(k.up, id) + [] == Items(k.up, id);
    assert Emitted(Act(k, BridgeTeardown), id) == Emitted(k, id);
    FollowsCut(k.link.streams[id].fed, id in k.link.inFlight, k.cut, Items(k.up, id), [],
               Items(k.bridge.hand, id), Items(k.bridge.outbound, id), Emitted(k, id));
  }

  lemma BridgeTeardownKeepsInv(k: Conn)
    requires ConnInv(k)
    ensures ConnInv(Act(k, BridgeTeardown))
  {
    var k' := Act(k, BridgeTeardown);
    B.TearDownKeepsInv(k.bridge);
    assert PendingRequests(k') == PendingRequests(k);
    forall id | id in k'.link.streams ensures Tracks(k', id) {
      TeardownTracks(k, id);
    }
  }

  lemma CutTracks(k: Conn, keepDown: nat, keepUp: nat, id: ReqId)
    requires id in k.link.streams && Tracks(k, id)
    ensures Tracks(Act(k, CutWire(keepDown, keepUp)), id)
  {
    var up' := Keep(k.up, keepUp);
    var lost := k.up[|up'|..];
    KeepIsPrefix(k.up, keepUp);
    ItemsAppend(up', lost, id);
    FollowsCut(k.link.streams[id].fed, id in k.link.inFlight, k.cut, Items(up', id), Items(lost, id),
               Items(k.bridge.hand, id), Items(k.bridge.outbound, id), Emitted(k, id));
  }

  lemma CutKeepsRequests(k: Conn, keepDown: nat, keepUp: nat)
    requires RequestsInv(k)
    ensures RequestsInv(Act(k, CutWire(keepDown, keepUp)))
  {
    var k' := Act(k, CutWire(keepDown, keepUp));
    KeepIsPrefix(k.down, keepDown);
    var lost := k.down[|k'.down|..];
    RequestsAppend(k'.down, lost);
    var rest := Requests(k.hand) + Requests(k.link.outbound);
    assert PendingRequests(k) == Requests(k'.down) + Requests(lost) + rest;
    PendingThins(Requests(k'.down), Requests(lost), rest, k.link.streams.Keys, k.bridge.tasks.Keys);
    assert PendingRequests(k') == Requests(k'.down) + rest;
  }

  lemma CutKeepsInv(k: Conn, keepDown: nat, keepUp: nat)
    requires ConnInv(k)
    ensures ConnInv(Act(k, CutWire(keepDown, keepUp)))
  {
    var k' := Act(k, CutWire(keepDown, keepUp));
    CutKeepsRequests(k, keepDown, keepUp);
    KeepIsPrefix(k.up, keepUp);
    forall id | id in k'.link.streams ensures Tracks(k', id) {
      CutTracks(k, keepDown, keepUp, id);
    }
  }

  lemma HandlerStepKeepsInv(k: Conn, a: Action)
    requires ConnInv(k) && IsHandlers(a) && B.IsRunning(k.bridge, a.id)
    ensures ConnInv(k.(bridge := HandlerStep(k.bridge, a)))
  {
    match a
    case HandlerYields(id, c) => YieldKeepsInv(k, id, c);
    case HandlerEnds(id) => EndKeepsInv(k, id);
    case HandlerRefuses(id, r) => RefuseKeepsInv(k, id, r);
    case HandlerRaises(id, m) => RaiseKeepsInv(k, id, m);
  }

  lemma HandlerKeepsInv(k: Conn, a: Action)
    requires ConnInv(k) && IsHandlers(a)
    ensures ConnInv(HandlerActsOn(k, a))
  {
    if B.IsRunning(k.bridge, a.id) {
      HandlerStepKeepsInv(k, a);
    }
  }

  lemma GateKeepsInv(k: Conn, a: Action)
    requires ConnInv(k) && (a.GateTake? || a.GateSend? || a.GateReceive? || a.GateTeardown?)
    ensures ConnInv(Act(k, a))
  {
    match a
    case GateTake => GateTakeKeepsInv(k);
    case GateSend => GateSendKeepsInv(k);
    case GateReceive => if k.up != [] { GateReceiveKeepsInv(k); }
    case GateTeardown => if k.gateOpen { GateTeardownKeepsInv(k); }
  }

  lemma BridgeKeepsInv(k: Conn, a: Action)
    requires ConnInv(k) && (a.BridgeReceive? || a.BridgeTake? || a.BridgeSend? || a.BridgeTeardown?)
    ensures ConnInv(Act(k, a))
  {
    match a
    case BridgeReceive => if k.down != [] { BridgeReceiveKeepsInv(k); }
    case BridgeTake => BridgeWriterKeepsInv(k, a);
    case BridgeSend => BridgeWriterKeepsInv(k, a);
    case BridgeTeardown => BridgeTeardownKeepsInv(k);
  }

  lemma ActKeepsInv(k: Conn, a: Action)
    requires ConnInv(k) && (a.AskFor? ==> a.id !in k.link.streams)
    ensures ConnInv(Act(k, a))
  {
    if a.AskFor? {
      AskKeepsInv(k, a.id, a.body);
    } else if a.StartRead? || a.ReadItem? || a.GapPasses? || a.DropIterator? {
      ReaderKeepsInv(k, a);
    } else if IsHandlers(a) {
      HandlerKeepsInv(k, a);
    } else if a.GateTake? || a.GateSend? || a.GateReceive? || a.GateTeardown? {
      GateKeepsInv(k, a);
    } else if a.CutWire? {
      CutKeepsInv(k, a.keepDown, a.keepUp);
    } else {
      BridgeKeepsInv(k, a);
    }
  }

  // ---- Every run of the system

  /** No id is known to two connections. */
  ghost predicate IdsApart(s: System)
  {
    forall c, d, id :: c in s && d in s && id in s[c].link.streams && id in s[d].link.streams ==> c == d
  }

  ghost predicate Inv(s: System)
  {
    IdsApart(s) && forall c :: c in s ==> ConnInv(s[c])
  }

  lemma ActMintsOnlyWhatIsAsked(k: Conn, a: Action)
    ensures Act(k, a).link.streams.Keys == k.link.streams.Keys + if a.AskFor? then {a.id} else {}
  {}

  lemma UpdateKeepsIdsApart(s: System, c: nat, k: Conn, minted: set<ReqId>)
    requires IdsApart(s)
    requires forall id :: id in k.link.streams ==> (c in s && id in s[c].link.streams) || id in minted
    requires forall d, id :: d in s && id in minted ==> id !in s[d].link.streams
    ensures IdsApart(s[c := k])
  {}

  lemma UpdateKeepsInv(s: System, c: nat, k: Conn, minted: set<ReqId>)
    requires Inv(s) && ConnInv(k)
    requires forall id :: id in k.link.streams ==> (c in s && id in s[c].link.streams) || id in minted
    requires forall d, id :: d in s && id in minted ==> id !in s[d].link.streams
    ensures Inv(s[c := k])
  {
    UpdateKeepsIdsApart(s, c, k, minted);
  }

  lemma StepKeepsInv(s: System, l: Label)
    requires Inv(s)
    ensures Inv(Step(s, l))
  {
    if Enabled(s, l) {
      match l {
        case Connect(c) =>
          UpdateKeepsInv(s, c, NEW_CONN, {});
        case On(c, a) =>
          ActKeepsInv(s[c], a);
          ActMintsOnlyWhatIsAsked(s[c], a);
          UpdateKeepsInv(s, c, Act(s[c], a), if a.AskFor? then {a.id} else {});
      }
    }
  }

  lemma {:induction false} RunKeepsInv(labels: seq<Label>)
    ensures Inv(Run(labels))
  {
    if labels != [] {
      RunKeepsInv(labels[..|labels| - 1]);
      StepKeepsInv(Run(labels[..|labels| - 1]), labels[|labels| - 1]);
    }
  }

  // ---- What core may rely on

  /** What the handler of a request has yielded so far. */
  function YieldedFor(k: Conn, id: ReqId): seq<Chunk>
  {
    if id in k.bridge.tasks then k.bridge.tasks[id].yielded else []
  }

  ghost predicate NoData(items: seq<Item>)
  {
    forall i :: 0 <= i < |items| ==> !items[i].Data?
  }

  lemma DataStandsInFront(front: seq<Item>, last: seq<Item>, i: nat)
    requires i < |front| + |last| && NoData(last) && (front + last)[i].Data?
    ensures i < |front| && front[i] == (front + last)[i]
  {}

  lemma DataPrefix(read: seq<Chunk>, rest: seq<Item>, yielded: seq<Chunk>, last: seq<Item>)
    requires AsData(read) + rest <= AsData(yielded) + last && NoData(last)
    ensures read <= yielded
  {
    var a, b := AsData(read) + rest, AsData(yielded) + last;
    forall i | 0 <= i < |read| ensures i < |yielded| && read[i] == yielded[i] {
      assert a[i] == Data(read[i]) && b[i] == a[i];
      DataStandsInFront(AsData(yielded), last, i);
    }
    if read != [] {
      var n := |read| - 1;
      assert read[n] == a[n].chunk && n < |yielded|;
    }
  }

  /** What was read came off the front of what was fed. */
  lemma ReadComesFromFed(s: Stream)
    requires Conserved(s)
    ensures |s.read| <= |s.fed| && s.fed == AsData(s.read) + s.fed[|s.read|..]
  {
    var all := AsData(s.read) + s.last + s.queue;
    assert all == s.fed + Tail(s);
    forall i | 0 <= i < |s.read| ensures i < |s.fed| && s.fed[i] == Data(s.read[i]) {
      assert all[i] == Data(s.read[i]);
      DataStandsInFront(s.fed, Tail(s), i);
    }
    if s.read != [] {
      var n := |s.read| - 1;
      assert all[n] == Data(s.read[n]) && n < |s.fed|;
    }
  }

  lemma ReadFollowsTask(s: Stream, t: B.Task)
    requires Conserved(s) && B.TaskInv(t) && s.fed <= t.emitted
    ensures s.read <= t.yielded
  {
    ReadComesFromFed(s);
    DataPrefix(s.read, s.fed[|s.read|..], t.yielded, B.Terminal(t.state));
  }

  /** Order: at every moment of every run, what core has read for a request is an in-order
      prefix of what that request's handler yielded. */
  lemma ReadIsPrefixOfYielded(labels: seq<Label>, c: nat, id: ReqId)
    requires c in Run(labels) && id in Run(labels)[c].link.streams
    ensures var k := Run(labels)[c];
            k.link.streams[id].read <= YieldedFor(k, id)
  {
    RunKeepsInv(labels);
    var k := Run(labels)[c];
    assert Tracks(k, id) && StreamInv(k.link.streams[id]);
    ReadComesFromFed(k.link.streams[id]);
    if id in k.bridge.tasks {
      ReadFollowsTask(k.link.streams[id], k.bridge.tasks[id]);
    }
  }

  /** A done among the fed items is the task's last word. */
  lemma DoneIsLastWord(t: B.Task, fed: seq<Item>, n: nat)
    requires B.TaskInv(t) && fed <= t.emitted && n < |fed| && fed[n] == Done
    ensures t.state.Finished? && |t.yielded| == n
  {
    assert t.emitted[n] == Done;
    OtherItemsComeAfterData(t.yielded, B.Terminal(t.state), n);
  }

  lemma OtherItemsComeAfterData(cs: seq<Chunk>, last: seq<Item>, n: nat)
    requires n < |cs| + |last| && !(AsData(cs) + last)[n].Data?
    ensures n >= |cs|
  {}

  lemma CompletedWasFedDone(s: Stream)
    requires StreamInv(s) && s.state.Completed?
    ensures |s.read| < |s.fed| && s.fed[|s.read|] == Done
  {
    var all := AsData(s.read) + s.last + s.queue;
    assert all == s.fed + Tail(s) && all[|s.read|] == Done;
  }

  /** Completeness: a stream ends normally only if its handler finished and every chunk it
      yielded was read. */
  lemma NormalEndMeansAllRead(labels: seq<Label>, c: nat, id: ReqId)
    requires c in Run(labels) && id in Run(labels)[c].link.streams
    requires Run(labels)[c].link.streams[id].state.Completed?
    ensures var k := Run(labels)[c];
            && id in k.bridge.tasks && k.bridge.tasks[id].state.Finished?
            && k.link.streams[id].read == k.bridge.tasks[id].yielded
  {
    RunKeepsInv(labels);
    var k := Run(labels)[c];
    var s := k.link.streams[id];
    assert Tracks(k, id) && StreamInv(s);
    CompletedWasFedDone(s);
    DoneIsLastWord(k.bridge.tasks[id], s.fed, |s.read|);
    ReadFollowsTask(s, k.bridge.tasks[id]);
  }

  lemma FailIsLastWord(t: B.Task, fed: seq<Item>, n: nat, f: Fault)
    requires B.TaskInv(t) && fed <= t.emitted && n < |fed| && fed[n] == Fail(f)
    ensures t.state == B.Errored(f) && |t.yielded| == n
  {
    assert t.emitted[n] == Fail(f);
    OtherItemsComeAfterData(t.yielded, B.Terminal(t.state), n);
  }

  lemma FailedWasFedFailure(s: Stream, f: Fault)
    requires StreamInv(s) && s.state == Failed(Raised(f)) && f != Disconnected
    ensures |s.read| < |s.fed| && s.fed[|s.read|] == Fail(f)
  {
    var all := AsData(s.read) + s.last + s.queue;
    assert all == s.fed + Tail(s) && all[|s.read|] == Fail(f);
  }

  /** A failure other than the loss of the socket is the handler's own, and comes after
      everything the handler yielded. */
  lemma FailureIsTheHandlers(labels: seq<Label>, c: nat, id: ReqId, f: Fault)
    requires c in Run(labels) && id in Run(labels)[c].link.streams && f != Disconnected
    requires Run(labels)[c].link.streams[id].state == Failed(Raised(f))
    ensures var k := Run(labels)[c];
            && id in k.bridge.tasks && k.bridge.tasks[id].state == B.Errored(f)
            && k.link.streams[id].read == k.bridge.tasks[id].yielded
  {
    RunKeepsInv(labels);
    var k := Run(labels)[c];
    var s := k.link.streams[id];
    assert Tracks(k, id) && StreamInv(s);
    FailedWasFedFailure(s, f);
    FailIsLastWord(k.bridge.tasks[id], s.fed, |s.read|, f);
    ReadFollowsTask(s, k.bridge.tasks[id]);
  }

  /** Frames that will still reach the gateway. */
  function Pipe(k: Conn): seq<InFrame>
  {
    k.up + k.bridge.hand + k.bridge.outbound
  }

  /** Nothing is lost while the wire holds: once nothing is left on its way, everything a
      task has put out is either read or waiting in the queue. */
  lemma NothingIsLostOnALiveWire(labels: seq<Label>, c: nat, id: ReqId)
    requires c in Run(labels) && id in Run(labels)[c].link.inFlight && id in Run(labels)[c].link.streams
    requires !Run(labels)[c].cut && Pipe(Run(labels)[c]) == []
    ensures var k := Run(labels)[c];
            var s := k.link.streams[id];
            AsData(s.read) + s.last + s.queue == Emitted(k, id)
  {
    RunKeepsInv(labels);
    var k := Run(labels)[c];
    var s := k.link.streams[id];
    assert Tracks(k, id) && StreamInv(s) && !s.dropped;
    assert s.fed + [] + [] + [] == s.fed;
    assert s.fed + Tail(s) == s.fed;
  }

  lemma {:induction false} ReadsToTheDone(s: Stream, cs: seq<Chunk>)
    requires s.state.Reading? && s.queue == AsData(cs) + [Done]
    requires forall i :: 0 <= i < |cs| ==> cs[i].valid
    ensures var t := PullMany(s, |s.queue|);
            t.state.Completed? && t.read == s.read + cs
    decreases |cs|
  {
    var t := PullStream(s);
    if cs == [] {
      assert s.queue[0] == Done;
      assert PullMany(t, 0) == t && s.read + cs == s.read;
    } else {
      assert s.queue[0] == Data(cs[0]);
      assert t.queue == AsData(cs[1..]) + [Done];
      ReadsToTheDone(t, cs[1..]);
      assert s.read + [cs[0]] + cs[1..] == s.read + cs;
    }
  }

  lemma RestOfTheAnswer(read: seq<Chunk>, queue: seq<Item>, yielded: seq<Chunk>)
    requires AsData(read) + queue == AsData(yielded) + [Done] && read <= yielded
    ensures queue == AsData(yielded[|read|..]) + [Done]
  {
    var all := AsData(yielded) + [Done];
    assert queue == all[|read|..];
  }

  lemma WholeAnswer(s: Stream, t: B.Task)
    requires EndsAsItSays(s) && s.IsOpen() && s.read <= t.yielded && B.TaskInv(t) && t.state.Finished?
    requires AsData(s.read) + s.last + s.queue == t.emitted
    requires forall i :: 0 <= i < |t.yielded| ==> t.yielded[i].valid
    ensures var end := PullMany(s.(state := Reading), |s.queue|);
            end.state.Completed? && end.read == t.yielded
  {
    assert AsData(s.read) + s.last + s.queue == AsData(s.read) + s.queue;
    RestOfTheAnswer(s.read, s.queue, t.yielded);
    var rest := t.yielded[|s.read|..];
    ReadsToTheDone(s.(state := Reading), rest);
    assert s.read + rest == t.yielded;
  }

  /** The whole answer: once a handler that yielded only good chunks has finished and its
      frames have come through a wire that held, reading the stream to its end gives core
      every chunk, and a normal end. */
  lemma FinishedAnswerIsReadWhole(labels: seq<Label>, c: nat, id: ReqId)
    requires c in Run(labels) && id in Run(labels)[c].link.inFlight && id in Run(labels)[c].link.streams
    requires var k := Run(labels)[c];
             && !k.cut && Pipe(k) == [] && k.link.streams[id].IsOpen()
             && id in k.bridge.tasks && k.bridge.tasks[id].state.Finished?
             && forall i :: 0 <= i < |k.bridge.tasks[id].yielded| ==> k.bridge.tasks[id].yielded[i].valid
    ensures var k := Run(labels)[c];
            var s := k.link.streams[id];
            var t := PullMany(s.(state := Reading), |s.queue|);
            t.state.Completed? && t.read == k.bridge.tasks[id].yielded
  {
    RunKeepsInv(labels);
    NothingIsLostOnALiveWire(labels, c, id);
    ReadIsPrefixOfYielded(labels, c, id);
    var k := Run(labels)[c];
    assert StreamInv(k.link.streams[id]) && B.TaskInv(k.bridge.tasks[id]);
    WholeAnswer(k.link.streams[id], k.bridge.tasks[id]);
  }

  /** After a drop: a stream that was open when the gateway's end went down ends within
      the items queued for it: normally exactly when the handler's done was among them
      behind good chunks, and as a failure otherwise. */
  lemma DropEndsStreams(labels: seq<Label>, c: nat, id: ReqId)
    requires var s := Run(labels);
             c in s && s[c].gateOpen && id in s[c].link.streams && s[c].link.streams[id].IsOpen()
    ensures EndsWithinItsQueue(Act(Run(labels)[c], GateTeardown).link.streams[id])
  {
    RunKeepsInv(labels);
    TeardownEndsStream(Run(labels)[c], id);
  }

  lemma TeardownEndsStream(k: Conn, id: ReqId)
    requires LinkInv(k.link) && k.gateOpen && id in k.link.streams && k.link.streams[id].IsOpen()
    ensures EndsWithinItsQueue(Act(k, GateTeardown).link.streams[id])
  {
    var s := FailPending(k.link).streams[id];
    assert Act(k, GateTeardown).link.streams[id] == s;
    assert EndsWithinItsQueue(s) by { DropEndsOpenStream(k.link, id); }
  }

  /** A done in a queue, whatever happens to the socket, is the word of a handler that
      finished. */
  lemma QueuedDoneIsTheHandlers(labels: seq<Label>, c: nat, id: ReqId)
    requires c in Run(labels) && id in Run(labels)[c].link.streams
    requires Done in Run(labels)[c].link.streams[id].queue
    ensures var k := Run(labels)[c];
            id in k.bridge.tasks && k.bridge.tasks[id].state.Finished?
  {
    RunKeepsInv(labels);
    var k := Run(labels)[c];
    var s := k.link.streams[id];
    assert Tracks(k, id) && StreamInv(s);
    var m := QueuedDoneWasFed(s);
    DoneIsLastWord(k.bridge.tasks[id], s.fed, m);
  }

  /** The in-flight tables of different connections never share an id. */
  lemma TablesAreDisjoint(labels: seq<Label>, c: nat, d: nat)
    requires c in Run(labels) && d in Run(labels) && c != d
    ensures Run(labels)[c].link.inFlight !! Run(labels)[d].link.inFlight
  {
    RunKeepsInv(labels);
    var s := Run(labels);
    assert ConnInv(s[c]) && ConnInv(s[d]);
  }
}
