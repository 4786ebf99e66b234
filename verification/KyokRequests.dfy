/** What travels from the gateway to the bridge: every completion core asks for is on its
    way while the wire holds, and is served under its own id with its own body
    (souk_server/ws_kyok.py, souk-client-sdk/souk_client_sdk/kyok_bridge.py). */
module KyokRequests {
  import opened Wrappers
  import opened KyokLink
  import opened KyokRelay
  import opened Fifo
  import B = KyokBridge

  // ---- What goes in and what comes out, read off the steps

  /** What the gateway says back to a frame. */
  function Replies(l: Link, f: InFrame): seq<OutFrame>
  {
    match ItemOf(f)
    case None => [ComplaintAbout(f)]
    case Some((id, _)) =>
      if id in l.inFlight then []
      else [Complaint(Some(id), "no such in-flight completion on this connection")]
  }

  function PutBy(k: Conn, a: Action): seq<OutFrame>
  {
    match a
    case AskFor(id, body) => [CompletionRequest(id, body)]
    case GateReceive => if k.gateOpen && k.up != [] then Replies(k.link, k.up[0]) else []
    case _ => []
  }

  function GotBy(k: Conn, a: Action): seq<OutFrame>
  {
    if a.BridgeReceive? && k.bridge.open && k.down != [] then [k.down[0]] else []
  }

  /** Everything the gateway has put out for the bridge on connection `c`. */
  function Put(labels: seq<Label>, c: nat): seq<OutFrame>
  {
    if labels == [] then []
    else
      var n := |labels| - 1;
      var s, l := Run(labels[..n]), labels[n];
      Put(labels[..n], c) + if l.On? && l.c == c && Enabled(s, l) then PutBy(s[c], l.action) else []
  }

  /** Everything the bridge has read on connection `c`. */
  function Got(labels: seq<Label>, c: nat): seq<OutFrame>
  {
    if labels == [] then []
    else
      var n := |labels| - 1;
      var s, l := Run(labels[..n]), labels[n];
      Got(labels[..n], c) + if l.On? && l.c == c && Enabled(s, l) then GotBy(s[c], l.action) else []
  }

  // ---- First in, first out

  ghost predicate IsFifo(k: Conn, put: seq<OutFrame>, got: seq<OutFrame>)
  {
    InTurn(put, got, k.down, k.hand, k.link.outbound, k.cut)
  }

  /** Where the frames of a connection are, after each kind of action. */
  lemma ReplyIsPut(k: Conn)
    requires k.up != []
    ensures GateReceiveOn(k).link.outbound == k.link.outbound + Replies(k.link, k.up[0])
    ensures GateReceiveOn(k).down == k.down && GateReceiveOn(k).hand == k.hand && GateReceiveOn(k).cut == k.cut
  {
    assert k.link.outbound + [] == k.link.outbound;
  }

  predicate StaysAtTheBridge(a: Action)
  {
    IsHandlers(a) || a.BridgeTake? || a.BridgeSend? || a.StartRead? || a.ReadItem? || a.GapPasses? || a.DropIterator?
  }

  lemma FramesStay(k: Conn, a: Action)
    requires StaysAtTheBridge(a)
    ensures var k' := Act(k, a);
            k'.down == k.down && k'.hand == k.hand && k'.link.outbound == k.link.outbound && k'.cut == k.cut
  {}

  lemma BridgeReceiveMoves(k: Conn)
    requires k.down != []
    ensures var k' := BridgeReceiveOn(k);
            k'.down == k.down[1..] && k'.hand == k.hand && k'.link == k.link && k'.cut == k.cut
  {}

  lemma ActIsFifo(k: Conn, a: Action, put: seq<OutFrame>, got: seq<OutFrame>)
    requires IsFifo(k, put, got)
    ensures IsFifo(Act(k, a), put + PutBy(k, a), got + GotBy(k, a))
  {
    assert put + [] == put && got + [] == got;
    if StaysAtTheBridge(a) {
      FramesStay(k, a);
    } else if a.AskFor? {
      PutInTurn(put, got, k.down, k.hand, k.link.outbound, k.cut, [CompletionRequest(a.id, a.body)]);
    } else if a.GateTake? {
      if k.hand == [] && k.link.outbound != [] { TakeInTurn(put, got, k.down, k.link.outbound, k.cut); }
    } else if a.GateSend? {
      SendInTurn(put, got, k.down, k.hand, k.link.outbound, k.cut);
    } else {
      OtherActIsFifo(k, a, put, got);
    }
  }

  lemma OtherActIsFifo(k: Conn, a: Action, put: seq<OutFrame>, got: seq<OutFrame>)
    requires IsFifo(k, put, got)
    requires a.GateReceive? || a.BridgeReceive? || a.GateTeardown? || a.BridgeTeardown? || a.CutWire?
    ensures IsFifo(Act(k, a), put + PutBy(k, a), got + GotBy(k, a))
  {
    assert put + [] == put && got + [] == got;
    if a.GateReceive? {
      if k.gateOpen && k.up != [] {
        ReplyIsPut(k);
        PutInTurn(put, got, k.down, k.hand, k.link.outbound, k.cut, Replies(k.link, k.up[0]));
      }
    } else if a.BridgeReceive? {
      if k.bridge.open && k.down != [] {
        BridgeReceiveMoves(k);
        ReadInTurn(put, got, k.down, k.hand, k.link.outbound, k.cut);
      }
    } else {
      EndIsFifo(k, a, put, got);
    }
  }

  lemma EndIsFifo(k: Conn, a: Action, put: seq<OutFrame>, got: seq<OutFrame>)
    requires IsFifo(k, put, got) && (a.GateTeardown? || a.BridgeTeardown? || a.CutWire?)
    ensures IsFifo(Act(k, a), put, got)
  {
    var k' := Act(k, a);
    var kept := if a.CutWire? then Keep(k.down, a.keepDown) else k.down;
    var lost := k.down[|kept|..];
    KeepIsPrefix(k.down, if a.CutWire? then a.keepDown else |k.down|);
    assert k.down == kept + lost;
    CutInTurn(put, got, kept, lost, k.hand, k.link.outbound, k.cut, k'.hand, k'.link.outbound);
  }

  lemma ConnectedIsFifo()
    ensures IsFifo(NEW_CONN, [], [])
  {}

  lemma {:induction false} UnconnectedIsSilent(labels: seq<Label>, c: nat)
    requires c !in Run(labels)
    ensures Put(labels, c) == [] && Got(labels, c) == []
  {
    if labels != [] {
      UnconnectedIsSilent(labels[..|labels| - 1], c);
    }
  }

  /** Over every run and on every connection, frames reach the bridge in the order they were
      put, none before the gateway put it; and none is lost while the wire holds. */
  lemma {:induction false} BridgeReadsInTurn(labels: seq<Label>, c: nat)
    requires c in Run(labels)
    ensures IsFifo(Run(labels)[c], Put(labels, c), Got(labels, c))
  {
    var n := |labels| - 1;
    var s, l := Run(labels[..n]), labels[n];
    if c in s {
      BridgeReadsInTurn(labels[..n], c);
      if l.On? && l.c == c && Enabled(s, l) {
        ActIsFifo(s[c], l.action, Put(labels[..n], c), Got(labels[..n], c));
      } else {
        assert Put(labels[..n], c) + [] == Put(labels[..n], c) && Got(labels[..n], c) + [] == Got(labels[..n], c);
      }
    } else {
      UnconnectedIsSilent(labels[..n], c);
      ConnectedIsFifo();
    }
  }

  // ---- Requests and tasks

  /** Every request read has become a task with its body, and every task was read. */
  ghost predicate TasksAreGot(k: Conn, got: seq<OutFrame>)
  {
    && (forall f :: f in got && f.CompletionRequest? ==> f.id in k.bridge.tasks && k.bridge.tasks[f.id].body == f.body)
    && (forall id :: id in k.bridge.tasks ==> CompletionRequest(id, k.bridge.tasks[id].body) in got)
  }

  lemma BodiesStay(k: Conn, a: Action)
    requires !a.BridgeReceive?
    ensures Act(k, a).bridge.tasks.Keys == k.bridge.tasks.Keys
    ensures forall id :: id in k.bridge.tasks ==> Act(k, a).bridge.tasks[id].body == k.bridge.tasks[id].body
  {}

  lemma BridgeReceiveKeepsTasks(k: Conn, got: seq<OutFrame>)
    requires TasksAreGot(k, got) && k.down != []
    requires k.down[0].CompletionRequest? ==> k.down[0].id !in k.bridge.tasks
    ensures TasksAreGot(BridgeReceiveOn(k), got + [k.down[0]])
  {
    var k', f := BridgeReceiveOn(k), k.down[0];
    forall g | g in got + [f] && g.CompletionRequest?
      ensures g.id in k'.bridge.tasks && k'.bridge.tasks[g.id].body == g.body
    {
      assert g in got || g == f;
    }
  }

  lemma TasksStayGot(b: map<ReqId, B.Task>, b': map<ReqId, B.Task>, k: Conn, k': Conn, got: seq<OutFrame>)
    requires TasksAreGot(k, got) && b == k.bridge.tasks && b' == k'.bridge.tasks
    requires b'.Keys == b.Keys && forall id :: id in b ==> b'[id].body == b[id].body
    ensures TasksAreGot(k', got)
  {}

  lemma ActKeepsTasks(k: Conn, a: Action, got: seq<OutFrame>)
    requires TasksAreGot(k, got) && ConnInv(k) && !a.BridgeReceive?
    ensures TasksAreGot(Act(k, a), got)
  {
    BodiesStay(k, a);
    TasksStayGot(k.bridge.tasks, Act(k, a).bridge.tasks, k, Act(k, a), got);
  }

  lemma ReceiveActs(k: Conn)
    ensures Act(k, BridgeReceive) == if k.bridge.open && k.down != [] then BridgeReceiveOn(k) else k
  {}

  lemma ReadsOneFrame(k: Conn, got: seq<OutFrame>)
    ensures got + GotBy(k, BridgeReceive) == if k.bridge.open && k.down != [] then got + [k.down[0]] else got
  {}

  lemma ReceiveKeepsTasks(k: Conn, got: seq<OutFrame>, k': Conn, got': seq<OutFrame>)
    requires TasksAreGot(k, got) && RequestsInv(k)
    requires k' == (if k.bridge.open && k.down != [] then BridgeReceiveOn(k) else k)
    requires got' == (if k.bridge.open && k.down != [] then got + [k.down[0]] else got)
    ensures TasksAreGot(k', got')
  {
    if k.bridge.open && k.down != [] {
      StartKeepsRequests(k);
      BridgeReceiveKeepsTasks(k, got);
    }
  }

  lemma StepKeepsTasks(labels: seq<Label>, c: nat, a: Action, k: Conn, got: seq<OutFrame>)
    requires labels != [] && labels[|labels| - 1] == On(c, a)
    requires var s := Run(labels[..|labels| - 1]); c in s && Enabled(s, On(c, a)) && k == s[c]
    requires got == Got(labels[..|labels| - 1], c) && ConnInv(k) && TasksAreGot(k, got)
    ensures c in Run(labels) && TasksAreGot(Run(labels)[c], Got(labels, c))
  {
    assert Run(labels)[c] == Act(k, a) && Got(labels, c) == got + GotBy(k, a) && got + [] == got;
    if a.BridgeReceive? {
      ReceiveActs(k);
      ReadsOneFrame(k, got);
      ReceiveKeepsTasks(k, got, Run(labels)[c], Got(labels, c));
    } else {
      ActKeepsTasks(k, a, got);
    }
  }

  lemma {:induction false} TasksComeFromRequests(labels: seq<Label>, c: nat)
    requires c in Run(labels)
    ensures TasksAreGot(Run(labels)[c], Got(labels, c))
  {
    var n := |labels| - 1;
    var s, l := Run(labels[..n]), labels[n];
    if c in s {
      TasksComeFromRequests(labels[..n], c);
      RunKeepsInv(labels[..n]);
      if l.On? && l.c == c && Enabled(s, l) {
        StepKeepsTasks(labels, c, l.action, s[c], Got(labels[..n], c));
      } else {
        assert Got(labels[..n], c) + [] == Got(labels[..n], c);
      }
    } else {
      UnconnectedIsSilent(labels[..n], c);
    }
  }

  // ---- What core asked for

  /** At step `i` core asks for this completion on connection `c`. */
  ghost predicate AskedAt(labels: seq<Label>, i: nat, c: nat, id: ReqId, body: string)
  {
    i < |labels| && labels[i] == On(c, AskFor(id, body)) && Enabled(Run(labels[..i]), labels[i])
  }

  lemma RepliesAskNothing(l: Link, f: InFrame)
    ensures forall g :: g in Replies(l, f) ==> g.Complaint?
  {}

  lemma AskedAtGrows(labels: seq<Label>, i: nat, c: nat, id: ReqId, body: string)
    requires labels != [] && i < |labels| - 1
    ensures AskedAt(labels[..|labels| - 1], i, c, id, body) <==> AskedAt(labels, i, c, id, body)
  {
    assert labels[..|labels| - 1][..i] == labels[..i];
  }

  lemma OnlyAskingPutsARequest(k: Conn, a: Action, id: ReqId, body: string)
    ensures CompletionRequest(id, body) in PutBy(k, a) <==> a == AskFor(id, body)
  {
    if a.GateReceive? && k.up != [] {
      RepliesAskNothing(k.link, k.up[0]);
    }
  }

  lemma PutGrows(labels: seq<Label>, c: nat, id: ReqId, body: string)
    requires labels != []
    ensures var n := |labels| - 1;
            CompletionRequest(id, body) in Put(labels, c) <==>
              CompletionRequest(id, body) in Put(labels[..n], c) || AskedAt(labels, n, c, id, body)
  {
    var n := |labels| - 1;
    var s, l := Run(labels[..n]), labels[n];
    if l.On? && l.c == c && Enabled(s, l) {
      OnlyAskingPutsARequest(s[c], l.action, id, body);
    }
  }

  lemma {:induction false} RequestWasAsked(labels: seq<Label>, c: nat, id: ReqId, body: string) returns (i: nat)
    requires CompletionRequest(id, body) in Put(labels, c)
    ensures AskedAt(labels, i, c, id, body)
  {
    i := |labels| - 1;
    PutGrows(labels, c, id, body);
    if CompletionRequest(id, body) in Put(labels[..i], c) {
      i := RequestWasAsked(labels[..i], c, id, body);
      AskedAtGrows(labels, i, c, id, body);
    }
  }

  lemma {:induction false} AskedIsPut(labels: seq<Label>, i: nat, c: nat, id: ReqId, body: string)
    requires AskedAt(labels, i, c, id, body)
    ensures CompletionRequest(id, body) in Put(labels, c)
  {
    PutGrows(labels, c, id, body);
    if i < |labels| - 1 {
      AskedAtGrows(labels, i, c, id, body);
      AskedIsPut(labels[..|labels| - 1], i, c, id, body);
    }
  }

  lemma ActKeepsStreams(k: Conn, a: Action)
    ensures k.link.streams.Keys <= Act(k, a).link.streams.Keys
    ensures a.AskFor? ==> a.id in Act(k, a).link.streams
  {}

  lemma AskedStays(labels: seq<Label>, c: nat, id: ReqId)
    requires labels != []
    ensures var n := |labels| - 1;
            && (c in Run(labels[..n]) && id in Run(labels[..n])[c].link.streams ==>
                  c in Run(labels) && id in Run(labels)[c].link.streams)
            && (forall b :: AskedAt(labels, n, c, id, b) ==>
                  c in Run(labels) && id in Run(labels)[c].link.streams
                  && (c in Run(labels[..n]) ==> id !in Run(labels[..n])[c].link.streams))
  {
    var n := |labels| - 1;
    var s, l := Run(labels[..n]), labels[n];
    if l.On? && Enabled(s, l) {
      ActKeepsStreams(s[l.c], l.action);
    }
  }

  lemma {:induction false} AskedIsKnown(labels: seq<Label>, i: nat, c: nat, id: ReqId, body: string)
    requires AskedAt(labels, i, c, id, body)
    ensures c in Run(labels) && id in Run(labels)[c].link.streams
  {
    AskedStays(labels, c, id);
    if i < |labels| - 1 {
      AskedAtGrows(labels, i, c, id, body);
      AskedIsKnown(labels[..|labels| - 1], i, c, id, body);
    }
  }

  /** An id is asked for once at most, so its body is its own. */
  lemma {:induction false} AskedOnce(labels: seq<Label>, c: nat, id: ReqId, i: nat, j: nat, b: string, b': string)
    requires AskedAt(labels, i, c, id, b) && AskedAt(labels, j, c, id, b') && i <= j
    ensures i == j && b == b'
  {
    var n := |labels| - 1;
    if i < n {
      AskedAtGrows(labels, i, c, id, b);
      if j < n {
        AskedAtGrows(labels, j, c, id, b');
        AskedOnce(labels[..n], c, id, i, j, b, b');
      } else {
        AskedIsKnown(labels[..n], i, c, id, b);
        AskedStays(labels, c, id);
      }
    }
  }

  /** Every task of the bridge serves a completion core asked for, with that body. */
  lemma TaskWasAsked(labels: seq<Label>, c: nat, id: ReqId) returns (i: nat)
    requires c in Run(labels) && id in Run(labels)[c].bridge.tasks
    ensures AskedAt(labels, i, c, id, Run(labels)[c].bridge.tasks[id].body)
  {
    var body := Run(labels)[c].bridge.tasks[id].body;
    TasksComeFromRequests(labels, c);
    BridgeReadsInTurn(labels, c);
    GotWasPut(Run(labels)[c], Put(labels, c), Got(labels, c), CompletionRequest(id, body));
    i := RequestWasAsked(labels, c, id, body);
  }

  lemma TaskHasItsBody(labels: seq<Label>, i: nat, c: nat, id: ReqId, body: string)
    requires AskedAt(labels, i, c, id, body) && c in Run(labels) && id in Run(labels)[c].bridge.tasks
    ensures Run(labels)[c].bridge.tasks[id].body == body
  {
    var j := TaskWasAsked(labels, c, id);
    if i <= j {
      AskedOnce(labels, c, id, i, j, body, Run(labels)[c].bridge.tasks[id].body);
    } else {
      AskedOnce(labels, c, id, j, i, Run(labels)[c].bridge.tasks[id].body, body);
    }
  }

  lemma RequestIsOnItsWay(labels: seq<Label>, c: nat, id: ReqId, body: string)
    requires CompletionRequest(id, body) in Put(labels, c) && c in Run(labels) && !Run(labels)[c].cut
    ensures var k := Run(labels)[c];
            id in k.bridge.tasks || CompletionRequest(id, body) in k.down + k.hand + k.link.outbound
  {
    BridgeReadsInTurn(labels, c);
    TasksComeFromRequests(labels, c);
    var k := Run(labels)[c];
    PutIsSomewhere(Put(labels, c), Got(labels, c), k.down, k.hand, k.link.outbound, CompletionRequest(id, body));
  }

  /** Every completion core asks for, over every run: while the wire of its connection holds
      it is queued, in hand or in transit for the bridge, or a task of the bridge; and the
      task under its id has the body that was asked for. */
  lemma EveryRequestIsServedOrOnItsWay(labels: seq<Label>, i: nat, c: nat, id: ReqId, body: string)
    requires AskedAt(labels, i, c, id, body)
    ensures c in Run(labels)
    ensures var k := Run(labels)[c];
            && (id in k.bridge.tasks ==> k.bridge.tasks[id].body == body)
            && (!k.cut ==>
                  id in k.bridge.tasks || CompletionRequest(id, body) in k.down + k.hand + k.link.outbound)
  {
    AskedIsKnown(labels, i, c, id, body);
    AskedIsPut(labels, i, c, id, body);
    var k := Run(labels)[c];
    if id in k.bridge.tasks {
      TaskHasItsBody(labels, i, c, id, body);
    } else if !k.cut {
      RequestIsOnItsWay(labels, c, id, body);
    }
  }

  lemma GotWasPut(k: Conn, put: seq<OutFrame>, got: seq<OutFrame>, f: OutFrame)
    requires IsFifo(k, put, got) && f in got
    ensures f in put
  {
    if k.cut {
      assert f in got + k.down;
    } else {
      assert f in got + k.down + k.hand + k.link.outbound;
    }
  }
}
