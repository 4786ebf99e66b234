/** The order of frames on the provider's connections, both ways, and what is said at all:
    offers and cancels reach the provider in the order the gateway made them, and the
    provider's queue takes every event, finish, question and answer (souk_server/ws_provider.py,
    souk-agent-sdk/souk_agent_sdk/client.py). */
module ProviderOrder {
  import opened Wrappers
  import opened ProviderWire
  import opened ProviderRelay
  import opened Fifo
  import P = Pipeline
  import F = Futures
  import S = ProviderSocket
  import C = SoukClient

  // ---- Towards the provider

  /** What one step puts on the outbound queue of connection `c`. */
  function PutBy(r: Relay, l: Label, c: nat): seq<DownFrame>
  {
    match l
    case Offer(d, w, run, agent, validates, _) =>
      if d == c < |r.conns| && validates && w !in r.conns[c].socket.acks.waiters
      then [DownFrame.Run(run, agent)] else []
    case CancelRun(d, run) => if d == c < |r.conns| then [Cancel(run)] else []
    case AnswerJob(d, job) =>
      if d == c < |r.conns| && job < |r.conns[c].jobs| && r.conns[c].jobs[job].Query?
      then [AnswerQuery(r.store, r.key, r.conns[c].jobs[job])] else []
    case _ => []
  }

  /** What the provider reads from connection `c` in one step. */
  function ReadBy(r: Relay, l: Label, c: nat): seq<DownFrame>
  {
    if l.ClientReceive? && ClientHasFrame(r) && r.client.pipe.current.value == c then [r.conns[c].down[0]] else []
  }

  function Put(start: Relay, labels: seq<Label>, c: nat): seq<DownFrame>
  {
    if labels == [] then []
    else
      var n := |labels| - 1;
      Put(start, labels[..n], c) + PutBy(ProviderRelay.Run(start, labels[..n]), labels[n], c)
  }

  function Read(start: Relay, labels: seq<Label>, c: nat): seq<DownFrame>
  {
    if labels == [] then []
    else
      var n := |labels| - 1;
      Read(start, labels[..n], c) + ReadBy(ProviderRelay.Run(start, labels[..n]), labels[n], c)
  }

  ghost predicate IsFifo(r: Relay, c: nat, put: seq<DownFrame>, read: seq<DownFrame>)
  {
    && |r.conns| == |r.client.pipe.lines|
    && (c < |r.conns| ==>
          InTurn(put, read, r.conns[c].down, r.conns[c].hand, r.conns[c].socket.outbound, r.client.pipe.lines[c].cut))
    && (c >= |r.conns| ==> put == read == [])
  }

  /** A step leaves the frames of connection `c` where they are. */
  ghost predicate StaysPut(r: Relay, r': Relay, c: nat)
  {
    && |r'.conns| == |r'.client.pipe.lines| == |r.conns| == |r.client.pipe.lines|
    && (c < |r.conns| ==>
          && r'.conns[c].down == r.conns[c].down && r'.conns[c].hand == r.conns[c].hand
          && r'.conns[c].socket.outbound == r.conns[c].socket.outbound
          && r'.client.pipe.lines[c].cut == r.client.pipe.lines[c].cut)
  }

  lemma PutOnQueue(r: Relay, r': Relay, c: nat, put: seq<DownFrame>, read: seq<DownFrame>, more: seq<DownFrame>)
    requires IsFifo(r, c, put, read) && c < |r.conns| == |r'.conns| && r'.client == r.client
    requires r'.conns[c].down == r.conns[c].down && r'.conns[c].hand == r.conns[c].hand
    requires r'.conns[c].socket.outbound == r.conns[c].socket.outbound + more
    ensures IsFifo(r', c, put + more, read)
  {
    var k := r.conns[c];
    PutInTurn(put, read, k.down, k.hand, k.socket.outbound, r.client.pipe.lines[c].cut, more);
  }

  lemma OfferIsFifo(r: Relay, l: Label, c: nat, put: seq<DownFrame>, read: seq<DownFrame>)
    requires IsFifo(r, c, put, read) && l.Offer?
    ensures IsFifo(Step(r, l), c, put + PutBy(r, l, c), read)
  {
    if PutBy(r, l, c) == [] {
      assert put + [] == put;
      assert StaysPut(r, Step(r, l), c);
    } else {
      PutOnQueue(r, Step(r, l), c, put, read, PutBy(r, l, c));
    }
  }

  lemma PuttingIsFifo(r: Relay, l: Label, c: nat, put: seq<DownFrame>, read: seq<DownFrame>)
    requires IsFifo(r, c, put, read) && (l.CancelRun? || l.AnswerJob?)
    ensures IsFifo(Step(r, l), c, put + PutBy(r, l, c), read)
  {
    if PutBy(r, l, c) == [] {
      assert put + [] == put;
      assert StaysPut(r, Step(r, l), c);
    } else {
      PutOnQueue(r, Step(r, l), c, put, read, PutBy(r, l, c));
    }
  }

  lemma WritingIsFifo(r: Relay, l: Label, c: nat, put: seq<DownFrame>, read: seq<DownFrame>)
    requires IsFifo(r, c, put, read) && (l.GateTake? || l.GateSend?)
    ensures IsFifo(Step(r, l), c, put, read)
  {
    if l.c == c < |r.conns| {
      var k, cut := r.conns[c], r.client.pipe.lines[c].cut;
      if l.GateSend? {
        SendInTurn(put, read, k.down, k.hand, k.socket.outbound, cut);
      } else if k.hand == [] && k.socket.outbound != [] {
        TakeInTurn(put, read, k.down, k.socket.outbound, cut);
      }
    } else {
      assert StaysPut(r, Step(r, l), c);
    }
  }

  lemma EndingIsFifo(r: Relay, l: Label, c: nat, put: seq<DownFrame>, read: seq<DownFrame>)
    requires IsFifo(r, c, put, read) && (l.GateTeardown? || l.CutWire?)
    ensures IsFifo(Step(r, l), c, put, read)
  {
    var r' := Step(r, l);
    if l.c == c < |r.conns| && r' != r {
      var k := r.conns[c];
      var n := if l.CutWire? then l.keepDown else |k.down|;
      KeepIsPrefix(k.down, n);
      CutInTurn(put, read, Keep(k.down, n), k.down[|Keep(k.down, n)|..], k.hand, k.socket.outbound,
                r.client.pipe.lines[c].cut, r'.conns[c].hand, r'.conns[c].socket.outbound);
    } else {
      assert StaysPut(r, r', c);
    }
  }

  lemma ReadingIsFifo(r: Relay, v: C.Verdict, c: nat, put: seq<DownFrame>, read: seq<DownFrame>)
    requires IsFifo(r, c, put, read)
    ensures IsFifo(Step(r, ClientReceive(v)), c, put, read + ReadBy(r, ClientReceive(v), c))
  {
    assert read + [] == read;
    if ClientHasFrame(r) {
      if r.client.pipe.current.value == c {
        var k := r.conns[c];
        ReadInTurn(put, read, k.down, k.hand, k.socket.outbound, r.client.pipe.lines[c].cut);
      } else {
        assert StaysPut(r, Step(r, ClientReceive(v)), c);
      }
    }
  }

  lemma ConnectingIsFifo(r: Relay, c: nat, put: seq<DownFrame>, read: seq<DownFrame>)
    requires IsFifo(r, c, put, read)
    ensures IsFifo(Step(r, Connect), c, put, read)
  {}

  lemma GateStepsStayPut(r: Relay, l: Label, c: nat)
    requires l.OfferResumes? || l.OfferTimesOut? || l.OfferWithdrawn? || l.GateReceive? || l.NewThread? || l.NewMessage?
    requires |r.conns| == |r.client.pipe.lines|
    ensures StaysPut(r, Step(r, l), c)
  {}

  lemma ProviderStepsStayPut(r: Relay, l: Label, c: nat)
    requires l.Report? || l.FinishRun? || IsQuery(l) || l.ClientTake? || l.ClientSend? || l.ClientTeardown?
    requires |r.conns| == |r.client.pipe.lines|
    ensures StaysPut(r, Step(r, l), c)
  {}

  lemma StepIsFifo(r: Relay, l: Label, c: nat, put: seq<DownFrame>, read: seq<DownFrame>)
    requires IsFifo(r, c, put, read)
    ensures IsFifo(Step(r, l), c, put + PutBy(r, l, c), read + ReadBy(r, l, c))
  {
    assert put + [] == put && read + [] == read;
    if l.Offer? {
      OfferIsFifo(r, l, c, put, read);
    } else if l.CancelRun? || l.AnswerJob? {
      PuttingIsFifo(r, l, c, put, read);
    } else if l.GateTake? || l.GateSend? {
      WritingIsFifo(r, l, c, put, read);
    } else if l.GateTeardown? || l.CutWire? {
      EndingIsFifo(r, l, c, put, read);
    } else if l.ClientReceive? {
      ReadingIsFifo(r, l.verdict, c, put, read);
    } else if l.Connect? {
      ConnectingIsFifo(r, c, put, read);
    } else if l.Report? || l.FinishRun? || IsQuery(l) || l.ClientTake? || l.ClientSend? || l.ClientTeardown? {
      ProviderStepsStayPut(r, l, c);
    } else {
      GateStepsStayPut(r, l, c);
    }
  }

  lemma {:induction false} RunIsFifo(start: Relay, labels: seq<Label>, c: nat)
    requires start.conns == [] && start.client.pipe.lines == []
    ensures IsFifo(ProviderRelay.Run(start, labels), c, Put(start, labels, c), Read(start, labels, c))
  {
    if labels != [] {
      var n := |labels| - 1;
      RunIsFifo(start, labels[..n], c);
      StepIsFifo(ProviderRelay.Run(start, labels[..n]), labels[n], c,
                 Put(start, labels[..n], c), Read(start, labels[..n], c));
    }
  }

  /** Over every run and on every connection: what the provider has read is the first part
      of what the gateway queued, offers, cancels and query results in the order they were
      made; and none is lost while the wire holds. */
  lemma ProviderReadsInTurn(key: string, hosted: set<string>, labels: seq<Label>, c: nat)
    ensures var start := Begin(key, hosted);
            var r := ProviderRelay.Run(start, labels);
            && Read(start, labels, c) <= Put(start, labels, c)
            && (c < |r.conns| && c < |r.client.pipe.lines| && !r.client.pipe.lines[c].cut ==>
                  Read(start, labels, c) + r.conns[c].down + r.conns[c].hand + r.conns[c].socket.outbound
                    == Put(start, labels, c))
  {
    var start := Begin(key, hosted);
    var r := ProviderRelay.Run(start, labels);
    RunIsFifo(start, labels, c);
    if c < |r.conns| {
      var k := r.conns[c];
      ReadCameFirst(Put(start, labels, c), Read(start, labels, c), k.down, k.hand, k.socket.outbound,
                    r.client.pipe.lines[c].cut);
    }
  }

  // ---- Towards the gateway

  /** What the provider says in one step: an event or a finish of a run, a question, or its
      answer to an offer it reads. */
  function SaidBy(r: Relay, l: Label): seq<UpFrame>
  {
    match l
    case Report(run, event) => [Event(run, event)]
    case FinishRun(run) => [Finish(run)]
    case Ask(w, id, thread, limit) =>
      if w in r.client.queries.waiters || id in r.ledger.asked then [] else [Query(id, THREAD_MESSAGES, thread, limit)]
    case ClientReceive(v) =>
      if !ClientHasFrame(r) then []
      else
        var f := r.conns[r.client.pipe.current.value].down[0];
        if f.Run? then [C.AckFor(r.client, f.run, f.agent, v)] else []
    case _ => []
  }

  function Said(start: Relay, labels: seq<Label>): seq<UpFrame>
  {
    if labels == [] then []
    else
      var n := |labels| - 1;
      Said(start, labels[..n]) + SaidBy(ProviderRelay.Run(start, labels[..n]), labels[n])
  }

  lemma StepSays(r: Relay, l: Label)
    requires l.Report? || l.FinishRun? || l.Ask? || l.ClientReceive?
    ensures Step(r, l).client.pipe.enqueued == r.client.pipe.enqueued + SaidBy(r, l)
  {
    assert r.client.pipe.enqueued + [] == r.client.pipe.enqueued;
  }

  lemma StepIsSilent(r: Relay, l: Label)
    requires !l.Report? && !l.FinishRun? && !l.Ask? && !l.ClientReceive?
    ensures Step(r, l).client.pipe.enqueued == r.client.pipe.enqueued
  {}

  lemma {:induction false} EverythingSaidIsEnqueued(start: Relay, labels: seq<Label>)
    ensures ProviderRelay.Run(start, labels).client.pipe.enqueued == start.client.pipe.enqueued + Said(start, labels)
  {
    var before := start.client.pipe.enqueued;
    if labels == [] {
      assert before + [] == before;
    } else {
      var n := |labels| - 1;
      var r, l := ProviderRelay.Run(start, labels[..n]), labels[n];
      EverythingSaidIsEnqueued(start, labels[..n]);
      if l.Report? || l.FinishRun? || l.Ask? || l.ClientReceive? {
        StepSays(r, l);
      } else {
        StepIsSilent(r, l);
      }
      assert before + Said(start, labels[..n]) + SaidBy(r, l) == before + (Said(start, labels[..n]) + SaidBy(r, l));
    }
  }

  /** Over every run with reconnects: everything the provider says is, in order, what each
      connection carried plus at most one frame lost with it, then what is in hand and
      queued; and what the gateway received is that with some frames struck out. */
  lemma EverythingSaidIsConserved(key: string, hosted: set<string>, labels: seq<Label>)
    ensures var pipe := ProviderRelay.Run(Begin(key, hosted), labels).client.pipe;
            && Said(Begin(key, hosted), labels) == P.Drained(pipe.lines) + pipe.hand + pipe.queue
            && (forall c :: 0 <= c < |pipe.lines| ==> |pipe.lines[c].lost| <= 1)
            && P.IsSubsequence(P.Received(pipe.lines), Said(Begin(key, hosted), labels))
  {
    var pipe, said := ProviderRelay.Run(Begin(key, hosted), labels).client.pipe, Said(Begin(key, hosted), labels);
    EverythingSaidIsEnqueued(Begin(key, hosted), labels);
    assert pipe.enqueued == [] + said == said;
    RunKeepsInv(key, hosted, labels);
    P.NothingTwiceOrOutOfOrder(pipe, f => true);
  }
}
