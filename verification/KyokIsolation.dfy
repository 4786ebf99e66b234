/** Isolation at the gateway, whatever arrives on its KYOK connections: a stream is a
    function of the frames that carry its id on the connection it was delivered to
    (souk_server/ws_kyok.py). */
module KyokIsolation {
  import opened Wrappers
  import opened KyokLink

  datatype Gate = Gate(link: Link, open: bool)

  type Gateway = map<nat, Gate>

  /** Frames are arbitrary: nothing is assumed of whoever sends them. */
  datatype Event =
    | Opened(c: nat)
    | Gone(c: nat)
    | Arrived(c: nat, frame: InFrame)
    | Wrote(c: nat)
    | Asked(c: nat, id: ReqId, body: string)
    | Started(c: nat, id: ReqId)
    | Took(c: nat, id: ReqId)
    | GapPassed(c: nat, id: ReqId)
    | Dropped(c: nat, id: ReqId)

  predicate Unused(g: Gateway, id: ReqId)
  {
    forall d :: d in g ==> id !in g[d].link.streams
  }

  /** What one event does to its own connection. */
  function OnGate(k: Gate, e: Event, isNew: bool): Gate
  {
    match e
    case Opened(_) => k
    case Gone(_) => if k.open then Gate(FailPending(k.link), false) else k
    case Arrived(_, f) => if k.open then k.(link := Dispatch(k.link, f)) else k
    case Wrote(_) => if k.link.outbound != [] then k.(link := k.link.(outbound := k.link.outbound[1..])) else k
    case Asked(_, id, body) => if isNew then k.(link := Complete(k.link, id, body)) else k
    case Started(_, id) => k.(link := StartReading(k.link, id))
    case Took(_, id) => k.(link := Pull(k.link, id))
    case GapPassed(_, id) => k.(link := TimeOut(k.link, id))
    case Dropped(_, id) => k.(link := Abandon(k.link, id))
  }

  function Apply(g: Gateway, e: Event): Gateway
  {
    if e.Opened? then (if e.c in g then g else g[e.c := Gate(NEW_LINK, true)])
    else if e.c in g then g[e.c := OnGate(g[e.c], e, e.Asked? && Unused(g, e.id))]
    else g
  }

  function Run(events: seq<Event>): Gateway
  {
    if events == [] then map[] else Apply(Run(events[..|events| - 1]), events[|events| - 1])
  }

  // ---- Erasing everything that is not about one request

  predicate Concerns(e: Event, c: nat, id: ReqId)
  {
    e.c == c &&
    match e
    case Opened(_) => true
    case Gone(_) => true
    case Arrived(_, f) => ItemOf(f).Some? && ItemOf(f).value.0 == id
    case Wrote(_) => false
    case Asked(_, i, _) => i == id
    case Started(_, i) => i == id
    case Took(_, i) => i == id
    case GapPassed(_, i) => i == id
    case Dropped(_, i) => i == id
  }

  function Erase(events: seq<Event>, c: nat, id: ReqId): seq<Event>
  {
    if events == [] then []
    else
      var rest := Erase(events[..|events| - 1], c, id);
      var e := events[|events| - 1];
      if Concerns(e, c, id) then rest + [e] else rest
  }

  // ---- Links that agree about one request

  ghost predicate AgreeOn(l: Link, m: Link, id: ReqId)
  {
    && (id in l.streams <==> id in m.streams)
    && (id in l.inFlight <==> id in m.inFlight)
    && (id in l.streams ==> l.streams[id] == m.streams[id])
  }

  lemma OthersLeaveItAlone(k: Gate, e: Event, isNew: bool, c: nat, id: ReqId)
    requires !Concerns(e, c, id) && e.c == c
    ensures OnGate(k, e, isNew).open == k.open
    ensures AgreeOn(k.link, OnGate(k, e, isNew).link, id)
  {
    if e.Arrived? {
      StrayFrame(k.link, e.frame, id);
    }
  }

  lemma StrayFrame(l: Link, f: InFrame, id: ReqId)
    requires !(ItemOf(f).Some? && ItemOf(f).value.0 == id)
    ensures AgreeOn(l, Dispatch(l, f), id)
  {}

  lemma OwnFrame(l: Link, m: Link, f: InFrame, id: ReqId)
    requires AgreeOn(l, m, id) && ItemOf(f).Some? && ItemOf(f).value.0 == id
    ensures AgreeOn(Dispatch(l, f), Dispatch(m, f), id)
  {}

  lemma OwnReader(l: Link, m: Link, id: ReqId)
    requires AgreeOn(l, m, id)
    ensures AgreeOn(StartReading(l, id), StartReading(m, id), id)
    ensures AgreeOn(Pull(l, id), Pull(m, id), id)
    ensures AgreeOn(TimeOut(l, id), TimeOut(m, id), id)
    ensures AgreeOn(Abandon(l, id), Abandon(m, id), id)
  {}

  lemma OwnEventsKeepAgreement(k: Gate, h: Gate, e: Event, isNew: bool, c: nat, id: ReqId)
    requires Concerns(e, c, id) && k.open == h.open && AgreeOn(k.link, h.link, id)
    ensures OnGate(k, e, isNew).open == OnGate(h, e, isNew).open
    ensures AgreeOn(OnGate(k, e, isNew).link, OnGate(h, e, isNew).link, id)
  {
    OwnReader(k.link, h.link, id);
    if e.Arrived? {
      OwnFrame(k.link, h.link, e.frame, id);
    }
  }

  // ---- The two runs side by side

  ghost predicate OnlyOn(g: Gateway, c: nat, id: ReqId)
  {
    forall d :: d in g && d != c ==> id !in g[d].link.streams
  }

  ghost predicate Alike(g: Gateway, h: Gateway, c: nat, id: ReqId)
  {
    && (c in g <==> c in h)
    && (c in g ==> g[c].open == h[c].open && AgreeOn(g[c].link, h[c].link, id))
  }

  lemma StreamsStay(g: Gateway, e: Event)
    ensures forall d :: d in g ==> d in Apply(g, e) && g[d].link.streams.Keys <= Apply(g, e)[d].link.streams.Keys
  {}

  lemma StepAlike(g: Gateway, h: Gateway, e: Event, c: nat, id: ReqId)
    requires Alike(g, h, c, id) && OnlyOn(Apply(g, e), c, id) && OnlyOn(h, c, id)
    ensures var h' := if Concerns(e, c, id) then Apply(h, e) else h;
            Alike(Apply(g, e), h', c, id) && OnlyOn(h', c, id)
  {
    StreamsStay(g, e);
    assert OnlyOn(g, c, id);
    if Concerns(e, c, id) {
      if c in g && !e.Opened? {
        if e.Asked? {
          assert Unused(g, id) <==> id !in g[c].link.streams;
          assert Unused(h, id) <==> id !in h[c].link.streams;
        }
        OwnEventsKeepAgreement(g[c], h[c], e, e.Asked? && Unused(g, e.id), c, id);
      }
    } else if e.c == c && c in g {
      OthersLeaveItAlone(g[c], e, e.Asked? && Unused(g, e.id), c, id);
    }
  }

  lemma {:induction false} RunsAlike(events: seq<Event>, c: nat, id: ReqId)
    requires OnlyOn(Run(events), c, id)
    ensures Alike(Run(events), Run(Erase(events, c, id)), c, id) && OnlyOn(Run(Erase(events, c, id)), c, id)
  {
    if events != [] {
      var before, e := events[..|events| - 1], events[|events| - 1];
      StreamsStay(Run(before), e);
      RunsAlike(before, c, id);
      StepAlike(Run(before), Run(Erase(before, c, id)), e, c, id);
      if Concerns(e, c, id) {
        var rest := Erase(before, c, id);
        assert (rest + [e])[..|rest + [e]| - 1] == rest;
      }
    }
  }

  /** No id is known to two connections. */
  ghost predicate OneConnectionEach(g: Gateway)
  {
    forall c, d, id :: c in g && d in g && c != d && id in g[c].link.streams ==> id !in g[d].link.streams
  }

  lemma MintsOnlyWhatIsAsked(k: Gate, e: Event, isNew: bool)
    ensures OnGate(k, e, isNew).link.streams.Keys
         <= k.link.streams.Keys + if e.Asked? && isNew then {e.id} else {}
  {}

  lemma {:induction false} RunKeepsIdsApart(events: seq<Event>)
    ensures OneConnectionEach(Run(events))
  {
    if events != [] {
      var before, e := events[..|events| - 1], events[|events| - 1];
      RunKeepsIdsApart(before);
      var g := Run(before);
      if e.c in g {
        MintsOnlyWhatIsAsked(g[e.c], e, e.Asked? && Unused(g, e.id));
      }
    }
  }

  /** Isolation: erase every other frame, on this connection and on all others, and every
      other completion; the stream of `id` is the same, item for item, at every moment. */
  lemma StreamIsItsOwnProjection(events: seq<Event>, c: nat, id: ReqId)
    requires c in Run(events) && id in Run(events)[c].link.streams
    ensures var g, h := Run(events), Run(Erase(events, c, id));
            && c in h && id in h[c].link.streams
            && h[c].link.streams[id] == g[c].link.streams[id]
            && (id in h[c].link.inFlight <==> id in g[c].link.inFlight)
  {
    RunKeepsIdsApart(events);
    RunsAlike(events, c, id);
  }
}
