/** The provider's outbound queue, which outlives its connections, and the wires it is
    drained onto one after another (souk-agent-sdk/souk_agent_sdk/client.py). */
module Pipeline {
  import opened Wrappers

  /** One connection as the sender sees it: frames handed to the socket, the frame that
      was in hand when it died, and how far the other end got. */
  datatype Line<F> = Line(sent: seq<F>, lost: seq<F>, got: seq<F>, transit: seq<F>, cut: bool)

  /** `enqueued` is everything ever put on the queue. */
  datatype Pipe<F> = Pipe(enqueued: seq<F>, queue: seq<F>, hand: seq<F>, current: Option<nat>, lines: seq<Line<F>>)

  function NewPipe<F>(): Pipe<F>
  {
    Pipe([], [], [], None, [])
  }

  function Enqueue<F>(p: Pipe<F>, f: F): Pipe<F>
  {
    p.(enqueued := p.enqueued + [f], queue := p.queue + [f])
  }

  function Connect<F>(p: Pipe<F>): Pipe<F>
  {
    if p.current.Some? then p
    else p.(current := Some(|p.lines|), lines := p.lines + [Line([], [], [], [], false)])
  }

  predicate HasLine<F>(p: Pipe<F>)
  {
    p.current.Some? && p.current.value < |p.lines|
  }

  /** The writer's `await self._outbound.get()`; a writer whose send failed is dead. */
  function Take<F>(p: Pipe<F>): Pipe<F>
  {
    if HasLine(p) && p.lines[p.current.value].lost == [] && p.hand == [] && p.queue != []
    then p.(hand := [p.queue[0]], queue := p.queue[1..]) else p
  }

  function UpdateLine<F>(p: Pipe<F>, c: nat, l: Line<F>): Pipe<F>
    requires c < |p.lines|
  {
    p.(lines := p.lines[c := l])
  }

  function LoseHand<F>(p: Pipe<F>, c: nat): Pipe<F>
    requires c < |p.lines|
  {
    UpdateLine(p, c, p.lines[c].(lost := p.lines[c].lost + p.hand)).(hand := [])
  }

  function Carry<F>(l: Line<F>, hand: seq<F>): Line<F>
  {
    l.(sent := l.sent + hand, transit := l.transit + hand)
  }

  /** `await ws.send(...)`: onto the wire, or lost with it. */
  function Send<F>(p: Pipe<F>): Pipe<F>
  {
    if !HasLine(p) then p
    else
      var c := p.current.value;
      var l := p.lines[c];
      if l.cut then LoseHand(p, c)
      else UpdateLine(p, c, Carry(l, p.hand)).(hand := [])
  }

  /** The connection ends: its writer is cancelled, with or without a frame in hand. */
  function TearDown<F>(p: Pipe<F>): Pipe<F>
  {
    if HasLine(p) then LoseHand(p, p.current.value).(current := None) else p
  }

  function Arrive<F>(l: Line<F>): Line<F>
    requires l.transit != []
  {
    l.(got := l.got + [l.transit[0]], transit := l.transit[1..])
  }

  function Receive<F>(p: Pipe<F>, c: nat): Pipe<F>
  {
    if c < |p.lines| && p.lines[c].transit != [] then UpdateLine(p, c, Arrive(p.lines[c])) else p
  }

  function CutShort<F>(l: Line<F>, n: nat): Line<F>
  {
    l.(cut := true, transit := Keep(l.transit, n))
  }

  /** The wire ends, keeping the first `n` frames in transit. */
  function Cut<F>(p: Pipe<F>, c: nat, n: nat): Pipe<F>
  {
    if c < |p.lines| then UpdateLine(p, c, CutShort(p.lines[c], n)) else p
  }

  datatype Move<F> =
    | DoEnqueue(frame: F)
    | DoConnect
    | DoTake
    | DoSend
    | DoTearDown
    | DoReceive(c: nat)
    | DoCut(c: nat, keep: nat)

  function Apply<F>(p: Pipe<F>, m: Move<F>): Pipe<F>
  {
    match m
    case DoEnqueue(f) => Enqueue(p, f)
    case DoConnect => Connect(p)
    case DoTake => Take(p)
    case DoSend => Send(p)
    case DoTearDown => TearDown(p)
    case DoReceive(c) => Receive(p, c)
    case DoCut(c, n) => Cut(p, c, n)
  }

  function Run<F>(moves: seq<Move<F>>): Pipe<F>
  {
    if moves == [] then NewPipe() else Apply(Run(moves[..|moves| - 1]), moves[|moves| - 1])
  }

  // ---- Conservation

  /** What left the queue over these connections, in order. */
  function Drained<F>(lines: seq<Line<F>>): seq<F>
  {
    if lines == [] then []
    else
      var n := |lines| - 1;
      Drained(lines[..n]) + lines[n].sent + lines[n].lost
  }

  ghost predicate LineInv<F>(l: Line<F>)
  {
    && |l.lost| <= 1
    && l.got + l.transit <= l.sent
    && (!l.cut ==> l.got + l.transit == l.sent)
  }

  ghost predicate PipeInv<F>(p: Pipe<F>)
  {
    && p.enqueued == Drained(p.lines) + p.hand + p.queue
    && (forall c :: 0 <= c < |p.lines| ==> LineInv(p.lines[c]))
    && |p.hand| <= 1 && (p.current.None? ==> p.hand == [])
    && (p.current.Some? ==>
          p.current.value + 1 == |p.lines| && (p.hand != [] ==> p.lines[p.current.value].lost == []))
  }

  lemma {:induction false} OldLinesDrainAlike<F>(lines: seq<Line<F>>, c: nat, l: Line<F>)
    requires c < |lines| && l.sent == lines[c].sent && l.lost == lines[c].lost
    ensures Drained(lines[c := l]) == Drained(lines)
  {
    var n := |lines| - 1;
    if c < n {
      OldLinesDrainAlike(lines[..n], c, l);
      assert lines[c := l][..n] == lines[..n][c := l];
    } else {
      assert lines[c := l][..n] == lines[..n];
    }
  }

  lemma LastLineDrains<F>(lines: seq<Line<F>>, l: Line<F>)
    requires lines != []
    ensures Drained(lines[|lines| - 1 := l]) == Drained(lines[..|lines| - 1]) + l.sent + l.lost
  {
    assert lines[|lines| - 1 := l][..|lines| - 1] == lines[..|lines| - 1];
  }

  lemma TakeKeepsInv<F>(p: Pipe<F>)
    requires PipeInv(p)
    ensures PipeInv(Take(p))
  {
    if Take(p) != p {
      assert p.queue == [p.queue[0]] + p.queue[1..];
      assert Drained(p.lines) + [] + ([p.queue[0]] + p.queue[1..]) == Drained(p.lines) + [p.queue[0]] + p.queue[1..];
    }
  }

  lemma LosingConserves<F>(d: seq<F>, lost: seq<F>, hand: seq<F>, queue: seq<F>)
    ensures d + (lost + hand) + [] + queue == d + lost + hand + queue
  {
    assert d + (lost + hand) == d + lost + hand;
  }

  lemma LoseKeepsInv<F>(p: Pipe<F>)
    requires PipeInv(p) && HasLine(p)
    ensures PipeInv(LoseHand(p, p.current.value))
  {
    var c := p.current.value;
    var l := p.lines[c];
    LastLineDrains(p.lines, l.(lost := l.lost + p.hand));
    LastLineIsLast(p.lines);
    LosingConserves(Drained(p.lines[..c]) + l.sent, l.lost, p.hand, p.queue);
  }

  lemma LastLineIsLast<F>(lines: seq<Line<F>>)
    requires lines != []
    ensures var n := |lines| - 1;
            Drained(lines) == Drained(lines[..n]) + lines[n].sent + lines[n].lost
  {}

  lemma CarryKeepsLineInv<F>(l: Line<F>, hand: seq<F>)
    requires LineInv(l) && !l.cut
    ensures LineInv(Carry(l, hand))
  {
    assert l.got + (l.transit + hand) == l.got + l.transit + hand;
  }

  lemma CarryKeepsInv<F>(p: Pipe<F>, c: nat)
    requires PipeInv(p) && p.current == Some(c) && !p.lines[c].cut
    ensures PipeInv(UpdateLine(p, c, Carry(p.lines[c], p.hand)).(hand := []))
  {
    var l := p.lines[c];
    LastLineDrains(p.lines, Carry(l, p.hand));
    LastLineIsLast(p.lines);
    CarryKeepsLineInv(l, p.hand);
    SendConserves(Drained(p.lines[..c]), l.sent, l.lost, p.hand, p.queue);
  }

  lemma SendKeepsInv<F>(p: Pipe<F>)
    requires PipeInv(p)
    ensures PipeInv(Send(p))
  {
    if HasLine(p) {
      if p.lines[p.current.value].cut { LoseKeepsInv(p); } else { CarryKeepsInv(p, p.current.value); }
    }
  }

  lemma SendConserves<F>(d: seq<F>, sent: seq<F>, lost: seq<F>, hand: seq<F>, queue: seq<F>)
    requires hand != [] ==> lost == []
    ensures d + (sent + hand) + lost + [] + queue == d + sent + lost + hand + queue
  {
    if hand == [] {
      assert sent + hand == sent;
    } else {
      assert d + (sent + hand) + lost + [] + queue == d + sent + hand + queue;
    }
  }

  lemma LineMoveKeepsInv<F>(p: Pipe<F>, c: nat, l: Line<F>)
    requires PipeInv(p) && c < |p.lines| && LineInv(l)
    requires l.sent == p.lines[c].sent && l.lost == p.lines[c].lost
    ensures PipeInv(UpdateLine(p, c, l))
  {
    OldLinesDrainAlike(p.lines, c, l);
  }

  lemma ReceiveKeepsLineInv<F>(l: Line<F>)
    requires LineInv(l) && l.transit != []
    ensures LineInv(Arrive(l))
  {
    assert l.got + [l.transit[0]] + l.transit[1..] == l.got + l.transit;
  }

  lemma CutKeepsLineInv<F>(l: Line<F>, n: nat)
    requires LineInv(l)
    ensures LineInv(CutShort(l, n))
  {
    if n < |l.transit| {
      assert l.got + l.transit == l.got + l.transit[..n] + l.transit[n..];
    }
  }

  lemma EnqueueKeepsInv<F>(p: Pipe<F>, f: F)
    requires PipeInv(p)
    ensures PipeInv(Enqueue(p, f))
  {
    assert Drained(p.lines) + p.hand + (p.queue + [f]) == Drained(p.lines) + p.hand + p.queue + [f];
  }

  lemma ConnectKeepsInv<F>(p: Pipe<F>)
    requires PipeInv(p)
    ensures PipeInv(Connect(p))
  {
    if p.current.None? {
      var lines := p.lines + [Line([], [], [], [], false)];
      assert lines[..|lines| - 1] == p.lines;
      assert Drained(p.lines) + [] + [] == Drained(p.lines);
    }
  }

  lemma ReceiveKeepsInv<F>(p: Pipe<F>, c: nat)
    requires PipeInv(p)
    ensures PipeInv(Receive(p, c))
  {
    if c < |p.lines| && p.lines[c].transit != [] {
      ReceiveKeepsLineInv(p.lines[c]);
      LineMoveKeepsInv(p, c, Arrive(p.lines[c]));
    }
  }

  lemma CutKeepsInv<F>(p: Pipe<F>, c: nat, n: nat)
    requires PipeInv(p)
    ensures PipeInv(Cut(p, c, n))
  {
    if c < |p.lines| {
      CutKeepsLineInv(p.lines[c], n);
      LineMoveKeepsInv(p, c, CutShort(p.lines[c], n));
    }
  }

  lemma MoveKeepsInv<F>(p: Pipe<F>, m: Move<F>)
    requires PipeInv(p)
    ensures PipeInv(Apply(p, m))
  {
    match m {
      case DoEnqueue(f) => EnqueueKeepsInv(p, f);
      case DoConnect => ConnectKeepsInv(p);
      case DoTake => TakeKeepsInv(p);
      case DoSend => SendKeepsInv(p);
      case DoTearDown => if HasLine(p) { LoseKeepsInv(p); }
      case DoReceive(c) => ReceiveKeepsInv(p, c);
      case DoCut(c, n) => CutKeepsInv(p, c, n);
    }
  }

  /** Conservation: everything ever enqueued is, in order, what each successive connection
      sent plus at most one frame lost with it, then the frame in hand, then the queue;
      and each connection's far end has received a prefix of what it was sent. */
  lemma {:induction false} FramesAreConserved<F>(moves: seq<Move<F>>)
    ensures PipeInv(Run(moves))
  {
    if moves != [] {
      FramesAreConserved(moves[..|moves| - 1]);
      MoveKeepsInv(Run(moves[..|moves| - 1]), moves[|moves| - 1]);
    }
  }

  // ---- Nothing twice, nothing out of order

  /** `a` is what is left of `b` when some of its elements are struck out. */
  predicate IsSubsequence<F(==)>(a: seq<F>, b: seq<F>)
  {
    a == [] ||
    (b != [] &&
      (if a[|a| - 1] == b[|b| - 1] then IsSubsequence(a[..|a| - 1], b[..|b| - 1])
       else IsSubsequence(a, b[..|b| - 1])))
  }

  lemma {:induction false} StrikingTheLast<F>(a: seq<F>, b: seq<F>, x: F)
    requires IsSubsequence(a, b)
    ensures IsSubsequence(a, b + [x])
    decreases |b|, 1
  {
    assert (b + [x])[..|b + [x]| - 1] == b;
    if a != [] && a[|a| - 1] == x {
      DroppingTheLast(a, b);
    }
  }

  lemma {:induction false} DroppingTheLast<F>(a: seq<F>, b: seq<F>)
    requires a != [] && IsSubsequence(a, b)
    ensures IsSubsequence(a[..|a| - 1], b)
    decreases |b|, 0
  {
    var n := |b| - 1;
    assert b == b[..n] + [b[n]];
    if a[|a| - 1] == b[n] {
      StrikingTheLast(a[..|a| - 1], b[..n], b[n]);
    } else {
      DroppingTheLast(a, b[..n]);
      StrikingTheLast(a[..|a| - 1], b[..n], b[n]);
    }
  }

  lemma {:induction false} KeepingATail<F>(a: seq<F>, b: seq<F>, tail: seq<F>)
    requires IsSubsequence(a, b)
    ensures IsSubsequence(a + tail, b + tail)
  {
    if tail == [] {
      assert a + tail == a && b + tail == b;
    } else {
      var n := |tail| - 1;
      KeepingATail(a, b, tail[..n]);
      var s, t := a + tail, b + tail;
      assert s[..|s| - 1] == a + tail[..n] && s[|s| - 1] == tail[n];
      assert t[..|t| - 1] == b + tail[..n] && t[|t| - 1] == tail[n];
    }
  }

  lemma {:induction false} StrikingATail<F>(a: seq<F>, b: seq<F>, tail: seq<F>)
    requires IsSubsequence(a, b)
    ensures IsSubsequence(a, b + tail)
  {
    if tail == [] {
      assert b + tail == b;
    } else {
      var n := |tail| - 1;
      StrikingATail(a, b, tail[..n]);
      StrikingTheLast(a, b + tail[..n], tail[n]);
      assert b + tail == b + tail[..n] + [tail[n]];
    }
  }

  /** Everything the other end received, connection after connection. */
  function Received<F>(lines: seq<Line<F>>): seq<F>
  {
    if lines == [] then [] else Received(lines[..|lines| - 1]) + lines[|lines| - 1].got
  }

  lemma {:induction false} ReceivedWasDrained<F>(lines: seq<Line<F>>)
    requires forall c :: 0 <= c < |lines| ==> LineInv(lines[c])
    ensures IsSubsequence(Received(lines), Drained(lines))
  {
    if lines != [] {
      var n := |lines| - 1;
      ReceivedWasDrained(lines[..n]);
      OneMoreLine(Received(lines[..n]), Drained(lines[..n]), lines[n]);
    }
  }

  lemma OneMoreLine<F>(a: seq<F>, d: seq<F>, l: Line<F>)
    requires IsSubsequence(a, d) && LineInv(l)
    ensures IsSubsequence(a + l.got, d + l.sent + l.lost)
  {
    GotIsPrefixOfSent(l);
    var unread := l.sent[|l.got|..];
    OneMorePart(a, d, l.got, unread + l.lost);
    Regrouped(d, l.got, unread, l.lost);
  }

  lemma Regrouped<F>(a: seq<F>, b: seq<F>, c: seq<F>, d: seq<F>)
    ensures a + b + (c + d) == a + (b + c) + d
  {}

  lemma OneMorePart<F>(a: seq<F>, d: seq<F>, got: seq<F>, rest: seq<F>)
    requires IsSubsequence(a, d)
    ensures IsSubsequence(a + got, d + got + rest)
  {
    KeepingATail(a, d, got);
    StrikingATail(a + got, d + got, rest);
  }

  lemma GotIsPrefixOfSent<F>(l: Line<F>)
    requires LineInv(l)
    ensures |l.got| <= |l.sent| && l.sent == l.got + l.sent[|l.got|..]
  {
    assert forall i :: 0 <= i < |l.got| ==> (l.got + l.transit)[i] == l.got[i];
  }

  function OfKind<F>(s: seq<F>, p: F -> bool): seq<F>
  {
    if s == [] then []
    else OfKind(s[..|s| - 1], p) + (if p(s[|s| - 1]) then [s[|s| - 1]] else [])
  }

  lemma {:induction false} SubsequenceOfKind<F>(a: seq<F>, b: seq<F>, p: F -> bool)
    requires IsSubsequence(a, b)
    ensures IsSubsequence(OfKind(a, p), OfKind(b, p))
  {
    if a != [] {
      var x, y := a[|a| - 1], b[|b| - 1];
      if x == y {
        SubsequenceOfKind(a[..|a| - 1], b[..|b| - 1], p);
        KeepingATail(OfKind(a[..|a| - 1], p), OfKind(b[..|b| - 1], p), if p(x) then [x] else []);
      } else {
        SubsequenceOfKind(a, b[..|b| - 1], p);
        StrikingATail(OfKind(a, p), OfKind(b[..|b| - 1], p), if p(y) then [y] else []);
      }
    }
  }

  /** No frame is duplicated or reordered on its way, over any number of reconnects; nor
      are the frames of any one run, or of any other kind `p`. */
  lemma NothingTwiceOrOutOfOrder<F>(s: Pipe<F>, p: F -> bool)
    requires PipeInv(s)
    ensures IsSubsequence(Received(s.lines), s.enqueued)
    ensures IsSubsequence(OfKind(Received(s.lines), p), OfKind(s.enqueued, p))
  {
    ReceivedWasDrained(s.lines);
    StrikingATail(Received(s.lines), Drained(s.lines), s.hand + s.queue);
    assert s.enqueued == Drained(s.lines) + (s.hand + s.queue);
    SubsequenceOfKind(Received(s.lines), s.enqueued, p);
  }

  lemma {:induction false} SentWasDrained<F>(lines: seq<Line<F>>, c: nat, f: F)
    requires c < |lines| && f in lines[c].sent
    ensures f in Drained(lines)
  {
    var n := |lines| - 1;
    if c < n {
      SentWasDrained(lines[..n], c, f);
    }
  }

  /** A frame that is about to arrive anywhere was enqueued. */
  lemma ArrivingWasEnqueued<F>(p: Pipe<F>, c: nat)
    requires PipeInv(p) && c < |p.lines| && p.lines[c].transit != []
    ensures p.lines[c].transit[0] in p.enqueued
  {
    var l := p.lines[c];
    assert (l.got + l.transit)[|l.got|] == l.transit[0];
    assert l.transit[0] == l.sent[|l.got|];
    SentWasDrained(p.lines, c, l.transit[0]);
  }
}
