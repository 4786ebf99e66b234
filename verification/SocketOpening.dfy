/** How a provider socket opens, from both ends: what the gateway writes while the broker
    is already offering, and what the provider's handshake reads
    (souk_server/ws_provider.py, souk_server/ws_common.py,
    souk-agent-sdk/souk_agent_sdk/client.py). */
module SocketOpening {
  import opened Wrappers
  import opened ProviderWire
  import S = ProviderSocket

  datatype Phase = AwaitingHello | AwaitingProof | Attaching | Serving | Over

  /** The provider's end. `Raised` holds the frame it did not expect; it is `None` when the
      socket ended, or when it walked away from a souk it does not recognise. */
  datatype Reader = Connected | SaidHello | SentProof | Welcomed | Raised(unexpected: Option<DownFrame>)

  /** `queue` is the outbound queue, `put` everything ever put on it, `trace` every frame
      the gateway wrote, of which the provider has read the first `read`. `runs` are the
      offers the provider has read. `attached` tells whether attach ever succeeded. */
  datatype Socket = Socket(
    phase: Phase, queue: seq<DownFrame>, put: seq<DownFrame>, trace: seq<DownFrame>, attached: bool,
    reader: Reader, read: nat, runs: seq<RunId>)

  const ACCEPTED := Socket(AwaitingHello, [], [], [], false, Connected, 0, [])

  datatype Label =
    | SayHello
    | HelloArrives(wellFormed: bool)
    | ProofArrives(wellFormed: bool)
    | Put(frame: DownFrame)
    | AttachEnds(succeeds: bool)
    | Write(succeeds: bool)
    | Teardown
    | Read(recognised: bool)
    | SocketEnds

  /** The outbound queue is made once the proof is in, and takes frames to the end and
      after it. */
  predicate HasQueue(s: Socket)
  {
    s.put != []
  }

  predicate IsLive(s: Socket)
  {
    s.phase.Attaching? || s.phase.Serving?
  }

  function Enqueue(s: Socket, f: DownFrame): Socket
  {
    s.(queue := s.queue + [f], put := s.put + [f])
  }

  /** One turn of the writer. A close frame closes the socket; a failed send ends it. */
  function WriteOne(s: Socket, succeeds: bool): Socket
    requires s.queue != []
  {
    var f := s.queue[0];
    if f.Close? || !succeeds then s.(queue := s.queue[1..], phase := Over)
    else s.(queue := s.queue[1..], trace := s.trace + [f])
  }

  /** The provider reads the next frame the gateway wrote. */
  function ReadOne(s: Socket, recognised: bool): Socket
    requires s.read < |s.trace|
  {
    var f := s.trace[s.read];
    var t := s.(read := s.read + 1);
    match s.reader
    case SaidHello =>
      if !f.Challenge? then t.(reader := Raised(Some(f)))
      else if recognised then t.(reader := SentProof) else t.(reader := Raised(None))
    case SentProof => if f.Welcome? then t.(reader := Welcomed) else t.(reader := Raised(Some(f)))
    case Welcomed => if f.Run? then t.(runs := s.runs + [f.run]) else t
    case _ => s
  }

  function Step(s: Socket, l: Label): Socket
  {
    match l
    case SayHello => if s.reader.Connected? then s.(reader := SaidHello) else s
    case HelloArrives(wellFormed) =>
      if !s.phase.AwaitingHello? then s
      else if wellFormed && !s.reader.Connected? then s.(phase := AwaitingProof, trace := s.trace + [Challenge])
      else s.(phase := Over)
    case ProofArrives(wellFormed) =>
      if !s.phase.AwaitingProof? then s
      else if wellFormed then Enqueue(s.(phase := Attaching), Welcome)
      else s.(phase := Over)
    case Put(f) => if HasQueue(s) && !f.Welcome? && !f.Challenge? then Enqueue(s, f) else s
    case AttachEnds(succeeds) =>
      if !s.phase.Attaching? then s
      else if succeeds then s.(phase := Serving, attached := true) else s.(phase := Over)
    case Write(succeeds) => if s.phase.Serving? && s.queue != [] then WriteOne(s, succeeds) else s
    case Teardown => s.(phase := Over)
    case Read(recognised) => if s.read < |s.trace| then ReadOne(s, recognised) else s
    case SocketEnds => if s.reader.Welcomed? || s.reader.Raised? then s else s.(reader := Raised(None))
  }

  function Run(start: Socket, labels: seq<Label>): Socket
  {
    if labels == [] then start else Step(Run(start, labels[..|labels| - 1]), labels[|labels| - 1])
  }

  // ---- What the gateway writes

  /** `s` is the first part of what a writer sends of `put`. */
  ghost predicate IsWritten(s: seq<DownFrame>, put: seq<DownFrame>)
  {
    s <= put && forall i :: 0 <= i < |s| ==> !s[i].Close?
  }

  lemma {:induction false} WrittenIsUpToClose(s: seq<DownFrame>, put: seq<DownFrame>)
    requires IsWritten(s, put)
    ensures s <= S.UpToClose(put)
    ensures |s| < |put| && put[|s|].Close? ==> s == S.UpToClose(put)
  {
    if s != [] {
      WrittenIsUpToClose(s[1..], put[1..]);
    }
  }

  /** The frames after the challenge are written in the order they were put, and the
      welcome was put first. */
  ghost predicate InOrder(trace: seq<DownFrame>, put: seq<DownFrame>)
  {
    && (put != [] ==> put[0] == Welcome)
    && (forall i :: 1 <= i < |put| ==> !put[i].Welcome? && !put[i].Challenge?)
    && (trace != [] ==> trace[0] == Challenge && IsWritten(trace[1..], put))
  }

  /** What is not written yet is queued. */
  ghost predicate NoneIsMissing(trace: seq<DownFrame>, queue: seq<DownFrame>, put: seq<DownFrame>)
  {
    trace != [] && trace[1..] + queue == put
  }

  ghost predicate Inv(s: Socket)
  {
    && InOrder(s.trace, s.put)
    && (s.phase.AwaitingHello? ==> s.trace == [] && s.put == s.queue == [] && !s.attached)
    && (s.phase.AwaitingProof? ==> s.trace == [Challenge] && s.put == s.queue == [] && !s.attached)
    && (s.phase.Attaching? ==> s.put != [] && !s.attached)
    && (IsLive(s) ==> NoneIsMissing(s.trace, s.queue, s.put))
    && (!s.attached ==> |s.trace| <= 1)
  }

  lemma WriteKeepsInv(s: Socket, succeeds: bool)
    requires Inv(s) && s.phase.Serving? && s.attached && s.queue != []
    ensures Inv(WriteOne(s, succeeds))
  {
    var f := s.queue[0];
    if !f.Close? && succeeds {
      var t := WriteOne(s, succeeds);
      assert t.trace[1..] == s.trace[1..] + [f];
      assert s.trace[1..] + [f] + s.queue[1..] == s.trace[1..] + s.queue;
    }
  }

  lemma EnqueueKeepsInv(s: Socket, f: DownFrame)
    requires Inv(s) && HasQueue(s) && !f.Welcome? && !f.Challenge?
    ensures Inv(Enqueue(s, f))
  {
    if s.trace != [] {
      assert s.trace[1..] + (s.queue + [f]) == s.trace[1..] + s.queue + [f];
    }
  }

  ghost predicate Progress(s: Socket)
  {
    && (IsLive(s) ==> s.put != [])
    && (s.phase.Serving? ==> s.attached)
  }

  lemma HandshakeStepKeepsInv(s: Socket, l: Label)
    requires Inv(s) && Progress(s) && (l.HelloArrives? || l.ProofArrives?)
    ensures Inv(Step(s, l)) && Progress(Step(s, l))
  {
    if l.ProofArrives? && s.phase.AwaitingProof? {
      assert s.trace[1..] + [Welcome] == [Welcome];
    }
  }

  lemma QueueStepKeepsInv(s: Socket, l: Label)
    requires Inv(s) && Progress(s) && (l.Put? || l.Write?)
    ensures Inv(Step(s, l)) && Progress(Step(s, l))
  {
    if Step(s, l) != s {
      if l.Put? { EnqueueKeepsInv(s, l.frame); } else { WriteKeepsInv(s, l.succeeds); }
    }
  }

  /** Steps that write nothing and queue nothing. */
  lemma QuietStepKeepsInv(s: Socket, l: Label)
    requires Inv(s) && Progress(s) && (l.SayHello? || l.AttachEnds? || l.Teardown? || l.Read? || l.SocketEnds?)
    ensures Inv(Step(s, l)) && Progress(Step(s, l))
  {
    QuietStep(s, l);
    QuietKeepsInv(s, Step(s, l));
  }

  ghost predicate IsQuiet(s: Socket, t: Socket)
  {
    && t.trace == s.trace && t.queue == s.queue && t.put == s.put
    && ((t.phase == s.phase && t.attached == s.attached)
        || (s.phase.Attaching? && t.phase.Serving? && t.attached)
        || (t.phase.Over? && t.attached == s.attached))
  }

  lemma QuietStep(s: Socket, l: Label)
    requires l.SayHello? || l.AttachEnds? || l.Teardown? || l.Read? || l.SocketEnds?
    ensures IsQuiet(s, Step(s, l))
  {}

  lemma QuietKeepsInv(s: Socket, t: Socket)
    requires Inv(s) && Progress(s) && IsQuiet(s, t)
    ensures Inv(t) && Progress(t)
  {}

  lemma StepKeepsInv(s: Socket, l: Label)
    requires Inv(s) && Progress(s)
    ensures Inv(Step(s, l)) && Progress(Step(s, l))
  {
    if l.HelloArrives? || l.ProofArrives? {
      HandshakeStepKeepsInv(s, l);
    } else if l.Put? || l.Write? {
      QueueStepKeepsInv(s, l);
    } else {
      QuietStepKeepsInv(s, l);
    }
  }

  lemma {:induction false} RunKeepsInv(labels: seq<Label>)
    ensures Inv(Run(ACCEPTED, labels)) && Progress(Run(ACCEPTED, labels))
  {
    if labels != [] {
      RunKeepsInv(labels[..|labels| - 1]);
      StepKeepsInv(Run(ACCEPTED, labels[..|labels| - 1]), labels[|labels| - 1]);
    }
  }

  /** Welcome first. Whatever the broker offers or cancels while attach is still running,
      the gateway writes a challenge, then the welcome, then the outbound queue in order,
      cut at the first close frame or at the end of the socket. */
  lemma WelcomeFirst(labels: seq<Label>)
    ensures var s := Run(ACCEPTED, labels);
            && (s.trace == [] || (s.trace[0] == Challenge && s.trace[1..] <= S.UpToClose(s.put)))
            && (|s.trace| >= 2 ==> s.trace[1] == Welcome && s.attached)
            && (forall i :: 2 <= i < |s.trace| ==> !s.trace[i].Welcome? && !s.trace[i].Challenge? && !s.trace[i].Close?)
  {
    RunKeepsInv(labels);
    var s := Run(ACCEPTED, labels);
    if s.trace != [] {
      WrittenIsUpToClose(s.trace[1..], s.put);
      forall i | 2 <= i < |s.trace| ensures s.trace[i] == s.put[i - 1] && !s.trace[i].Close? {
        assert s.trace[i] == s.trace[1..][i - 1];
      }
      assert |s.trace| >= 2 ==> s.trace[1] == s.trace[1..][0];
    }
  }

  /** A socket that is over writes nothing more, whatever is still put on its queue. */
  lemma {:induction false} NothingAfterTheEnd(s: Socket, labels: seq<Label>)
    requires s.phase.Over?
    ensures Run(s, labels).phase.Over? && Run(s, labels).trace == s.trace && Run(s, labels).attached == s.attached
  {
    if labels != [] {
      NothingAfterTheEnd(s, labels[..|labels| - 1]);
    }
  }

  lemma {:induction false} RunInTwoParts(start: Socket, first: seq<Label>, more: seq<Label>)
    ensures Run(start, first + more) == Run(Run(start, first), more)
  {
    if more == [] {
      assert first + more == first;
    } else {
      var n := |more| - 1;
      RunInTwoParts(start, first, more[..n]);
      assert (first + more)[..|first + more| - 1] == first + more[..n];
    }
  }

  /** A failed attach ends the socket without a welcome, then or ever after. */
  lemma FailedAttachSendsNoWelcome(before: seq<Label>, after: seq<Label>)
    requires Run(ACCEPTED, before).phase.Attaching?
    ensures Run(ACCEPTED, before + [AttachEnds(false)] + after).trace == [Challenge]
  {
    RunKeepsInv(before);
    RunInTwoParts(ACCEPTED, before, [AttachEnds(false)]);
    RunInTwoParts(ACCEPTED, before + [AttachEnds(false)], after);
    var s := Run(ACCEPTED, before);
    assert Run(s, [AttachEnds(false)]) == s.(phase := Over);
    NothingAfterTheEnd(s.(phase := Over), after);
  }

  /** When the writer comes to a close frame, everything put before it has been written,
      and nothing is written after it. */
  lemma CloseEndsTheTrace(before: seq<Label>, after: seq<Label>)
    requires var s := Run(ACCEPTED, before); s.phase.Serving? && s.queue != [] && s.queue[0].Close?
    ensures Run(ACCEPTED, before + [Write(true)] + after).trace
         == [Challenge] + S.UpToClose(Run(ACCEPTED, before).put)
  {
    RunKeepsInv(before);
    RunInTwoParts(ACCEPTED, before, [Write(true)]);
    RunInTwoParts(ACCEPTED, before + [Write(true)], after);
    var s := Run(ACCEPTED, before);
    assert Run(s, [Write(true)]) == WriteOne(s, true);
    NothingAfterTheEnd(WriteOne(s, true), after);
    NextIsQueued(s.trace[1..], s.queue, s.put);
    WrittenIsUpToClose(s.trace[1..], s.put);
    assert s.trace == [Challenge] + s.trace[1..];
  }

  lemma NextIsQueued(written: seq<DownFrame>, queue: seq<DownFrame>, put: seq<DownFrame>)
    requires written + queue == put && queue != []
    ensures |written| < |put| && put[|written|] == queue[0]
  {}

  /** A hello or a proof that is not in order ends the socket: nothing more is written. */
  lemma BadFramesEndTheSocket(before: seq<Label>, after: seq<Label>)
    ensures Run(ACCEPTED, before).phase.AwaitingHello? ==>
              Run(ACCEPTED, before + [HelloArrives(false)] + after).trace == []
    ensures Run(ACCEPTED, before).phase.AwaitingProof? ==>
              Run(ACCEPTED, before + [ProofArrives(false)] + after).trace == [Challenge]
  {
    RunKeepsInv(before);
    var s := Run(ACCEPTED, before);
    if s.phase.AwaitingHello? || s.phase.AwaitingProof? {
      var l := if s.phase.AwaitingHello? then HelloArrives(false) else ProofArrives(false);
      RunInTwoParts(ACCEPTED, before, [l]);
      RunInTwoParts(ACCEPTED, before + [l], after);
      OneStep(s, l);
      NothingAfterTheEnd(s.(phase := Over), after);
    }
  }

  lemma OneStep(s: Socket, l: Label)
    ensures Run(s, [l]) == Step(s, l)
  {
    assert [l][..|[l]| - 1] == [] && Run(s, []) == s;
  }

  // ---- And it does write

  /** What the broker and the dispatch loop put on the queue, in order. */
  function Queued(labels: seq<Label>): seq<DownFrame>
  {
    if labels == [] then []
    else
      var l := labels[|labels| - 1];
      Queued(labels[..|labels| - 1]) +
      if l.Put? && !l.frame.Welcome? && !l.frame.Challenge? then [l.frame] else []
  }

  /** How many frames a writer has had turns for, when `first` was queued before it started. */
  function Taken(first: seq<DownFrame>, labels: seq<Label>): nat
  {
    if labels == [] then 0
    else
      var n := |labels| - 1;
      var t := Taken(first, labels[..n]);
      if labels[n].Write? && t < |first + Queued(labels[..n])| then t + 1 else t
  }

  /** While attach runs: everything is queued behind the welcome, and nothing is written. */
  ghost predicate Waits(s: Socket, queued: seq<DownFrame>)
  {
    s.phase.Attaching? && s.trace == [Challenge] && s.put == s.queue == queued && queued != []
  }

  /** Once attach has succeeded: the first `taken` frames of `all` are written, or all up to
      a close frame, after which the socket is over. */
  ghost predicate Serves(s: Socket, all: seq<DownFrame>, taken: nat)
  {
    && s.attached && s.put == all && taken <= |all| && all != []
    && if s.phase.Serving? then
         s.trace == [Challenge] + all[..taken] && s.queue == all[taken..] && IsWritten(all[..taken], all)
       else
         s.phase.Over? && s.trace == [Challenge] + S.UpToClose(all) && |S.UpToClose(all)| < taken
  }

  lemma {:induction false} CloseStops(all: seq<DownFrame>, f: DownFrame)
    requires |S.UpToClose(all)| < |all|
    ensures S.UpToClose(all + [f]) == S.UpToClose(all)
  {
    assert (all + [f])[0] == all[0];
    if !all[0].Close? {
      assert (all + [f])[1..] == all[1..] + [f];
      CloseStops(all[1..], f);
    }
  }

  lemma PutServes(s: Socket, all: seq<DownFrame>, taken: nat, f: DownFrame)
    requires Serves(s, all, taken)
    ensures Serves(Enqueue(s, f), all + [f], taken)
  {
    assert (all + [f])[..taken] == all[..taken];
    if s.phase.Serving? {
      assert (all + [f])[taken..] == all[taken..] + [f];
    } else {
      CloseStops(all, f);
    }
  }

  lemma WriteServes(s: Socket, all: seq<DownFrame>, taken: nat)
    requires Serves(s, all, taken)
    ensures Serves(Step(s, Write(true)), all, if taken < |all| then taken + 1 else taken)
  {
    if s.phase.Serving? && taken < |all| {
      assert s.queue[0] == all[taken] && s.queue[1..] == all[taken + 1..];
      if all[taken].Close? {
        WrittenIsUpToClose(all[..taken], all);
      } else {
        assert all[..taken + 1] == all[..taken] + [all[taken]];
        assert s.trace + [all[taken]] == [Challenge] + all[..taken + 1];
      }
    }
  }

  lemma {:induction false} ServesOn(s: Socket, first: seq<DownFrame>, after: seq<Label>)
    requires Serves(s, first, 0) && Teardown !in after && Write(false) !in after
    ensures Serves(Run(s, after), first + Queued(after), Taken(first, after))
  {
    if after == [] {
      assert first + [] == first;
    } else {
      var n := |after| - 1;
      var t, l := Run(s, after[..n]), after[n];
      var all, taken := first + Queued(after[..n]), Taken(first, after[..n]);
      assert after == after[..n] + [l];
      ServesOn(s, first, after[..n]);
      if l.Put? && !l.frame.Welcome? && !l.frame.Challenge? {
        PutServes(t, all, taken, l.frame);
        assert first + Queued(after) == all + [l.frame];
      } else if l.Write? {
        assert l == Write(true);
        WriteServes(t, all, taken);
      } else {
        OtherStepServes(t, all, taken, l);
      }
    }
  }

  lemma OtherStepServes(s: Socket, all: seq<DownFrame>, taken: nat, l: Label)
    requires Serves(s, all, taken) && !l.Teardown? && !l.Write?
    requires l.Put? ==> l.frame.Welcome? || l.frame.Challenge?
    ensures Serves(Step(s, l), all, taken)
  {
    var t := Step(s, l);
    assert t.phase == s.phase && t.trace == s.trace && t.queue == s.queue && t.put == s.put && t.attached == s.attached;
  }

  lemma {:induction false} WaitsOn(s: Socket, mid: seq<Label>)
    requires Waits(s, [Welcome]) && Teardown !in mid && AttachEnds(true) !in mid && AttachEnds(false) !in mid
    ensures Waits(Run(s, mid), [Welcome] + Queued(mid))
  {
    if mid != [] {
      var n := |mid| - 1;
      assert mid == mid[..n] + [mid[n]];
      WaitsOn(s, mid[..n]);
      WaitsAStep(Run(s, mid[..n]), [Welcome] + Queued(mid[..n]), mid[n]);
      if mid[n].Put? {
        var f := mid[n].frame;
        assert [Welcome] + (Queued(mid[..n]) + [f]) == [Welcome] + Queued(mid[..n]) + [f];
      }
    }
  }

  lemma WaitsAStep(s: Socket, queued: seq<DownFrame>, l: Label)
    requires Waits(s, queued) && !l.Teardown? && !l.AttachEnds?
    ensures Waits(Step(s, l), if l.Put? && !l.frame.Welcome? && !l.frame.Challenge? then queued + [l.frame] else queued)
  {}

  /** Any proof in order, whatever is put while attach runs, a successful attach, and then
      whatever is put and however the turns of the writer fall, short of a teardown or a
      failed send: the gateway has written the challenge and then, for each turn, the next
      frame of welcome and queue, up to a close frame. */
  lemma AttachedSocketIsWritten(before: seq<Label>, mid: seq<Label>, after: seq<Label>)
    requires Run(ACCEPTED, before).phase.AwaitingProof?
    requires Teardown !in mid && AttachEnds(true) !in mid && AttachEnds(false) !in mid
    requires Teardown !in after && Write(false) !in after
    ensures var s := Run(ACCEPTED, before + [ProofArrives(true)] + mid + [AttachEnds(true)] + after);
            var first := [Welcome] + Queued(mid);
            var due := S.UpToClose(first + Queued(after));
            var turns := Taken(first, after);
            && s.attached && s.put == first + Queued(after)
            && s.trace == [Challenge] + due[..if turns < |due| then turns else |due|]
  {
    RunKeepsInv(before);
    var s0 := Run(ACCEPTED, before);
    var s1 := Step(s0, ProofArrives(true));
    var first := [Welcome] + Queued(mid);
    OneStep(s0, ProofArrives(true));
    RunInTwoParts(ACCEPTED, before, [ProofArrives(true)]);
    RunInTwoParts(ACCEPTED, before + [ProofArrives(true)], mid);
    assert [] + [Welcome] == [Welcome];
    WaitsOn(s1, mid);
    var s2 := Run(s1, mid);
    var s3 := Step(s2, AttachEnds(true));
    OneStep(s2, AttachEnds(true));
    RunInTwoParts(ACCEPTED, before + [ProofArrives(true)] + mid, [AttachEnds(true)]);
    RunInTwoParts(ACCEPTED, before + [ProofArrives(true)] + mid + [AttachEnds(true)], after);
    assert Serves(s3, first, 0) by {
      assert first[..0] == [] && first[0..] == first && [Challenge] + [] == [Challenge];
    }
    ServesOn(s3, first, after);
    TraceIsDue(Run(s3, after), first + Queued(after), Taken(first, after));
  }

  lemma TraceIsDue(s: Socket, all: seq<DownFrame>, taken: nat)
    requires Serves(s, all, taken)
    ensures var due := S.UpToClose(all);
            s.trace == [Challenge] + due[..if taken < |due| then taken else |due|]
  {
    if s.phase.Serving? {
      WrittenIsUpToClose(all[..taken], all);
      assert S.UpToClose(all)[..taken] == all[..taken];
    }
  }

  // ---- What the provider reads

  /** Where the provider is tells how much it has read, and it never met a frame it did
      not expect. */
  ghost predicate ReaderInv(s: Socket)
  {
    && s.read <= |s.trace|
    && (s.reader.Connected? || s.reader.SaidHello? ==> s.read == 0)
    && (s.reader.SentProof? ==> s.read == 1)
    && (s.reader.Welcomed? ==> s.read >= 2)
    && (s.reader.Raised? ==> s.reader.unexpected == None)
    && (s.runs != [] ==> s.reader.Welcomed?)
  }

  lemma StepKeepsReaderInv(s: Socket, l: Label)
    requires Inv(s) && Progress(s) && ReaderInv(s)
    ensures ReaderInv(Step(s, l))
  {
    if l.Read? && s.read < |s.trace| && s.read == 1 {
      assert s.trace[1] == s.trace[1..][0] == s.put[0];
    }
  }

  lemma {:induction false} RunKeepsReaderInv(labels: seq<Label>)
    ensures ReaderInv(Run(ACCEPTED, labels))
  {
    if labels != [] {
      RunKeepsReaderInv(labels[..|labels| - 1]);
      RunKeepsInv(labels[..|labels| - 1]);
      StepKeepsReaderInv(Run(ACCEPTED, labels[..|labels| - 1]), labels[|labels| - 1]);
    }
  }

  /** A provider composed with this gateway never raises over a frame it did not expect: in
      particular it never meets a run where it expects the welcome, and every run it has
      read came after the welcome. If it raises, the socket ended or it walked away. */
  lemma HandshakeNeverMeetsARun(labels: seq<Label>)
    ensures var s := Run(ACCEPTED, labels);
            && (s.reader.Raised? ==> s.reader.unexpected == None)
            && (s.reader.Welcomed? ==> 2 <= s.read <= |s.trace| && s.trace[..2] == [Challenge, Welcome] && s.attached)
            && (s.runs != [] ==> s.reader.Welcomed?)
  {
    RunKeepsReaderInv(labels);
    WelcomeFirst(labels);
    var s := Run(ACCEPTED, labels);
    assert s.reader.Welcomed? ==> s.trace[..2] == [s.trace[0], s.trace[1]];
  }

  function RunIds(frames: seq<DownFrame>): seq<RunId>
  {
    if frames == [] then []
    else
      var f := frames[|frames| - 1];
      RunIds(frames[..|frames| - 1]) + if f.Run? then [f.run] else []
  }

  ghost predicate RunsAreRead(s: Socket)
  {
    s.reader.Welcomed? ==> 2 <= s.read <= |s.trace| && s.runs == RunIds(s.trace[2..s.read])
  }

  lemma ReadKeepsRuns(s: Socket, recognised: bool)
    requires ReaderInv(s) && RunsAreRead(s) && s.read < |s.trace|
    ensures RunsAreRead(ReadOne(s, recognised))
  {
    if s.reader.Welcomed? {
      var frames := s.trace[2..s.read + 1];
      assert frames[..|frames| - 1] == s.trace[2..s.read] && frames[|frames| - 1] == s.trace[s.read];
    } else if s.reader.SentProof? {
      assert s.trace[2..2] == [];
    }
  }

  lemma StepKeepsRuns(s: Socket, l: Label)
    requires ReaderInv(s) && RunsAreRead(s)
    ensures RunsAreRead(Step(s, l))
  {
    if l.Read? {
      if s.read < |s.trace| { ReadKeepsRuns(s, l.recognised); }
    } else {
      TraceOnlyGrows(s, l);
      assert s.reader.Welcomed? ==> Step(s, l).trace[2..s.read] == s.trace[2..s.read];
    }
  }

  lemma TraceOnlyGrows(s: Socket, l: Label)
    ensures s.trace <= Step(s, l).trace
    ensures !l.Read? ==> Step(s, l).read == s.read && Step(s, l).runs == s.runs
    ensures !l.Read? ==> (Step(s, l).reader.Welcomed? <==> s.reader.Welcomed?)
  {}

  lemma {:induction false} RunKeepsRuns(labels: seq<Label>)
    ensures RunsAreRead(Run(ACCEPTED, labels))
  {
    if labels != [] {
      RunKeepsRuns(labels[..|labels| - 1]);
      RunKeepsReaderInv(labels[..|labels| - 1]);
      StepKeepsRuns(Run(ACCEPTED, labels[..|labels| - 1]), labels[|labels| - 1]);
    }
  }

  /** The provider gets on with what it reads: the challenge of a souk it recognises is
      answered with a proof, the next frame welcomes it, and from then on it has recorded
      exactly the runs among the frames it has read, in order. */
  lemma ReadingGoesOn(labels: seq<Label>, recognised: bool)
    requires var s := Run(ACCEPTED, labels); s.read < |s.trace|
    ensures var s := Run(ACCEPTED, labels);
            var t := Step(s, Read(recognised));
            && (!s.reader.Connected? && !s.reader.Raised? ==> t.read == s.read + 1)
            && (s.reader.SaidHello? && recognised ==> t.reader == SentProof)
            && (s.reader.SentProof? ==> t.reader == Welcomed)
            && (s.reader.Welcomed? ==> t.reader == Welcomed)
            && (t.reader.Welcomed? ==> 2 <= t.read <= |t.trace| && t.runs == RunIds(t.trace[2..t.read]))
  {
    RunKeepsReaderInv(labels);
    RunKeepsRuns(labels);
    WelcomeFirst(labels);
    ReadKeepsRuns(Run(ACCEPTED, labels), recognised);
    ReadMovesOn(Run(ACCEPTED, labels), recognised);
  }

  lemma ReadMovesOn(s: Socket, recognised: bool)
    requires ReaderInv(s) && s.read < |s.trace|
    requires s.trace[0] == Challenge && (|s.trace| >= 2 ==> s.trace[1] == Welcome)
    ensures var t := ReadOne(s, recognised);
            && t.trace == s.trace && (!s.reader.Connected? && !s.reader.Raised? ==> t.read == s.read + 1)
            && (s.reader.SaidHello? && recognised ==> t.reader == SentProof)
            && (s.reader.SentProof? ==> t.reader == Welcomed)
            && (s.reader.Welcomed? ==> t.reader == Welcomed)
  {}

  /** From the start, when every frame is in order and arrives. */
  lemma OpeningCompletes()
    ensures var s := Run(ACCEPTED, [SayHello, HelloArrives(true), Read(true), ProofArrives(true), AttachEnds(true),
                                    Write(true), Read(true)]);
            s.trace == [Challenge, Welcome] && s.reader == Welcomed && s.phase.Serving?
  {
    var s1 := Step(Step(Step(ACCEPTED, SayHello), HelloArrives(true)), Read(true));
    assert s1 == Socket(AwaitingProof, [], [], [Challenge], false, SentProof, 1, []);
    var s2 := Step(Step(Step(s1, ProofArrives(true)), AttachEnds(true)), Write(true));
    assert s2.trace == [Challenge, Welcome] && s2.reader == SentProof && s2.read == 1 && s2.phase.Serving?;
    var a, b := [SayHello, HelloArrives(true), Read(true)], [ProofArrives(true), AttachEnds(true), Write(true)];
    var c := [Read(true)];
    ThreeSteps(ACCEPTED, a[0], a[1], a[2]);
    ThreeSteps(s1, b[0], b[1], b[2]);
    OneStep(s2, c[0]);
    RunInTwoParts(ACCEPTED, a, b);
    RunInTwoParts(ACCEPTED, a + b, c);
    assert a + b + c == [SayHello, HelloArrives(true), Read(true), ProofArrives(true), AttachEnds(true),
                         Write(true), Read(true)];
  }

  lemma ThreeSteps(s: Socket, a: Label, b: Label, c: Label)
    ensures Run(s, [a, b, c]) == Step(Step(Step(s, a), b), c)
  {
    OneStep(s, a);
    assert [a, b, c][..2] == [a, b] && [a, b][..1] == [a];
    assert Run(s, [a, b]) == Step(Run(s, [a]), b);
  }
}
