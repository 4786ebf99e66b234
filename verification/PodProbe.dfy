/** The pod-probe provider: a read loop, a goroutine per run, one locked writer and a set of
    cancel functions (providers/pod-probe-agent/run.go). */
module PodProbe {
  import opened Wrappers

  type RunId = string

  datatype Frame =
    | Ack(run: RunId, accepted: bool)
    | RunStarted(run: RunId, thread: string)
    | MessageStart(run: RunId)
    | MessageContent(run: RunId, delta: string)
    | MessageEnd(run: RunId)
    | RunFinished(run: RunId, thread: string)
    | Finish(run: RunId)

  // ---- The threads

  /** How far a run's goroutine is: the statement it executes next. */
  datatype Pc =
    | EmitStarted | AwaitAnswer | EmitStart | EmitContent | EmitEnd | EmitFinished | WriteFinish
    | CancelContext | RemoveCancel | Gone

  datatype Job = Job(thread: string, text: string, pc: Pc, cancelled: bool)

  /** The read loop reads only between frames: it may be in the middle of starting a run,
      its ack written, or about to call a cancel function it has looked up. */
  datatype Loop = Reading | Starting(run: RunId, thread: string) | Cancelling(run: RunId) | Returned

  /** `seen` are the run ids read so far. `alive` is false once a write has failed. */
  datatype Probe = Probe(
    loop: Loop, jobs: map<RunId, Job>, cancels: set<RunId>, wire: seq<Frame>, alive: bool, seen: set<RunId>)

  const CONNECTED := Probe(Reading, map[], {}, [], true, {})

  datatype Label =
    | ReadRun(run: RunId, thread: string, parses: bool)
    | StartRun
    | ReadCancel(run: RunId)
    | FireCancel
    | ReadFails
    | Advance(run: RunId, answer: string)
    | WireDies

  function Write(p: Probe, f: Frame): Probe
  {
    if p.alive then p.(wire := p.wire + [f]) else p
  }

  function SetJob(p: Probe, run: RunId, j: Job): Probe
  {
    p.(jobs := p.jobs[run := j])
  }

  /** What a goroutine writes at this statement, if anything. */
  function Emits(run: RunId, j: Job): Option<Frame>
  {
    match j.pc
    case EmitStarted => Some(RunStarted(run, j.thread))
    case EmitStart => Some(MessageStart(run))
    case EmitContent => Some(MessageContent(run, j.text))
    case EmitEnd => Some(MessageEnd(run))
    case EmitFinished => Some(RunFinished(run, j.thread))
    case WriteFinish => Some(Finish(run))
    case _ => None
  }

  function Next(pc: Pc): Pc
  {
    match pc
    case EmitStarted => AwaitAnswer
    case AwaitAnswer => EmitStart
    case EmitStart => EmitContent
    case EmitContent => EmitEnd
    case EmitEnd => EmitFinished
    case EmitFinished => WriteFinish
    case WriteFinish => CancelContext
    case CancelContext => RemoveCancel
    case RemoveCancel => Gone
    case Gone => Gone
  }

  function Moved(j: Job, answer: string): Job
  {
    j.(pc := Next(j.pc), text := if j.pc.AwaitAnswer? then answer else j.text,
       cancelled := j.cancelled || j.pc.CancelContext?)
  }

  /** One statement of one goroutine. Failed writes are ignored, and the run goes on. */
  function AdvanceJob(p: Probe, run: RunId, answer: string): Probe
    requires run in p.jobs
  {
    var j := p.jobs[run];
    var q := if Emits(run, j).Some? then Write(p, Emits(run, j).value) else p;
    SetJob(q, run, Moved(j, answer)).(cancels := if j.pc.RemoveCancel? then p.cancels - {run} else p.cancels)
  }

  /** Run ids are distinct: an id is read at most once. */
  function ReadRunFrame(p: Probe, run: RunId, thread: string, parses: bool): Probe
  {
    var q := Write(p, Ack(run, parses)).(seen := p.seen + {run});
    if parses && p.alive then q.(loop := Starting(run, thread)) else q
  }

  function Step(p: Probe, l: Label): Probe
  {
    match l
    case ReadRun(run, thread, parses) =>
      if p.loop.Reading? && run !in p.seen then ReadRunFrame(p, run, thread, parses) else p
    case StartRun =>
      if p.loop.Starting?
      then SetJob(p, p.loop.run, Job(p.loop.thread, "", EmitStarted, false))
             .(cancels := p.cancels + {p.loop.run}, loop := Reading)
      else p
    case ReadCancel(run) => if p.loop.Reading? && run in p.cancels then p.(loop := Cancelling(run)) else p
    case FireCancel =>
      if p.loop.Cancelling?
      then (if p.loop.run in p.jobs then SetJob(p, p.loop.run, p.jobs[p.loop.run].(cancelled := true)) else p)
             .(loop := Reading)
      else p
    case ReadFails => if p.loop.Reading? then p.(loop := Returned) else p
    case Advance(run, answer) => if run in p.jobs then AdvanceJob(p, run, answer) else p
    case WireDies => p.(alive := false)
  }

  function RunFrom(p: Probe, labels: seq<Label>): Probe
  {
    if labels == [] then p else Step(RunFrom(p, labels[..|labels| - 1]), labels[|labels| - 1])
  }

  function Run(labels: seq<Label>): Probe
  {
    RunFrom(CONNECTED, labels)
  }

  // ---- The wire, run by run

  function OnWire(wire: seq<Frame>, run: RunId): seq<Frame>
  {
    if wire == [] then []
    else OnWire(wire[..|wire| - 1], run) + (if wire[|wire| - 1].run == run then [wire[|wire| - 1]] else [])
  }

  /** Everything an accepted run writes when no write fails. */
  function Script(run: RunId, j: Job): seq<Frame>
  {
    [Ack(run, true), RunStarted(run, j.thread), MessageStart(run), MessageContent(run, j.text), MessageEnd(run),
     RunFinished(run, j.thread), Finish(run)]
  }

  /** How much of the script lies before this statement. */
  function Written(pc: Pc): nat
  {
    match pc
    case EmitStarted => 1
    case AwaitAnswer => 2
    case EmitStart => 2
    case EmitContent => 3
    case EmitEnd => 4
    case EmitFinished => 5
    case WriteFinish => 6
    case _ => 7
  }

  /** `on` is a first part of `script`, no longer than `n`; all of it up to `n` while no
      write has failed. */
  ghost predicate Follows(on: seq<Frame>, script: seq<Frame>, n: nat, alive: bool)
  {
    && on <= script && |on| <= n <= |script|
    && (alive ==> on == script[..n])
  }

  ghost predicate KeepsToScript(p: Probe, run: RunId, j: Job)
  {
    Follows(OnWire(p.wire, run), Script(run, j), Written(j.pc), p.alive)
  }

  ghost predicate IsStarting(p: Probe, run: RunId)
  {
    p.loop.Starting? && p.loop.run == run
  }

  ghost predicate RunInv(p: Probe, run: RunId)
  {
    && (run in p.jobs ==> run in p.seen && KeepsToScript(p, run, p.jobs[run]))
    && (IsStarting(p, run) ==> run in p.seen && run !in p.jobs && OnWire(p.wire, run) == [Ack(run, true)])
    && (run !in p.seen ==> OnWire(p.wire, run) == [])
    && (run in p.seen && run !in p.jobs && !IsStarting(p, run) ==>
          OnWire(p.wire, run) == [] || OnWire(p.wire, run) == [Ack(run, false)])
    && (run in p.cancels <==> run in p.jobs && !p.jobs[run].pc.Gone?)
    && (p.loop.Cancelling? && p.loop.run == run ==> run in p.jobs)
  }

  lemma WriteReaches(wire: seq<Frame>, f: Frame, run: RunId)
    ensures OnWire(wire + [f], run) == OnWire(wire, run) + if f.run == run then [f] else []
  {
    assert (wire + [f])[..|wire + [f]| - 1] == wire;
  }

  lemma OneMore(on: seq<Frame>, script: seq<Frame>, n: nat, alive: bool, f: Frame)
    requires Follows(on, script, n, alive) && n < |script| && script[n] == f
    ensures Follows(if alive then on + [f] else on, script, n + 1, alive)
  {
    assert script[..n + 1] == script[..n] + [f];
  }

  lemma AnotherEnding(on: seq<Frame>, script: seq<Frame>, other: seq<Frame>, n: nat, alive: bool)
    requires Follows(on, script, n, alive) && n <= |other| && script[..n] == other[..n]
    ensures Follows(on, other, n, alive)
  {
    assert forall i :: 0 <= i < |on| ==> on[i] == script[i] == script[..n][i] == other[..n][i] == other[i];
  }

  /** Each statement emits the next frame of the script, or none. */
  lemma EmitsInOrder(run: RunId, j: Job, answer: string)
    ensures var n, k := Written(j.pc), Moved(j, answer);
            && n <= 7
            && (Emits(run, j).Some? ==>
                  n < 7 && Emits(run, j).value == Script(run, j)[n] && Script(run, k) == Script(run, j)
                  && Written(k.pc) == n + 1)
            && (Emits(run, j).None? ==> Written(k.pc) == n && Script(run, k)[..n] == Script(run, j)[..n])
  {}

  lemma EmitsOnlyItsOwn(run: RunId, j: Job)
    ensures Emits(run, j).Some? ==> Emits(run, j).value.run == run
  {}

  lemma EmitKeepsToScript(p: Probe, run: RunId, answer: string)
    requires run in p.jobs && KeepsToScript(p, run, p.jobs[run])
    ensures KeepsToScript(AdvanceJob(p, run, answer), run, Moved(p.jobs[run], answer))
  {
    var j := p.jobs[run];
    EmitsInOrder(run, j, answer);
    if Emits(run, j).Some? {
      var f := Emits(run, j).value;
      EmitsOnlyItsOwn(run, j);
      WriteReaches(p.wire, f, run);
      OneMore(OnWire(p.wire, run), Script(run, j), Written(j.pc), p.alive, f);
    } else {
      AnotherEnding(OnWire(p.wire, run), Script(run, j), Script(run, Moved(j, answer)), Written(j.pc), p.alive);
    }
  }

  lemma OthersSeeNothing(p: Probe, mover: RunId, answer: string, run: RunId)
    requires mover in p.jobs && mover != run
    ensures OnWire(AdvanceJob(p, mover, answer).wire, run) == OnWire(p.wire, run)
  {
    if Emits(mover, p.jobs[mover]).Some? {
      EmitsOnlyItsOwn(mover, p.jobs[mover]);
      WriteReaches(p.wire, Emits(mover, p.jobs[mover]).value, run);
    }
  }

  lemma AdvanceKeepsInv(p: Probe, mover: RunId, answer: string, run: RunId)
    requires RunInv(p, run) && RunInv(p, mover) && mover in p.jobs
    ensures RunInv(AdvanceJob(p, mover, answer), run)
  {
    if mover == run {
      EmitKeepsToScript(p, run, answer);
    } else {
      OthersSeeNothing(p, mover, answer, run);
    }
  }

  lemma ReadRunKeepsInv(p: Probe, started: RunId, thread: string, parses: bool, run: RunId)
    requires RunInv(p, run) && p.loop.Reading? && started !in p.seen
    ensures RunInv(ReadRunFrame(p, started, thread, parses), run)
  {
    WriteReaches(p.wire, Ack(started, parses), run);
  }

  lemma StartRunKeepsInv(p: Probe, run: RunId)
    requires RunInv(p, run) && p.loop.Starting?
    ensures RunInv(Step(p, StartRun), run)
  {
    if IsStarting(p, run) {
      var j := Job(p.loop.thread, "", EmitStarted, false);
      assert Script(run, j)[..1] == [Ack(run, true)];
      assert OnWire(p.wire, run) <= Script(run, j);
    }
  }

  lemma StepKeepsInv(p: Probe, l: Label, run: RunId)
    requires forall r :: RunInv(p, r)
    ensures RunInv(Step(p, l), run)
  {
    assert RunInv(p, run);
    match l
    case ReadRun(r, thread, parses) =>
      if p.loop.Reading? && r !in p.seen { ReadRunKeepsInv(p, r, thread, parses, run); }
    case StartRun => if p.loop.Starting? { StartRunKeepsInv(p, run); }
    case Advance(r, answer) => if r in p.jobs { AdvanceKeepsInv(p, r, answer, run); }
    case FireCancel =>
      if p.loop.Cancelling? && run == p.loop.run {
        assert Script(run, p.jobs[run].(cancelled := true)) == Script(run, p.jobs[run]);
      }
    case _ =>
  }

  lemma {:induction false} RunKeepsInv(labels: seq<Label>)
    ensures forall run :: RunInv(Run(labels), run)
  {
    if labels != [] {
      RunKeepsInv(labels[..|labels| - 1]);
      forall run ensures RunInv(Run(labels), run) {
        StepKeepsInv(Run(labels[..|labels| - 1]), labels[|labels| - 1], run);
      }
    }
  }

  /** Under any schedule of the goroutines: what the wire carries of one run is the first
      part of ack, RUN_STARTED, the three message events, RUN_FINISHED, finish. A finish is
      only ever the last of these, so there is at most one; and once the goroutine is past
      it, there is exactly one unless a write has failed. */
  lemma WireRestrictedToARun(labels: seq<Label>, run: RunId)
    requires run in Run(labels).jobs
    ensures var p := Run(labels);
            var j := p.jobs[run];
            var on := OnWire(p.wire, run);
            && on <= Script(run, j)
            && (forall i :: 0 <= i < |on| && on[i].Finish? ==> i == 6)
            && (p.alive && Written(j.pc) == 7 ==> on == Script(run, j))
  {
    RunKeepsInv(labels);
    assert RunInv(Run(labels), run);
  }

  /** A run that was not accepted leaves at most a declining ack. */
  lemma RunsNeverStartedSayNothing(labels: seq<Label>, run: RunId)
    requires var p := Run(labels); run !in p.jobs && !IsStarting(p, run)
    ensures OnWire(Run(labels).wire, run) == [] || OnWire(Run(labels).wire, run) == [Ack(run, false)]
  {
    RunKeepsInv(labels);
    assert RunInv(Run(labels), run);
  }

  // ---- What the frames say

  /** Step `i` reads this run's frame and accepts it. */
  ghost predicate Accepts(labels: seq<Label>, i: nat, run: RunId, thread: string)
  {
    i < |labels| && labels[i] == ReadRun(run, thread, true)
    && var p := Run(labels[..i]); p.loop.Reading? && run !in p.seen && p.alive
  }

  /** At step `i` the probe answers this run with `d`. */
  ghost predicate Answers(labels: seq<Label>, i: nat, run: RunId, d: string)
  {
    i < |labels| && labels[i] == Advance(run, d)
    && var p := Run(labels[..i]); run in p.jobs && p.jobs[run].pc.AwaitAnswer?
  }

  predicate IsAnswered(pc: Pc)
  {
    !pc.EmitStarted? && !pc.AwaitAnswer?
  }

  lemma StepKeepsThread(p: Probe, l: Label, run: RunId)
    ensures var q := Step(p, l);
            && (run in q.jobs ==>
                  (run in p.jobs && q.jobs[run].thread == p.jobs[run].thread)
                  || (IsStarting(p, run) && q.jobs[run].thread == p.loop.thread))
            && (IsStarting(q, run) ==>
                  (IsStarting(p, run) && q.loop == p.loop)
                  || (l == ReadRun(run, q.loop.thread, true) && p.loop.Reading? && run !in p.seen && p.alive))
  {}

  lemma StepKeepsText(p: Probe, l: Label, run: RunId)
    ensures var q := Step(p, l);
            run in q.jobs && IsAnswered(q.jobs[run].pc) ==>
              && run in p.jobs
              && ((IsAnswered(p.jobs[run].pc) && q.jobs[run].text == p.jobs[run].text)
                  || (p.jobs[run].pc.AwaitAnswer? && l == Advance(run, q.jobs[run].text)))
  {}

  lemma {:induction false} ThreadIsTheRuns(labels: seq<Label>, run: RunId)
    ensures run in Run(labels).jobs ==> exists i: nat :: Accepts(labels, i, run, Run(labels).jobs[run].thread)
    ensures IsStarting(Run(labels), run) ==> exists i: nat :: Accepts(labels, i, run, Run(labels).loop.thread)
  {
    if labels != [] {
      var n := |labels| - 1;
      ThreadIsTheRuns(labels[..n], run);
      StepKeepsThread(Run(labels[..n]), labels[n], run);
      forall i: nat, t | Accepts(labels[..n], i, run, t) ensures Accepts(labels, i, run, t) {
        assert labels[..n][..i] == labels[..i];
      }
      if IsStarting(Run(labels), run) && !IsStarting(Run(labels[..n]), run) {
        assert Accepts(labels, n, run, Run(labels).loop.thread);
      }
    }
  }

  lemma {:induction false} TextIsTheAnswer(labels: seq<Label>, run: RunId)
    requires run in Run(labels).jobs && IsAnswered(Run(labels).jobs[run].pc)
    ensures exists i: nat :: Answers(labels, i, run, Run(labels).jobs[run].text)
  {
    if labels != [] {
      var n := |labels| - 1;
      var p := Run(labels[..n]);
      StepKeepsText(p, labels[n], run);
      if IsAnswered(p.jobs[run].pc) {
        TextIsTheAnswer(labels[..n], run);
        var i: nat :| Answers(labels[..n], i, run, p.jobs[run].text);
        assert labels[..n][..i] == labels[..i];
        assert Answers(labels, i, run, Run(labels).jobs[run].text);
      } else {
        assert Answers(labels, n, run, Run(labels).jobs[run].text);
      }
    }
  }

  lemma {:induction false} OnWireHasItsFrames(wire: seq<Frame>, f: Frame)
    requires f in wire
    ensures f in OnWire(wire, f.run)
  {
    var n := |wire| - 1;
    if f != wire[n] {
      OnWireHasItsFrames(wire[..n], f);
    }
  }

  lemma InScript(run: RunId, j: Job, on: seq<Frame>, f: Frame)
    requires on <= Script(run, j) && |on| <= Written(j.pc) && f in on
    ensures f.MessageContent? ==> f.delta == j.text && IsAnswered(j.pc)
    ensures f.RunStarted? || f.RunFinished? ==> f.thread == j.thread
  {
    var i :| 0 <= i < |on| && on[i] == f;
    assert f == Script(run, j)[i];
  }

  /** Under any schedule: the content that goes out is what the probe answered that run
      with, and the thread named at its start and its end is the one of its run frame. */
  lemma FramesSayWhatTheRunSaid(labels: seq<Label>, f: Frame)
    requires f in Run(labels).wire
    ensures f.MessageContent? ==> exists i: nat :: Answers(labels, i, f.run, f.delta)
    ensures f.RunStarted? || f.RunFinished? ==> exists i: nat :: Accepts(labels, i, f.run, f.thread)
  {
    var p := Run(labels);
    RunKeepsInv(labels);
    assert RunInv(p, f.run);
    OnWireHasItsFrames(p.wire, f);
    if f.run in p.jobs {
      InScript(f.run, p.jobs[f.run], OnWire(p.wire, f.run), f);
      ThreadIsTheRuns(labels, f.run);
      if f.MessageContent? {
        TextIsTheAnswer(labels, f.run);
      }
    }
  }

  // ---- Every accepted run is run

  lemma {:induction false} RunInTwoParts(p: Probe, first: seq<Label>, more: seq<Label>)
    ensures RunFrom(p, first + more) == RunFrom(RunFrom(p, first), more)
  {
    var all := first + more;
    if more == [] {
      assert all == first;
    } else {
      var n := |more| - 1;
      RunInTwoParts(p, first, more[..n]);
      assert all[..|all| - 1] == first + more[..n] && all[|all| - 1] == more[n];
    }
  }

  /** How many statements of this run's goroutine a schedule has. */
  function Turns(labels: seq<Label>, run: RunId): nat
  {
    if labels == [] then 0
    else
      var l := labels[|labels| - 1];
      Turns(labels[..|labels| - 1], run) + if l.Advance? && l.run == run then 1 else 0
  }

  function NextAfter(pc: Pc, turns: nat): Pc
  {
    if turns == 0 then pc else Next(NextAfter(pc, turns - 1))
  }

  lemma {:induction false} StartingIsKept(p: Probe, mid: seq<Label>)
    requires p.loop.Starting? && StartRun !in mid
    ensures RunFrom(p, mid).loop == p.loop
    ensures RunFrom(p, mid).alive <==> p.alive && WireDies !in mid
  {
    if mid != [] {
      var n := |mid| - 1;
      StartingIsKept(p, mid[..n]);
      assert mid == mid[..n] + [mid[n]];
    }
  }

  /** One step as a goroutine sees it: its own turn, or nothing. */
  lemma GoroutineSteps(p: Probe, run: RunId, l: Label)
    requires run in p.jobs && run in p.seen && !IsStarting(p, run)
    ensures var q := Step(p, l);
            && run in q.jobs && run in q.seen && !IsStarting(q, run)
            && q.jobs[run].thread == p.jobs[run].thread
            && q.jobs[run].pc == (if l.Advance? && l.run == run then Next(p.jobs[run].pc) else p.jobs[run].pc)
            && (q.alive <==> p.alive && !l.WireDies?)
  {}

  lemma {:induction false} GoroutineMovesOn(p: Probe, run: RunId, more: seq<Label>)
    requires run in p.jobs && run in p.seen && !IsStarting(p, run)
    ensures var q := RunFrom(p, more);
            && run in q.jobs && run in q.seen && !IsStarting(q, run)
            && q.jobs[run].thread == p.jobs[run].thread
            && q.jobs[run].pc == NextAfter(p.jobs[run].pc, Turns(more, run))
            && (q.alive <==> p.alive && WireDies !in more)
  {
    if more != [] {
      var n := |more| - 1;
      GoroutineMovesOn(p, run, more[..n]);
      GoroutineSteps(RunFrom(p, more[..n]), run, more[n]);
      assert more == more[..n] + [more[n]];
    }
  }

  lemma {:induction false} SevenTurnsWriteAll(turns: nat)
    requires turns >= 7
    ensures Written(NextAfter(EmitStarted, turns)) == 7 && IsAnswered(NextAfter(EmitStarted, turns))
  {
    if turns == 7 {
      assert NextAfter(EmitStarted, 4) == EmitEnd;
      assert NextAfter(EmitStarted, 7) == CancelContext;
    } else {
      SevenTurnsWriteAll(turns - 1);
    }
  }

  /** From any state in which the loop reads and no write has failed: a fresh run frame,
      whatever steps come before its goroutine starts, and any schedule that gives the
      goroutine seven turns while no write fails. The wire carries the run whole: ack,
      start, the probe's answer, finish. */
  lemma AcceptedRunIsAnswered(labels: seq<Label>, run: RunId, thread: string, mid: seq<Label>, more: seq<Label>)
      returns (d: string, i: nat)
    requires var p := Run(labels); p.loop.Reading? && run !in p.seen && p.alive
    requires StartRun !in mid && WireDies !in mid && WireDies !in more && Turns(more, run) >= 7
    ensures var all := labels + ([ReadRun(run, thread, true)] + mid + [StartRun]) + more;
            && Answers(all, i, run, d)
            && OnWire(Run(all).wire, run) ==
                 [Ack(run, true), RunStarted(run, thread), MessageStart(run), MessageContent(run, d), MessageEnd(run),
                  RunFinished(run, thread), Finish(run)]
  {
    var all := labels + ([ReadRun(run, thread, true)] + mid + [StartRun]) + more;
    var q := JobStarts(labels, run, thread, mid);
    RunInTwoParts(CONNECTED, labels + ([ReadRun(run, thread, true)] + mid + [StartRun]), more);
    GoroutineMovesOn(q, run, more);
    SevenTurnsWriteAll(Turns(more, run));
    RunKeepsInv(all);
    assert RunInv(Run(all), run);
    d := Run(all).jobs[run].text;
    TextIsTheAnswer(all, run);
    i :| Answers(all, i, run, d);
  }

  lemma JobStarts(labels: seq<Label>, run: RunId, thread: string, mid: seq<Label>) returns (q: Probe)
    requires var p := Run(labels); p.loop.Reading? && run !in p.seen && p.alive
    requires StartRun !in mid && WireDies !in mid
    ensures q == Run(labels + ([ReadRun(run, thread, true)] + mid + [StartRun]))
    ensures q.loop.Reading? && q.alive && run in q.seen && run in q.cancels
    ensures run in q.jobs && q.jobs[run] == Job(thread, "", EmitStarted, false)
  {
    var p1 := Step(Run(labels), ReadRun(run, thread, true));
    var one := [ReadRun(run, thread, true)];
    RunInTwoParts(CONNECTED, labels, one + mid + [StartRun]);
    RunInTwoParts(Run(labels), one + mid, [StartRun]);
    RunInTwoParts(Run(labels), one, mid);
    OneStep(Run(labels), one[0]);
    StartingIsKept(p1, mid);
    OneStep(RunFrom(p1, mid), StartRun);
    q := Run(labels + (one + mid + [StartRun]));
    RunKeepsInv(labels + (one + mid + [StartRun]));
    assert RunInv(q, run);
  }

  lemma OneStep(p: Probe, l: Label)
    ensures RunFrom(p, [l]) == Step(p, l)
  {
    assert [l][..|[l]| - 1] == [] && RunFrom(p, []) == p;
  }

  lemma NothingIsSaid(p: Probe, run: RunId, l: Label)
    requires run in p.seen && run !in p.jobs && !IsStarting(p, run)
    ensures var q := Step(p, l);
            run in q.seen && run !in q.jobs && !IsStarting(q, run) && OnWire(q.wire, run) == OnWire(p.wire, run)
  {
    if l.Advance? && l.run in p.jobs {
      OthersSeeNothing(p, l.run, l.answer, run);
    } else if l.ReadRun? {
      WriteReaches(p.wire, Ack(l.run, l.parses), run);
    }
  }

  lemma {:induction false} NothingMoreIsSaid(p: Probe, run: RunId, more: seq<Label>)
    requires run in p.seen && run !in p.jobs && !IsStarting(p, run)
    ensures var q := RunFrom(p, more);
            run in q.seen && run !in q.jobs && !IsStarting(q, run) && OnWire(q.wire, run) == OnWire(p.wire, run)
  {
    if more != [] {
      NothingMoreIsSaid(p, run, more[..|more| - 1]);
      NothingIsSaid(RunFrom(p, more[..|more| - 1]), run, more[|more| - 1]);
    }
  }

  /** A run frame that does not parse is told so, and nothing else is ever said of it. */
  lemma UnparsedRunIsDeclined(labels: seq<Label>, run: RunId, thread: string, more: seq<Label>)
    requires var p := Run(labels); p.loop.Reading? && run !in p.seen && p.alive
    ensures OnWire(Run(labels + [ReadRun(run, thread, false)] + more).wire, run) == [Ack(run, false)]
  {
    var l := ReadRun(run, thread, false);
    RunKeepsInv(labels);
    assert RunInv(Run(labels), run);
    RunInTwoParts(CONNECTED, labels + [l], more);
    RunInTwoParts(CONNECTED, labels, [l]);
    OneStep(Run(labels), l);
    WriteReaches(Run(labels).wire, Ack(run, false), run);
    NothingMoreIsSaid(Step(Run(labels), l), run, more);
  }

  // ---- Cancels

  /** Between the lookup and the call the read loop does nothing else, so a looked-up cancel
      outlasts whatever the goroutines and the wire do. */
  lemma {:induction false} LookedUpCancelIsKept(p: Probe, mid: seq<Label>)
    requires p.loop.Cancelling? && p.loop.run in p.jobs && FireCancel !in mid
    ensures RunFrom(p, mid).loop == p.loop && p.loop.run in RunFrom(p, mid).jobs
  {
    if mid != [] {
      var n := |mid| - 1;
      LookedUpCancelIsKept(p, mid[..n]);
      assert mid[n] in mid;
    }
  }

  /** The cancel map holds exactly the runs that were started and not yet removed. So a
      cancel read after its run frame finds its run for as long as that runs; and whatever
      steps `mid` come between the lookup and the call, the call cancels that run and
      changes no other. A cancel for any other id changes nothing. */
  lemma CancelReachesItsRunAndNoOther(labels: seq<Label>, run: RunId, mid: seq<Label>)
    requires Run(labels).loop.Reading? && FireCancel !in mid
    ensures var p := Run(labels);
            var q := RunFrom(Step(p, ReadCancel(run)), mid);
            var r := Step(q, FireCancel);
            && (run in p.cancels <==> run in p.jobs && !p.jobs[run].pc.Gone?)
            && (run in p.cancels ==>
                  q.loop == Cancelling(run) && run in q.jobs
                  && r == q.(loop := Reading, jobs := q.jobs[run := q.jobs[run].(cancelled := true)]))
            && (run !in p.cancels ==> Step(p, ReadCancel(run)) == p)
  {
    RunKeepsInv(labels);
    var p := Run(labels);
    assert RunInv(p, run);
    if run in p.cancels {
      LookedUpCancelIsKept(Step(p, ReadCancel(run)), mid);
    }
  }

  /** A run that is still working has been cancelled only if a cancel naming it was read. */
  lemma {:induction false} CancelledOnlyByItsOwnCancel(labels: seq<Label>, run: RunId)
    ensures var p := Run(labels);
            && (run in p.jobs && p.jobs[run].cancelled && Written(p.jobs[run].pc) < 7 ==> ReadCancel(run) in labels)
            && (p.loop == Cancelling(run) ==> ReadCancel(run) in labels)
  {
    if labels != [] {
      var n := |labels| - 1;
      CancelledOnlyByItsOwnCancel(labels[..n], run);
      assert labels == labels[..n] + [labels[n]];
    }
  }

  // ---- The set of cancel functions

  class RunContext {
    /** Tells contexts apart in proofs. */
    ghost const run: RunId
    var cancelled: bool

    constructor (ghost run: RunId)
      ensures this.run == run && !cancelled
    {
      this.run := run;
      cancelled := false;
    }
  }

  /** The map behind the mutex, beside the run it belongs to. */
  class CancelSet {
    var m: map<RunId, RunContext>

    /** Every context ever made: a goroutine keeps hold of its own to the end. */
    ghost var issued: map<RunId, RunContext>
    ghost var probe: Probe

    ghost predicate Valid()
      reads this, issued.Values
    {
      && m.Keys == probe.cancels && m.Keys <= issued.Keys == probe.jobs.Keys
      && (forall r :: r in m ==> m[r] == issued[r])
      && (forall r :: r in issued ==> issued[r].run == r && issued[r].cancelled == probe.jobs[r].cancelled)
    }

    constructor ()
      ensures Valid() && probe == CONNECTED && issued == map[]
    {
      m := map[];
      issued := map[];
      probe := CONNECTED;
    }

    /** The read loop starts the run it has acknowledged. */
    method Add(run: RunId, c: RunContext)
      requires Valid() && probe.loop.Starting? && probe.loop.run == run && run !in issued
      requires c.run == run && !c.cancelled
      modifies this
      ensures Valid() && probe == Step(old(probe), StartRun) && issued == old(issued)[run := c]
    {
      m := m[run := c];
      issued := issued[run := c];
      probe := Step(probe, StartRun);
    }

    /** A goroutine's last act. */
    method Remove(run: RunId)
      requires Valid() && run in probe.jobs && probe.jobs[run].pc.RemoveCancel?
      modifies this
      ensures Valid() && probe == Step(old(probe), Advance(run, "")) && issued == old(issued)
    {
      m := m - {run};
      probe := Step(probe, Advance(run, ""));
    }

    /** `cancel`, up to the call it ends with. */
    method Lookup(run: RunId) returns (c: Option<RunContext>)
      requires Valid() && probe.loop.Reading?
      modifies this`probe
      ensures Valid() && probe == Step(old(probe), ReadCancel(run))
      ensures c == if run in m then Some(issued[run]) else None
    {
      c := if run in m then Some(m[run]) else None;
      probe := Step(probe, ReadCancel(run));
    }

    /** The call: this run's context is cancelled, every other run's is as it was. */
    method Fire(c: RunContext)
      requires Valid() && probe.loop.Cancelling? && probe.loop.run in issued && c == issued[probe.loop.run]
      modifies this`probe, c
      ensures Valid() && probe == Step(old(probe), FireCancel)
    {
      c.cancelled := true;
      probe := Step(probe, FireCancel);
    }
  }

  // ---- The question

  datatype Part = Part(kind: string, text: string)

  /** `content` is a string, an array of parts, or something else. */
  datatype Content = Text(text: string) | Parts(parts: seq<Part>) | Unreadable

  datatype Message = Message(role: string, content: Content)

  function Concat(parts: seq<Part>): string
  {
    if parts == [] then "" else Concat(parts[..|parts| - 1]) + parts[|parts| - 1].text
  }

  /** The parts' texts are put together in the order of the parts. */
  lemma {:induction false} PartsKeepTheirOrder(a: seq<Part>, b: seq<Part>, p: Part)
    ensures Concat(a + b) == Concat(a) + Concat(b) && Concat([p]) == p.text
  {
    assert [p][..|[p]| - 1] == [] && Concat([]) + p.text == p.text;
    if b == [] {
      assert a + b == a;
    } else {
      var n := |b| - 1;
      PartsKeepTheirOrder(a, b[..n], p);
      assert (a + b)[..|a + b| - 1] == a + b[..n];
    }
  }

  function TextOf(c: Content): string
  {
    match c
    case Text(t) => t
    case Parts(ps) => Concat(ps)
    case Unreadable => ""
  }

  method ContentText(c: Content) returns (r: string)
    ensures r == TextOf(c)
  {
    if c.Text? {
      return c.text;
    }
    if c.Unreadable? {
      return "";
    }
    var ps := c.parts;
    var b, i := "", 0;
    while i < |ps|
      invariant i <= |ps| && b == Concat(ps[..i])
    {
      assert ps[..i + 1][..|ps[..i + 1]| - 1] == ps[..i];
      if ps[i].text != "" {
        b := b + ps[i].text;
      }
      i := i + 1;
    }
    assert ps[..i] == ps;
    return b;
  }

  /** The caller's question is the text of the last message of the user, if there is one. */
  method ExtractQuestion(messages: seq<Message>) returns (question: string)
    ensures forall k :: 0 <= k < |messages| && messages[k].role == "user"
                    && (forall j :: k < j < |messages| ==> messages[j].role != "user")
                    ==> question == TextOf(messages[k].content)
    ensures (forall k :: 0 <= k < |messages| ==> messages[k].role != "user") ==> question == ""
  {
    var i := |messages|;
    while i > 0
      invariant 0 <= i <= |messages|
      invariant forall j :: i <= j < |messages| ==> messages[j].role != "user"
    {
      i := i - 1;
      if messages[i].role == "user" {
        question := ContentText(messages[i].content);
        return;
      }
    }
    return "";
  }
}
