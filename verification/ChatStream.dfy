/** An OpenAI-compatible stream translated into AG-UI events
    (providers/openai-compat-agent/openai_compat_agent/main.py). */
module ChatStream {
  import opened Wrappers

  // ---- What comes from upstream

  /** One choice of a chunk; `Broken` is one whose reading raises. */
  datatype Choice = Content(content: string) | NoContent | Broken(why: string)

  datatype Sse = Done | Chunk(choices: seq<Choice>) | Garbled(why: string)

  /** The events the server sends, how its stream ends, and whether closing the connection
      raises; `None` where nothing is raised. */
  datatype Upstream = Upstream(items: seq<Sse>, breaks: Option<string>, closeFails: Option<string>)

  /** What is read until `[DONE]`, the end of the stream or the first failure: the content
      that is not empty, in order, and the failure if there is one. */
  datatype Reading = Reading(deltas: seq<string>, failure: Option<string>)

  function Then(deltas: seq<string>, r: Reading): Reading
  {
    r.(deltas := deltas + r.deltas)
  }

  function ReadChoices(choices: seq<Choice>): Reading
  {
    if choices == [] then Reading([], None)
    else
      match choices[0]
      case Broken(why) => Reading([], Some(why))
      case NoContent => ReadChoices(choices[1..])
      case Content(c) => if c == "" then ReadChoices(choices[1..]) else Then([c], ReadChoices(choices[1..]))
  }

  function ReadItems(items: seq<Sse>, breaks: Option<string>, closeFails: Option<string>): Reading
  {
    if items == [] then Reading([], if breaks.Some? then breaks else closeFails)
    else
      match items[0]
      case Done => Reading([], closeFails)
      case Garbled(why) => Reading([], Some(why))
      case Chunk(choices) =>
        var r := ReadChoices(choices);
        if r.failure.Some? then r else Then(r.deltas, ReadItems(items[1..], breaks, closeFails))
  }

  function Read(up: Upstream): Reading
  {
    ReadItems(up.items, up.breaks, up.closeFails)
  }

  /** A choice whose reading raises, none before it doing so. */
  predicate BreaksAt(choices: seq<Choice>, j: nat)
  {
    j < |choices| && choices[j].Broken? && forall k :: 0 <= k < j ==> !choices[k].Broken?
  }

  predicate IsWhole(item: Sse)
  {
    item.Chunk? && forall k :: 0 <= k < |item.choices| ==> !item.choices[k].Broken?
  }

  lemma {:induction false} FirstBrokenChoiceFails(choices: seq<Choice>, j: nat)
    requires BreaksAt(choices, j)
    ensures ReadChoices(choices).failure == Some(choices[j].why)
  {
    if j > 0 {
      FirstBrokenChoiceFails(choices[1..], j - 1);
    }
  }

  lemma {:induction false} WholeChoicesDoNotFail(choices: seq<Choice>)
    requires forall k :: 0 <= k < |choices| ==> !choices[k].Broken?
    ensures ReadChoices(choices).failure == None
  {
    if choices != [] {
      WholeChoicesDoNotFail(choices[1..]);
    }
  }

  /** What ends the reading: the first event that is no whole chunk, or the end of the
      stream. It fails with what raised there, or with what closing the connection raises. */
  lemma {:induction false} ReadingEndsWhereItMust(
    items: seq<Sse>, breaks: Option<string>, closeFails: Option<string>, i: nat)
    requires i <= |items| && forall k :: 0 <= k < i ==> IsWhole(items[k])
    ensures var failure := ReadItems(items, breaks, closeFails).failure;
            && (i == |items| ==> failure == if breaks.Some? then breaks else closeFails)
            && (i < |items| && items[i].Done? ==> failure == closeFails)
            && (i < |items| && items[i].Garbled? ==> failure == Some(items[i].why))
            && (forall j: nat :: i < |items| && items[i].Chunk? && BreaksAt(items[i].choices, j) ==>
                  failure == Some(items[i].choices[j].why))
  {
    if i > 0 {
      assert IsWhole(items[0]);
      WholeChoicesDoNotFail(items[0].choices);
      ReadingEndsWhereItMust(items[1..], breaks, closeFails, i - 1);
    } else if items != [] && items[0].Chunk? {
      forall j: nat | BreaksAt(items[0].choices, j)
        ensures ReadChoices(items[0].choices).failure == Some(items[0].choices[j].why)
      {
        FirstBrokenChoiceFails(items[0].choices, j);
      }
    }
  }

  // ---- What goes to souk

  datatype Event =
    | RunStarted(thread: string, run: string)
    | MessageStart(message: string)
    | MessageContent(message: string, delta: string)
    | MessageEnd(message: string)
    | RunFinished(thread: string, run: string)
    | RunError(why: string)

  function MessageId(run: string): string
  {
    run + "-reply"
  }

  /** The events up to and including these deltas. */
  function Telling(thread: string, run: string, deltas: seq<string>): seq<Event>
  {
    if deltas == [] then [RunStarted(thread, run)]
    else
      var n := |deltas| - 1;
      Telling(thread, run, deltas[..n]) + Delta(run, n == 0, deltas[n])
  }

  function Delta(run: string, first: bool, d: string): seq<Event>
  {
    (if first then [MessageStart(MessageId(run))] else []) + [MessageContent(MessageId(run), d)]
  }

  function Ending(thread: string, run: string, r: Reading): seq<Event>
  {
    if r.failure.Some? then [RunError("upstream call failed: " + r.failure.value)]
    else (if r.deltas == [] then [] else [MessageEnd(MessageId(run))]) + [RunFinished(thread, run)]
  }

  /** The translation, said at once: first everything is read, then it is told. */
  function Translation(thread: string, run: string, r: Reading): seq<Event>
  {
    Telling(thread, run, r.deltas) + Ending(thread, run, r)
  }

  lemma OneMoreDelta(thread: string, run: string, deltas: seq<string>, d: string)
    ensures Telling(thread, run, deltas + [d]) == Telling(thread, run, deltas) + Delta(run, deltas == [], d)
  {
    assert (deltas + [d])[..|deltas + [d]| - 1] == deltas;
  }

  lemma OneMoreChoice(heard: seq<string>, choices: seq<Choice>, i: nat)
    requires i <= |choices|
    ensures var here := Then(heard, ReadChoices(choices[i..]));
            if i == |choices| then here == Reading(heard, None)
            else match choices[i]
                 case Broken(why) => here == Reading(heard, Some(why))
                 case NoContent => here == Then(heard, ReadChoices(choices[i + 1..]))
                 case Content(c) => here == Then(if c == "" then heard else heard + [c], ReadChoices(choices[i + 1..]))
  {
    assert heard + [] == heard;
    if i < |choices| {
      assert choices[i..][1..] == choices[i + 1..];
      if choices[i].Content? {
        var rest := ReadChoices(choices[i + 1..]).deltas;
        assert heard + ([choices[i].content] + rest) == heard + [choices[i].content] + rest;
      }
    }
  }

  lemma OneMoreItem(heard: seq<string>, up: Upstream, i: nat)
    requires i <= |up.items|
    ensures var here := Then(heard, ReadItems(up.items[i..], up.breaks, up.closeFails));
            if i == |up.items| then here == Reading(heard, if up.breaks.Some? then up.breaks else up.closeFails)
            else match up.items[i]
                 case Done => here == Reading(heard, up.closeFails)
                 case Garbled(why) => here == Reading(heard, Some(why))
                 case Chunk(choices) =>
                   var r := ReadChoices(choices);
                   here == if r.failure.Some? then Then(heard, r)
                           else Then(heard + r.deltas, ReadItems(up.items[i + 1..], up.breaks, up.closeFails))
  {
    assert heard + [] == heard;
    if i < |up.items| {
      assert up.items[i..][1..] == up.items[i + 1..];
      if up.items[i].Chunk? {
        var r := ReadChoices(up.items[i].choices);
        var rest := ReadItems(up.items[i + 1..], up.breaks, up.closeFails).deltas;
        assert heard + (r.deltas + rest) == heard + r.deltas + rest;
      }
    }
  }

  /** One chunk: its deltas are yielded as they are met, opening the message before the
      first. */
  method YieldChunk(thread: string, run: string, choices: seq<Choice>, yielded: seq<Event>, started: bool,
                    ghost before: seq<string>)
    returns (events: seq<Event>, started': bool, failure: Option<string>)
    requires yielded == Telling(thread, run, before) && (started <==> before != [])
    ensures var r := ReadChoices(choices);
            && failure == r.failure
            && (started' <==> before + r.deltas != [])
            && events == Telling(thread, run, before + r.deltas)
  {
    events, started', failure := yielded, started, None;
    ghost var heard := before;
    var i := 0;
    assert choices[0..] == choices;
    while i < |choices|
      invariant i <= |choices| && failure == None
      invariant started' <==> heard != []
      invariant events == Telling(thread, run, heard)
      invariant Then(heard, ReadChoices(choices[i..])) == Then(before, ReadChoices(choices))
    {
      OneMoreChoice(heard, choices, i);
      match choices[i] {
        case Broken(why) =>
          failure := Some(why);
          return;
        case NoContent =>
        case Content(delta) =>
          if delta != "" {
            OneMoreDelta(thread, run, heard, delta);
            events := events + Delta(run, !started', delta);
            started' := true;
            heard := heard + [delta];
          }
      }
      i := i + 1;
    }
    OneMoreChoice(heard, choices, i);
  }

  /** `run_stream`: yields as it reads, and still says what the translation says. */
  method RunStream(thread: string, run: string, up: Upstream) returns (events: seq<Event>)
    ensures events == Translation(thread, run, Read(up))
  {
    events := [RunStarted(thread, run)];
    var started := false;
    ghost var heard: seq<string> := [];
    var i := 0;
    assert up.items[0..] == up.items;
    while i < |up.items| && !up.items[i].Done?
      invariant i <= |up.items|
      invariant started <==> heard != []
      invariant events == Telling(thread, run, heard)
      invariant Then(heard, ReadItems(up.items[i..], up.breaks, up.closeFails)) == Read(up)
    {
      OneMoreItem(heard, up, i);
      if up.items[i].Garbled? {
        return events + [RunError("upstream call failed: " + up.items[i].why)];
      }
      var failure;
      ghost var r := ReadChoices(up.items[i].choices);
      events, started, failure := YieldChunk(thread, run, up.items[i].choices, events, started, heard);
      if failure.Some? {
        return events + [RunError("upstream call failed: " + failure.value)];
      }
      heard := heard + r.deltas;
      i := i + 1;
    }
    OneMoreItem(heard, up, i);
    var failure := if i == |up.items| && up.breaks.Some? then up.breaks else up.closeFails;
    if failure.Some? {
      return events + [RunError("upstream call failed: " + failure.value)];
    }
    if started {
      return events + [MessageEnd(MessageId(run)), RunFinished(thread, run)];
    }
    events := events + [RunFinished(thread, run)];
  }

  // ---- The event protocol

  datatype Place = Nowhere | Running | MessageOpened | Talking | MessageClosed | Ended | Wrong

  function After(p: Place, thread: string, run: string, e: Event): Place
  {
    match (p, e)
    case (Nowhere, RunStarted(t, r)) => if t == thread && r == run then Running else Wrong
    case (Running, MessageStart(m)) => if m == MessageId(run) then MessageOpened else Wrong
    case (Running, RunFinished(t, r)) => if t == thread && r == run then Ended else Wrong
    case (Running, RunError(_)) => Ended
    case (MessageOpened, MessageContent(m, d)) => if m == MessageId(run) && d != "" then Talking else Wrong
    case (Talking, MessageContent(m, d)) => if m == MessageId(run) && d != "" then Talking else Wrong
    case (Talking, MessageEnd(m)) => if m == MessageId(run) then MessageClosed else Wrong
    case (Talking, RunError(_)) => Ended
    case (MessageClosed, RunFinished(t, r)) => if t == thread && r == run then Ended else Wrong
    case _ => Wrong
  }

  /** A reader of the event protocol: where it is after these events. */
  function Scan(thread: string, run: string, events: seq<Event>): Place
  {
    if events == [] then Nowhere
    else After(Scan(thread, run, events[..|events| - 1]), thread, run, events[|events| - 1])
  }

  predicate IsTerminal(e: Event)
  {
    e.RunFinished? || e.RunError?
  }

  lemma {:induction false} TerminalEventIsLast(thread: string, run: string, events: seq<Event>, i: nat)
    requires Scan(thread, run, events) != Wrong && i < |events| && IsTerminal(events[i])
    ensures i == |events| - 1 && Scan(thread, run, events) == Ended
  {
    var n := |events| - 1;
    if i < n {
      TerminalEventIsLast(thread, run, events[..n], i);
    }
  }

  lemma {:induction false} ReadingHasNoEmptyDelta(items: seq<Sse>, breaks: Option<string>, closeFails: Option<string>)
    ensures "" !in ReadItems(items, breaks, closeFails).deltas
  {
    if items != [] && items[0].Chunk? {
      ChoicesHaveNoEmptyDelta(items[0].choices);
      ReadingHasNoEmptyDelta(items[1..], breaks, closeFails);
    }
  }

  lemma {:induction false} ChoicesHaveNoEmptyDelta(choices: seq<Choice>)
    ensures "" !in ReadChoices(choices).deltas
  {
    if choices != [] {
      ChoicesHaveNoEmptyDelta(choices[1..]);
    }
  }

  lemma ScanOneMore(thread: string, run: string, events: seq<Event>, e: Event)
    ensures Scan(thread, run, events + [e]) == After(Scan(thread, run, events), thread, run, e)
  {
    assert (events + [e])[..|events + [e]| - 1] == events;
  }

  lemma {:induction false} ScanTelling(thread: string, run: string, deltas: seq<string>)
    requires "" !in deltas
    ensures Scan(thread, run, Telling(thread, run, deltas)) == if deltas == [] then Running else Talking
  {
    if deltas == [] {
      ScanOneMore(thread, run, [], RunStarted(thread, run));
      assert [] + [RunStarted(thread, run)] == Telling(thread, run, []);
    } else {
      var n := |deltas| - 1;
      ScanTelling(thread, run, deltas[..n]);
      assert deltas[n] in deltas;
      ScanDelta(thread, run, Telling(thread, run, deltas[..n]), n == 0, deltas[n]);
    }
  }

  lemma ScanDelta(thread: string, run: string, before: seq<Event>, first: bool, d: string)
    requires d != "" && Scan(thread, run, before) == if first then Running else Talking
    ensures Scan(thread, run, before + Delta(run, first, d)) == Talking
  {
    var start, content := MessageStart(MessageId(run)), MessageContent(MessageId(run), d);
    if first {
      ScanOneMore(thread, run, before, start);
      ScanOneMore(thread, run, before + [start], content);
      assert before + Delta(run, first, d) == before + [start] + [content];
    } else {
      ScanOneMore(thread, run, before, content);
      assert Delta(run, first, d) == [content];
    }
  }

  lemma ScanEnding(thread: string, run: string, body: seq<Event>, r: Reading)
    requires Scan(thread, run, body) == if r.deltas == [] then Running else Talking
    ensures Scan(thread, run, body + Ending(thread, run, r)) == Ended
  {
    var ending := Ending(thread, run, r);
    ScanOneMore(thread, run, body, ending[0]);
    if |ending| == 2 {
      ScanOneMore(thread, run, body + [ending[0]], ending[1]);
      assert body + ending == body + [ending[0]] + [ending[1]];
    } else {
      assert ending == [ending[0]];
    }
  }

  /** For every upstream and every point of failure the events follow the protocol:
      RUN_STARTED, then an optional message and RUN_FINISHED, or an optional message left
      open and RUN_ERROR. The last event is terminal, and no other is. */
  lemma TranslationFollowsTheProtocol(thread: string, run: string, up: Upstream)
    ensures var events := Translation(thread, run, Read(up));
            && Scan(thread, run, events) == Ended
            && IsTerminal(events[|events| - 1])
            && (forall i :: 0 <= i < |events| - 1 ==> !IsTerminal(events[i]))
            && (events[|events| - 1].RunError? <==> Read(up).failure.Some?)
  {
    var r := Read(up);
    ReadingHasNoEmptyDelta(up.items, up.breaks, up.closeFails);
    var events := Translation(thread, run, r);
    ScanTelling(thread, run, r.deltas);
    ScanEnding(thread, run, Telling(thread, run, r.deltas), r);
    forall i | 0 <= i < |events| - 1 ensures !IsTerminal(events[i]) {
      if IsTerminal(events[i]) {
        TerminalEventIsLast(thread, run, events, i);
      }
    }
  }

  /** A failed stream ends in the failure's own words. */
  lemma FailureIsTold(thread: string, run: string, r: Reading)
    requires r.failure.Some?
    ensures var events := Translation(thread, run, r);
            events[|events| - 1] == RunError("upstream call failed: " + r.failure.value)
  {
    assert Ending(thread, run, r) == [RunError("upstream call failed: " + r.failure.value)];
  }

  // ---- Nothing is lost or added

  function Told(events: seq<Event>): string
  {
    if events == [] then ""
    else
      var e := events[|events| - 1];
      Told(events[..|events| - 1]) + if e.MessageContent? then e.delta else ""
  }

  /** The content upstream sent before `[DONE]` or the failure. */
  function ContentOf(choices: seq<Choice>): string
  {
    if choices == [] || choices[0].Broken? then ""
    else (if choices[0].Content? then choices[0].content else "") + ContentOf(choices[1..])
  }

  predicate AnyBroken(choices: seq<Choice>)
  {
    exists c :: c in choices && c.Broken?
  }

  function Said(items: seq<Sse>): string
  {
    if items == [] || !items[0].Chunk? then ""
    else ContentOf(items[0].choices) + if AnyBroken(items[0].choices) then "" else Said(items[1..])
  }

  function Concat(deltas: seq<string>): string
  {
    if deltas == [] then "" else Concat(deltas[..|deltas| - 1]) + deltas[|deltas| - 1]
  }

  lemma {:induction false} ConcatSplits(a: seq<string>, b: seq<string>)
    ensures Concat(a + b) == Concat(a) + Concat(b)
  {
    if b == [] {
      assert a + b == a;
    } else {
      var n := |b| - 1;
      ConcatSplits(a, b[..n]);
      assert (a + b)[..|a + b| - 1] == a + b[..n];
    }
  }

  lemma ConcatOne(c: string)
    ensures Concat([c]) == c
  {
    assert [c][..0] == [];
    assert Concat([c]) == "" + c;
  }

  lemma {:induction false} ChoicesKeepContent(choices: seq<Choice>)
    ensures Concat(ReadChoices(choices).deltas) == ContentOf(choices)
    ensures ReadChoices(choices).failure.Some? <==> AnyBroken(choices)
  {
    if choices != [] {
      ChoicesKeepContent(choices[1..]);
      assert choices == [choices[0]] + choices[1..];
      if choices[0].Content? && choices[0].content != "" {
        ConcatSplits([choices[0].content], ReadChoices(choices[1..]).deltas);
        ConcatOne(choices[0].content);
      }
    }
  }

  lemma {:induction false} ReadingKeepsContent(items: seq<Sse>, breaks: Option<string>, closeFails: Option<string>)
    ensures Concat(ReadItems(items, breaks, closeFails).deltas) == Said(items)
  {
    if items != [] && items[0].Chunk? {
      ChoicesKeepContent(items[0].choices);
      ReadingKeepsContent(items[1..], breaks, closeFails);
      ConcatSplits(ReadChoices(items[0].choices).deltas, ReadItems(items[1..], breaks, closeFails).deltas);
    }
  }

  lemma {:induction false} ToldSplits(a: seq<Event>, b: seq<Event>)
    ensures Told(a + b) == Told(a) + Told(b)
  {
    if b == [] {
      assert a + b == a;
    } else {
      var n := |b| - 1;
      ToldSplits(a, b[..n]);
      assert (a + b)[..|a + b| - 1] == a + b[..n];
    }
  }

  lemma {:induction false} TellingTells(thread: string, run: string, deltas: seq<string>)
    ensures Told(Telling(thread, run, deltas)) == Concat(deltas)
  {
    if deltas == [] {
      TellsNothing([RunStarted(thread, run)]);
    } else {
      var n := |deltas| - 1;
      TellingTells(thread, run, deltas[..n]);
      var before := Telling(thread, run, deltas[..n]);
      ToldSplits(before, Delta(run, n == 0, deltas[n]));
      DeltaTells(run, n == 0, deltas[n]);
    }
  }

  lemma DeltaTells(run: string, first: bool, d: string)
    ensures Told(Delta(run, first, d)) == d
  {
    var events := Delta(run, first, d);
    TellsNothing(events[..|events| - 1]);
  }

  lemma {:induction false} TellsNothing(events: seq<Event>)
    requires forall i :: 0 <= i < |events| ==> !events[i].MessageContent?
    ensures Told(events) == ""
  {
    if events != [] {
      TellsNothing(events[..|events| - 1]);
    }
  }

  lemma EndingTells(thread: string, run: string, r: Reading)
    ensures Told(Ending(thread, run, r)) == ""
  {
    TellsNothing(Ending(thread, run, r));
  }

  lemma TranslationTells(thread: string, run: string, r: Reading)
    ensures Told(Translation(thread, run, r)) == Concat(r.deltas)
  {
    var t, e := Telling(thread, run, r.deltas), Ending(thread, run, r);
    ToldSplits(t, e);
    TellingTells(thread, run, r.deltas);
    EndingTells(thread, run, r);
    assert Told(t) + "" == Told(t);
  }

  /** The deltas, put together, are the content upstream sent before `[DONE]` or the
      failure, whole and in order. */
  lemma TranslationTellsWhatWasSaid(thread: string, run: string, up: Upstream)
    ensures Told(Translation(thread, run, Read(up))) == Said(up.items)
  {
    TranslationTells(thread, run, Read(up));
    ReadingKeepsContent(up.items, up.breaks, up.closeFails);
  }

  // ---- The request

  datatype Message = Message(role: string, content: Option<string>)

  datatype ChatMessage = ChatMessage(role: string, content: string)

  function ContentOrEmpty(m: Message): string
  {
    if m.content.Some? then m.content.value else ""
  }

  predicate IsRelayed(m: Message)
  {
    (m.role == "user" || m.role == "assistant" || m.role == "system") && ContentOrEmpty(m) != ""
  }

  function Relayed(messages: seq<Message>): seq<ChatMessage>
  {
    if messages == [] then []
    else
      var m := messages[|messages| - 1];
      Relayed(messages[..|messages| - 1]) + if IsRelayed(m) then [ChatMessage(m.role, ContentOrEmpty(m))] else []
  }

  /** Message by message: one of a user, an assistant or the system that says something is
      relayed as it stands, any other is left out; and the order is kept. */
  lemma {:induction false} RelayedMessageByMessage(a: seq<Message>, b: seq<Message>, m: Message)
    ensures Relayed(a + b) == Relayed(a) + Relayed(b)
    ensures Relayed([m]) ==
              if (m.role == "user" || m.role == "assistant" || m.role == "system") && m.content.Some?
                 && m.content.value != ""
              then [ChatMessage(m.role, m.content.value)] else []
  {
    assert [m][..|[m]| - 1] == [];
    if b == [] {
      assert a + b == a;
    } else {
      var n := |b| - 1;
      RelayedMessageByMessage(a, b[..n], m);
      assert (a + b)[..|a + b| - 1] == a + b[..n];
    }
  }

  /** `_build_messages`: the agent's own prompt first, then every message that says
      something in a known role, in order. */
  method BuildMessages(systemPrompt: string, messages: seq<Message>) returns (r: seq<ChatMessage>)
    ensures r == (if systemPrompt == "" then [] else [ChatMessage("system", systemPrompt)]) + Relayed(messages)
  {
    r := [];
    if systemPrompt != "" {
      r := r + [ChatMessage("system", systemPrompt)];
    }
    ghost var prompt := r;
    var i := 0;
    while i < |messages|
      invariant i <= |messages| && r == prompt + Relayed(messages[..i])
    {
      assert messages[..i + 1][..|messages[..i + 1]| - 1] == messages[..i];
      if IsRelayed(messages[i]) {
        r := r + [ChatMessage(messages[i].role, ContentOrEmpty(messages[i]))];
      }
      i := i + 1;
    }
    assert messages[..i] == messages;
  }
}
