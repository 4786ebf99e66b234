/** The objects behind the gateway's end of a KYOK connection: the provider link with its
    table of queues, and the generator core iterates (souk_server/ws_kyok.py). Each method
    is proved to do to the heap what KyokLink says it does to a link. */
module KyokProvider {
  import opened Wrappers
  import L = KyokLink

  class AnswerQueue {
    var items: seq<L.Item>

    constructor ()
      ensures items == []
    {
      items := [];
    }

    method PutNowait(item: L.Item)
      modifies this
      ensures items == old(items) + [item]
    {
      items := items + [item];
    }
  }

  class SocketLLMProvider {
    var answers: map<L.ReqId, AnswerQueue>
    var outbound: seq<L.OutFrame>

    /** Every queue ever handed out: a queue outlives its table entry, because the
        generator holds it too. */
    ghost var issued: map<L.ReqId, AnswerQueue>
    ghost var link: L.Link

    ghost predicate Valid()
      reads this, issued.Values
    {
      && link.outbound == outbound
      && link.inFlight == answers.Keys
      && link.streams.Keys == issued.Keys
      && (forall id :: id in answers ==> id in issued && answers[id] == issued[id])
      && (forall i, j :: i in issued && j in issued && i != j ==> issued[i] != issued[j])
      && (forall id :: id in issued ==> issued[id].items == link.streams[id].queue)
    }

    constructor ()
      ensures Valid() && link == L.NEW_LINK && issued == map[]
    {
      answers := map[];
      outbound := [];
      issued := map[];
      link := L.NEW_LINK;
    }

    method Complete(id: L.ReqId, body: string) returns (stream: AnswerStream)
      requires Valid() && id !in issued
      modifies this
      ensures Valid() && link == L.Complete(old(link), id, body)
      ensures fresh(stream) && fresh(stream.queue)
      ensures issued == old(issued)[id := stream.queue]
      ensures outbound == old(outbound) + [L.CompletionRequest(id, body)]
      ensures answers == old(answers)[id := stream.queue] && stream.queue.items == []
      ensures stream.provider == this && stream.id == id && stream.Valid()
    {
      var queue := new AnswerQueue();
      answers := answers[id := queue];
      outbound := outbound + [L.CompletionRequest(id, body)];
      issued := issued[id := queue];
      link := L.Complete(link, id, body);
      stream := new AnswerStream(this, id, queue);
    }

    /** False if this connection was never delivered `id`, or it is over. */
    method Feed(id: L.ReqId, item: L.Item) returns (accepted: bool)
      requires Valid()
      modifies this`link, issued.Values
      ensures Valid() && issued == old(issued)
      ensures accepted <==> id in old(answers)
      ensures link == L.Feed(old(link), id, item)
    {
      if id !in answers {
        return false;
      }
      answers[id].PutNowait(item);
      link := L.Feed(link, id, item);
      return true;
    }

    method FailPending()
      requires Valid()
      modifies this`answers, this`link, issued.Values
      ensures Valid() && issued == old(issued)
      ensures link == L.FailPending(old(link)) && answers == map[]
    {
      var todo := answers.Keys;
      while todo != {}
        modifies issued.Values
        invariant todo <= answers.Keys
        invariant forall id :: id in issued ==>
          issued[id].items == old(issued[id].items) +
            if id in answers && id !in todo then [L.Fail(L.Disconnected)] else []
      {
        var id :| id in todo;
        answers[id].PutNowait(L.Fail(L.Disconnected));
        todo := todo - {id};
      }
      link := L.FailPending(link);
      answers := map[];
    }

    /** One turn of the receive loop. */
    method Dispatch(frame: L.InFrame)
      requires Valid()
      modifies this`link, this`outbound, issued.Values
      ensures Valid() && issued == old(issued)
      ensures link == L.Dispatch(old(link), frame)
    {
      match L.ItemOf(frame) {
        case None =>
          outbound := outbound + [L.ComplaintAbout(frame)];
          link := L.Reply(link, L.ComplaintAbout(frame));
        case Some((id, item)) =>
          var accepted := Feed(id, item);
          if !accepted {
            var complaint := L.Complaint(Some(id), "no such in-flight completion on this connection");
            outbound := outbound + [complaint];
            link := L.Reply(link, complaint);
          }
      }
    }
  }

  /** What one step of the generator gives its caller. */
  datatype Next = Yielded(chunk: L.Chunk) | Returned | Raised(why: L.Failure)

  /** What the generator does with an item it was given. */
  function Outcome(item: L.Item): (L.StreamState, Next)
  {
    match item
    case Done => (L.Completed, Returned)
    case Fail(f) => (L.Failed(L.Raised(f)), Raised(L.Raised(f)))
    case Data(c) => if c.valid then (L.Reading, Yielded(c)) else (L.Failed(L.InvalidChunk), Raised(L.InvalidChunk))
  }

  /** A pull moves one item off its own queue and touches nothing else. */
  lemma PullTakesOneItem(l: L.Link, id: L.ReqId)
    requires id in l.streams && l.streams[id].state.Reading? && l.streams[id].queue != []
    ensures var l' := L.Pull(l, id);
            && l'.outbound == l.outbound && l'.streams.Keys == l.streams.Keys
            && l'.streams[id] == L.PullStream(l.streams[id])
            && l'.inFlight == (if l'.streams[id].state.Reading? then l.inFlight else l.inFlight - {id})
            && forall i :: i in l.streams && i != id ==> l'.streams[i] == l.streams[i]
  {}

  /** What core is given is what the stream went through. A valid chunk at the head is
      handed over, that very chunk, and is the one chunk read; a done ends the stream; the
      failure at the head, an invalid chunk, or an empty queue fails it, with that failure. */
  ghost predicate Hands(s: L.Stream, t: L.Stream, next: Next)
  {
    && t.queue == (if s.queue == [] then [] else s.queue[1..])
    && (next.Yielded? <==> s.queue != [] && s.queue[0].Data? && s.queue[0].chunk.valid)
    && (next.Yielded? ==> s.queue[0] == L.Data(next.chunk) && t.read == s.read + [next.chunk] && t.state.Reading?)
    && (next.Returned? <==> s.queue != [] && s.queue[0].Done?)
    && (next.Returned? <==> t.state.Completed?)
    && (next.Raised? <==> t.state.Failed?)
    && (next.Raised? ==> t.state == L.Failed(next.why))
    && (!next.Yielded? ==> t.read == s.read)
    && (s.queue != [] && s.queue[0].Fail? ==> next == Raised(L.Raised(s.queue[0].fault)))
    && (s.queue != [] && s.queue[0].Data? && !s.queue[0].chunk.valid ==> next == Raised(L.InvalidChunk))
    && (s.queue == [] ==> next == Raised(L.GapTimeout))
  }

  lemma OutcomeIsHanded(s: L.Stream)
    requires s.state.Reading? && s.queue != []
    ensures Outcome(s.queue[0]).0 == L.PullStream(s).state
    ensures Hands(s, L.PullStream(s), Outcome(s.queue[0]).1)
  {}

  class AnswerStream {
    const provider: SocketLLMProvider
    const id: L.ReqId
    const queue: AnswerQueue
    var state: L.StreamState

    ghost predicate Valid()
      reads this, provider, provider.issued.Values
    {
      && provider.Valid()
      && id in provider.issued && provider.issued[id] == queue
      && provider.link.streams[id].state == state
    }

    constructor (provider: SocketLLMProvider, id: L.ReqId, queue: AnswerQueue)
      requires provider.Valid() && id in provider.issued && provider.issued[id] == queue
      requires provider.link.streams[id].state == L.NotStarted
      ensures this.provider == provider && this.id == id && this.queue == queue
      ensures Valid() && state == L.NotStarted
    {
      this.provider := provider;
      this.id := id;
      this.queue := queue;
      state := L.NotStarted;
    }

    /** The generator's `finally`. */
    method Finally()
      modifies provider`answers
      ensures provider.answers == old(provider.answers) - {id}
    {
      provider.answers := provider.answers - {id};
    }

    /** The gap timeout passed with nothing in the queue. */
    method RaiseGapTimeout() returns (next: Next)
      requires Valid() && state.Reading? && queue.items == []
      modifies this, provider`answers, provider`link
      ensures Valid() && provider.issued == old(provider.issued) && provider.link == L.TimeOut(old(provider.link), id)
      ensures Hands(old(provider.link).streams[id], provider.link.streams[id], next)
      ensures provider.answers == old(provider.answers) - {id}
    {
      provider.link := L.TimeOut(provider.link, id);
      state := L.Failed(L.GapTimeout);
      Finally();
      next := Raised(L.GapTimeout);
    }

    method TakeItem() returns (next: Next)
      requires Valid() && state.Reading? && queue.items != []
      modifies this, provider`answers, provider`link, queue
      ensures Valid() && provider.issued == old(provider.issued)
      ensures provider.link == L.Pull(old(provider.link), id)
      ensures Hands(old(provider.link).streams[id], provider.link.streams[id], next)
      ensures provider.answers == if next.Yielded? then old(provider.answers) else old(provider.answers) - {id}
    {
      PullTakesOneItem(provider.link, id);
      OutcomeIsHanded(provider.link.streams[id]);
      var item := queue.items[0];
      queue.items := queue.items[1..];
      provider.link := L.Pull(provider.link, id);
      var (s, n) := Outcome(item);
      state, next := s, n;
      if !state.Reading? {
        Finally();
      }
    }

    /** One `__anext__`, once the wait inside it is over: an item is there, or the gap
        timeout has passed without one. */
    method ReadNext() returns (next: Next)
      requires Valid() && (state.NotStarted? || state.Reading?)
      modifies this, provider`answers, provider`link, queue
      ensures Valid() && provider.issued == old(provider.issued)
      ensures var l := L.StartReading(old(provider.link), id);
              provider.link == if old(queue.items) == [] then L.TimeOut(l, id) else L.Pull(l, id)
      ensures old(queue.items) == old(provider.link).streams[id].queue
      ensures Hands(old(provider.link).streams[id], provider.link.streams[id], next)
      ensures provider.answers == if next.Yielded? then old(provider.answers) else old(provider.answers) - {id}
    {
      provider.link := L.StartReading(provider.link, id);
      state := L.Reading;
      if queue.items == [] {
        next := RaiseGapTimeout();
      } else {
        next := TakeItem();
      }
    }

    /** Core closes the generator: its `finally` runs only if it was ever started. */
    method Close()
      requires Valid() && (state.NotStarted? || state.Reading?)
      modifies this, provider`answers, provider`link
      ensures Valid() && provider.link == L.Abandon(old(provider.link), id) && state == L.Abandoned
      ensures provider.answers == if old(state).Reading? then old(provider.answers) - {id} else old(provider.answers)
    {
      provider.link := L.Abandon(provider.link, id);
      if state.Reading? {
        Finally();
      }
      state := L.Abandoned;
    }
  }
}
