/** The gateway's object behind one provider socket: offers out, acks in
    (souk_server/ws_provider.py). */
module ProviderSocket {
  import opened Wrappers
  import opened ProviderWire
  import F = Futures
  import FutureTable

  /** The table of acks it waits for, and its outbound queue. */
  datatype Socket = Socket(acks: F.Table<RunId, Answer>, outbound: seq<DownFrame>)

  function Push(s: Socket, f: DownFrame): Socket
  {
    s.(outbound := s.outbound + [f])
  }

  function Offer(s: Socket, w: nat, run: RunId, agent: string): Socket
  {
    Push(s.(acks := F.Register(s.acks, w, run)), Run(run, agent))
  }

  /** The answer to input that is no RunAgentInput. */
  function InputRefusal(why: string): string
  {
    "input does not validate as RunAgentInput: " + why
  }

  function AckArrives(s: Socket, run: RunId, accepted: Option<bool>, reason: Option<string>): Socket
  {
    s.(acks := F.Resolve(s.acks, run, AnswerOf(accepted, reason)))
  }

  function FailPending(s: Socket): Socket
  {
    s.(acks := F.FailAll(s.acks, Declined))
  }

  class SocketProvider {
    const acks: FutureTable.WaiterTable<RunId, Answer>
    var outbound: seq<DownFrame>

    ghost predicate Valid()
      reads this, acks, acks.issued.Values
    {
      acks.Valid()
    }

    ghost function Value(): Socket
      reads this, acks
    {
      Socket(acks.table, outbound)
    }

    constructor ()
      ensures Valid() && fresh(acks) && Value() == Socket(F.Empty(), []) && acks.issued == map[]
    {
      acks := new FutureTable.WaiterTable();
      outbound := [];
    }

    /** `deliver` up to its wait: input that does not validate is refused on the spot,
        anything else is registered and written to the wire. */
    method BeginDeliver(ghost w: nat, run: RunId, agent: string, validates: bool, why: string)
      returns (refused: Option<Answer>, waiter: Option<FutureTable.Future<Answer>>)
      requires Valid() && w !in acks.issued
      modifies this, acks
      ensures Valid()
      ensures !validates ==> refused == Some(Refusal(InputRefusal(why))) && waiter == None && Value() == old(Value())
      ensures validates ==> refused == None && waiter.Some? && fresh(waiter.value)
                            && acks.issued == old(acks.issued)[w := waiter.value]
                            && Value() == Offer(old(Value()), w, run, agent)
    {
      if !validates {
        return Some(Refusal(InputRefusal(why))), None;
      }
      var future := acks.Register(w, run);
      outbound := outbound + [Run(run, agent)];
      return None, Some(future);
    }

    /** The rest of `deliver`: the ack is there, or the backstop has run out. */
    method FinishDeliver(ghost w: nat, run: RunId, waiter: FutureTable.Future<Answer>) returns (answer: Answer)
      requires Valid() && w in acks.issued && acks.issued[w] == waiter
      requires acks.table.waiters[w].key == run && acks.table.waiters[w].IsLive()
      modifies acks, waiter
      ensures Valid() && acks.issued == old(acks.issued)
      ensures acks.table.waiters[w].fate == F.Returned(answer)
      ensures acks.table == if old(waiter.Done()) then F.Resume(old(acks.table), w)
                            else F.Expire(old(acks.table), w, Declined)
    {
      if waiter.Done() {
        answer := acks.Resume(w, run, waiter);
      } else {
        acks.Expire(w, run, waiter, Declined);
        answer := Declined;
      }
    }

    method OnAck(run: RunId, accepted: Option<bool>, reason: Option<string>)
      requires Valid()
      modifies acks`table, acks.issued.Values
      ensures Valid() && acks.issued == old(acks.issued)
      ensures Value() == AckArrives(old(Value()), run, accepted, reason)
    {
      acks.Resolve(run, AnswerOf(accepted, reason));
    }

    /** Ask, and do not wait. */
    method CancelRun(run: RunId)
      requires Valid()
      modifies this
      ensures Valid() && Value() == Push(old(Value()), Cancel(run))
    {
      outbound := outbound + [Cancel(run)];
    }

    method FailPendingOffers()
      requires Valid()
      modifies acks`entries, acks`table, acks.issued.Values
      ensures Valid() && acks.issued == old(acks.issued)
      ensures Value() == FailPending(old(Value())) && acks.entries == map[]
    {
      acks.FailAll(Declined);
    }
  }

  // ---- The single writer

  /** The frames a writer sends before it meets a close. */
  function UpToClose(queue: seq<DownFrame>): seq<DownFrame>
  {
    if queue == [] || queue[0].Close? then [] else [queue[0]] + UpToClose(queue[1..])
  }

  predicate HasClose(queue: seq<DownFrame>)
  {
    exists i :: 0 <= i < |queue| && queue[i].Close?
  }

  lemma OneMoreFrame(queue: seq<DownFrame>, i: nat)
    requires i < |queue|
    ensures UpToClose(queue[i..]) == if queue[i].Close? then [] else [queue[i]] + UpToClose(queue[i + 1..])
  {
    assert queue[i..][1..] == queue[i + 1..];
  }

  /** `write_loop` until its queue is empty or it closes the socket. */
  method WriteLoop(queue: seq<DownFrame>) returns (sent: seq<DownFrame>, closed: bool)
    ensures sent == UpToClose(queue)
    ensures closed <==> HasClose(queue)
    ensures !closed ==> sent == queue
  {
    sent, closed := [], false;
    var i := 0;
    assert queue[0..] == queue;
    while i < |queue|
      invariant i <= |queue| && sent == queue[..i]
      invariant sent + UpToClose(queue[i..]) == UpToClose(queue)
      invariant forall j :: 0 <= j < i ==> !queue[j].Close?
    {
      OneMoreFrame(queue, i);
      if queue[i].Close? {
        assert sent + [] == sent;
        closed := true;
        return;
      }
      ghost var rest := UpToClose(queue[i + 1..]);
      assert sent + ([queue[i]] + rest) == sent + [queue[i]] + rest;
      sent := sent + [queue[i]];
      i := i + 1;
    }
    assert sent + [] == sent == queue;
  }
}
