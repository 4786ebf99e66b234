/** Frames of the provider socket, and what the gateway answers to a query
    (souk_server/ws_provider.py). */
module ProviderWire {
  import opened Wrappers

  type RunId = string
  type QueryId = string

  datatype Message = Message(id: Option<string>, content: string)

  /** Provider to souk. An ack without `accepted` counts as accepted. */
  datatype UpFrame =
    | Ack(run: RunId, accepted: Option<bool>, reason: Option<string>)
    | Event(run: RunId, event: string)
    | Finish(run: RunId)
    | Query(id: QueryId, queryMethod: string, thread: string, limit: Option<int>)

  /** Souk to provider. `Close` is never sent: it makes the writer close the socket. */
  datatype DownFrame =
    | Challenge
    | Welcome
    | Run(run: RunId, agent: string)
    | Cancel(run: RunId)
    | QueryResult(id: QueryId, outcome: QueryOutcome)
    | Error(message: string)
    | Close(code: nat, reason: string)

  datatype QueryOutcome = Rows(rows: seq<Message>) | QueryFailed(reason: string)

  /** What `deliver` returns: true, false or a permanent refusal. */
  datatype Answer = Taken | Declined | Refusal(reason: string)

  function AnswerOf(accepted: Option<bool>, reason: Option<string>): Answer
  {
    var took := accepted == None || accepted.value;
    if !took && reason.Some? && reason.value != "" then Refusal(reason.value)
    else if took then Taken else Declined
  }

  /** An ack that accepts, or says nothing, means taken; a decline with a reason refuses for
      good, in those words; any other decline only declines. */
  lemma AckMeansWhatItSays(accepted: Option<bool>, reason: Option<string>)
    ensures AnswerOf(accepted, reason) == Taken <==> accepted != Some(false)
    ensures forall why :: AnswerOf(accepted, reason) == Refusal(why) <==>
              accepted == Some(false) && reason == Some(why) && why != ""
    ensures AnswerOf(accepted, reason) == Declined <==>
              accepted == Some(false) && (reason == None || reason == Some(""))
  {}

  // ---- Threads

  datatype Thread = Thread(owner: string, messages: seq<Message>)

  type Store = map<string, Thread>

  /** `messages[-limit:]` for a positive limit. */
  function LastOf(messages: seq<Message>, limit: Option<int>): (r: seq<Message>)
    requires limit.Some? ==> limit.value > 0
    ensures |r| == if limit.Some? && limit.value < |messages| then limit.value else |messages|
    ensures messages == messages[..|messages| - |r|] + r
  {
    if limit.Some? && limit.value < |messages| then messages[|messages| - limit.value..] else messages
  }

  const THREAD_MESSAGES := "thread_messages"
  const NO_SUCH_THREAD := "no such thread for this provider"

  /** The frame one query is answered with. */
  function AnswerQuery(store: Store, key: string, q: UpFrame): DownFrame
    requires q.Query?
  {
    if q.id == "" then Error("query needs a queryId")
    else if q.queryMethod != THREAD_MESSAGES
    then QueryResult(q.id, QueryFailed("unknown query method " + q.queryMethod))
    else if q.thread == "" then QueryResult(q.id, QueryFailed("thread_messages needs a threadId"))
    else if q.limit.Some? && q.limit.value <= 0 then QueryResult(q.id, QueryFailed("limit must be a positive integer"))
    else if q.thread !in store || store[q.thread].owner != key then QueryResult(q.id, QueryFailed(NO_SUCH_THREAD))
    else QueryResult(q.id, Rows(LastOf(store[q.thread].messages, q.limit)))
  }

  /** Rows come back exactly for a well-formed query of a thread that is there and whose
      agent belongs to the key that asks; they are the last min(limit, n) messages. Every
      other query with an id fails under that id; one without is complained of. */
  lemma QueryAnswerIsExact(store: Store, key: string, q: UpFrame)
    requires q.Query?
    ensures var a := AnswerQuery(store, key, q);
            var isRead := q.id != "" && q.queryMethod == "thread_messages" && q.thread != ""
                          && (q.limit.Some? ==> q.limit.value > 0)
                          && q.thread in store && store[q.thread].owner == key;
            && (q.id == "" ==> a == Error("query needs a queryId"))
            && (q.id != "" ==> a.QueryResult? && a.id == q.id && (a.outcome.Rows? <==> isRead))
            && (isRead ==>
                  var all := store[q.thread].messages;
                  var n := if q.limit.Some? && q.limit.value < |all| then q.limit.value else |all|;
                  a.outcome.rows == all[|all| - n..])
  {}

  /** Somebody else's thread and no thread at all get the same answer. */
  lemma ForeignThreadLooksAbsent(store: Store, key: string, q: UpFrame)
    requires q.Query? && q.thread in store && store[q.thread].owner != key
    ensures AnswerQuery(store, key, q) == AnswerQuery(store - {q.thread}, key, q)
  {}
}
