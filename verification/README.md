# Souk: the wire protocols, both ends, and four small cores

This project models the behaviour of the souk gateway, its provider and client
SDKs, the Go pod-probe provider and three self-contained algorithms, and proves
properties of them for all inputs and for every interleaving of steps.

## What is modelled

**KYOK completion relay.** `KyokLink` is one gateway connection as a value: the
table of in-flight completions, a queue per completion, the stream core reads.
`KyokProvider` has the same thing as objects (`SocketLLMProvider`, `AnswerStream`)
whose methods are proved to do to the heap what `KyokLink` says. `KyokBridge` is
the caller's end: a task per request, one queue, one writer. `KyokRelay` runs any
number of connections and completions through handlers, writers, readers, gap
timeouts, abandoned iterators and drops; `KyokRequests` follows the requests down to
the bridge, and `KyokExchange` one completion that nobody interferes with.
`KyokIsolation` takes the gateway alone, with arbitrary frames arriving, and erases
everything that is not about one request. `Fifo` is what both relays' downward queues
have in common.

**Provider relay.** `Futures` is a correlation table of waiters, used for acks at
the gateway and for queries at the provider; `FutureTable` has it as objects.
`Pipeline` is the provider's outbound queue, which outlives its connections.
`ProviderWire`, `ProviderSocket` and `SoukClient` are the frames and the two ends;
`ProviderRelay` composes them over any number of reconnects. A ledger beside the
state records what happened outside the wire (what the runtime accepted, what
failed validation, what was asked); `ProviderRelay.RecordIsHistory` ties the ledger
to the steps of the run, so the theorems speak about steps that occurred.
`ProviderExchange` follows one offer and one query from call to return when nobody
interferes, and `ProviderOrder` the order of frames on every connection, both ways.
`SocketOpening` is the opening of a provider socket, with the broker already
offering while attach runs. The KYOK socket opens the same way.

**Handshake.** `Payloads` prints and reads the four families of signed bytes.
`Handshake` is the four-frame exchange with ideal signatures: any number of souks,
providers on either client, sessions, and a network that delivers, withholds, replays
or invents frames. `BridgeHandshake` is the same exchange as the KYOK bridge runs it.

**Small cores.** `Fnv` and `Layout` (the directory's map, on `NumberTheory` and
`Text`), `CallChain` (routes of a delegation tree), `ChatStream` (an
OpenAI-compatible stream as AG-UI events), `History` (the thread merged into what
the caller sent, with the gateway's limit), `PodProbe` (goroutines sharing one
locked writer).

State machines have the same shape throughout: a `Label` datatype, a total `Step`
in which a label that is not enabled changes nothing, and `Run` over a sequence of
labels; a theorem about `Run` is a theorem about every interleaving.

## Where code and documentation differ

- The Go client's comment (providers/pod-probe-agent/wire.go, on `handshake`) says
  that the frame after the proof may already be a run. With this gateway it never
  is: `SocketOpening.HandshakeNeverMeetsARun`.
- `placeStalls` calls its walk linear probing; it is double hashing with a
  fingerprint-derived stride, and the comment does not say when two stalls share a
  cell. `Layout.PlacementIsExact` says exactly when.
- `deliver` and `fail_pending` promise that a lost socket settles every offer. With
  overlapping offers of one run it need not. Two that wait: the first is left waiting
  (`Futures.OverlappingCallIsNotFailed`). One made while an earlier one is answered and
  not yet returned: the earlier return pops the later one's entry, and it is left
  waiting for its timeout (`Futures.LateReturnOrphansTheNextCall`). A lost socket settles everybody
  after a new offer, whatever follows short of further offers, exactly when no earlier
  offer of the run is still going on (`Futures.OverlapIsWhatOrphans`).
- The handshake is described as binding both nonces and the names. What it binds is
  their printed form, joined by colons and commas. A hello whose nonce holds a colon can
  attach with different nonces at the two ends (`Handshake.NoncesCanShift`,
  `BridgeHandshake.NoncesCanShift`), and a name that holds a comma can stand for two
  (`Handshake.NamesCanJoin`). Neither end tests for these. `Handshake.AgreementIsExact`
  and `BridgeHandshake.AgreementIsExact` say exactly when the two ends agree.
- The Go and the Python client differ on three kinds of challenge, and on each Python
  walks away and Go signs: one without a nonce, an empty string as the souk's key shown
  to an unpinned provider, and the pinned key in another spelling
  (`Handshake.ClientsDecideAlike`, `Handshake.ClientsDoDiffer`).
- The merge with the thread is idempotent exactly when every message of the history
  carries an id (`History.MergeIsIdempotent`), and it keeps the thread's order
  exactly when the caller resent no more than the limit (`History.ThreadAsItHappened`).

## Model

| member | source | states |
|---|---|---|
| `KyokProvider.SocketLLMProvider.Complete` | souk_server/ws_kyok.py:117-139 | a fresh id gets a fresh, empty queue in the table, and its request with its body goes behind what is queued for the wire, at once; every other stream is untouched |
| `KyokProvider.SocketLLMProvider.Feed` | souk_server/ws_kyok.py:168-176 | accepted exactly when this connection has the id in flight, and then appended to that queue alone |
| `KyokProvider.SocketLLMProvider.FailPending` | souk_server/ws_kyok.py:178-184 | every in-flight queue gets the failure as its last item, whatever the order of the loop, and the table is empty |
| `KyokProvider.SocketLLMProvider.Dispatch` | souk_server/ws_kyok.py:257-318 | each kind of frame is fed to its own completion or answered with the complaint it deserves |
| `KyokLink.DispatchIsExact` | souk_server/ws_kyok.py:257-318 | for each kind of frame: the item it carries goes to the request it names if that is in flight here, and otherwise, or if the frame is not in order, exactly one complaint says so |
| `KyokProvider.AnswerStream.ReadNext` | souk_server/ws_kyok.py:141-166 | one step of the generator: a valid chunk at the head is yielded, that very chunk, and is the one chunk read; a done ends the stream; a failure, an invalid chunk or the gap timeout is raised as such; the table entry goes exactly when the stream ends |
| `KyokProvider.AnswerStream.Close` | souk_server/ws_kyok.py:141-166 | abandoning a started generator pops its entry; one never started keeps it |
| `KyokBridge.Connection.OnFrame` | souk-client-sdk/souk_client_sdk/kyok_bridge.py:321-331 | a request starts a task, any other frame starts none |
| `KyokBridge.Connection.ServeOne` | souk-client-sdk/souk_client_sdk/kyok_bridge.py:349-388 | a handler's answer goes behind what was queued as one frame for each chunk, in order, and one last word: done, a refusal with its payload, or an error; a malformed request gets one error frame |
| `KyokBridge.Connection.TakeFrame` | souk-client-sdk/souk_client_sdk/kyok_bridge.py:345-347 | the writer takes the head of the queue |
| `KyokBridge.TearDownStopsEverything` | souk-client-sdk/souk_client_sdk/kyok_bridge.py:332-343 | when the socket goes the outbound queue is forgotten, every running task is cancelled, and the others stay as they ended |
| `KyokLink.DropReachesEveryOpenStream` | souk_server/ws_kyok.py:178-184 | when the socket goes, every open stream is told last; ended ones stay as they ended |
| `KyokLink.DroppedStreamEnds` | souk_server/ws_kyok.py:141-184 | a stream told of the drop ends within its queued items: normally exactly when a done is there behind valid chunks, as a failure otherwise |
| `KyokRelay.RunKeepsInv` | souk_server/ws_kyok.py:117-184 | over every run: queue contents, frames in transit and frames not yet sent line up with what each task put out |
| `KyokRelay.ReadIsPrefixOfYielded` | souk_server/ws_kyok.py:141-166 | at every moment of every run what core has read is an in-order prefix of what that request's handler yielded |
| `KyokRelay.NormalEndMeansAllRead` | souk_server/ws_kyok.py:141-166 | a stream ends normally only if its handler finished and every chunk was read |
| `KyokRelay.FailureIsTheHandlers` | souk-client-sdk/souk_client_sdk/kyok_bridge.py:372-388 | a failure other than the loss of the socket is the one the handler ended with, and comes after every chunk it yielded |
| `KyokRelay.NothingIsLostOnALiveWire` | souk-client-sdk/souk_client_sdk/kyok_bridge.py:309-347 | while the wire holds and nothing is in transit, all a task put out is read or queued |
| `KyokRelay.FinishedAnswerIsReadWhole` | souk_server/ws_kyok.py:141-166 | once a handler of valid chunks has finished and its frames came through a wire that held, reading on gives core every chunk and a normal end |
| `KyokRelay.DropEndsStreams` | souk_server/ws_kyok.py:319-326 | in every run, teardown makes every open stream end within the items already queued |
| `KyokRelay.QueuedDoneIsTheHandlers` | souk-client-sdk/souk_client_sdk/kyok_bridge.py:364-371 | a done that waits in a queue was put there by a handler that finished |
| `KyokRelay.TablesAreDisjoint` | souk_server/ws_kyok.py:127-139 | in-flight tables of different connections share no id |
| `KyokRequests.BridgeReadsInTurn` | souk_server/ws_kyok.py:130-138 | over every run, frames reach the bridge in the order the gateway put them, and while the wire holds every one put is read, in transit, in hand or queued |
| `KyokRequests.EveryRequestIsServedOrOnItsWay` | souk_server/ws_kyok.py:117-139 | every completion core asks for is, while the wire holds, on its way to the bridge or a task there, and the task under its id has the body asked for |
| `KyokRequests.TaskWasAsked` | souk-client-sdk/souk_client_sdk/kyok_bridge.py:321-331 | every task of the bridge serves a completion core asked for, with that body |
| `KyokExchange.UndisturbedRequest` | souk_server/ws_kyok.py:117-139 | from any quiet connection: four steps after core asks, a handler runs with that body |
| `KyokExchange.UndisturbedCompletion` | souk-client-sdk/souk_client_sdk/kyok_bridge.py:349-388 | from any quiet connection, for any valid answer and any ending: core reads every chunk in order, and its stream ends as the handler did, with its refusal or its words |
| `KyokIsolation.StreamIsItsOwnProjection` | souk_server/ws_kyok.py:168-176 | erase every frame and event on every other request and connection: the stream is the same, item for item |
| `Futures.NobodyIsAnsweredTwice` | souk_server/ws_provider.py:172-185 | over every continuation, whoever has been answered is never answered again |
| `Futures.OrderlyRunKeepsInv` | souk_server/ws_provider.py:151-170 | without overlapping calls, everyone who waits is listed under its own key |
| `Futures.EachCallSettlesOnce` | souk_server/ws_provider.py:133-197 | the first matching answer decides, unknown keys change nothing, and after teardown the table is empty and nobody waits |
| `Futures.DropSettlesWhoIsListed` | souk_server/ws_provider.py:192-197 | a lost socket settles every call if and only if everyone who waits is listed |
| `Futures.OverlapIsWhatOrphans` | souk_server/ws_provider.py:151-170 | a lost socket settles everybody after a new call, over every continuation without further calls, if and only if no earlier call for its key is still waiting or answered and not yet returned |
| `Futures.OverlappingCallIsNotFailed` | souk_server/ws_provider.py:192-197 | two overlapping calls for one key: the first is left waiting when the socket goes |
| `Futures.LateReturnOrphansTheNextCall` | souk_server/ws_provider.py:169-170 | the late return of an answered call pops the next call's entry: its answer is dropped and it is left waiting when the socket goes |
| `FutureTable.WaiterTable.Register` | souk_server/ws_provider.py:151-153 | a fresh future stands under its key; every other call keeps its own |
| `FutureTable.WaiterTable.Resolve` | souk-agent-sdk/souk_agent_sdk/client.py:226-236 | the listed future gets the answer if it is not done; otherwise nothing changes |
| `FutureTable.WaiterTable.Resume` | souk_server/ws_provider.py:158-170 | the call returns the answer it was given and leaves no entry |
| `FutureTable.WaiterTable.Expire` | souk_server/ws_provider.py:160-170 | a timed-out call cancels its own future and leaves no entry |
| `FutureTable.WaiterTable.Withdraw` | souk_server/ws_provider.py:169-170 | a cancelled call leaves no entry |
| `FutureTable.WaiterTable.FailAll` | souk_server/ws_provider.py:192-197 | every listed future not yet done gets the failure, in whatever order, and the table is empty |
| `Pipeline.FramesAreConserved` | souk-agent-sdk/souk_agent_sdk/client.py:445-453 | everything enqueued is, in order, what each connection sent plus at most one frame lost with it, then what is in hand, then the queue |
| `Pipeline.NothingTwiceOrOutOfOrder` | souk-agent-sdk/souk_agent_sdk/client.py:496-499 | what the other end received over all connections is what was enqueued with some frames struck out; likewise for any kind of frame |
| `ProviderWire.AckMeansWhatItSays` | souk_server/ws_provider.py:172-185 | an ack that accepts or says nothing means taken; a decline refuses for good exactly when it carries a reason, and then in those words |
| `ProviderWire.QueryAnswerIsExact` | souk_server/ws_provider.py:200-258 | for every query: rows come back exactly when it is in order and the thread exists and its agent belongs to the asker, and they are the last min(limit, n) messages; any other query fails under its id, and one without an id is complained of |
| `ProviderSocket.SocketProvider.BeginDeliver` | souk_server/ws_provider.py:133-157 | invalid input is refused without a frame; anything else is registered and offered |
| `ProviderSocket.SocketProvider.FinishDeliver` | souk_server/ws_provider.py:158-170 | the answer is the ack if it came, a decline if the backstop ran out; the entry is gone |
| `ProviderSocket.SocketProvider.OnAck` | souk_server/ws_provider.py:172-185 | a declined ack with a reason refuses for good, in those words; a bare one declines |
| `ProviderSocket.SocketProvider.CancelRun` | souk_server/ws_provider.py:187-190 | one cancel frame, nothing awaited, no waiter touched |
| `ProviderSocket.SocketProvider.FailPendingOffers` | souk_server/ws_provider.py:192-197 | every open offer is declined and the table is empty |
| `ProviderSocket.WriteLoop` | souk_server/ws_common.py:95-104 | writes the queue in order up to the first close frame, and closes exactly if there is one |
| `SoukClient.SoukProvider.OnOffer` | souk-agent-sdk/souk_agent_sdk/client.py:455-494 | one ack per offer; the runtime is asked exactly when the name is hosted and the frame validates |
| `SoukClient.RefusalSaysWhy` | souk-agent-sdk/souk_agent_sdk/client.py:481-490 | a refusal of the provider ends in the validator's words, so it is never taken for a bare decline |
| `SoukClient.SoukProvider.BeginQuery` | souk-agent-sdk/souk_agent_sdk/client.py:188-213 | a waiter under a fresh id and one query frame carrying the limit |
| `SoukClient.SoukProvider.ResolveQuery` | souk-agent-sdk/souk_agent_sdk/client.py:226-236 | only the waiter of that id is answered, and only if it still waits |
| `SoukClient.SoukProvider.OnDisconnect` | souk-agent-sdk/souk_agent_sdk/client.py:444-453 | queries die with the connection; the outbound queue is kept |
| `ProviderRelay.OfferAgreement` | souk_server/ws_provider.py:133-185 | in every run, `deliver` is true only for a run the runtime accepted at some step, and refuses only a run that failed validation at some step, in those words |
| `ProviderRelay.RecordIsHistory` | souk-agent-sdk/souk_agent_sdk/client.py:455-494 | what the ledger records happened at a step of the run |
| `ProviderRelay.SettledCallsStaySettled` | souk-agent-sdk/souk_agent_sdk/client.py:226-250 | no later frame changes a settled offer or query: late acks, answers to stale queries flushed on the next socket, drops |
| `ProviderRelay.QueryEndToEnd` | souk-agent-sdk/souk_agent_sdk/client.py:188-224 | rows given to a call are the last min(limit, n) messages of the thread it named, owned by its key, as it stood since the call |
| `ProviderRelay.DropFailsEveryQuery` | souk-agent-sdk/souk_agent_sdk/client.py:238-250 | a lost connection fails every open query at once and empties the table |
| `ProviderRelay.ProviderFramesAreConserved` | souk-agent-sdk/souk_agent_sdk/client.py:141-186 | over every run with reconnects: nothing enqueued is repeated or reordered on its way, overall or per run |
| `ProviderOrder.ProviderReadsInTurn` | souk_server/ws_provider.py:152-190 | over every run and connection, what the provider has read is the first part of the offers, cancels and query results the gateway made, in order; none is lost while the wire holds |
| `ProviderOrder.EverythingSaidIsConserved` | souk-agent-sdk/souk_agent_sdk/client.py:182-213 | every event, finish, question and ack of the provider is, in order, on a connection, lost one at most with each, in hand or queued, and the gateway receives that with some struck out |
| `ProviderExchange.UndisturbedOffer` | souk_server/ws_provider.py:133-185 | from any quiet connection, frame by frame: `deliver` returns what the provider's side decided, with its reason when it refuses for good |
| `ProviderExchange.UndisturbedQuery` | souk-agent-sdk/souk_agent_sdk/client.py:188-236 | from any quiet connection: a query returns the last messages of the thread exactly when it exists and belongs to the key, and fails otherwise |
| `ProviderExchange.ReconnectStartsAfresh` | souk-agent-sdk/souk_agent_sdk/client.py:420-453 | a lost connection is followed by a new one with nothing on its wire, and the provider's queue waits for it |
| `SocketOpening.WelcomeFirst` | souk_server/ws_provider.py:436-467 | whatever is queued while attach runs, the trace is challenge, welcome, then the queue in order, cut at a close frame or the end |
| `SocketOpening.FailedAttachSendsNoWelcome` | souk_server/ws_provider.py:450-463 | after a failed attach only the challenge was ever written |
| `SocketOpening.CloseEndsTheTrace` | souk_server/ws_common.py:95-104 | at a close frame everything put before it has been written and nothing is written after |
| `SocketOpening.AttachedSocketIsWritten` | souk_server/ws_provider.py:449-467 | after a successful attach, however puts and turns of the writer fall, the gateway has written the challenge and then one frame for each turn, welcome first, up to a close frame |
| `SocketOpening.BadFramesEndTheSocket` | souk_server/ws_provider.py:418-431 | a hello or a proof that is not in order ends the socket, and nothing more is ever written |
| `SocketOpening.OpeningCompletes` | souk-agent-sdk/souk_agent_sdk/client.py:297-348 | when every frame is in order and arrives, the provider is welcomed |
| `SocketOpening.HandshakeNeverMeetsARun` | souk-agent-sdk/souk_agent_sdk/client.py:316-348 | a provider composed with this gateway never raises over an unexpected frame; every run it reads comes after the welcome |
| `SocketOpening.ReadingGoesOn` | souk-agent-sdk/souk_agent_sdk/client.py:316-443 | in every run the provider answers a challenge it recognises, is welcomed by the next frame, and has then recorded exactly the runs among the frames it has read |
| `Payloads.SortedCopy` | providers/pod-probe-agent/identity.go:64-68 | a sorted permutation of the names; the input is not touched |
| `Payloads.TrimSpace` | providers/pod-probe-agent/identity.go:70-78 | what is cut off both ends is space, and nothing more could be cut off |
| `Payloads.FamiliesAreDisjoint` | providers/pod-probe-agent/wire.go:36-65 | the four families never produce the same bytes, whatever their fields hold |
| `Payloads.ParseUndoesPrint` | providers/pod-probe-agent/wire.go:36-65 | every family can be read back, names up to order; the bearer may hold colons |
| `Payloads.PrintIsInjectiveUpToOrder` | providers/pod-probe-agent/wire.go:36-65 | equal bytes if and only if equal statements up to the order of names |
| `Payloads.OrderDoesNotMatter` | providers/pod-probe-agent/wire.go:36-38 | the order names are listed in cannot change the bytes |
| `Payloads.PrintedForms` | providers/pod-probe-agent/wire.go:36-65 | one payload of each family, byte for byte |
| `Text.FirstDifferenceDecides` | providers/pod-probe-agent/identity.go:64-68 | the order names are sorted in: a first part stands first, otherwise the smaller character where two first differ |
| `Handshake.ClientsDecideAlike` | providers/pod-probe-agent/wire.go:114-186 | from challenge frame to proof the Go and Python clients decide alike if and only if the challenge is of none of three kinds: no nonce, an empty key shown to an unpinned provider, the pinned key respelled; on those Python raises and Go signs |
| `Handshake.ClientsDoDiffer` | souk-agent-sdk/souk_agent_sdk/client.py:321-418 | a challenge of each of the three kinds |
| `Handshake.RunKeepsInv` | souk-agent-sdk/souk_agent_sdk/client.py:297-418 | over every run each honest signature was made by its own step: no provider signs before it has accepted the souk's signature |
| `Handshake.AttachMeansAgreement` | souk_server/ws_provider.py:343-410 | an attach means one session of that very provider, on either client, proved to this very souk over a transcript that reads the same (nonces joined, names joined), its pin respected, the souk's signature over that transcript first |
| `Handshake.AttachIsEarned` | souk_server/ws_provider.py:449-463 | every attached session has exactly one step that answered its challenge: a proof over that very challenge, by a key that had registered the names |
| `Handshake.AnswerIsFinal` | souk_server/ws_provider.py:343-410 | the first proof to answer a challenge decides under every continuation: attached exactly if the names are registered and it verifies, refused otherwise |
| `Handshake.EveryHelloIsInOrder` | souk_server/ws_provider.py:312-340 | only a hello of this version, with a nonce and at least one name, is ever challenged |
| `Handshake.ProofRestsOnSoukSignature` | souk-agent-sdk/souk_agent_sdk/client.py:350-418 | behind every proof stands an earlier signature of that souk over the same nonces joined |
| `Handshake.AgreementIsExact` | souk_server/ws_provider.py:312-340 | the ends agree on each nonce if and only if the hello's nonce is colon-free; and when either list of names is comma-free, on the names up to order if and only if both are |
| `Handshake.NoncesCanShift` | souk_server/ws_provider.py:332-333 | a run in which a hello with a colon in its nonce attaches and the two ends hold different nonces |
| `Handshake.NamesCanJoin` | souk_server/ws_provider.py:334-336 | a run in which a hello of two names attaches on the proof of a provider of one, their join |
| `Handshake.MatchingFramesAttach` | souk_server/ws_provider.py:343-410 | four frames that read alike at both ends attach, whatever their fields |
| `Handshake.AgreementIsInjective` | docs/server-mode.md:123-174 | one run of the provider's handshake attaches at most one session anywhere |
| `Handshake.HonestExchangeAttaches` | docs/server-mode.md:123-174 | four frames delivered untouched attach any provider that pins nothing or pins this souk |
| `BridgeHandshake.AttachMeansTheBridgeSigned` | souk-client-sdk/souk_client_sdk/kyok_bridge.py:273-307 | a souk that attaches a bridge's key has a proof from one session of that bridge, reading end to end as this challenge |
| `BridgeHandshake.AttachIsEarned` | souk_server/ws_kyok.py:238-256 | the same for a bridge: one step, and only one, earned the attach |
| `BridgeHandshake.AnswerIsFinal` | souk_server/ws_kyok.py:238-256 | the first proof to answer decides under every continuation, as registration and signature say |
| `BridgeHandshake.AgreementIsExact` | souk-client-sdk/souk_client_sdk/kyok_bridge.py:273-307 | the ends agree on the souk's key and nonce if and only if what the bridge was shown as those is colon-free; on the bridge's nonce too if and only if the hello's is as well, and then the names are the offering if and only if the hello names one; names may hold colons |
| `BridgeHandshake.ColonFreeNamesAgree` | souk-client-sdk/souk_client_sdk/kyok_bridge.py:290-304 | with a colon-free hello and offering they agree on the bridge's nonce and the offering, whatever was shown |
| `BridgeHandshake.NoncesCanShift` | souk-client-sdk/souk_client_sdk/kyok_bridge.py:286-304 | a run in which the two ends hold different nonces |
| `BridgeHandshake.OneProofOneSession` | souk-client-sdk/souk_client_sdk/kyok_bridge.py:273-307 | one run of the bridge's handshake attaches at most one session anywhere |
| `BridgeHandshake.ProofNeedsNoSouk` | souk-client-sdk/souk_client_sdk/kyok_bridge.py:286-304 | the bridge answers every challenge, so unlike a provider's its proof need not follow a souk's signature |
| `Fnv.HashFingerprint` | souk-directory/src/layout.ts:24-31 | JavaScript's signed intermediates still give 32-bit FNV-1a (section 2 of draft-eastlake-fnv) |
| `Fnv.PublishedVectors` | souk-directory/src/layout.ts:24-31 | the published values of the empty string and of "a" |
| `Fnv.StepIsBijective` | souk-directory/src/layout.ts:27-28 | for a fixed character a step is a bijection on the 32-bit states |
| `Fnv.OneCharacterChangesTheHash` | souk-directory/src/layout.ts:24-31 | equal-length fingerprints differing in exactly one character never share a hash |
| `Layout.FindCell` | souk-directory/src/layout.ts:60-66 | the probing loop stops at the first free cell of the walk, or after one lap |
| `Layout.PlaceInOrder` | souk-directory/src/layout.ts:59-70 | the placing loop puts each stall on the cell its predecessors leave it |
| `Layout.PlaceStalls` | souk-directory/src/layout.ts:50-71 | the map is the sorted roster placed one by one |
| `Layout.LoneStallIsAtItsHash` | souk-directory/src/layout.ts:59-70 | a stall alone stands at its hash modulo the number of cells |
| `Layout.SecondStallIsOneStrideOn` | souk-directory/src/layout.ts:60-68 | of two stalls with one home the later-sorted stands one stride on, by the hash without its last eight bits |
| `Layout.LandingIsExact` | souk-directory/src/layout.ts:60-66 | a stall lands on somebody if and only if every cell congruent to its home modulo gcd(stride, cells) is occupied, and then on its home |
| `Layout.PlacementIsExact` | souk-directory/src/layout.ts:50-71 | every stall is in bounds, and shares a square with an earlier one exactly when its whole residue class was occupied |
| `Layout.CoprimeStridesNeverShare` | souk-directory/src/layout.ts:60-69 | strides coprime to the cell count and no more stalls than cells: all squares differ |
| `Layout.PrimeGridNeverShares` | souk-directory/src/layout.ts:60-69 | a prime cell count makes every stride coprime to it |
| `Layout.OrderOfRosterIsIrrelevant` | souk-directory/src/layout.ts:36-43 | with distinct fingerprints every ordering of the roster gives the same map |
| `Layout.ArrivalOrDepartureMovesNobody` | souk-directory/src/layout.ts:36-43 | a stall whose cell no later-sorted stall looks at comes or goes without moving anybody |
| `PodProbe.RunKeepsInv` | providers/pod-probe-agent/run.go:30-119 | under every schedule each run's part of the wire, its goroutine and the cancel map line up |
| `PodProbe.WireRestrictedToARun` | providers/pod-probe-agent/run.go:83-119 | one run's frames are a first part of ack, RUN_STARTED, three message events, RUN_FINISHED, finish; the finish is last and alone, and there once the goroutine is past it unless a write failed |
| `PodProbe.FramesSayWhatTheRunSaid` | providers/pod-probe-agent/run.go:83-119 | under every schedule, content on the wire is what the probe answered that run with, and the thread at its start and end is the one of its run frame |
| `PodProbe.AcceptedRunIsAnswered` | providers/pod-probe-agent/run.go:83-119 | an accepted run, under any schedule that gives its goroutine seven turns while no write fails, is on the wire whole, with the probe's answer |
| `PodProbe.UnparsedRunIsDeclined` | providers/pod-probe-agent/run.go:55-61 | a run frame that does not parse gets one declining ack and nothing else, whatever follows |
| `PodProbe.RunsNeverStartedSayNothing` | providers/pod-probe-agent/run.go:55-61 | a run that was not accepted leaves at most a declining ack |
| `PodProbe.CancelReachesItsRunAndNoOther` | providers/pod-probe-agent/run.go:127-151 | the cancel map is exactly the started runs not yet removed; a cancel read after its run frame, whatever steps come between lookup and call, cancels that run and changes no other |
| `PodProbe.LookedUpCancelIsKept` | providers/pod-probe-agent/run.go:144-151 | a looked-up cancel outlasts any number of goroutine steps |
| `PodProbe.CancelledOnlyByItsOwnCancel` | providers/pod-probe-agent/run.go:62-63 | a working run has been cancelled only if a cancel naming it was read |
| `PodProbe.CancelSet.Add` | providers/pod-probe-agent/run.go:132-136 | the map and its contexts follow the probe through the start of a run |
| `PodProbe.CancelSet.Remove` | providers/pod-probe-agent/run.go:138-142 | the map and its contexts follow the probe through a goroutine's last step |
| `PodProbe.CancelSet.Lookup` | providers/pod-probe-agent/run.go:144-147 | finds the context of a run exactly while it is in the map |
| `PodProbe.CancelSet.Fire` | providers/pod-probe-agent/run.go:148-150 | this run's context is cancelled, every other run's is as it was |
| `PodProbe.ExtractQuestion` | providers/pod-probe-agent/run.go:157-174 | the text of the last message of the user, or nothing |
| `PodProbe.ContentText` | providers/pod-probe-agent/run.go:176-195 | a string as it is, an array of parts put together in order, anything else nothing |
| `PodProbe.PartsKeepTheirOrder` | providers/pod-probe-agent/run.go:181-192 | the texts of parts are put together in the order of the parts |
| `CallChain.RoutesAreExactlyTheWalks` | souk-directory/src/agent.ts:276-281 | a path is a route if and only if it walks from the root to a leaf along parent-child edges |
| `CallChain.EachLeafEndsOneRoute` | souk-directory/src/agent.ts:260-281 | from left to right the routes end at the leaves, each leaf ending one |
| `CallChain.ArrowsAreEdges` | souk-directory/src/agent.ts:264-275 | the arrows drawn are the edges of the tree, all of them and no others |
| `CallChain.RoutesDetermineTheTree` | souk-directory/src/agent.ts:276-281 | regrouping routes by shared stops rebuilds the tree if and only if no node stands next to a sibling of the same id |
| `CallChain.DistinctTreesRoundTrip` | souk-directory/src/agent.ts:276-281 | the round trip for every tree with distinct ids |
| `CallChain.DifferentTreesDifferentRoutes` | souk-directory/src/agent.ts:264-275 | two different trees are never drawn alike, if in neither a node stands next to a sibling of the same id |
| `ChatStream.RunStream` | providers/openai-compat-agent/openai_compat_agent/main.py:58-102 | the generator yields what one would say by first reading everything and then telling it |
| `ChatStream.TranslationFollowsTheProtocol` | souk-agent-sdk/README.md:171-177 | for every upstream and failure point the events follow the protocol, with one terminal event, last, an error exactly on failure |
| `ChatStream.TranslationTellsWhatWasSaid` | providers/openai-compat-agent/openai_compat_agent/main.py:76-92 | the deltas put together are the content upstream sent before `[DONE]` or the failure |
| `ChatStream.ReadingEndsWhereItMust` | providers/openai-compat-agent/openai_compat_agent/main.py:76-97 | the first event that is no whole chunk ends the reading: done, unreadable, or a choice that raises; the failure is what raised there |
| `ChatStream.FailureIsTold` | providers/openai-compat-agent/openai_compat_agent/main.py:93-97 | a failed stream ends in the failure's own words |
| `ChatStream.BuildMessages` | providers/openai-compat-agent/openai_compat_agent/main.py:45-54 | the agent's prompt first, then every message that says something in a known role, in order |
| `ChatStream.RelayedMessageByMessage` | providers/openai-compat-agent/openai_compat_agent/main.py:48-54 | each message of a user, an assistant or the system that says something is relayed as it stands, any other is left out, in order |
| `History.ResentSuffix` | providers/pydantic-ai-agent/pydantic_ai_agent/history.py:67-88 | the run sees the last `limit` stored messages, then what was resent from before those, then the unsaved ones |
| `History.ThreadAsItHappened` | providers/pydantic-ai-agent/pydantic_ai_agent/history.py:67-88 | so it sees the last `limit` stored messages and the unsaved ones if and only if no more than the limit was resent |
| `History.MergeIsExact` | providers/pydantic-ai-agent/pydantic_ai_agent/history.py:67-88 | without a limit, a thread, a link, or an answer with messages the input is unchanged; otherwise the run sees the history and then exactly the messages whose id it does not hold |
| `History.MergeIsIdempotent` | providers/pydantic-ai-agent/pydantic_ai_agent/history.py:79-88 | merging twice is merging once, if and only if every message of the history carries an id |
| `History.MessagesWithoutIdsAreKept` | providers/pydantic-ai-agent/pydantic_ai_agent/history.py:79-88 | every message of the caller without an id is kept, in order |
| `History.MergeRepeatsNoId` | providers/pydantic-ai-agent/pydantic_ai_agent/history.py:79-88 | no id appears twice when neither input repeats one |

## Left out

- Souk core (`ProviderRuntime`, the broker, persistence) is not in the repository and not part of this model. Its answers are parameters of steps: whether a run validates, whether the runtime accepts it, whether attach succeeds, fresh ids, the thread store.
- Ed25519, JSON, asyncio and the WebSocket library: signatures are ideal, frames are values, queues are sequences, the socket is a reliable FIFO channel that may be cut at any point (RFC 6455).
- Durations: every timeout is a step that may happen whenever its wait is still open.
- Events and finishes that reach the gateway go to core, so only their delivery is modelled; error frames the gateway sends about them are left out of `ProviderRelay`.
- `_watch_registration`: when it fires is left out; the close frame it queues is any `Close` put on the queue in `SocketOpening`.
- Handshake.AttachMeansAgreement: is stated for souks that have an identity; a souk without one signs nothing, and only `Handshake.HonestExchangeAttaches` covers it.
- Handshake.AgreementIsExact: when both lists of names hold commas it leaves open whether they are the same names.
- Handshake.ClientsDecideAlike: `verify_signature` is not part of this model; it is taken to decode hex of either case, as the Go client does. Fields of another JSON type than a string or null are left out.
- BridgeHandshake.AttachMeansTheBridgeSigned: assumes a bridge's key signs only its own proofs and its HTTP calls, not the proofs of a provider that shares the key.
- Layout.PlaceStalls: needs at least one column and one row, because the page's arithmetic yields no number otherwise; `localeCompare` is modelled as code-point order, which agrees with it on lower-case hex.
- Layout.CoprimeStridesNeverShare: distinct cells are not claimed for other strides; `Layout.PlacementIsExact` says what happens there.
- KyokRelay.ReadIsPrefixOfYielded: the body of a request and the content of a chunk are opaque, and whether a chunk validates belongs to the chunk.
- KyokRelay.DropEndsStreams: a completion asked for on a link after its teardown is not told of the drop; its stream ends by the gap timeout alone.
- KyokProvider.AnswerStream.Close: a stream that was never started keeps its table entry, as in the source, until the socket goes.
- ProviderRelay.OfferAgreement: acks carry only the run id, so an answer is tied to some offer of that run, not to one particular offer.
- ProviderRelay.QueryEndToEnd: query ids are never minted twice; the lookup of a thread is one step.
- SoukClient.SoukProvider.OnOffer: the runtime answers within the same turn of the read loop, which waits for it in the source too; events the runtime reports meanwhile are not interleaved before the ack.
- PodProbe.WireRestrictedToARun: run ids are distinct; once a write has failed all later writes fail; the answer of the probe is any string.
- ChatStream.RunStream: a consumer that stops iterating sees a first part of these events.
- `startedTogether`, HTTP routers, registration calls, rendering, configuration, key files, pod probing and calls to language models: plumbing or foreign calls.
