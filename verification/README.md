# The tunnel protocol of grpc-datacon, modelled and proved in Dafny

An agent opens a gRPC connection to a controller. The controller accepts HTTP requests, hands each to a
waiting agent, and the agent runs it against a local service and streams the response back. This project
models that path step by step and proves what every run of it keeps.

One HTTP response crosses four goroutines: the producer (`RunHTTPRequest` driving `AgentEcho`), the sender
(`RunDataSender`), the receive loop (`DataFlowAgentToController` driving `ServerEcho`) and the writer
(`runEcho`). Around it are the session table, the stream table, and the header, URI and endpoint
translations.

## How it is organised

Code that changes things in place is a class or a method with loops, proved against a specification
function; the interleavings are labelled step systems (`Enabled`, `Apply`, `Run`) built on the same
functions; the theorems are about every run.

| module | models |
|---|---|
| `Tunnel` | the messages of `tunnel.proto` |
| `AgentChannel` | `AgentEcho`, the read loop, one dispatched request, `RunDataSender`; a send on a closed channel is a panic |
| `AgentGrammar` | what a dispatched request puts on its channel: grammar, cancellation, chunk arithmetic |
| `SharedBuffer` | the read buffer that is handed over without a copy |
| `ControllerEcho`, `DataFlows` | `ServerEcho`, the receive loop, and what a data flow makes of its events, message by message |
| `Response` | receive loop, `ServerEcho`, `runEcho` and a flush of one stream as a step system, for arbitrary events |
| `Pipeline` | all four goroutines, the two channels and the gRPC stream, with every fault; the invariant |
| `Delivery` | conservation, what a Done tells, agreement of the two state machines |
| `ClientOutput`, `Endings` | exactly what the client is sent, for every way a response ends, and when that is complete |
| `Progress` | deadlock freedom, termination, and when `runEcho` is left waiting |
| `Blocking` | when the agent's producer gets through its sends, and what a client that leaves holds up |
| `SenderRuns` | the sender of `Pipeline` sends what `RunDataSender` sends |
| `HeaderMap`, `Translation`, `Uri` | `http.Header`, header translation with mutation, `unmutateURI` |
| `EchoWriter` | `runEcho` on a response writer; the whole response from end to end |
| `Endpoints` | configuration, advertisement, routing and dispatch of endpoints |
| `Sessions`, `Streams`, `WaitLoop` | the two tables as classes, a data flow, `WaitForRequest` |
| `Expiry` | sessions against a clock |
| `Controller`, `ControllerRuns` | all agents, requests, data flows, sweeps and flushes as one step system |
| `Offers` | when a request on offer can still be taken by its agent |
| `Waiters` | a call of `WaitForRequest` among all others: it ends as the loop by itself, and for good |
| `Handling` | the API handler up to the handover of its request |
| `Tables` | the classes of `Sessions` and `Streams`, driven through whole runs of `Controller` by their methods |
| `Tunnels` | `Controller` with a `Pipeline` for every request taken: all responses at once |
| `TunnelRuns` | one response among all others: when it is left waiting, and when it is delivered |

How the parts are tied together: `AgentChannel.Dispatch` does exactly `Dispatched`, whose sends the producer
of `Pipeline` follows (`Delivery.ProducerFollowsDispatch`); the receive loop of `Response` is `React`, which
the method `ControllerEcho.ReceiveOne` carries out, and hands over the signals of `ReceiveLoop`
(`DataFlows.TurnsAgree`); the sender of `Pipeline` sends as `AgentChannel.RunDataSender` does
(`SenderRuns.SenderSendsAs`), and a call of WaitForRequest in `Controller` ends as `WaitLoop.WaitForRequest` does
(`Waiters.LeavesExactlyWhen`, `Waiters.EndsAsByItself`); the writer of `Response` sends what the loop of `runEcho`
sends on the selections of that same run (`EchoWriter.LoopSimulatesRun`); `Tables.CarryOutRun` drives the two
table classes by their methods through any run of `Controller`; and `Tunnels` runs `Controller` and the
pipelines together, with every handover, lookup, unregistration and flush a step of both.

## What the code does not do

Each is stated exactly: when it happens, for all inputs, and usually with a smallest case.

- After `Cancel` the read loop goes on, and a later `Data` or `Fail` sends on a closed channel:
  `AgentGrammar.PanicsExactlyWhen`, `AgentGrammar.CancelThenDataPanics`. The same lemma counts an endpoint
  without an instance, which the agent dereferences.
- A read of the upstream body that fails after the headers ends the response by Done. A response that ends so
  is sure to be complete exactly when the last read met the end of the body:
  `ClientOutput.DoneIsCompleteExactlyWhen`; and the client is sent the same either way:
  `ClientOutput.FailedReadLooksComplete`. Only a Content-Length among the agent's headers could tell.
- The producer gets through all its sends exactly when its data flow is opened, it does not panic and its read
  returns, whatever the network, a flush, the client and the writes do: `Blocking.GetsThroughExactlyWhen`. For a
  request without an endpoint the producer is the loop of `waitForRequest`, so a data flow that does not open
  keeps the agent from taking any request more: `Blocking.BlockedForEver`, `Blocking.UnopenedFlowBlocks`.
- A tunnel that breaks after the headers, a Cancel, a flush and a client's own connection end the response as
  well; the client has then been sent the beginning of it, `Endings.EveryEnding`, and a tunnel that breaks
  between two reads can look to it like a complete response: `Endings.CutLooksComplete`. With no headers sent,
  all these but the broken tunnel leave the answer to net/http.
- A client that leaves before the Done holds up the receive loop, the table entry and the agent's sender for
  ever; exactly a Done taken by `runEcho` lets them end: `Blocking.ClientGoneHoldsUp`.
- The chunk handed over shares the read buffer: a body is safe under every schedule exactly when neighbouring
  chunks agree, `SharedBuffer.IntactExactlyWhenCompatible`, `SharedBuffer.TwoChunksCanClash`.
- The contract in `http_echo.go` asks for no call after `Fail`, but `Shutdown` follows it and sends a second
  Done, exactly when the request or a read of the body failed. The controller has left its loop by then, so
  nothing is lost: `AgentGrammar.TranscriptThenClose`, `Progress.DeliversWithoutFaults`.
- Of a stream that is not flushed, whose client stays and whose writes succeed, once nothing more can happen to
  it `runEcho` is still waiting exactly when its request has not been sent to the agent, or the receive loop
  left silently (its stream ID never arrived, or the error had code Canceled), or the agent panicked or waits
  for a read with the stream up, or its lookup waits for the table: `TunnelRuns.WaitsExactlyWhen`, and for one
  pipeline by itself `Progress.StrandedExactlyWhen`, `Progress.CancelledCallStrands`, `Progress.StrandedForEver`.
- Such a lookup can still happen exactly when the flush that holds the table can end:
  `TunnelRuns.LookedUpExactlyWhen`. So another session's flush can keep a client waiting for ever:
  `TunnelRuns.WaitsForEver`.
- A flush waits, with the table locked, for handlers that may have returned. It can end exactly when none has;
  otherwise the table is locked for all agents for ever: `ControllerRuns.FlushFinishesExactlyWhen`,
  `ControllerRuns.WedgedForEver`, `ControllerRuns.ClientThenAgentLeaves`.
- `Ping` dereferences a missing entry exactly when its session is removed between its two lookups:
  `ControllerRuns.TouchPanicsExactlyWhen`, `ControllerRuns.ExpiryBetweenLookups`. Where only sweeps can remove
  it, two readings of the clock tell: `Expiry.LostExactlyWhen`.
- A request on offer can still be taken exactly when its session is in the table, or a `WaitForRequest` of the
  session waits, or sends a request on, or holds one that the table will let it register:
  `Offers.TakenExactlyWhen`. Otherwise its handler stays in its send for ever; that the session is out of the
  table is not enough.
- Header round trips hold exactly when kept names are canonical and have values:
  `Translation.RoundTripExactlyWhen`; an empty value list of a mutated header is an index panic
  (`NoFirstValue`).
- The agent dispatches to the first endpoint of a name and type, configured or not, the controller routes to a
  configured one; they agree exactly when no first endpoint hides a configured one:
  `Endpoints.DispatchExactlyWhen`, `Endpoints.ShadowExample`.
- An unmutated URI keeps its parts exactly when the recovered value has no slash: `Uri.UnmutatesThirdPart`.

## Model

| member | source | states |
|---|---|---|
| AgentGrammar.TranscriptThenClose | internal/serviceconfig/generic_endpoint.go:305-381 | a request that has an instance and is never cancelled sends one Headers, then Data of 1 to 10240 bytes carrying the bytes read, then one Done, or two iff the request or a read failed; a refused request sends headers with 502; the channel is closed once, after them, and no operation meets a closed channel |
| AgentGrammar.CancelledTranscript | internal/serviceconfig/generic_endpoint.go:348-364 | a cancelled request has sent Headers, the Data of the turns before the cancellation and Cancel when the channel is closed; it then panics iff a later operation remains |
| AgentGrammar.PanicsExactlyWhen | app/client/echo.go:108-150 | a dispatch panics iff its endpoint has no instance, or some turn finds the context cancelled and that turn or a later one reads bytes or an error other than EOF |
| AgentGrammar.CancelThenDataPanics | internal/serviceconfig/generic_endpoint.go:350-364 | one byte read after the cancellation is enough |
| AgentGrammar.BodyInChunks | internal/serviceconfig/generic_endpoint.go:347-371 | the Data messages carry the body whole and in order, and for L bytes there are between ceil(L/10240) and L of them |
| AgentGrammar.FullBuffer | internal/serviceconfig/generic_endpoint.go:347-360 | a read that fills the buffer of 10240 bytes goes in one message |
| AgentGrammar.DataCarriesBody | internal/serviceconfig/generic_endpoint.go:358-364 | the payload of the Data messages of any turns is the bytes those turns read |
| AgentGrammar.LoopIgnoresUnreached | internal/serviceconfig/generic_endpoint.go:365-379 | nothing is read after the first error: the loop does what it does on the turns up to it |
| AgentChannel.AgentEcho.Headers | app/client/echo.go:100-106 | one Headers on the channel, then `headersSent`; a closed channel panics before the flag is set |
| AgentChannel.AgentEcho.Data | app/client/echo.go:108-114 | one Data, whatever `closed` says |
| AgentChannel.AgentEcho.Fail | app/client/echo.go:116-128 | Headers with the code if none were sent, then Done; `closed` and the channel stay as they are |
| AgentChannel.AgentEcho.Done | app/client/echo.go:130-139 | the first of Done, Cancel and Shutdown sends and closes; later ones do nothing |
| AgentChannel.AgentEcho.Cancel | app/client/echo.go:141-150 | as Done, with a Cancel message |
| AgentChannel.AgentEcho.Shutdown | app/client/echo.go:47-55 | as Done |
| AgentChannel.RunReadLoop | internal/serviceconfig/generic_endpoint.go:346-380 | the loop over any reads leaves the echo's flags, channel and panic state as the specification of all its turns says |
| AgentChannel.Dispatch | app/client/main.go:144-161 | the same for a whole request: no such endpoint, an endpoint without an instance (a nil dereference before the first message), a request that cannot be built or executed, or a response |
| AgentChannel.RunDataSender | app/client/echo.go:58-98 | what reaches the stream is the stream ID and then the messages whose Send succeeded, or nothing if it does not open |
| AgentChannel.AllAccepted | app/client/echo.go:86-95 | when every Send succeeds these are the messages handed over, one by one in their order |
| AgentChannel.AcceptedAre | app/client/echo.go:86-95 | in general they are exactly those whose Send succeeded, once each, in their order |
| SenderRuns.SenderSendsAs | app/client/echo.go:76-95 | in every run of all four goroutines the sender tries what it is handed in order, puts on the stream what RunDataSender sends on those inputs, and what has arrived is a beginning of that |
| AgentChannel.ExecuteConcat | app/client/echo.go:100-150 | operations on a channel compose: a panic in the first part ends the goroutine, otherwise the second goes on where the first ended |
| SharedBuffer.IntactExactlyWhenCompatible | internal/serviceconfig/generic_endpoint.go:347-364 | with one buffer shared by reader and sender, every schedule sends the chunks as read iff each agrees with the next over their common length |
| SharedBuffer.TwoChunksCanClash | app/client/echo.go:86-95 | two different one-byte chunks are enough |
| SharedBuffer.ReadAheadRun | app/client/echo.go:86-95 | the schedule that always reads ahead puts each chunk on the wire as the next read left it |
| ControllerEcho.ServerEcho.Headers | app/server/echo.go:59-66 | accepted in `stateHeaders` only, and then `stateData` |
| ControllerEcho.ServerEcho.Data | app/server/echo.go:68-74 | accepted in `stateData` only |
| ControllerEcho.ServerEcho.Fail | app/server/echo.go:76-80 | accepted always; `stateDone` |
| ControllerEcho.ServerEcho.Done | app/server/echo.go:82-88 | accepted in `stateData` only, and the state stays |
| ControllerEcho.ServerEcho.Cancel | app/server/echo.go:90-94 | accepted always; `stateCanceled` once taken |
| ControllerEcho.ReceiveOne | app/server/server.go:144-173 | a turn of the receive loop: signal, state and whether it returns, for every event; EOF in a wrong state becomes a failure with 418 |
| ControllerEcho.ReceiveLoop | app/server/server.go:144-173 | the signals of a whole data flow, the state it leaves, and that it ends iff some event is the end of the stream, an error, a Cancel or a Done |
| ControllerEcho.ExitsExactlyWhen | app/server/server.go:145-167 | whatever the echo's state, the loop ends on these events and no other |
| DataFlows.WholeFlow | app/server/server.go:144-173 | headers, chunks and an end are handed to runEcho one by one in order: Done, Cancel and EOF end the response, an error not reported as Canceled fails it with 418; nothing after the end counts |
| DataFlows.EarlyEndSignals | app/server/server.go:110-114 | before the headers a Done is passed over, EOF and an error fail the response with 418 |
| DataFlows.PassedOver | app/server/echo.go:59-74 | a stream ID, a chunk before the headers and headers after the first change nothing of what is handed over |
| DataFlows.TurnsAgree | app/server/server.go:144-173 | the run of the step system in which receive loop and writer take turns hands over these signals, reaches this state, and ends the loop iff the flow ends |
| Response.ResponseWellFormed | app/server/service_server.go:227-271 | for all events on the data flow, with a flush, a client that leaves and failing writes anywhere: at most one WriteHeader, first; bytes only after it; nothing after the loop returns; nothing written is taken back |
| Response.OrderedRun | app/server/echo.go:59-94 | no data signal reaches the writer before the headers signal, and headers only once, in every run |
| Response.SilentAfterEnd | app/server/service_server.go:232-270 | once the writer has returned its output never changes |
| Pipeline.InvRun | app/server/server.go:130-174 | every run keeps the invariant of the pipeline: FIFO stations, the agent's grammar, close discipline, link, receive loop and byte accounts |
| Pipeline.FifoStep | app/client/echo.go:82-97 | every step keeps received, wire, lost, held and pending messages, in that order, equal to the stream ID and all that was produced |
| Pipeline.ProducingStep | internal/serviceconfig/generic_endpoint.go:346-380 | every step keeps Headers first and only first, only Done after a Done, and the payload produced equal to the bytes read |
| Pipeline.ClosingStep | app/client/echo.go:47-55 | every step keeps that a close comes last and after a Done or Cancel, which has then left the producer |
| Pipeline.LinkedStep | app/server/server.go:144-149 | every step keeps that messages are lost only on a broken or ended stream, and the sender closes it only after a Done or Cancel has been sent on |
| Pipeline.TrackingStep | app/server/server.go:144-173 | every step keeps state, offer and loop position what the messages received make them |
| Pipeline.AccountedStep | app/server/service_server.go:245-257 | every step keeps each received byte written, at the writer, on offer or discarded, the last only once the writer has returned |
| Delivery.Conservation | internal/serviceconfig/generic_endpoint.go:347-380 | in every run under every fault, written, discarded, writer, receiver, wire, lost, sender and producer bytes are in that order the bytes read; the client has a prefix of them |
| Delivery.DoneMeansComplete | app/server/service_server.go:238-239 | if a Done ended the writer, the client has the answer's status and headers and every byte the agent read, up to the end of the body or the read that failed |
| ClientOutput.DoneShows | app/server/service_server.go:232-270 | if a Done ended the writer, its output is the one the request determines, chunk by chunk, whatever the interleaving |
| ClientOutput.DoneIsCompleteExactlyWhen | internal/serviceconfig/generic_endpoint.go:365-378 | such a response is sure to be the complete upstream body iff there was an upstream response and its last read met EOF |
| ClientOutput.FailedReadLooksComplete | internal/serviceconfig/generic_endpoint.go:371-378 | whether the last read met EOF or failed, the client is sent the same |
| Endings.EveryEnding | app/server/service_server.go:232-270 | for every run and every ending the output is the beginning of the response the request determines, the last event cut short only if its write failed; a failure before the headers is 418, any other ending before them writes nothing |
| Endings.CutLooksComplete | app/server/server.go:150-158 | wherever between two reads the tunnel breaks, the client can have been sent exactly a complete response of the reads so far |
| Delivery.DropsExactlyAfterFlush | app/server/server.go:161-172 | an ignored programmer error drops a message iff the stream was flushed before and the message is not a Cancel; EOF is never met |
| Delivery.ProducerFollowsDispatch | app/client/main.go:145-161 | the producer of every run makes a prefix of what the dispatched request sends, and all of it once it has ended |
| Delivery.ReceivedInOrder | app/client/echo.go:76-97 | the receiver has seen a prefix of the stream ID followed by what the dispatched request sends |
| Progress.WorkUsesUp | app/client/echo.go:47-139 | every step of the four goroutines, in any state, lowers the weight of what is left |
| Progress.Terminates | app/client/echo.go:58-98 | so a run of such steps is no longer than the weight of its first state |
| Progress.NeverStuck | app/server/service_server.go:232-270 | without faults, some step is possible until all four goroutines have returned |
| Progress.DeliversWithoutFaults | app/server/server.go:144-173 | a run without faults is bounded, and when it can go no further all have returned, by Done, with status, headers and every byte the agent read delivered, also on the paths with two Done |
| Progress.StrandedExactlyWhen | app/server/server.go:133-158 | for every request and whatever the network does, with no flush, no failing write and a client that stays: when nothing more can happen the writer still waits iff the receive loop left without a word to the echo, or the agent panicked or waits for a read with the stream up and no Done or Cancel received |
| Progress.CancelledCallStrands | app/server/server.go:152-155 | every request can be left so, by a cancelled call |
| Progress.StrandedForEver | app/server/service_server.go:232-240 | and nothing but the client or a flush ends the wait |
| Blocking.BlockedForEver | app/client/echo.go:63-67 | a producer whose data flow did not open never gets past its first send |
| Blocking.UnopenedFlowBlocks | app/client/main.go:146-154 | a request for no endpoint can be blocked so, in the loop that takes the agent's requests |
| Blocking.GetsThroughExactlyWhen | app/client/main.go:144-161 | for every request and every run: when nothing more can happen, the producer has returned with all its sends made iff its data flow was opened, it has not panicked and it does not wait for a read |
| Blocking.ClientGoneHoldsUp | app/server/service_server.go:234-237 | when nothing but a leaving client disturbs a run and nothing more can happen: either all four have returned by Done, or the client has left, the receive loop is in a send to the echo, the stream is in the table and the sender waits for the end of the data flow |
| HeaderMap.HttpHeaders.AddValues | internal/serviceconfig/headers.go:50-52 | all values of a name, in order, under its canonical name |
| HeaderMap.AddedAllIs | internal/serviceconfig/headers.go:50-52 | adding values one by one appends the list, and adds no entry for an empty one |
| HeaderMap.FilledKeys | internal/serviceconfig/headers.go:39-56 | only canonical names are added, none without a value; what was there stays a prefix |
| HeaderMap.FilledExactlyWhen | internal/serviceconfig/headers.go:39-56 | a list with distinct names fills an empty map with what it lists iff its names are canonical and none is without a value |
| HeaderMap.CanonicalAt | internal/serviceconfig/headers.go:48-52 | the canonical form of a field name, letter by letter |
| HeaderMap.CanonicalElse | internal/serviceconfig/headers.go:48-52 | a name with a character no field name has is left alone |
| HeaderMap.EqualFoldIs | internal/serviceconfig/headers.go:30-37 | names case-fold alike iff they do letter by letter |
| Translation.ContainsFolded | internal/serviceconfig/headers.go:30-37 | true iff some entry case-folds to the name |
| Translation.HTTPHeadersToPB | internal/serviceconfig/headers.go:58-74 | for every order of the map a list that translates it, or an error, only if mutation is registered and some X-Spinnaker-User has no value or cannot be signed |
| Translation.SentAre | internal/serviceconfig/headers.go:60-72 | such a list has every name once, with its values, but the first value of X-Spinnaker-User signed if mutation is registered, and no name that case-folds to Authorization |
| Translation.PBHeadersToHTTP | internal/serviceconfig/headers.go:39-56 | the header map and error of the whole list, including what was added before an error |
| Translation.NoForgery | internal/serviceconfig/headers.go:41-47 | with mutation registered, a list with an X-Spinnaker-User that has no value or does not validate is refused |
| Translation.ErrorComes | internal/serviceconfig/headers.go:41-47 | and only such a list is |
| Translation.ValuesCome | internal/serviceconfig/headers.go:39-56 | every value received was given by a header of that canonical name, a validated one if it is X-Spinnaker-User under mutation |
| Translation.RoundTripExactlyWhen | internal/serviceconfig/headers.go:39-74 | sign and validate inverse: no error, and the map arrives as it should iff kept names are canonical and have values |
| Translation.HeadersArrive | internal/serviceconfig/headers.go:39-74 | name by name: of canonical names with values exactly those arrive that do not case-fold to Authorization, with their values, or the first of X-Spinnaker-User under mutation |
| Translation.NothingStrippedArrives | internal/serviceconfig/headers.go:69-71 | no name that case-folds to Authorization is sent |
| Translation.PlainTrip | internal/serviceconfig/headers.go:58-74 | mutation unregistered, name by name: the names that do not case-fold to Authorization arrive with their values, and no other, iff they are canonical and have values |
| Uri.JoinOfSplit | internal/serviceconfig/generic_endpoint.go:201-206 | joining what was split is the identity |
| Uri.SplitsBackExactlyWhen | internal/serviceconfig/generic_endpoint.go:201-206 | splitting what was joined is the identity iff no part has a slash |
| Uri.UnmutatesThirdPart | internal/serviceconfig/generic_endpoint.go:191-209 | exactly the signed part is replaced by its original; the result has the same other parts iff the original has no slash |
| Uri.UnchangedExactlyWhen | internal/serviceconfig/generic_endpoint.go:191-209 | a URI comes back as it was iff it is not a fiat GET with at least three parts, the second "authorize", and mutation registered, or its token stands for itself |
| Uri.RefusedExactlyWhen | internal/serviceconfig/generic_endpoint.go:202-205 | and is refused iff it is such a one and its token does not validate |
| EchoWriter.RunEcho | app/server/service_server.go:227-271 | output and header map after any selections, with short and failing writes |
| EchoWriter.ClearHeader | app/server/service_server.go:260-262 | for every order of the map, deleting while ranging leaves exactly the names that are not canonical |
| EchoWriter.ResponseWriter.Write | app/server/service_server.go:245-256 | what is written, and what the caller is told |
| EchoWriter.WriteEnds | app/server/service_server.go:245-256 | the loop ends on a write that fails or falls short, having sent what was accepted |
| EchoWriter.FailureSends | app/server/service_server.go:240-244 | a failure sends its code before the headers and nothing after them |
| EchoWriter.TurnSimulatesStep | app/server/service_server.go:232-270 | a step of the writer in module Response is a turn of the loop on a header map, or not a turn at all |
| EchoWriter.LoopSimulatesRun | app/server/service_server.go:232-270 | for every run of the controller side, the loop on exactly the selections that run makes has the same output |
| EchoWriter.ClientSees | app/server/service_server.go:258-268 | after a Done, the loop on what the run handed it has sent the answer's status, the map its headers fill and every byte the agent read |
| EchoWriter.ResponseArrives | internal/serviceconfig/generic_endpoint.go:291-303 | end to end, for every run without faults that can go no further and every map order: the loop on what that run handed it has sent the status, every byte the agent read, and, name by name, the agent's headers that do not case-fold to Authorization and no other, the last iff those names are canonical and have values |
| EchoWriter.Int32Is | internal/serviceconfig/generic_endpoint.go:296-299 | the status sent is the one of 32 bits that is the same modulo 2 to the 32 |
| Endpoints.ConfigureEndpoints | internal/serviceconfig/endpoints.go:71-137 | the endpoints of the enabled services in order, one per namespace where there are any |
| Endpoints.EndpointsOf | internal/serviceconfig/endpoints.go:103-132 | which endpoints one service gives, field by field, and where in the list |
| Endpoints.OfferedExactlyWhen | internal/serviceconfig/endpoints.go:75-136 | a name and type is offered iff an enabled service provides it; configured iff a processor is attached |
| Endpoints.EndpointsToPB | internal/serviceconfig/endpoints.go:50-67 | each endpoint's fields and, for every order of the map, each annotation once |
| Endpoints.StoreEndpoints | app/server/sessions.go:69-81 | what the session keeps of each advertised endpoint |
| Endpoints.CollectedAt | app/server/sessions.go:71-74 | of annotations of one name the last is kept |
| Endpoints.AdvertisementArrives | app/server/sessions.go:66-93 | the stored list equals the agent's in name, type, configured flag and annotations |
| Endpoints.FindEndpoint | app/client/main.go:165-172 | the first endpoint of that name and type, or none |
| Endpoints.RoutedIsFound | app/server/sessions.go:101-114 | what the controller routes to an agent the agent finds |
| Endpoints.DispatchExactlyWhen | app/client/main.go:147-154 | it is a configured endpoint, for all names and types, iff no first endpoint of a pair hides a configured one |
| Endpoints.ShadowExample | app/client/main.go:165-172 | an unconfigured endpoint before a configured one of the same pair breaks it |
| Sessions.AgentSessions.RegisterSession | app/server/sessions.go:139-145 | one new session under its own key, with what was advertised; the others stay |
| Sessions.AgentSessions.RemoveSession | app/server/sessions.go:147-156 | exactly the session's key goes |
| Sessions.AgentSessions.FindSession | app/server/sessions.go:116-125 | the session of a key, or none |
| Sessions.AgentSessions.Find | app/server/sessions.go:101-114 | a session found is of the target's agent and has a configured endpoint of its name and type; none is found iff no session has both, for every order of the map |
| Sessions.AgentContext.Offers | app/server/sessions.go:106-110 | true iff a configured endpoint matches |
| Sessions.AgentSessions.TouchSession | app/server/sessions.go:158-162 | only that session's last use changes; a missing entry panics |
| Sessions.AgentSessions.ExpireOldSessions | app/server/sessions.go:178-189 | exactly the overdue sessions go, for every order of the map |
| Streams.StreamManager.Register | app/server/stream.go:44-53 | one entry is set, the others stay |
| Streams.StreamManager.Unregister | app/server/stream.go:55-59 | one entry goes |
| Streams.StreamManager.Find | app/server/stream.go:61-66 | the entry, or none |
| Streams.StreamManager.Targets | app/server/stream.go:77-83 | exactly the session's stream IDs, each once |
| Streams.StreamManager.FlushOne | app/server/stream.go:84-87 | one stream's echo cancelled and its entry gone |
| Streams.StreamManager.FlushAgent | app/server/stream.go:68-90 | exactly the session's streams go, each echo cancelled as often as it stood for one of them; the others are untouched |
| Streams.CancelledOnce | app/server/stream.go:74-90 | in a table whose streams sit under their echoes' IDs that is once for the session's and never for the others |
| Streams.DataFlow | app/server/server.go:116-174 | a data flow opens iff its first message is a registered ID; it gives that ID's echo, and no other, the signals of the later events; it returns and removes that entry iff one of them is the end of the stream, an error, a Cancel or a Done, and otherwise still receives |
| WaitLoop.CloseAgentSession | app/server/server.go:80-83 | session and streams gone, nothing else |
| WaitLoop.WaitForRequest | app/server/server.go:85-108 | fails iff there is no session; registers every request before sending it; returns iff the context ends or a send fails, and then no entry of the session is left in either table |
| WaitLoop.RegisteredLast | app/server/server.go:99-101 | every request the loop gets to is registered with its own echo, the one whose send fails as well |
| WaitLoop.RegisteredElse | app/server/server.go:93-107 | and no entry changes otherwise |
| Waiters.EndsForGood | app/server/server.go:95-104 | after a send that failed or the end of its context a call takes, registers and sends nothing in any continuation |
| Waiters.LeavesExactlyWhen | app/server/server.go:93-107 | in every run a call leaves its loop iff the context ended or a send failed among what that run gave it |
| Waiters.EndsAsByItself | app/server/server.go:80-107 | where the other calls and flows leave the stream table alone, a call leaves both tables as WaitForRequest run by itself on the same inputs |
| Waiters.ClosedForGood | app/server/sessions.go:147-156 | a session whose call has closed it is in the table in no continuation |
| Waiters.FlushLeavesNone | app/server/stream.go:74-90 | when a call's flush ends no stream of its session is in the table |
| Waiters.TakenByItsSession | app/server/service_server.go:186-212 | in every run a request is taken only by a call that was opened for the session its handler found |
| Waiters.TakenOnce | app/server/server.go:99 | no run takes a request twice |
| Waiters.SentAre | app/server/server.go:101 | the requests known as sent are exactly those a run sent on |
| Waiters.TakesAre | app/server/server.go:99 | the requests known as taken are exactly those a run took, in their order |
| Waiters.DeliveriesAre | app/server/server.go:161-172 | the deliveries known are exactly those of a run's data flows, in their order |
| Waiters.EndsInOrder | app/server/server.go:80-107 | a call closes its session, begins its flush, ends it and returns in this order, each once |
| Handling.RunAPIHandler | app/server/service_server.go:183-223 | the request goes to a session of the addressed agent with the service configured and carries ID, service, method, URI, body and translated headers; 502 iff there is no such session, 503 only if the body cannot be read or a header cannot be sent |
| Handling.AgentFindsIt | app/client/main.go:147-165 | the agent whose endpoints the session keeps finds an endpoint for the request's name and type |
| WaitLoop.FlushUndoesRegistering | app/server/stream.go:74-90 | registering requests under new IDs and flushing leaves the table as if they had never been |
| Expiry.IdleBound | app/server/sessions.go:164-189 | with sweeps on time no session in the table has been idle longer than timeout + 10 s, at any time |
| Expiry.IdleBoundIsReached | app/server/sessions.go:164-189 | the bound is reached for every timeout of whole ticks |
| Expiry.SurvivesExactlyWhen | app/server/sessions.go:178-189 | expiry spares a session iff every sweep finds it used within the timeout |
| Expiry.LostExactlyWhen | app/server/server.go:66-72 | left to the sweeps between the lookups of a Ping, a session is lost iff there was a sweep and the last one came later than the timeout after its last use |
| Expiry.LostAfter | app/server/sessions.go:66-93 | a session registered or touched now and then left alone is lost iff a sweep came later than the timeout after now |
| Expiry.RemovedIsGone | app/server/sessions.go:147-156 | a removed session is in the table in no continuation until it is registered anew |
| Expiry.PacedSurvives | app/server/server.go:66-78 | a session used at gaps of at most the timeout is never expired |
| Controller.InvRun | app/server/server.go:85-142 | every run keeps the invariant of the controller |
| Controller.MatchedStep | app/server/stream.go:44-66 | every step keeps stream IDs, echoes, handlers and requests matched wherever they are kept |
| Controller.HeldOnceStep | app/server/server.go:99-101 | every step keeps a request with one waiter at most and unregistered until that waiter registers it |
| Controller.AccountedStep | app/server/server.go:99-106 | every step keeps what is sent registered, and what is registered in the table, ended or flushed |
| Controller.LockHeldStep | app/server/stream.go:68-90 | every step keeps the lock with the one flush under way, which has exactly its session's remaining streams to do |
| Controller.GuardedStep | app/server/server.go:80-107 | every step keeps, for each stream in the table, a waiter of its session that has yet to flush |
| ControllerRuns.Isolation | app/server/service_server.go:209-224 | each request is taken at most once, by its own session; handlers run only with what came over flows opened with their own ID; no two share one |
| ControllerRuns.StageNeverFalls | app/server/server.go:116-142 | a stream ID goes from fresh to offered, registered and over, never back |
| ControllerRuns.StreamIdLifeCycle | app/server/server.go:99-106 | and an ID an agent was sent is found, with its own echo, unless a flow for it ended or it was flushed |
| ControllerRuns.StreamsHaveWaiters | app/server/server.go:80-107 | every stream in the table has a waiter of its session that has not flushed |
| ControllerRuns.CleanupIsPermanent | app/server/server.go:80-107 | once a removed session's last waiter has flushed, no stream of it exists or is registered again, and an untaken request stays untaken |
| Offers.TakenExactlyWhen | app/server/service_server.go:212-223 | a request on offer is taken in some continuation iff its session is in the table, or a waiter of the session waits, or is sending, or holds a request and the table is free or its flush can end |
| Offers.ForsakenForEver | app/server/server.go:91-106 | a request for which none of this holds stays in its send in every continuation |
| ControllerRuns.TouchPanicsExactlyWhen | app/server/sessions.go:158-162 | the second lookup of Ping fails iff the session was removed after the first |
| ControllerRuns.ExpiryBetweenLookups | app/server/server.go:66-72 | one sweep between them is enough |
| ControllerRuns.WedgedForEver | app/server/stream.go:84-87 | a flush that meets a handler that has returned keeps the lock for ever, and no stream of any agent is registered, found or unregistered again |
| ControllerRuns.FlushFinishes | app/server/stream.go:74-90 | a flush whose handlers are all listening can end, having removed exactly its session's streams |
| ControllerRuns.FlushFinishesExactlyWhen | app/server/stream.go:68-90 | a flush under way can end iff every handler it has to cancel is still in runEcho |
| ControllerRuns.ClientThenAgentLeaves | app/server/service_server.go:234-237 | a client that leaves before its agent is enough to wedge the table |
| Tables.CarryOut | app/server/server.go:53-108 | the calls a step stands for change the two tables as the step says |
| Tables.CarryOutRun | app/server/sessions.go:139-189 | driven by these calls through any run, the objects hold the sessions and streams the step system says, each stream under the ID its echo was made with |
| Tables.FlushInOneCall | app/server/stream.go:74-90 | one call of FlushAgent leaves the objects where the steps of a flush lead |
| Tables.AgreeStep | app/server/stream.go:44-59 | every step keeps the classes' tables and the step system's in agreement |
| Tunnels.HandlersServeTheirOwn | app/server/service_server.go:209-224 | in every run of all responses together: what a handler has sent is exactly what the pipeline of its own stream ID says, as that would run by itself; so it is well-formed, a prefix of what the agent read for that request, and after a Done the response the request determines; and the controller runs as it would by itself |
| Tunnels.CoherentRun | app/server/server.go:116-142 | every run keeps controller and pipelines coherent: flows and receive loops, table and registration, lock and flush, handlers and writers, signals and their handler |
| Tunnels.CreditedStep | app/server/server.go:161-172 | every step keeps what each handler has sent equal to its own pipeline's output |
| Tunnels.NothingIsHeldUp | app/server/stream.go:44-90 | whatever a pipeline could do by itself it can do among the others, but for a lookup or unregistration while the table is locked |
| Tunnels.FlushBegins | app/server/stream.go:68-83 | a flush the controller could begin begins in every pipeline of its session |
| TunnelRuns.StreamRun | app/server/service_server.go:209-224 | what happens to a stream in a run of all of them is a run of its own pipeline |
| TunnelRuns.WaitsExactlyWhen | app/server/service_server.go:232-240 | in every run of all responses, of a stream without flush, leaving client or failing write to which nothing more can happen: the writer still waits iff the request was never sent, the receive loop left silently, the agent halted, or the lookup waits for a held table |
| TunnelRuns.LookedUpExactlyWhen | app/server/stream.go:61-72 | a lookup that waits for a held table happens in some continuation iff every handler the flush has yet to cancel is in runEcho |
| TunnelRuns.WaitsForEver | app/server/stream.go:84-87 | a wedged flush of another session keeps a runEcho whose lookup is to come waiting in every continuation in which its client stays |
| TunnelRuns.DeliversAmongOthers | app/server/service_server.go:212-224 | a request that its agent has, whose body ends uncancelled and whose own stream is undisturbed has been delivered whole when nothing more can happen to it and the table is free, whatever happens to the others |

## Left out

- gRPC, TLS, HTTP listeners, metrics, tracing, logging, flags and YAML: a stream is a FIFO that may be cut with
  any part of what is on it lost, and then gives an error with or without code Canceled.
- The HTTP fetch is a `Job`: a status, headers and the results of its reads, or the step at which it failed.
- Signing and validation, with their keys and validity periods: two functions, assumed inverse where that is said.
- ULIDs: an ID not used before.
- Time of day: `Expiry` takes a clock that never passes a tick whose sweep has not run, and integers without
  the 64-bit bound of nanoseconds.
- Credentials, `x-opsmx-agent-name`, certificates, secrets, the control API, configuration defaults and
  statistics: one-branch facts that would only add easy members.
- `closechan`, `LastPing`, `ConnectedAt`, `Namespaces` on the controller: stored and not read by the protocol.
- Pipeline.InvRun: chunks are values; `SharedBuffer` says exactly when that is true of the code.
- Pipeline.InvRun: the mutex of AgentEcho is not modelled, because one goroutine at a time calls the echo; nor
  are the turns of the sender's select that only see the end of its context.
- Pipeline.InvRun: OpenFails stands both for a stream that does not open and for a first Send that fails.
- Response.ResponseWellFormed: one data flow for each stream ID, as in `Pipeline` and `Tunnels`, since an agent
  opens one; a second flow under the same ID is possible in `Controller`, which does not look into the messages.
- Tunnels.HandlersServeTheirOwn: an agent that panics takes all its responses with it; here each pipeline panics
  for itself, and its stream may be cut at any time.
- Response.ResponseWellFormed: `w.WriteHeader` takes any status; the panics of net/http for codes outside 100
  to 999 and its treatment of 1xx are not modelled.
- Streams.StreamManager.FlushOne: the wait for the echo's reader is left to `ControllerRuns`, `Response` and
  `Tunnels`, as for FlushAgent.
- Streams.StreamManager.FlushAgent: one call by itself, in which each echo's signal is taken at once; the wait for
  its reader with the table locked is in `ControllerRuns`, `Response` and `Tunnels`.
- Streams.DataFlow: one call by itself; the interleaving of calls is that of `Controller`, `Response` and `Tunnels`.
- WaitLoop.WaitForRequest: one call by itself, in which the echoes flushed are taken at once; waiting for them
  is in `ControllerRuns`.
- AgentChannel.AgentEcho.Data: what has been handed over is recorded; the wait for the receiver is in `Pipeline`.
- AgentChannel.RunDataSender: one call by itself; its place among the other goroutines is in `Pipeline`.
- Translation.ContainsFolded: case folding beyond ASCII is modelled as far as it can equal an ASCII letter.
- Endpoints.ConfigureEndpoints: whether MakeGenericEndpoint configures a service is a parameter; the fatal
  errors of unreadable configuration are left out.
- EchoWriter.ResponseArrives: mutation unregistered on the agent, headers the server adds itself not included.
- The request's way to the agent, apart from its ID and session: its headers are covered by `Translation`.
