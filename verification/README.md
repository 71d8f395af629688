# A verified model of the gort gateway

gort connects chat platforms to programs over a JSON-RPC 2.0 gateway: a WebSocket server and
client that exchange requests, notifications and responses, a table of sessions behind it, and
channel adapters (Telegram, iMessage and others) beside it. This project models the parts of it
whose correctness spans several functions and goroutines, and proves what they promise.

Concurrency is modelled by step systems. A step is what one goroutine does between two points at
which another may run; `Enabled` says when it can happen, `Apply` what it does, and the theorems
hold for every run, that is, for every interleaving. Code that changes fields in place also
appears as a class whose methods are proved against the same functions.

| file | models |
|---|---|
| `Wire.dfy` | splitting, trimming and skipping of lines by both readers |
| `Messages.dfy` | JSON-RPC message shapes, their decoding, and the two classifiers |
| `Pipeline.dfy` | the path from `sendToClient` to the client's line loop, as steps on messages |
| `TextPipe.dfy`, `Rendering.dfy` | the same path on text, and that it refines the former |
| `WritePump.dfy` | the queue and the write pump's loops as methods, and the batching arithmetic |
| `Dispatch.dfy` | the server's dispatch, frame by frame: first-message gate, handlers, responses owed, what ends the program |
| `ClientCore.dfy`, `ClientClass.dfy` | the client's calls, pending table and close protocol |
| `ServerCalls.dfy` | the server's own calls to a client |
| `Gateway.dfy`, `GatewayRuns.dfy` | client, server and pipeline together, and runs from end to end |
| `Hub.dfy` | the server's client table, broadcast and shutdown, and sends from outside its lock |
| `Sessions.dfy`, `SessionRuns.dfy` | the session table, reassembly, and timed runs |
| `Telegram.dfy` | the long-poll cursor |
| `Token.dfy` | the token manager over timed runs |
| `Option.dfy`, `Powers.dfy` | an option type; powers of two |
| `Escape.dfy`, `Backoff.dfy`, `HandleIndex.dfy`, `Registry.dfy` | escaping, reconnect delays, the iMessage handle index, the channel registry |

## Conventions and assumptions

- Ids that come from `uuid.New` are fresh. A step that uses one requires that no other has it.
- `json.Marshal` output is non-empty, has no newline and no white space at its ends (`Wire.Clean`).
- Handlers may do anything that takes finitely long; how each ends is part of the step.
- `Dispatch.Env` lets the authenticator answer its n-th question as it likes, and methods be
  registered between any two lines.
- When the server has closed a connection, its next read may fail or may still yield a frame that
  the WebSocket library had buffered; the lines of the frame in hand are dispatched in any case.
- A run-time panic ends the run: nothing in the package recovers from one. Deferred functions of
  the goroutine that panics, such as the exit of `readPump` with its disconnect handler, and other
  goroutines may go on for a moment before the process ends; the model does not follow them.
- Times and lifetimes are integers; steps that the source runs on tickers happen when the ticker
  is due. In `SessionRuns` the ticker's removals take no time on the scale of its ten seconds.
- Telegram updates come in with rising ids, and an answer holds the earliest of those from the
  offset on that have come in.

## Findings

Some properties that one would expect do not hold of the code as it is. The model keeps the code's
behaviour, and for each of them gives an input or a run and the exact condition.

- A handler that returns nil is answered with `"result":null`, which the client does not take for a
  response, so the call goes on waiting (exactly then: `Gateway.ReplyFindsItsCaller`).
- On either side a response whose id is an array or an object ends the program, because Go cannot
  look such an id up in a map. On the server one line of a client's does it, and requests whose
  handlers are running then get no response (`Dispatch.PanicExactly`, with the run
  `Dispatch.FatalLineLeavesADebt`).
- A send on a queue that `removeClient` has closed panics as well, full or not. So a client that goes
  away while its requests are being served ends the server: the first handler to end after the
  exit of `readPump` does it, exactly then (`Dispatch.LateHandlerPanics`, with the run
  `Dispatch.ClientLeavesHandlerRunning`). Server.Call and Notify, whose look-up and send are two
  steps, meet the same (`ServerCalls.ServerTable` with `ServerCalls.CallMeetsRemoval`,
  `Hub.SendsOnClosedExactly` with `Hub.NotifyMeetsRemoval`); Broadcast, which sends under the lock,
  does not (`Hub.BroadcastMeetsOpenChannels`).
- Nothing else in the dispatch ends the program (`Dispatch.CrashedExactly`), and the running handlers
  can still answer exactly if neither has happened: no panic, and no exit that closed the queue
  (`Dispatch.OneResponseEach`).
- A client panics in two more cases (`ClientCore.CrashExactly`): `handleResponse` looks a channel
  up and sends on it in two steps, and a Close in between makes the send panic
  (`ClientCore.CloseDuringDelivery`); and Call or Notify before a successful Connect writes to a
  connection that is not there (`ClientCore.CallBeforeConnect`).
- A connection whose first message was turned down, and which is closed for it, can still be let in
  and served: the remaining lines of the same frame, and frames that are buffered already, reach the
  authenticator (`Dispatch.RejectedYetServed`, for both). A line is accepted after a rejection
  exactly if it is read and is the first yes since (`Dispatch.AcceptedAfterRejection`); a
  rejection is final once a read has failed with no yes since (`Dispatch.RejectionIsFinal`).
- `normalizeHandle` is not idempotent (`HandleIndex.NotIdempotent`; exactly when:
  `HandleIndex.NormalizedForGood`).
- Token lifetimes below the refresh interval plus 30 seconds, or an initial token that lasts no
  longer, leave gaps (`Token.GapBelow`; exactly then: `Token.NoGapExactly`). And the refresh loop
  returns when the context given to Start ends, after which GetToken fails in time although
  nobody has called Stop (`Token.CancelLeavesAGap`).

## Model

| member | source | states |
|---|---|---|
| Wire.SplitFrame | pkg/gateway/client.go:340-346 | the readers' scan yields exactly the trimmed, non-empty pieces between newlines |
| Wire.TrimMeans | pkg/gateway/server.go:650 | trimming takes off all white space at both ends and nothing else |
| Wire.LinesAreClean | pkg/gateway/server.go:648-655 | whatever a frame contains, only clean lines reach the dispatcher |
| Wire.LinesAppend | pkg/gateway/server.go:648-655 | a newline separates messages whatever stands beside it |
| Wire.PaddedLine | pkg/gateway/client.go:341-346 | white space around a line, a carriage return say, is taken off and nothing else |
| Wire.SpaceExactly | pkg/gateway/server.go:650 | the code points that count as white space |
| Wire.BatchRoundTrip | pkg/gateway/server.go:861-866 | a batch frame is read back as exactly the messages written into it |
| Wire.SplitBatch | pkg/gateway/server.go:861-866 | a batch's text has its messages between single newlines and nothing else |
| Wire.WriteJSONRoundTrip | pkg/gateway/client.go:169-174 | the client's one-message frames are read back as that message |
| Messages.ClassifiersAgree | pkg/gateway/types.go:55-75 | on objects client and server classify alike except exactly on a result or error without id, or an id without either |
| Messages.ClassifiersOffObjects | pkg/gateway/server.go:690-711 | how both classify text that is no object, and that none of it is served as a request |
| Messages.DecodesStrictly | pkg/gateway/types.go:10-52 | members of the wrong type are refused, null members count as none |
| Messages.ErrorsDecodeStrictly | pkg/gateway/types.go:34-39 | an error's code is a 64-bit integer and its message a string |
| Messages.EncodedRequest | pkg/gateway/types.go:10-16 | a request on the wire, member by member |
| Messages.EncodedNotification | pkg/gateway/types.go:27-32 | a notification on the wire, member by member |
| Messages.EncodedResponse | pkg/gateway/types.go:18-25 | a result and an error on the wire, member by member |
| Messages.RequestRoundTrip | pkg/gateway/types.go:11-16 | a built request is read back as itself, and by the server as a request exactly when it has an id |
| Messages.NotificationRoundTrip | pkg/gateway/types.go:28-32 | a built notification is read back as itself, and as a notification on both sides |
| Messages.ResponseRoundTrip | pkg/gateway/types.go:19-24 | a built response is read back as itself; the client sees a response exactly when it has an id and an error or non-null result |
| Messages.ResponsesInjective | pkg/gateway/types.go:19-24 | different responses look different on the wire |
| Pipeline.StepKeeps | pkg/gateway/server.go:839-866 | every step of sender, pump, wire and reader keeps all messages in order and the shape of the loop |
| Pipeline.SendKeeps | pkg/gateway/server.go:940-962 | a message joins the accepted ones exactly when it meets fewer than 256 queued |
| Pipeline.Conservation | pkg/gateway/server.go:839-962 | over every run: read, in flight and queued is exactly what was accepted, in order; nothing is missing while the connection works |
| Pipeline.DrawNeverBlocks | pkg/gateway/server.go:862-865 | in every run the inner receive finds a message, its counter stays within 256 and a frame within 257 messages |
| Pipeline.PumpEnds | pkg/gateway/server.go:839-885 | how the pump ends, what is lost then, and that it takes no more |
| Pipeline.CaughtUp | pkg/gateway/client.go:340-355 | a client that has caught up has seen every accepted message once, in order |
| Pipeline.Drains | pkg/gateway/server.go:839-866 | progress: from every state of a working connection pump and client by themselves bring every accepted message out, in order |
| TextPipe.StepRefines | pkg/gateway/server.go:861-866 | each step on text is the same step on messages |
| TextPipe.TextConservation | pkg/gateway/client.go:340-355 | the lines the client splits out of the frames' text are the accepted messages, in order |
| Rendering.StepCommutes | pkg/gateway/server.go:839-866 | no step of the pipeline looks at the messages it moves |
| Rendering.TextCarriesMessages | pkg/gateway/server.go:940-962 | marshalled, carried as text and parsed, the messages are those of the run on messages |
| WritePump.Conn.SendToClient | pkg/gateway/server.go:940-962 | a message is queued unless 256 are waiting, and is dropped then |
| WritePump.Conn.WriteQueued | pkg/gateway/server.go:862-865 | the inner loop under arbitrary arrivals; k messages nobody adds to shrink to floor(k/2) |
| WritePump.Conn.WriteFrame | pkg/gateway/server.go:841-866 | the frame reads back as the batch that the step system puts on the wire, at most 257 messages |
| WritePump.Conn.DrainBacklog | pkg/gateway/server.go:839-866 | a backlog nobody adds to is sent whole, in order, in Frames(n) frames |
| WritePump.FramesIsLog | pkg/gateway/server.go:862 | that number of frames is floor(log2(n + 1)) |
| WritePump.FullQueue | pkg/gateway/server.go:568 | a full queue of 256 clears in eight frames |
| Dispatch.HistoryStep | pkg/gateway/server.go:659-712 | whatever happens, each line read got what its place in the history calls for, and no step returns to the pending state |
| Dispatch.ReadStep | pkg/gateway/server.go:599-688 | a rejection closes the connection; lines go unread only after a failed read, and then all do; the queue is closed by the exit alone, and nothing is offered after it |
| Dispatch.EachLineExactly | pkg/gateway/server.go:662-741 | over every run: what each line read comes to, a request running its handler exactly if its method is registered then, and the errors answered at once with their codes |
| Dispatch.ReadingExactly | pkg/gateway/server.go:629-655 | which lines are in hand and which go unread, and their order |
| Dispatch.HandlersExactly | pkg/gateway/server.go:743-775 | a handler's end offers the value or the error it came to, under its request's id |
| Dispatch.FirstMessageGate | pkg/gateway/server.go:659-712 | a pending connection's line is handled only after a strictly earlier line was accepted; exactly one is |
| Dispatch.AcceptedAfterRejection | pkg/gateway/server.go:648-688 | over every run: a line is accepted after a rejection exactly if it is read at all and is the first yes since |
| Dispatch.RejectionIsFinal | pkg/gateway/server.go:648-688 | a rejection is final once a read fails with no yes since, whatever the peer sends then |
| Dispatch.RejectedYetServed | pkg/gateway/server.go:648-688 | a first line turned down, a second accepted and a third, a request for a registered method, run, in one frame or in three |
| Dispatch.PanicExactly | pkg/gateway/server.go:806-814 | over every run: the lines that end the program are those read past the gate that are responses with an array or object as id |
| Dispatch.LateHandlerPanics | pkg/gateway/server.go:743-775 | over every run: a handler's end panics exactly if the exit of readPump has closed the queue before |
| Dispatch.CrashedExactly | pkg/gateway/server.go:599-821 | a run has ended in a panic exactly if a line of it was fatal or a handler ended after the queue was closed |
| Dispatch.ClientLeavesHandlerRunning | pkg/gateway/server.go:599-775 | request, hang-up, exit and handler's end: the program ends and the request stays unanswered |
| Dispatch.NothingOfferedAfterExit | pkg/gateway/server.go:890-907 | once the queue is closed no run offers a response any more |
| Dispatch.FatalLineLeavesADebt | pkg/gateway/server.go:806-814 | a request and a response line after which the request can never be answered |
| Dispatch.DebtSplits | pkg/gateway/server.go:714-777 | a line's response is offered at once or owed by the handler it starts, never both |
| Dispatch.OneResponseEach | pkg/gateway/server.go:690-804 | at every point responses and running handlers make up the requests per id; those still running can all answer exactly if there was no panic and no exit that closed the queue |
| Dispatch.Conn.Receive | pkg/gateway/server.go:659-740 | dispatchMessage does to the connection what the step system says, rejections and panics included |
| Dispatch.Conn.Complete | pkg/gateway/server.go:743-776 | a handler's end offers its reply and nothing else, and panics on a closed queue |
| Dispatch.Conn.ReadFrame | pkg/gateway/server.go:629-655 | a frame is read exactly if no read has failed, and dispatched line by line as a run of the step system |
| Dispatch.Conn.ExitReadPump | pkg/gateway/server.go:599-611 | the exit closes the queue if the client was listed |
| ClientCore.StepKeeps | pkg/gateway/client.go:88-193 | every step of every goroutine keeps the table, the channels, the close protocol and the reader consistent |
| ClientCore.ResponsesComeFromLines | pkg/gateway/client.go:359-376 | a call obtains a response only by its being read under the call's own id |
| ClientCore.CallsPersist | pkg/gateway/client.go:139-176 | a call keeps its method and parameters and is written once at most |
| ClientCore.OneResult | pkg/gateway/client.go:178-192 | a call consumes one response at most: its result, once there, stays over every run |
| ClientCore.CallExactly | pkg/gateway/client.go:140-193 | each branch of a call's select gives it the result that belongs to it, a response as it is |
| ClientCore.WaysOut | pkg/gateway/client.go:178-192 | when each of these branches is open |
| ClientCore.ReturnsWhatWasDelivered | pkg/gateway/client.go:178-187 | over every run: a call that takes a response returns that one, which was looked up for it and delivered to it |
| ClientCore.HandlersRunExactly | pkg/gateway/client.go:378-391 | a notification's handler is run to its end exactly if one is registered |
| ClientCore.PendingTable | pkg/gateway/client.go:143-151 | over every run, against any peer: keys are calls in flight, slots carry their key's id, the table is empty at rest |
| ClientCore.CloseOnce | pkg/gateway/client.go:88-116 | done is closed at most once, whoever calls Close when |
| ClientCore.ConnectionExactly | pkg/gateway/client.go:60-116 | Connect makes the connection, the first Close that finds it signals, sweeps and closes, and a failed read ends the read loop |
| ClientCore.CrashExactly | pkg/gateway/client.go:139-376 | exactly when a step of the client panics; sweeping the table closes no channel twice |
| ClientCore.CallBeforeConnect | pkg/gateway/client.go:169-170 | NewClient and Call alone: the write panics |
| ClientCore.CloseDuringDelivery | pkg/gateway/client.go:366-375 | a run in which a delivery meets the channel that Close has just swept |
| ClientCore.NobodyWaitsForever | pkg/gateway/client.go:178-192 | after an effective Close a waiting call can go on, and no other goroutine's step takes that away |
| ClientCore.CloseFreesEveryone | pkg/gateway/client.go:88-193 | after an effective Close, in every schedule, a call takes three own steps at most and has one exactly until it has returned; when none has one the table is empty |
| ClientClass.RpcClient.Register | pkg/gateway/client.go:140-145 | a call enters the table with an empty open channel |
| ClientClass.RpcClient.Deregister | pkg/gateway/client.go:147-151 | a call's exit removes its entry and no other |
| ClientClass.RpcClient.HandleResponse | pkg/gateway/client.go:359-376 | a response fills the free slot under its id, and changes nothing else; the look-up panics exactly for an array or object |
| ClientClass.RpcClient.CloseClient | pkg/gateway/client.go:88-116 | the first effective Close closes done and every pending channel and empties the table; others change nothing |
| ClientClass.CallsAgree | pkg/gateway/client.go:140-151 | entering and leaving the table are the step system's steps |
| ClientClass.ResponsesAgree | pkg/gateway/client.go:359-376 | an undisturbed delivery is the step system's look-up and delivery, its panic included |
| ClientClass.CloseAgrees | pkg/gateway/client.go:88-116 | an undisturbed Close is the step system's close steps |
| ServerCalls.TableStep | pkg/gateway/server.go:1004-1034 | every step keeps the table consistent and its channels open; only removeClient's second half closes the queue |
| ServerCalls.ServerTable | pkg/gateway/server.go:1004-1034 | the server's own call table holds exactly the calls in flight; a step panics exactly when it looks an array or object up or sends on a closed queue |
| ServerCalls.TableExactly | pkg/gateway/server.go:1004-1024 | a call enters the table exactly if its client is listed, and sends and waits |
| ServerCalls.CallCanReturn | pkg/gateway/server.go:1004-1034 | a run in which a call to the client returns its response |
| ServerCalls.CallMeetsRemoval | pkg/gateway/server.go:1005-1024 | a call that finds its client, which is removed before the call sends |
| Gateway.ServeIsRight | pkg/gateway/server.go:714-743 | a handler is started only for a call and is given exactly what the caller asked; nothing a client writes ends the server's program |
| Gateway.ServeExactly | pkg/gateway/server.go:662-743 | past the gate a call's handler is started exactly if its method is registered, and otherwise the error -32601 is offered under its id |
| Gateway.SendsExactly | pkg/gateway/server.go:743-775 | what each other step offers to the queue, a handler's end its literal reply |
| Gateway.EachReplyOffered | pkg/gateway/server.go:714-777 | over every run: each message served to an end, and no other, has exactly one reply offered, with the literal encoding of its outcome |
| Gateway.SentAsAsked | pkg/gateway/client.go:162-170 | over every run: a call on the wire has the method and the parameters that Call was given |
| Gateway.StepKeeps | pkg/gateway/server.go:714-777 | every step of both peers keeps the whole invariant |
| Gateway.Correlation | pkg/gateway/client.go:139-193 | in every run a call is answered only with what the server's one run of that very request came to |
| Gateway.CallReturnsItsHandlersResult | pkg/gateway/client.go:178-187 | a result that a call returns is the value its handler returned |
| Gateway.PushesComeFirst | pkg/gateway/server.go:743-775 | before a call is answered, every accepted notification its handler pushed has been handled to its end |
| Gateway.ReadingNeverPanics | pkg/gateway/client.go:340-376 | taking up a line of this server's never panics |
| Gateway.ReplyFindsItsCaller | pkg/gateway/client.go:348-376 | the reply finds its waiting call exactly unless the handler returned null |
| Gateway.ReplyLands | pkg/gateway/client.go:359-376 | in every run a reply looked up for a call lands in that call's slot unless Close has closed it; none meets a taken slot |
| Gateway.LandKeeps | pkg/gateway/client.go:359-376 | every step keeps each call's answers behind the one reply in hand |
| Gateway.ToldKeeps | pkg/gateway/client.go:359-376 | every step keeps: a finished reply is in its call's channel if that still waits |
| Gateway.AnswerArrives | pkg/gateway/client.go:139-193 | the converse of Correlation: a waiting call has a response exactly if the client has finished with a non-null reply to its request, and has that one |
| Gateway.AnsweredAtRest | pkg/gateway/client.go:340-376 | once a working connection is at rest a waiting call is answered exactly if its request was served to an end with something other than null and the reply met fewer than 256 queued; and then with that |
| GatewayRuns.CallCanReturn | pkg/gateway/client.go:139-193 | for every call, method set and outcome other than null there is a run in which the call returns exactly that |
| GatewayRuns.PushesRunTheirHandlers | pkg/gateway/client.go:378-391 | over every run: once On has registered it, a handler is run to its end for each pushed notification of its name that is read later |
| Gateway.DownIsRun | pkg/gateway/server.go:839-962 | in every run of both peers the way down is a run of the pipeline |
| Gateway.CorrelationOnText | pkg/gateway/client.go:340-376 | an answered call's response is one of the lines split out of the frames' text, and is what the one run of its request came to |
| Hub.Server.Add | pkg/gateway/server.go:504-515 | a connection is added exactly while the server runs, as the step system's HubAdd does |
| Hub.Server.RemoveClient | pkg/gateway/server.go:890-907 | the entry goes and its channel is closed: the two steps Lookup and CloseSend in a row |
| Hub.Server.Broadcast | pkg/gateway/server.go:985-1001 | every client's queue takes the message or is full, and no closed channel is met: the step Broadcast |
| Hub.Server.Shutdown | pkg/gateway/server.go:471-488 | the first Shutdown empties the table, a second one is refused: the step Shutdown |
| Hub.DeliversExactly | pkg/gateway/server.go:940-1001 | in every run a broadcast puts its message behind what each listed client has queued unless 256 wait, a send does so for the client in hand, and no other queue changes |
| Hub.ListedExactly | pkg/gateway/server.go:482-515 | which steps list a client, take it off, and get hold of it |
| Hub.StepKeeps | pkg/gateway/server.go:504-515 | each step keeps a connection in one of its stages and its channel closed at most once |
| Hub.SendsOnClosedExactly | pkg/gateway/server.go:966-980 | in every run a step panics exactly if it is a send from outside the lock to a client whose channel removeClient has closed |
| Hub.NotifyMeetsRemoval | pkg/gateway/server.go:966-980 | a notification whose client is removed between look-up and send |
| Hub.BroadcastMeetsOpenChannels | pkg/gateway/server.go:985-1001 | in every interleaving a listed client's channel is open and no channel is closed twice |
| Sessions.CompleteExactly | pkg/gateway/session.go:127-149 | assembly completes exactly when the stored indices are 0 to total - 1 |
| Sessions.Reassembly | pkg/gateway/session.go:103-150 | chunks in any order and repetition assemble to the original bytes |
| Sessions.AssembledMessage | pkg/gateway/session.go:116-150 | a message cut anywhere is added to the session's messages under its id and client, byte for byte |
| Sessions.AppendAll | pkg/gateway/session.go:129-137 | the append loop finds all frames or reports a missing one |
| Sessions.SessionManager.Create | pkg/gateway/session.go:42-59 | a session is added unless the table is full |
| Sessions.SessionManager.CreateWithID | pkg/gateway/session.go:61-82 | an id in use is refused first, then a full table |
| Sessions.SessionManager.AddFrame | pkg/gateway/session.go:103-114 | the frame is stored in that session and no other changes |
| Sessions.SessionManager.AddMessage | pkg/gateway/session.go:91-101 | the message is appended to that session and no other changes |
| Sessions.SessionManager.AssembleAndRemove | pkg/gateway/session.go:116-150 | the session leaves the table; completion and its message are those of the specification |
| Sessions.SessionManager.CleanupClient | pkg/gateway/session.go:158-170 | exactly that client's sessions are removed |
| SessionRuns.StepKeeps | pkg/gateway/session.go:42-197 | every step of callers, clean-up and ticker keeps the table's invariant |
| SessionRuns.SessionTable | pkg/gateway/session.go:42-82 | over every timed run: bounded, keyed by id, none outlives its timeout by more than a tick, one completion per id |
| SessionRuns.RemovalsAreDue | pkg/gateway/session.go:174-192 | the ticker removes only overdue sessions, each clean-up only its client's |
| SessionRuns.CleanedUp | pkg/gateway/session.go:158-170 | after a clean-up nothing it saw is left, whatever else, other clean-ups included, ran meanwhile |
| SessionRuns.CleanedUpExactly | pkg/gateway/session.go:158-170 | over every run: once a clean-up is over none of the sessions its client had at its start is there |
| SessionRuns.TableExactly | pkg/gateway/session.go:42-192 | what each step does to the table and to the snapshots |
| SessionRuns.TimeExactly | pkg/gateway/session.go:174-197 | what time, ticker and Close do beside the table |
| SessionRuns.SessionAfter | pkg/gateway/session.go:91-114 | over every run a surviving session holds exactly the frames and messages added under its id, in order |
| SessionRuns.ReassembledInRun | pkg/gateway/session.go:103-150 | a message cut up and added among any other steps is assembled to the original |
| Telegram.Poller.Poll | pkg/channel/telegram/telegram.go:659-698 | one response moves the cursor and hands on exactly what parses while a handler is registered, in order |
| Telegram.Poller.PollUpdates | pkg/channel/telegram/telegram.go:647-700 | the loop computes the run of its responses |
| Telegram.ParsedUpdate | pkg/channel/telegram/telegram.go:367-388 | what an update parses to: callback query, message, edited message, nothing |
| Telegram.FatesExactly | pkg/channel/telegram/telegram.go:687-698 | over every run: each update is dispatched as what it parses to exactly if a handler is registered, rejected exactly if it does not parse |
| Telegram.PollInStep | pkg/channel/telegram/telegram.go:687-698 | a poll continues the history right where the cursor stands |
| Telegram.CursorSkipsNothing | pkg/channel/telegram/telegram.go:647-700 | under failures of every kind no update is taken twice and exactly those below the offset were dealt with |
| Telegram.OffsetNeverDecreases | pkg/channel/telegram/telegram.go:687-688 | the offset never goes back |
| Token.Manager.GetToken | pkg/channel/tokenmanager/tokenmanager.go:66-75 | fails exactly without a token or past its expiry |
| Token.Manager.Refresh | pkg/channel/tokenmanager/tokenmanager.go:78-96 | the three outcomes of a refresh |
| Token.LoopExactly | pkg/channel/tokenmanager/tokenmanager.go:121-137 | ticks, refreshes and the ways out of the loop, step by step |
| Token.TokenIsLastIssued | pkg/channel/tokenmanager/tokenmanager.go:66-93 | over every run the token in hand is the one issued last, with its value and its lifetime |
| Token.Manager.Start | pkg/channel/tokenmanager/tokenmanager.go:99-109 | Start refreshes exactly when no valid token is there |
| Token.Manager.Stop | pkg/channel/tokenmanager/tokenmanager.go:112-119 | stopCh is closed once however often Stop is called |
| Token.StepCovers | pkg/channel/tokenmanager/tokenmanager.go:121-137 | each step keeps the token valid past the end of the next refresh |
| Token.NoGap | pkg/channel/tokenmanager/tokenmanager.go:66-137 | with lifetimes of at least interval + 30 s GetToken works while the loop is at work, and the loop ends only by Stop or its context |
| Token.GapBelow | pkg/channel/tokenmanager/tokenmanager.go:121-137 | with a shorter lifetime, or an initial token that ends sooner, there is a run with a gap |
| Token.NoGapExactly | pkg/channel/tokenmanager/tokenmanager.go:66-137 | both directions together, for every initial token |
| Token.CancelLeavesAGap | pkg/channel/tokenmanager/tokenmanager.go:125-128 | once the context has ended GetToken fails in time, without any Stop |
| Token.ExpiryNeverDecreases | pkg/channel/tokenmanager/tokenmanager.go:88-93 | with a constant lifetime the expiry never goes back, manual refreshes or not |
| Token.ExpiryStep | pkg/channel/tokenmanager/tokenmanager.go:88-93 | a refresh, by hand or by the loop, brings the expiry back exactly when the token in hand lasts longer than a new one |
| Escape.EscapeIsEncode | pkg/channel/imsg/client.go:341-346 | the three replacements are one per-character encoder |
| Escape.EscapedCharacters | pkg/channel/imsg/client.go:341-346 | what each character is written as |
| Escape.EscapingRoundTrip | pkg/channel/imsg/client.go:341-346 | a left-to-right decoder inverts it; it is injective |
| Escape.EncodeDecode | pkg/channel/imsg/client.go:341-346 | the decoder accepts exactly the escaped texts |
| Escape.EscapedStaysInside | pkg/channel/imsg/client.go:341-346 | no raw newline, every quote escaped, and the closing quote is not |
| Backoff.CalcDelay | pkg/gateway/heartbeat.go:185-196 | the loop computes the capped growth plus jitter |
| Backoff.GrowOnce | pkg/gateway/heartbeat.go:187-190 | one attempt more multiplies the delay once more while it is below the cap |
| Backoff.JitterAmount | pkg/gateway/heartbeat.go:194-195 | the jitter is the whole part of that fraction of the capped delay |
| Backoff.DelayNonDecreasing | pkg/gateway/heartbeat.go:185-196 | a later attempt never waits less |
| Backoff.DelayBounded | pkg/gateway/heartbeat.go:191-195 | no attempt waits longer than the cap and its jitter |
| Backoff.ValuesBounded | pkg/gateway/heartbeat.go:187-190 | before the cap every value but the first stays below cap times multiplier |
| Backoff.DoublesUntilCapped | pkg/gateway/heartbeat.go:186-193 | with multiplier 2 the wait is min(initial * 2^attempt, cap) |
| HandleIndex.Channel.LoadChats | pkg/channel/imessage/imessage.go:285-307 | afterwards every look-up agrees with a scan for the last chat that answers to the handle, falling back on what was indexed before |
| HandleIndex.PhoneIsFixedPoint | pkg/channel/imessage/imessage.go:456-472 | a normalized phone number is a fixed point |
| HandleIndex.StrippedTwice | pkg/channel/imessage/imessage.go:456-460 | stripping twice changes nothing more exactly when the first pass leaves no white space or prefix in front |
| HandleIndex.NormalizedForGood | pkg/channel/imessage/imessage.go:456-476 | exactly when, on the characters left, normalizing twice changes nothing more |
| HandleIndex.NotIdempotent | pkg/channel/imessage/imessage.go:456-476 | a handle for which it does |
| HandleIndex.KeepPhoneExactly | pkg/channel/imessage/imessage.go:464-471 | exactly plus signs and digits are kept, in order |
| HandleIndex.Normalize | pkg/channel/imessage/imessage.go:456-476 | the builder loop keeps exactly the plus signs and digits |
| HandleIndex.CheckNumeric | pkg/channel/imessage/imessage.go:479-486 | true exactly for non-empty strings of digits |
| Registry.MockChannel.Start | pkg/channel/channel.go:742-754 | starts a stopped channel with the handler given, none included, and refuses a running one |
| Registry.MockChannel.Stop | pkg/channel/channel.go:762-774 | stops a running channel, refuses a stopped one |
| Registry.ChannelRegistry.Register | pkg/channel/channel.go:591-602 | adds a channel unless its name is taken |
| Registry.ChannelRegistry.StartAll | pkg/channel/channel.go:665-679 | on error exactly the channels before the failing one were started |
| Registry.ChannelRegistry.StopAll | pkg/channel/channel.go:689-704 | every channel ends stopped; no error exactly if all were running |

## Left out

- WebSocket and TCP details, deadlines, pings, the HTTP server and its start-up probe: a connection is an ordered channel of frames that can break at any step.
- The text syntax of JSON, member-name case folding and duplicate members: lines arrive as values, or as text that does not parse. The `data` member of errors, which the gateway never sets, is not modelled.
- Dispatch.OneResponseEach: integer ids are kept as they are, which the code does up to 2^53 only, because ids pass through float64; for string ids and null it is exact.
- ClientCore: a second Connect, and a write that panics while it holds the send lock, which matters only to a program that recovers.
- Gateway: the server goes on where a send on a closed queue or the client's leaving would have ended it, so that its runs include every run of the program up to its end; when it ends is stated in Dispatch, ServerCalls and Hub.
- Dispatch: the legacy handler that `user.message` notifications are forwarded to.
- A second Start after Shutdown, and a registration that meets the closed register channel.
- Gateway: one connection with the client's own traffic; the client never answers the server's requests (it does not recognise them), and the server's own call table is covered by ServerCalls.ServerTable instead.
- Sessions.SessionManager: the aliasing of session pointers handed to callers is modelled only for AssembleAndRemove; messages keep their ids' session and client and their bytes, not their generated ids and timestamps.
- SessionRuns: after Close nothing is promised about how long a session may stay, since the ticker may stop.
- Telegram: message contents other than the text, webhooks, Start and Stop; a handler that appears or disappears between updates is modelled, its running is not.
- Token: refreshLoop is a step system, not a loop; a refresh that fails or hangs is outside NoGap's hypothesis; a second Start, which would run a second loop.
- Backoff: float64 rounding and the overflow of durations; ValuesBounded gives the bound below which none occurs.
- The client's writeLoop, to which nothing is ever enqueued, heartbeat counters, origin matching, configuration, and the other platform adapters: they would add easy members only.
