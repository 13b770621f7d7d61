# LLMQore, modelled and proved

LLMQore is an event-driven client and server library for language models and the Model Context
Protocol. Its difficult part is a set of incremental parsers and state machines that have to stay
right however their input is cut into pieces and in whatever order events arrive, while handlers of
their signals call back into them. This project models those parts and proves what they are for.

| files | what they model |
|---|---|
| `sse_parser`, `sse_format`, `sse_resume` | the event-stream parser and printer (sections 9.2.5 and 9.2.6 of the WHATWG HTML Living Standard), and reading a log over connections that drop |
| `mcp_transport`, `mcp_exchanges`, `mcp_resumption`, `mcp_listen`, `mcp_restarts`, `mcp_listen_resumption`, `mcp_streamable_transport` | the client side of the MCP Streamable HTTP transport: exchanges and their resumption, the listen stream, its retries and its resumption |
| `rpc_session`, `rpc_two_sessions`, `rpc_session_object` | JSON-RPC 2.0 sessions, alone and joined by two queues |
| `tool_rounds`, `tool_round_proofs`, `tool_rounds_object` | the dispatcher of tool calls |
| `client`, `client_proofs`, `client_object` | the request table of a provider client |
| `base_message`, `claude_message`, `claude_stream` and their objects | how a streamed turn is put together |
| `http_parser`, `http_request_text`, `http_parser_object` | the incremental HTTP request parser |
| `http_server`, `http_server_losses`, `http_server_object` | the server side of the transport |
| `tool_binder`, `tool_binder_sharing`, `tool_binder_object` | the tools of MCP servers in a shared registry |

Each component is written twice. A class has the fields and methods of the source and updates them
step by step; every one of its methods is proved to compute a function on values (the table below names
those with loops or invariants of their own). What the source promises is proved about those functions,
over all runs. Signals are appended to a trace, timers are events that may fire while armed, and the
calls an application makes from inside a signal are a list of reactions that a statement over all runs
quantifies over. Where the code does not keep a promise, a lemma gives a run that breaks it and another
one says exactly when it is kept.

Found on the way, in the code as it is:

- The listen stream can be lost until the next answer to `initialize`: stopping the transport from `sendFailed` while `initialize` is being sent lets the answer set the protocol version of a closed transport, and the next start does not open the stream.
- A peer's cancel is looked up among incoming and outgoing requests alike, so it can end the wrong one.
- A tool round that replaces another from inside a handler is driven once more than it was begun.
- An MCP server that answers a request, and sends a message, while it handles a post on the same socket writes that message into a socket it has hung up.
- Text carried by the start event of a Claude text block is never handed on as a chunk, while a text delta sent for a block of another kind, even one that is skipped, is; and a buffered response without stop reason leaves the message still being built where a streamed turn with an empty one is complete.
- Whether a header block over the limit is noticed depends on how the bytes arrive, and a body of 2 GiB or more is cut by a cast.

## Model

| member | source | states |
|---|---|---|
| `Sse.ChunkingDoesNotMatter` | source/network/SSEParser.cpp:13-50 | For every stream whose lines fit the limit and every split into `append` calls, the concatenated events and the whole parser state are those of one fold of `processLine` over the lines of the stream |
| `Sse.LinesConcat` | source/network/SSEParser.cpp:24-38 | CRLF, CR and LF each end exactly one line, also when CR and LF arrive in different pieces: the lines of two pieces are the lines of the first, then those of what it left over and the second without the LF that belongs to its CR |
| `Sse.FoldConcat` | source/network/SSEParser.cpp:52-102 | Handling lines one after another can be cut anywhere: fields and events of the parts compose |
| `Sse.AppendWhole` | source/network/SSEParser.cpp:13-50 | One more chunk on top of any stream already read leaves parser and events as if all had come at once |
| `Sse.LimitShowsExactly` | source/network/SSEParser.cpp:40-47 | Some chunking of a stream makes the parser drop its buffer if and only if a line of the stream is longer than the limit |
| `Sse.MemoryIsBounded` | source/network/SSEParser.cpp:40-87 | Under a positive limit M, after any appends the line buffer holds at most M bytes, and the pending data and the data of every emitted event at most M + 1; no event has empty data |
| `Sse.OversizedStaysSuppressed` | source/network/SSEParser.cpp:74-115 | An event that failed the size check yields nothing for all its later lines nor at its blank line, and the blank line ends the suppression |
| `Sse.FlushEndsTheStream` | source/network/SSEParser.cpp:117-126 | Reading a stream and flushing yields the events of the stream with its last line and a blank line ended |
| `Sse.SseParser.Append` | source/network/SSEParser.cpp:13-50 | The in-place scan for line ends computes `AppendSpec`: same events, same buffer, fields and skip flag, for every chunk and limit |
| `Sse.SseParser.ScanLines` | source/network/SSEParser.cpp:24-38 | The scanning loop handles exactly the complete lines of the buffer, keeps what follows them, and remembers a CR at the very end |
| `Sse.SseParser.Flush` | source/network/SSEParser.cpp:117-126 | What `FlushEvents` says, and a cleared parser afterwards |
| `Sse.SseParser.Clear` | source/network/SSEParser.cpp:128-137 | Everything partial is forgotten, the size limit kept |
| `SseFormat.ParseInvertsFormat` | source/network/SSEParser.cpp:144-180 | Parsing the concatenated output of `format` for any events, in any chunking, returns them with leading line feeds of the data stripped, an event of line feeds only dropped, an empty type read as `message` and an empty id inheriting the last one |
| `SseFormat.EventFold` | source/network/SSEParser.cpp:144-180 | One printed event, read by a parser between events, is received once and leaves the parser between events |
| `SseFormat.Format` | source/network/SSEParser.cpp:144-180 | The loop over line feeds prints exactly the field lines of the event, each ended by CRLF, and a blank line |
| `SseResume.ResumptionIsExact` | source/mcp/McpStreamableHttpTransport.cpp:182-299 | The server log has distinct non-empty ids; each connection, cut at any byte and chunked in any way, carries part of the replay after the cursor it resumed with: the events read over all connections are a prefix of the log, none lost or repeated, and the cursor names the last of them |
| `SseResume.CutStream` | source/network/SSEParser.cpp:104-137 | A connection cut anywhere, in the middle of a line, between CR and LF or before the blank line, has delivered whole events only, and its id is that of the last one delivered |
| `SseResume.PartOfBlock` | source/network/SSEParser.cpp:104-115 | A part of one printed event delivers nothing and commits no id, or, when only the last LF is missing, the event with its id |
| `SseResume.ReadConnection` | source/mcp/McpStreamableHttpTransport.cpp:272-299 | A reader that cleared its partial state and was seeded with the cursor reads a replay from its start |
| `SseResume.FullReplayCompletes` | source/mcp/McpStreamableHttpTransport.cpp:272-299 | A resumed connection that is served to its end completes the log |
| `SseResume.FormatRenders` | source/network/SSEParser.cpp:144-180 | What the formatter prints is a rendering of its event in the sense of the resumption theorem |
| `McpExchanges.EndsExactlyOnce` | source/mcp/McpStreamableHttpTransport.cpp:133-386 | After any run, with handlers calling back at will: an exchange in the list has neither failed nor been abandoned and has its stream or its resume timer; a request whose exchange has left the list was answered, or reported failed exactly once and unanswered, or abandoned unanswered; a reply counts as the answer exactly when it answers that request, and a relayed error has its id |
| `McpExchanges.FinishedStaysSilent` | source/mcp/McpStreamableHttpTransport.cpp:377-386 | Once an exchange has left the list, no later input, timer or handler changes it or says anything about it |
| `McpExchanges.AnsweredMeansSuccess` | source/mcp/McpStreamableHttpTransport.cpp:210-242 | In every reachable state an exchange in the list that was answered holds a successful response, which is why `finished` may skip the check |
| `McpExchanges.FailureIgnoresAnswer` | source/mcp/McpStreamableHttpTransport.cpp:210-242 | Without that invariant the check would matter: an answered exchange with a failing response would be reported as failed, whatever the application does |
| `McpExchanges.StepOk` | source/mcp/McpStreamableHttpTransport.cpp:103-386 | The invariant is kept by every input: send, start, stop, abandon, headers, chunk, finish, error, destruction, timers, with all the handlers they run |
| `McpExchanges.RunOk` | source/mcp/McpStreamableHttpTransport.cpp:103-690 | The invariant holds after every run |
| `McpResumption.RepliesFollowTheLog` | source/mcp/McpStreamableHttpTransport.cpp:182-347 | If the server served the connections of an exchange from its log, the events read over all of them are a prefix of the log, and the replies handed to the application are the messages of that prefix in order, all of them while the exchange is in the list |
| `McpResumption.HistoryIsTrail` | source/mcp/McpStreamableHttpTransport.cpp:182-299 | The connections recorded for an exchange, read one after another with resumption in between, give the state of its parser and the events it read |
| `McpResumption.TrailReadsLog` | source/mcp/McpStreamableHttpTransport.cpp:244-299 | Resuming only with a known cursor, a trail of connections served from a log reads a prefix of it |
| `McpListenResumption.ListenMessagesFollowTheLog` | source/mcp/McpStreamableHttpTransport.cpp:388-500 | At any moment of any run: if the server served the connections of the listen stream, from one without a cursor on, from its log, the events read over all of them are a prefix of the log, and the messages handed on are those of that prefix in order, none lost or repeated, all of them when no handler is running |
| `McpListenResumption.StepFollows` | source/mcp/McpStreamableHttpTransport.cpp:388-562 | With every input and its handlers: the cursor and the parser of the listen stream are what reading its recorded connections gives, and what was handed on is what was read |
| `McpListen.ListenStreamIsKept` | source/mcp/McpStreamableHttpTransport.cpp:388-562 | In every reachable state at most one stream is the listen stream, none while the transport is closed; and an open, negotiated transport that was not refused for good has its stream or an armed timer, with one exception: its last start found a version still set, nothing was connected, armed or stopped since, and no timer was armed before |
| `McpRestarts.StartKeepsListening` | source/mcp/McpStreamableHttpTransport.cpp:648-657 | In every run, starting a closed transport keeps it listening, unless its version was set while it was closed, there is an HTTP side, and no retry is armed from before |
| `McpRestarts.StoppedDuringInitialize` | source/mcp/McpStreamableHttpTransport.cpp:607-685 | The version does survive: a run in which the application stops the transport from `sendFailed` while `initialize` is sent, and starts it again, ends with neither stream nor timer |
| `McpRestarts.StartedDeaf` | source/mcp/McpStreamableHttpTransport.cpp:607-685 | In every run: a start finds a protocol version if and only if an `initialize` was answered while the transport was closed and nothing was negotiated, stopped or started between that and the start; such an `initialize` was posted on a closed transport, one that was open when another request failed and was stopped after that |
| `McpRestarts.LostExactly` | source/mcp/McpStreamableHttpTransport.cpp:607-690 | In every run, when the listen stream is lost, in terms of the trace: if and only if the last start found a version still set, nothing was connected, armed or stopped since, and no timer is left from before |
| `McpListen.RetriesBackOff` | source/mcp/McpStreamableHttpTransport.cpp:468-524 | In every run, whatever opens, drops, is refused or is called back: each delay settled on is the larger of what the server asked for and the backoff after the failures since the last reset, each retry armed waits for the delay last settled on, and the backoff and the timer of the transport are what comes of it, one of 1, 2, 4, 8, 16 and 30 s |
| `McpListen.FailuresAddUp` | source/mcp/McpStreamableHttpTransport.cpp:502-524 | Between resets every retry armed is one failure more, so one step further in the backoff; from the start or a reset on, the failures are the retries armed since |
| `McpListen.StepListens` | source/mcp/McpStreamableHttpTransport.cpp:103-690 | Every input, with its handlers, keeps retries, backoff and protocol version as the trace has them, and loses the listen stream only by a start that finds a version |
| `McpStreamableTransport.Transport.StartNewSession` | source/mcp/McpStreamableHttpTransport.cpp:607-619 | Session, version and all exchanges of the old session are dropped, each unanswered request reported failed, whatever the handlers do in between; the new state and trace are exactly those of `McpTransport` |
| `McpStreamableTransport.Transport.Release` | source/mcp/McpStreamableHttpTransport.cpp:377-386 | Dropped and out of the list, once; the new state and trace are exactly those of `McpTransport` |
| `McpStreamableTransport.Transport.AbandonExchanges` | source/mcp/McpStreamableHttpTransport.cpp:575-581 | The list is emptied before its exchanges are dropped; the new state and trace are exactly those of `McpTransport` |
| `McpStreamableTransport.Transport.AbandonExchange` | source/mcp/McpStreamableHttpTransport.cpp:583-594 | The first exchange of that request leaves, nothing else changes; the new state and trace are exactly those of `McpTransport` |
| `McpStreamableTransport.Transport.DrainBacklog` | source/mcp/McpStreamableHttpTransport.cpp:468-487 | Messages are handed on in order as long as the transport stays open; the new state and trace are exactly those of `McpTransport` |
| `McpStreamableTransport.Transport.Handle` | source/mcp/McpStreamableHttpTransport.cpp:103-690 | Any input; the new state and trace are exactly those of `McpTransport` |
| `McpStreamableTransport.Transport.HandleAll` | source/mcp/McpStreamableHttpTransport.cpp:103-690 | Any run: so the theorems about `McpTransport` hold of the object; the new state and trace are exactly those of `McpTransport` |
| `RpcSession.PromisesSettleOnce` | source/rpc/JsonRpcSession.cpp:163-278 | Whatever happens in whatever order, a promise has at most one outcome, it has none exactly while its request is in the table, and an outcome once given stays |
| `RpcSession.ClosingSettlesAll` | source/rpc/JsonRpcSession.cpp:350-363 | Once the transport has closed, every promise made before has exactly one outcome, for ever |
| `RpcSession.HandleOk` | source/rpc/JsonRpcSession.cpp:107-576 | Each of the six ways of settling keeps the table: unsettled promises are exactly the entries, under the ids they were sent with |
| `RpcSession.PeerCancelScope` | source/rpc/JsonRpcSession.cpp:107-131 | A cancel from the peer leaves this side's own requests alone if and only if none of them has the same id |
| `RpcSession.NumberSpellsText` | source/rpc/JsonRpcSession.cpp:32-39 | A number and a string are the same id exactly when the string is the number in decimal; different numbers are different ids |
| `RpcSession.DecimalInjective` | source/rpc/JsonRpcSession.cpp:32-39 | Decimal text determines the number, sign included |
| `RpcTwoSessions.OutcomesHaveACause` | source/rpc/JsonRpcSession.cpp:459-497 | Two sessions over queues: a promise holds a value or an error only if the peer's handler came to just that for the request of this very promise, and counts as cancelled by the peer only if the peer sent such a cancel |
| `RpcTwoSessions.EachRequestAnsweredOnce` | source/rpc/JsonRpcSession.cpp:397-457 | Every request goes out once; once dispatched, exactly one of these holds: its handler runs, it was answered once, its answer was held back because its sender had cancelled it, or its answer was ready when the transport was closed; cancelled ids are in flight |
| `RpcTwoSessions.FinishedIsAnswered` | source/rpc/JsonRpcSession.cpp:397-457 | When a handler finishes: if the transport was open and the request not cancelled in flight, the request has exactly one answer from then on, with what the handler came to; otherwise it has none, for ever |
| `RpcTwoSessions.CancelInFlight` | source/rpc/JsonRpcSession.cpp:107-131 | A cancel that arrives while the handler of its request is running: whatever happens next, the request is never answered |
| `RpcTwoSessions.CancelledStaysUnanswered` | source/rpc/JsonRpcSession.cpp:397-457 | The same for any id that is marked as cancelled |
| `RpcTwoSessions.NobodyWaitsInVain` | source/rpc/JsonRpcSession.cpp:397-497 | With nothing lost, queues drained and no handler running, a request still waiting is one the peer was told to forget or could not answer |
| `RpcTwoSessions.StepKeeps` | source/rpc/JsonRpcSession.cpp:93-576 | The invariant of the two sessions survives every step of either side, deliveries and losses included |
| `RpcTwoSessions.CancelHitsTheWrongRequest` | source/rpc/JsonRpcSession.cpp:107-131 | A run in which a peer cancels its own request 1 and this side gives up its request 1, which the peer is still handling |
| `RpcSessionObject.JsonRpcSession.SendRequest` | source/rpc/JsonRpcSession.cpp:163-231 | Fails at once when closed; otherwise the id is new, the table has its entry and the request is sent with its progress token; the new state is exactly that of `RpcSession`, and the table stays consistent |
| `RpcSessionObject.JsonRpcSession.Settle` | source/rpc/JsonRpcSession.cpp:245-264 | Progress handler, entry and promise, in one go; the new state is exactly that of `RpcSession`, and the table stays consistent |
| `RpcSessionObject.JsonRpcSession.GiveUp` | source/rpc/JsonRpcSession.cpp:245-278 | The peer is told, then the promise fails; the new state is exactly that of `RpcSession`, and the table stays consistent |
| `RpcSessionObject.JsonRpcSession.OnTimeout` | source/rpc/JsonRpcSession.cpp:163-231 | The timer of a request still in the table; the new state is exactly that of `RpcSession`, and the table stays consistent |
| `RpcSessionObject.JsonRpcSession.CancelRequest` | source/rpc/JsonRpcSession.cpp:245-264 | A local cancel; nothing for an unknown id; the new state is exactly that of `RpcSession`, and the table stays consistent |
| `RpcSessionObject.JsonRpcSession.OnSendFailed` | source/rpc/JsonRpcSession.cpp:551-571 | Only a request of this side is failed; the new state is exactly that of `RpcSession`, and the table stays consistent |
| `RpcSessionObject.JsonRpcSession.AbortPending` | source/rpc/JsonRpcSession.cpp:350-363 | The loop that empties the table, in whatever order the hash yields, settles every entry and leaves all else; the new state is exactly that of `RpcSession`, and the table stays consistent |
| `RpcSessionObject.JsonRpcSession.OnTransportClosed` | source/rpc/JsonRpcSession.cpp:573-576 | Closed, and every promise settled; the new state is exactly that of `RpcSession`, and the table stays consistent |
| `RpcSessionObject.JsonRpcSession.DispatchResponse` | source/rpc/JsonRpcSession.cpp:459-497 | The promise under that id gets the result or the error; anything else is ignored; the new state is exactly that of `RpcSession`, and the table stays consistent |
| `RpcSessionObject.JsonRpcSession.OnPeerCancels` | source/rpc/JsonRpcSession.cpp:107-131 | Marks an incoming request in flight and fails an own request of that id; the new state is exactly that of `RpcSession`, and the table stays consistent |
| `RpcSessionObject.JsonRpcSession.OnMessageReceived` | source/rpc/JsonRpcSession.cpp:365-395 | Requests, notifications, responses and the rest; the new state is exactly that of `RpcSession`, and the table stays consistent |
| `ToolRoundProofs.RoundsCompleteOnce` | source/tools/ToolsManager.cpp:20-280 | After any run, with handlers calling back at will: a round is reported complete at most once, exactly once if it was closed without being cleaned up, and with the result of each call queued and no other; its calls are dispatched in their order, each once |
| `ToolRoundProofs.OpenRoundsWait` | source/tools/ToolsManager.cpp:230-370 | Nothing gets stuck, reused ids included: a round that is not closed waits for a gate or a tool of its own; so when all have answered, every round was completed or cleaned up |
| `ToolRoundProofs.OneAtATime` | source/tools/ToolsManager.cpp:43-51 | No more calls of a round are in flight than `beginRound` was called for it, unless a report on another round returned to it or a call had its result before it was dispatched |
| `ToolRoundProofs.OneAtATimeExactly` | source/tools/ToolsManager.cpp:43-51 | The balance of every open round: what is in flight is what it was begun, with the reports that returned to it from another round, the calls skipped and those left that have a result already, less the times it was begun while being advanced and the drives that found nothing left; so exactly when the bound holds. For a round begun in time with calls left: if and only if no report was inherited, no call skipped, and no call left has its result |
| `ToolRoundProofs.DrivenOnceTooOften` | source/tools/ToolsManager.cpp:348-370 | The condition of `OneAtATime` is needed: a run in which a handler replaces the round of a request, the manager drives the new one on return, and two calls of a round begun once are in flight |
| `ToolRoundProofs.StepOk` | source/tools/ToolsManager.cpp:20-370 | The invariant is kept by every event: begun rounds, gates that answer, tools that finish or fail, cleanups |
| `ToolRoundProofs.AddCallsOk` | source/tools/ToolsManager.cpp:20-41 | A call whose id is queued already is not queued again; the others are appended in order, unsettled |
| `ToolRoundsObject.ToolsManager.OpenRound` | source/tools/ToolsManager.cpp:230-244 | The open round of a request, made if there is none; the new state and trace are exactly those of `ToolRounds` |
| `ToolRoundsObject.ToolsManager.AddCalls` | source/tools/ToolsManager.cpp:20-41 | Calls with an id already queued are skipped; the new state and trace are exactly those of `ToolRounds` |
| `ToolRoundsObject.ToolsManager.AllSettled` | source/tools/ToolsManager.cpp:130-140 | True exactly when there are calls and each has a result |
| `ToolRoundsObject.ToolsManager.Advance` | source/tools/ToolsManager.cpp:43-51 | Calls are dispatched until one has to be waited for or the round is closed; the new state and trace are exactly those of `ToolRounds` |
| `ToolRoundsObject.ToolsManager.Settle` | source/tools/ToolsManager.cpp:102-117 | The first result of a call counts; the new state and trace are exactly those of `ToolRounds` |
| `ToolRoundsObject.ToolsManager.Handle` | source/tools/ToolsManager.cpp:230-370 | Any event; the new state and trace are exactly those of `ToolRounds` |
| `ClientProofs.RequestsEndOnce` | source/core/BaseClient.cpp:778-1043 | After any run, with handlers asking and cancelling from inside any signal: a request in the table has told only thoughts, accumulated texts and chunks, each followed by the accumulated text, and its text is what was shown; any other has told one ending after them, failed, or finalized and completed, and nothing since; the completed text is the text shown, the final usage the sum over its turns |
| `ClientProofs.FuturesFollow` | source/core/BaseClient.cpp:866-901 | The future of `askOnce` has no outcome exactly while its request is in the table, is resolved exactly when the request completed and rejected exactly when it failed; one that got no request is rejected at once |
| `ClientProofs.EarlierTextIsFinal` | source/core/BaseClient.cpp:818-832 | Whatever happens next, an ended request tells nothing more, and the text of the turns a running request has behind it stays a prefix of its text, and of the text it completes with |
| `ClientProofs.ToolLoopIsBounded` | source/core/BaseClient.cpp:316-339 | One request makes at most one HTTP request more than the limit of tool rounds |
| `ClientProofs.UsageAddsUp` | source/core/BaseClient.cpp:956-1004 | The usage of a running request is the field-wise sum over its closed turns of what the deltas of each said last, and that of its current turn what they said last so far |
| `ClientProofs.MergeOne` | source/core/Usage.cpp:47-59 | Applying a delta to the merge of earlier ones is the merge with it: each field is what was said last, 0 if never |
| `ClientProofs.StepOk` | source/core/BaseClient.cpp:647-1107 | The invariant is kept by every event: calls, headers, chunks, ends and errors of streams, buffered replies, rounds of tools |
| `ClientProofs.EmitOk` | source/core/BaseClient.cpp:818-832 | Handlers leave the text of every request alone or make it fail |
| `ClientObject.BaseClient.NotifyPendingThinkingBlocks` | source/core/BaseClient.cpp:1146-1161 | Told one by one, until the request ends; the new state and trace are exactly those of `Client` |
| `ClientObject.BaseClient.DispatchEvents` | source/core/BaseClient.cpp:1206-1230 | Events are dropped once the request has ended; the new state and trace are exactly those of `Client` |
| `ClientObject.BaseClient.Handle` | source/core/BaseClient.cpp:341-1107 | Any event; the new state and trace are exactly those of `Client` |
| `ClaudeStream.StreamingIsBuffering` | source/clients/claude/ClaudeMessage.cpp:42-206 | For any way of cutting the blocks of a response into a start and deltas, with unknown blocks skipped and the events of different blocks interleaved at will, the streamed message has the blocks and stop reason of the buffered one, and its state if and only if the stream does not send an empty stop reason; when it does, the streamed message is done and the buffered one still being built |
| `ClaudeMessages.BlocksDoNotInterfere` | source/clients/claude/ClaudeMessage.cpp:110-193 | However events of different blocks interleave, each block is what its own events make of it, in the order in which the blocks were started |
| `ClaudeStream.ChunksAddUp` | source/clients/claude/ClaudeMessage.cpp:42-108 | Without interleaving, for every way of cutting the blocks: the chunks of the stream and the chunk of the buffered response differ in length by the text that start events of text blocks carry, never handed on, and by the text that deltas send for other blocks, handed on though no block takes it; without the one they are equal if and only if there is none of the other; and they agree after every block if and only if there is neither |
| `ClaudeStream.ChunksGoAstray` | source/clients/claude/ClaudeMessage.cpp:42-108 | Both happen, and can make up for each other: a text delta for a skipped block becomes a chunk, the text of a start event does not |
| `ClaudeStream.FoldPart` | source/clients/claude/ClaudeMessage.cpp:110-193 | The start, deltas and stop of one block, text, thinking with its signature, or tool call with its JSON, make the block they were cut from |
| `ClaudeStream.StreamedBlocks` | source/clients/claude/ClaudeMessage.cpp:42-108 | The blocks of an interleaved stream are those of the buffered content |
| `ClaudeMessageObject.ClaudeMessage.ApplyEvent` | source/clients/claude/ClaudeMessage.cpp:42-78 | One event and its chunk; a block that stops completes a thought, and a `message_delta` with a stop reason, whatever it is, says that tools may be ready; the new message is exactly that of `ClaudeMessages` |
| `ClaudeMessageObject.ClaudeMessage.ApplyResponse` | source/clients/claude/ClaudeMessage.cpp:80-108 | The loop over the content, the chunk of its texts, and the stop reason; the new message is exactly that of `ClaudeMessages` |
| `ClaudeMessageObject.ClaudeMessage.StartNewContinuation` | source/core/BaseMessage.cpp:89-95 | A fresh message; the new message is exactly that of `ClaudeMessages` |
| `BaseMessages.ToldAtMostOnce` | source/core/BaseMessage.cpp:36-87 | Under any mix of appends, edits, removals and clears, taking the pending notifications tells of each thinking block at most once, and leaves none untold that could be told of |
| `BaseMessages.RemovalIsStable` | source/core/BaseMessage.cpp:59-80 | Removal is the stable filter: what stays keeps its order, its mark as told and its being the current thinking block |
| `BaseMessages.ApplyOk` | source/core/BaseMessage.cpp:36-193 | The current thinking index is -1 or names a thinking block, and the marks name the blocks told of, after every operation |
| `BaseMessages.RemoveIfOk` | source/core/BaseMessage.cpp:59-80 | The same for removal, where positions are remapped |
| `BaseMessageObject.BaseMessage.TakePendingThinkingNotifications` | source/core/BaseMessage.cpp:36-57 | The loop tells of exactly the untold blocks, in order; the new state is exactly that of `BaseMessages` |
| `BaseMessageObject.BaseMessage.RemoveBlocksIf` | source/core/BaseMessage.cpp:59-80 | The loop compacts in place and remaps the marks and the index; the new state is exactly that of `BaseMessages` |
| `BaseMessageObject.BaseMessage.ClearBlocks` | source/core/BaseMessage.cpp:82-87 | All forgotten; the new state is exactly that of `BaseMessages` |
| `BaseMessageObject.BaseMessage.EnsureThinkingContentIndex` | source/core/BaseMessage.cpp:162-176 | The current thinking block, the first there is, or a new one; the new state is exactly that of `BaseMessages` |
| `BaseMessageObject.BaseMessage.EnsureTextContentIndex` | source/core/BaseMessage.cpp:178-186 | The first text block or a new one; the new state is exactly that of `BaseMessages` |
| `HttpParser.ChunkingDoesNotMatter` | source/network/HttpRequestParser.cpp:33-79 | When every header block that can be seen without its end fits the limit, draining after each piece takes the same requests and meets the same first error as draining once at the end, and without an error ends in the same state |
| `HttpParser.OverflowShows` | source/network/HttpRequestParser.cpp:38-47 | Otherwise some cut makes the parser overflow where feeding it at once does not, or not there; for any limits |
| `HttpParser.PiecesMatterExactly` | source/network/HttpRequestParser.cpp:33-79 | So all ways of cutting a stream give the same requests and first error if and only if its blocks fit in this sense |
| `HttpParser.FitsIsPlain` | source/network/HttpRequestParser.cpp:33-79 | With a limit on bodies below 2 GiB that sense is the plain one: every complete header block, with all but the last byte of its blank line, is within the limit. Beyond, the cast can leave bytes that a request waited for to be read as the next block, which is then seen whole |
| `HttpParser.BytesAreConserved` | source/network/HttpRequestParser.cpp:33-126 | However a stream is cut and drained, up to the end or to an error, also one that another cut would not show: every byte fed belongs to a request taken, to its head or its body, to the head of the request in the making, or to the buffer, in this order |
| `HttpParser.FedIsDrained` | source/network/HttpRequestParser.cpp:33-88 | As far as chunks are fed, feeding and draining them one by one is feeding them at once and draining, with any limits |
| `HttpParser.BodyIsWhole` | source/network/HttpRequestParser.cpp:72-78 | The body of a complete request has the announced length if and only if that is below 2 GiB, because of the cast to int; no byte is lost either way |
| `HttpParser.ParseNextExtends` | source/network/HttpRequestParser.cpp:38-79 | What was decided on fewer bytes is decided the same way on more; waiting and header overflow alone are not final |
| `HttpParser.DrainExtends` | source/network/HttpRequestParser.cpp:38-88 | Draining what there is and then the rest is draining all of it |
| `HttpRequestText.HeadIsRead` | source/network/HttpRequestParser.cpp:98-126 | A well-formed request line and field lines, each ended by CRLF or LF, are read as verb, target, version and fields with lower-cased names and trimmed values, later ones winning |
| `HttpParserObject.HttpRequestParser.ParseHeaderBlock` | source/network/HttpRequestParser.cpp:98-126 | The loop over the lines of the head; result and new state are exactly those of `HttpParser` |
| `HttpParserObject.HttpRequestParser.DrainRequests` | source/network/HttpRequestParser.cpp:38-88 | All requests that are complete; result and new state are exactly those of `HttpParser` |
| `HttpServer.RepliesGoHome` | source/mcp/McpHttpServerTransport.cpp:77-294 | After any run an accepted request has been answered at most once, on the socket that posted it, with a response to its id or 504, and not at all while it is in the table |
| `HttpServer.QueueConserves` | source/mcp/McpHttpServerTransport.cpp:94-104 | After any run messages the server started were written at most once and in order, the queue is within a positive cap, and what was written and what is queued are all that was sent if and only if no message was sent beyond the cap, and none was held when the transport was stopped, a session ended, or an acknowledgement went to a socket hung up meanwhile |
| `HttpServerLosses.AcknowledgedToNobody` | source/mcp/McpHttpServerTransport.cpp:296-315 | The last of these does happen, without overflow, session end or stop: a handler answers a waiting request on the posting socket, which hangs it up, sends a message, and the acknowledgement empties the queue into the dead socket |
| `HttpServer.StepOk` | source/mcp/McpHttpServerTransport.cpp:77-494 | The invariant of table and queue is kept by every event, with the handlers it runs |
| `HttpServerObject.ServerTransport.ForgetSocket` | source/mcp/McpHttpServerTransport.cpp:77-92 | The loop removes exactly the entries of the socket; the new state is exactly that of `HttpServer` |
| `HttpServerObject.ServerTransport.EnforceQueueBudget` | source/mcp/McpHttpServerTransport.cpp:94-104 | The oldest are dropped until the queue is within a positive cap; the new state is exactly that of `HttpServer` |
| `HttpServerObject.ServerTransport.ReadRequests` | source/mcp/McpHttpServerTransport.cpp:113-163 | The loop over complete requests, left when the socket is gone; the new state is exactly that of `HttpServer` |
| `HttpServerObject.ServerTransport.EndSession` | source/mcp/McpHttpServerTransport.cpp:279-294 | Queue and table are given up; the new state is exactly that of `HttpServer` |
| `HttpServerObject.ServerTransport.Handle` | source/mcp/McpHttpServerTransport.cpp:61-494 | Any event; the new state is exactly that of `HttpServer` |
| `ToolBinder.ApplyToolsReconciles` | source/mcp/McpToolBinder.cpp:209-255 | Given distinct names and a binding whose tools are registered: foreign entries stay as they are, the others become exactly the listed tools whose ids no other holds, a tool with unchanged info keeps its object and any other is new, and the binding is again one whose tools are registered |
| `ToolBinder.ClearToolsLeavesForeign` | source/mcp/McpToolBinder.cpp:257-269 | Clearing leaves exactly the foreign entries |
| `ToolBinderSharing.LivesOfBindings` | source/mcp/McpToolBinder.cpp:75-108 | Any number of bindings reconciled and cleared in any order, with other providers adding and removing tools of their own in between: every binding has its tools registered and none of another, what other providers registered is untouched by the bindings, and is all that is left once every binding is cleared |
| `ToolBinderSharing.ReconcilingLeavesOthers` | source/mcp/McpToolBinder.cpp:209-255 | Reconciling one binding leaves every other binding with its tools registered, and no object in common |
| `ToolBinderSharing.EditsStayApart` | source/mcp/McpToolBinder.cpp:209-269 | What each edit does to the entries of other providers: nothing when a binding makes it |
| `ToolBinderSharing.ForeignIsLeftAlone` | source/mcp/McpToolBinder.cpp:209-269 | Whatever was done to the registry before, reconciling or clearing never replaces or removes an entry that is not the binding's |
| `ToolBinder.IdsOfOneServer` | source/mcp/McpRemoteTool.cpp:22-27 | Within one server an id determines the tool |
| `ToolBinder.IdsOfTwoServers` | source/mcp/McpRemoteTool.cpp:22-27 | Two servers claim the same id exactly when the longer server name continues the shorter one with an underscore and the tool of the shorter one spells out the rest |
| `ToolBinderObject.McpToolBinder.ApplyTools` | source/mcp/McpToolBinder.cpp:209-255 | The loops over registry and lists compute `ToolBinder.ApplyTools` |
| `ToolBinderObject.McpToolBinder.RemoveStale` | source/mcp/McpToolBinder.cpp:250-253 | The loop removes exactly the owned tools that are no longer listed |
| `ToolBinderObject.McpToolBinder.ClearTools` | source/mcp/McpToolBinder.cpp:257-269 | The loop computes `ToolBinder.ClearTools` |

## Left out

- JSON text, UTF-8, base64 and URLs: library code, parameters of the model (`Env`, `Library`); messages carry the fields that the code looks at. Content types are flags of a response.
- Sockets, network replies, processes and files are sources of events. A transport that runs handlers inside `openStream`, and sockets that report their disconnection from inside a call, are not modelled.
- Re-entrancy is at signals. Promise continuations that would call into a session from inside `abortPending`, and `toolsChanged` handlers inside the binder, are not modelled.
- Clocks: whether a listen stream lasted long enough to reset the backoff is a parameter of its end.
- Integers are unbounded apart from the lengths of HTTP bodies and the clamp of `retry`; ids and token counts do not wrap, and unique ids are numbers counted up.
- Shared pointers to exchanges are keys of a table of records, sockets and streams are numbers; destructors, cross-thread calls and nested event loops are outside.
- McpStreamableTransport.Transport.Start: does not validate the endpoint or log.
- The DELETE request that ends a session, request headers, authentication and proxies.
- Handlers of built-in notifications that an application replaces, and the contents of progress notifications.
- `HttpRequest::header` searches a hash without regard to case; the parser stores lower-case names, so the model looks the name up.
- McpListenResumption.ListenMessagesFollowTheLog: is about the connections since the last one opened without a cursor; what a server sent between two such connections is lost to any client.
- A socket that was told to disconnect takes no more bytes in the model, though one that is still closing might. `HttpServer.RepliesGoHome` counts writes that answer a request; an acknowledgement or an error to a later, pipelined request may precede the answer on the same socket.
- Tools themselves, their schemas and the text of their results beyond the prefix of an error; tool-start signals after a cancel, which a late gate still sends.
- A request whose continuation stream is empty stays in the table: its message still asks for tools. No claim is made that every request ends.
- Conversations, payloads of continuations, model lists and error texts of providers; whether a continuation can be built is a parameter of a finished round. A URL is taken to be present once a request was sent.
- Other providers' messages, `completeAllToolCalls`, reconnection of MCP clients by the binder, conversions of types and schemas: easy beside what is here.
