/**
 The client side of the MCP Streamable HTTP transport
 (source/mcp/McpStreamableHttpTransport.cpp): one exchange per posted message, resumed when its
 response stream drops, and one long-lived listen stream for messages the server starts.

 Signals are appended to a trace. A handler of the application may call back into the transport
 from any signal: `script` holds, signal by signal, the calls it makes, and `outcomes` tells
 which calls of `openStream` return a stream. Statements over all runs are for all scripts and
 outcomes.
 */
module McpTransport {
  import opened ByteStrings
  import opened Options
  import opened Sse
  import opened SseResume

  // ---- messages and responses ---------------------------------------------------

  /** The `id` member of a JSON object; `text` is its `toVariant().toString()`. */
  datatype Id = NoId | NullId | TextId(text: string)

  /** What the transport looks at in a JSON object: `name` is its `method`, `version` its `result.protocolVersion`. */
  datatype Message = Message(name: Option<string>, id: Id, version: string, hasError: bool, isEmpty: bool)

  predicate IsRequest(m: Message) { m.name.Some? && m.id != NoId }

  function IdText(id: Id): string { if id.TextId? then id.text else "" }

  predicate Answers(reply: Message, request: Message) {
    reply.name.None? && reply.id.TextId? && reply.id.text == IdText(request.id)
  }

  predicate IsInitialize(m: Message) { m.name == Some("initialize") }

  /** The head of an HTTP response; the two flags say what its Content-Type contains. */
  datatype Head = Head(status: int, eventStream: bool, json: bool, session: string)

  datatype Response = Response(status: int, eventStream: bool, json: bool, body: Bytes)

  const NoResponse: Response := Response(0, false, false, [])

  predicate IsSuccess(r: Response) { 200 <= r.status < 300 }

  predicate IsEventStream(r: Response) { IsSuccess(r) && r.eventStream }

  predicate IsTransientRefusal(status: int) {
    status == 408 || status == 409 || status == 425 || status == 429 || (status >= 500 && status != 501)
  }

  const INITIAL_BACKOFF_MS: nat := 1000
  const MAX_BACKOFF_MS: nat := 30000

  function Min(a: nat, b: nat): nat { if a <= b then a else b }

  function Max(a: nat, b: nat): nat { if a >= b then a else b }

  function DelayMs(retryMs: Option<nat>, backoffMs: nat): nat {
    Max(if retryMs.Some? then retryMs.value else 0, backoffMs)
  }

  // ---- state --------------------------------------------------------------------

  /** `resumeTimer` is the interval of the armed timer. */
  datatype Exchange = Exchange(message: Message, stream: Option<nat>, response: Response, reader: Reader,
                               answered: bool, done: bool, resuming: bool, retryMs: Option<nat>,
                               backoffMs: nat, resumeTimer: Option<nat>)

  datatype Listen = Listen(stream: Option<nat>, events: Parser, lastEventId: Bytes, accepted: bool,
                           refused: bool, resumed: bool, heard: bool, outageReported: bool,
                           backlog: seq<Event>, backoffMs: nat, serverRetryMs: Option<nat>,
                           uptimeValid: bool, retryTimer: Option<nat>)

  const IdleListen: Listen :=
    Listen(None, Parser([], false, Cleared), [], false, false, false, false, false, [],
           INITIAL_BACKOFF_MS, None, false, None)

  /** The object whose handlers a stream is connected to. */
  datatype Slot = ForExchange(x: nat) | ForListen

  /**
   What happens, in order. `Reply` and `Relayed` are `messageReceived`, `SendFailed` and `Unsent`
   are `sendFailed`, `ErrorOccurred` and `Closed` are the signals of that name. The others are not
   signals. `Abandoned`, `Arrived` and `Reconnected` note that the caller dropped an exchange, that a
   chunk of an event stream arrived for it, and that it resumed; `Posted` and `Negotiated`, that one was
   added for a message, and that the answer to its `initialize` set the protocol version, the transport
   being open or not; `Started`, that the transport was started, with a protocol version still set or not;
   and of the listen stream, that the delay of a retry was settled on, the retry armed, a stream opened
   with some last event id, a chunk arrived, a stream ended that had lasted, and listening was stopped.
   */
  datatype Signal =
    | Reply(x: nat, message: Message, answering: bool, fromBody: bool)
    | Relayed(x: nat, message: Message)
    | SendFailed(x: nat)
    | Unsent(message: Message)
    | ListenMessage(message: Message)
    | ErrorOccurred(about: Option<nat>)
    | Closed
    | Abandoned(x: nat)
    | Arrived(x: nat, chunk: Bytes)
    | Reconnected(x: nat)
    | Started(negotiated: bool)
    | Posted(x: nat, open: bool)
    | Negotiated(x: nat, open: bool)
    | RetryPlanned(delayMs: nat, serverRetryMs: Option<nat>)
    | RetryArmed(delayMs: nat)
    | ListenConnected(cursor: Bytes)
    | ListenArrived(chunk: Bytes)
    | ListenSettled
    | ListeningStopped

  /** The public operations a handler of the application may call. */
  datatype Call = Start | Stop | Send(message: Message) | Abandon(id: string)

  /** `records` holds every exchange ever made, `table` those still in the list `exchanges`. */
  datatype State = State(open: bool, http: bool, sessionId: string, protocolVersion: string,
                         records: map<nat, Exchange>, table: seq<nat>, slots: map<nat, Slot>,
                         headed: set<nat>, nextStream: nat, listen: Listen,
                         outcomes: seq<bool>, script: seq<seq<Call>>, trace: seq<Signal>)

  function Initial(outcomes: seq<bool>, script: seq<seq<Call>>): State {
    State(false, true, "", "", map[], [], map[], {}, 0, IdleListen, outcomes, script, [])
  }

  /** JSON parsing stays abstract: `decode` gives the object in some bytes, if there is one. */
  datatype Env = Env(decode: Bytes -> Option<Message>)

  function Note(s: State, g: Signal): State { s.(trace := s.trace + [g]) }

  function SetExchange(s: State, x: nat, e: Exchange): State { s.(records := s.records[x := e]) }

  function Disconnect(s: State, stream: Option<nat>): State {
    s.(slots := if stream.Some? then s.slots - {stream.value} else s.slots)
  }

  /** `http->openStream`: a new stream, or none. */
  function OpenStream(s: State): (State, Option<nat>) {
    if s.outcomes == [] || !s.outcomes[0]
    then (if s.outcomes == [] then s else s.(outcomes := s.outcomes[1..]), None)
    else (s.(outcomes := s.outcomes[1..], nextStream := s.nextStream + 1), Some(s.nextStream))
  }

  function Remove(table: seq<nat>, x: nat): seq<nat> {
    if table == [] then []
    else if table[0] == x then table[1..]
    else [table[0]] + Remove(table[1..], x)
  }

  // ---- dropping exchanges -----------------------------------------------------------

  function Dropped(e: Exchange): Exchange { e.(done := true, resumeTimer := None) }

  function Drop(s: State, x: nat): State
    requires x in s.records
  {
    Disconnect(SetExchange(s, x, Dropped(s.records[x])), s.records[x].stream)
  }

  function Release(s: State, x: nat): State
    requires x in s.records
  {
    var s1 := Drop(s, x);
    s1.(table := Remove(s1.table, x))
  }

  /** `drop` for every exchange of the list, which the caller has emptied. */
  function DropAll(s: State, xs: seq<nat>): (r: State)
    ensures r == s.(records := r.records, slots := r.slots)
    decreases |xs|
  {
    if xs == [] then s else DropAll(if xs[0] in s.records then Drop(s, xs[0]) else s, xs[1..])
  }

  function AbandonExchanges(s: State): State { DropAll(s.(table := []), s.table) }

  function NoteAbandoned(s: State, xs: seq<nat>): (r: State)
    ensures r == s.(trace := r.trace) && Quiet(s.trace, r.trace)
    decreases |xs|
  {
    if xs == [] then s else NoteAbandoned(Note(s, Abandoned(xs[0])), xs[1..])
  }

  function FindRequest(s: State, xs: seq<nat>, id: string): Option<nat>
    decreases |xs|
  {
    if xs == [] then None
    else if xs[0] in s.records && IsRequest(s.records[xs[0]].message)
            && IdText(s.records[xs[0]].message.id) == id then Some(xs[0])
    else FindRequest(s, xs[1..], id)
  }

  function AbandonExchange(s: State, id: string): State {
    var x := FindRequest(s, s.table, id);
    if x.Some? && x.value in s.records
    then Note(Release(s, x.value), Abandoned(x.value))
    else s
  }

  function StopListening(s: State): State {
    Note(Disconnect(s, s.listen.stream).(listen := IdleListen), ListeningStopped)
  }

  // ---- signals and what the application does in them ----------------------------------

  /** A reply read from an event stream, and the bytes it is read from. */
  predicate IsStreamed(g: Signal) { g.Arrived? || (g.Reply? && !g.fromBody) }

  /** `u` continues `t`, with nothing new read from the event stream of an exchange. */
  predicate Quiet(t: seq<Signal>, u: seq<Signal>) {
    t <= u && forall i :: |t| <= i < |u| ==> !IsStreamed(u[i])
  }

  /** No handler adds to the script or, without a nested event loop, to the backlog. */
  predicate NoLarger(r: State, s: State) {
    |r.script| <= |s.script| && |r.listen.backlog| <= |s.listen.backlog|
  }

  function Emit(s: State, g: Signal): (r: State)
    ensures NoLarger(r, s) && Quiet(s.trace + [g], r.trace)
    decreases |s.script|, 0
  {
    var s1 := Note(s, g);
    if s1.script == [] then s1 else RunCalls(s1.(script := s1.script[1..]), s1.script[0])
  }

  function RunCalls(s: State, calls: seq<Call>): (r: State)
    ensures NoLarger(r, s) && Quiet(s.trace, r.trace)
    decreases |s.script|, 9, |calls|
  {
    if calls == [] then s else RunCalls(Do(s, calls[0]), calls[1..])
  }

  function Do(s: State, call: Call): (r: State)
    ensures NoLarger(r, s) && Quiet(s.trace, r.trace)
    decreases |s.script|, 8
  {
    match call
    case Start => if s.open then s else Note(s.(open := true), Started(s.protocolVersion != ""))
    case Stop => DoStop(s)
    case Send(m) => if s.open then Post(s, m) else Emit(s, ErrorOccurred(None))
    case Abandon(id) => AbandonExchange(s, id)
  }

  function DoStop(s: State): (r: State)
    ensures NoLarger(r, s) && Quiet(s.trace, r.trace)
    decreases |s.script|, 7
  {
    if !s.open then s else Emit(Stopped(s), Closed)
  }

  /** `stop` up to its signal. */
  function Stopped(s: State): (r: State)
    ensures r.script == s.script && Quiet(s.trace, r.trace)
  {
    var s1 := AbandonExchanges(s.(open := false, sessionId := "", protocolVersion := ""));
    StopListening(NoteAbandoned(s1, s.table))
  }

  function Post(s: State, m: Message): (r: State)
    ensures NoLarger(r, s) && Quiet(s.trace, r.trace)
    decreases |s.script|, 7
  {
    if !s.http then FailUnsent(s, m)
    else
      var s1 := if IsInitialize(m) then StartNewSession(s) else s;
      var (s2, stream) := OpenStream(s1);
      if stream.None? then FailUnsent(s2, m) else Attach(AddExchange(s2, m), |s2.records|, stream.value)
  }

  function AddExchange(s: State, m: Message): State {
    var x := |s.records|;
    var e := Exchange(m, None, NoResponse, FreshReader, false, false, false, None, INITIAL_BACKOFF_MS, None);
    Note(SetExchange(s, x, e).(table := s.table + [x]), Posted(x, s.open))
  }

  function Attach(s: State, x: nat, stream: nat): State
    requires x in s.records
  {
    SetExchange(s, x, s.records[x].(stream := Some(stream))).(slots := s.slots[stream := ForExchange(x)])
  }

  function FailUnsent(s: State, m: Message): (r: State)
    ensures NoLarger(r, s) && Quiet(s.trace, r.trace)
    decreases |s.script|, 3
  {
    var s1 := Emit(s, ErrorOccurred(None));
    if IsRequest(m) then Emit(s1, Unsent(m)) else s1
  }

  function StartNewSession(s: State): (r: State)
    ensures NoLarger(r, s) && Quiet(s.trace, r.trace)
    decreases |s.script|, 6
  {
    var s1 := FailSuperseded(AbandonExchanges(s), s.table);
    StopListening(s1.(sessionId := "", protocolVersion := ""))
  }

  /** The loop over the abandoned exchanges in `startNewSession`. */
  function FailSuperseded(s: State, xs: seq<nat>): (r: State)
    ensures NoLarger(r, s) && Quiet(s.trace, r.trace)
    decreases |s.script|, 5, |xs|
  {
    if xs == [] then s
    else
      var s1 := if xs[0] in s.records && IsRequest(s.records[xs[0]].message) && !s.records[xs[0]].answered
                then Emit(s, SendFailed(xs[0])) else s;
      FailSuperseded(s1, xs[1..])
  }

  // ---- the listen stream -------------------------------------------------------------

  function OpenListenStream(s: State): (r: State)
    ensures Quiet(s.trace, r.trace)
  {
    if !s.open || !s.http || s.listen.stream.Some? || s.listen.refused then s
    else
      var l := s.listen;
      var seeded := Parser([], false, Cleared.(idBuffer := l.lastEventId, lastEventId := l.lastEventId));
      var s1 := s.(listen := l.(events := seeded, resumed := l.lastEventId != [], heard := false));
      var (s2, stream) := OpenStream(s1);
      if stream.None? then ScheduleListenRetry(s2)
      else
        Note(s2.(listen := s2.listen.(stream := stream), slots := s2.slots[stream.value := ForListen]),
             ListenConnected(l.lastEventId))
  }

  function ScheduleListenRetry(s: State): (r: State)
    ensures Quiet(s.trace, r.trace)
  {
    if !s.open || !s.http || s.listen.refused then s
    else
      var delayMs := DelayMs(s.listen.serverRetryMs, s.listen.backoffMs);
      ArmListenRetry(ReportOutage(Note(s, RetryPlanned(delayMs, s.listen.serverRetryMs))), delayMs)
  }

  /** Once per outage, when the backoff has reached its cap. */
  function ReportOutage(s: State): (r: State)
    ensures Quiet(s.trace, r.trace)
  {
    if s.listen.backoffMs >= MAX_BACKOFF_MS && !s.listen.outageReported
    then Emit(s.(listen := s.listen.(outageReported := true)), ErrorOccurred(None)) else s
  }

  function ArmListenRetry(s: State, delayMs: nat): State {
    Note(s.(listen := s.listen.(retryTimer := Some(delayMs),
                                backoffMs := Min(s.listen.backoffMs * 2, MAX_BACKOFF_MS))), RetryArmed(delayMs))
  }

  /** `releaseListenStream` and `abandonListenStream` leave the same state. */
  function ForgetListenStream(s: State): State {
    Disconnect(s, s.listen.stream).(listen := s.listen.(stream := None))
  }

  function OnListenHeaders(s: State, head: Head): (r: State)
    ensures Quiet(s.trace, r.trace)
  {
    var r := Response(head.status, head.eventStream, head.json, []);
    if IsEventStream(r) then s.(listen := s.listen.(accepted := true, uptimeValid := true))
    else OnListenRefused(ForgetListenStream(s), head.status)
  }

  function OnListenRefused(s: State, status: int): (r: State)
    ensures Quiet(s.trace, r.trace)
  {
    if status == 404 && s.listen.accepted && s.sessionId != "" then
      DoStop(Emit(s, ErrorOccurred(None)).(sessionId := ""))
    else if status == 400 && s.listen.lastEventId != [] then
      ScheduleListenRetry(s.(listen := s.listen.(lastEventId := [])))
    else if IsTransientRefusal(status) then ScheduleListenRetry(s)
    else s.(listen := s.listen.(refused := true))
  }

  function RestartListenBackoff(s: State): State {
    s.(listen := s.listen.(backoffMs := INITIAL_BACKOFF_MS, outageReported := false))
  }

  function OnListenChunk(env: Env, s: State, chunk: Bytes): (r: State)
    ensures Quiet(s.trace, r.trace)
  {
    var (p, events) := AppendSpec(DEFAULT_MAX_BUFFER_BYTES, s.listen.events, chunk);
    DrainBacklog(env, Note(s.(listen := TakeListenChunk(s.listen, p, events)), ListenArrived(chunk)))
  }

  function TakeListenChunk(l: Listen, p: Parser, events: seq<Event>): Listen {
    l.(events := p,
       serverRetryMs := if p.fields.retryMs.Some? then p.fields.retryMs else l.serverRetryMs,
       heard := l.heard || events != [] || p.fields.lastEventId != l.lastEventId,
       lastEventId := p.fields.lastEventId,
       backlog := l.backlog + events)
  }

  /** The loop over the backlog, which `stopListening` may empty under way. */
  function DrainBacklog(env: Env, s: State): (r: State)
    ensures Quiet(s.trace, r.trace)
    decreases |s.listen.backlog|
  {
    if s.listen.backlog == [] then s
    else
      var event := s.listen.backlog[0];
      var s1 := s.(listen := s.listen.(backlog := s.listen.backlog[1..]));
      var message := if event.kind == MESSAGE then env.decode(event.data) else None;
      if message.None? || message.value.isEmpty then DrainBacklog(env, s1)
      else
        DrainBacklog(env, Emit(RestartListenBackoff(s1), ListenMessage(message.value)))
  }

  function OnListenEnded(s: State, settled: bool): (r: State)
    ensures Quiet(s.trace, r.trace)
  {
    var s1 := s.(listen := EndedListen(s.listen, settled));
    ScheduleListenRetry(ForgetListenStream(if s.listen.uptimeValid && settled then Note(s1, ListenSettled) else s1))
  }

  /** `settled` says whether the stream has been up for the initial backoff time. */
  function EndedListen(l: Listen, settled: bool): Listen {
    var restart := l.uptimeValid && settled;
    var forget := l.uptimeValid && !settled && l.resumed && !l.heard;
    l.(uptimeValid := false,
       backoffMs := if restart then INITIAL_BACKOFF_MS else l.backoffMs,
       outageReported := if restart then false else l.outageReported,
       lastEventId := if forget then [] else l.lastEventId)
  }

  // ---- the exchanges -------------------------------------------------------------------

  predicate CanResume(e: Exchange) {
    !e.done && !e.answered && e.reader.cursor != [] && IsRequest(e.message)
  }

  function OnHeaders(s: State, x: nat, head: Head): State
    requires x in s.records
  {
    var response := Response(head.status, head.eventStream, head.json, []);
    var s1 := SetExchange(s, x, s.records[x].(response := response));
    s1.(sessionId := if head.session != "" then head.session else s.sessionId)
  }

  function OnChunk(env: Env, s: State, x: nat, chunk: Bytes): State
    requires x in s.records
  {
    var e := s.records[x];
    if !IsEventStream(e.response) then
      SetExchange(s, x, e.(response := e.response.(body := e.response.body + chunk)))
    else
      var (reader, events) := ReadChunk(DEFAULT_MAX_BUFFER_BYTES, e.reader, chunk);
      var s1 := Note(SetExchange(s, x, TakeChunk(e, reader, events)), Arrived(x, chunk));
      var s2 := ReceiveEvents(env, s1, x, events);
      if x in s2.records && s2.records[x].resuming && s2.records[x].answered && !s2.records[x].done
      then Release(s2, x) else s2
  }

  function TakeChunk(e: Exchange, reader: Reader, events: seq<Event>): Exchange {
    var retryMs := reader.events.fields.retryMs;
    e.(reader := reader,
       retryMs := if retryMs.Some? then retryMs else e.retryMs,
       backoffMs := if events != [] || reader.cursor != e.reader.cursor then INITIAL_BACKOFF_MS else e.backoffMs)
  }

  function ReceiveEvents(env: Env, s: State, x: nat, events: seq<Event>): State
    decreases |events|
  {
    if events == [] || x !in s.records || s.records[x].done then s
    else
      var reply := if events[0].kind == MESSAGE then env.decode(events[0].data) else None;
      var s1 := if reply.None? || reply.value.isEmpty then s else Receive(s, x, reply.value, false);
      ReceiveEvents(env, s1, x, events[1..])
  }

  function Receive(s: State, x: nat, reply: Message, fromBody: bool): State
    requires x in s.records
  {
    var e := s.records[x];
    var answering := Answers(reply, e.message);
    var s1 := if answering then SetExchange(s, x, e.(answered := true)) else s;
    var s2 := if answering && IsInitialize(e.message) && reply.version != ""
              then OpenListenStream(Note(s1.(protocolVersion := reply.version), Negotiated(x, s.open))) else s1;
    Emit(s2, Reply(x, reply, answering, fromBody))
  }

  function OnFinished(env: Env, s: State, x: nat): (r: State)
    requires x in s.records
    ensures Quiet(s.trace, r.trace)
  {
    var e := s.records[x];
    var resumable := IsEventStream(e.response) || (e.resuming && IsTransientRefusal(e.response.status));
    if resumable && CanResume(e) then ScheduleResume(s, x)
    else if IsSuccess(e.response) then FinishSuccess(env, Release(s, x), x)
    else FinishFailure(env, Release(s, x), x)
  }

  function FinishFailure(env: Env, s: State, x: nat): (r: State)
    requires x in s.records
    ensures Quiet(s.trace, r.trace)
  {
    var e := s.records[x];
    var s1 := Emit(s, ErrorOccurred(Some(x)));
    var error := env.decode(e.response.body);
    var s2 := if !IsRequest(e.message) then s1
              else if error.Some? && error.value.hasError
              then Emit(s1, Relayed(x, error.value.(id := e.message.id)))
              else Emit(s1, SendFailed(x));
    if e.response.status == 404 && s2.sessionId != "" then DoStop(s2.(sessionId := "")) else s2
  }

  function FinishSuccess(env: Env, s: State, x: nat): (r: State)
    requires x in s.records
    ensures Quiet(s.trace, r.trace)
  {
    var e := s.records[x];
    var s1 := if IsEventStream(e.response) then s else DeliverBody(env, s, x);
    if x in s1.records && IsRequest(e.message) && !s1.records[x].answered
    then Emit(s1, SendFailed(x)) else s1
  }

  function DeliverBody(env: Env, s: State, x: nat): (r: State)
    requires x in s.records
    ensures Quiet(s.trace, r.trace)
  {
    var r := s.records[x].response;
    if r.status == 202 || r.body == [] || !r.json then s
    else
      var reply := env.decode(r.body);
      if reply.Some? then Receive(s, x, reply.value, true) else Emit(s, ErrorOccurred(Some(x)))
  }

  function Fail(s: State, x: nat): (r: State)
    requires x in s.records
    ensures Quiet(s.trace, r.trace)
  {
    var s1 := Emit(s, ErrorOccurred(Some(x)));
    if x in s1.records && IsRequest(s1.records[x].message) && !s1.records[x].answered
    then Emit(s1, SendFailed(x)) else s1
  }

  function OnError(s: State, x: nat): (r: State)
    requires x in s.records
    ensures Quiet(s.trace, r.trace)
  {
    if CanResume(s.records[x]) then ScheduleResume(s, x) else Fail(Release(s, x), x)
  }

  /** The stream object is gone, and with it its connections and the guarded pointer to it. */
  function OnDestroyed(s: State, x: nat): (r: State)
    requires x in s.records
    ensures Quiet(s.trace, r.trace)
  {
    var s1 := SetExchange(s, x, s.records[x].(stream := None));
    Fail(Release(Disconnect(s1, s.records[x].stream), x), x)
  }

  function ScheduleResume(s: State, x: nat): State
    requires x in s.records
  {
    var e := s.records[x];
    var e' := e.(stream := None,
                 resumeTimer := Some(DelayMs(e.retryMs, e.backoffMs)),
                 backoffMs := Min(e.backoffMs * 2, MAX_BACKOFF_MS));
    SetExchange(Disconnect(s, e.stream), x, e')
  }

  function OnResumeTimeout(s: State, x: nat): (r: State)
    requires x in s.records
    ensures Quiet(s.trace, r.trace)
  {
    if s.records[x].done then SetExchange(s, x, s.records[x].(resumeTimer := None))
    else if !s.http then Fail(Release(s, x), x)
    else
      var (s1, stream) := OpenStream(s);
      if stream.None? then Fail(Release(s1, x), x) else Reconnect(s1, x, stream.value)
  }

  function OnNewStream(e: Exchange, stream: nat): Exchange {
    e.(resuming := true, response := NoResponse, reader := Resume(e.reader), stream := Some(stream), resumeTimer := None)
  }

  /** The rest of `resume` once a stream is open. */
  function Reconnect(s: State, x: nat, stream: nat): State
    requires x in s.records
  {
    var s1 := SetExchange(s, x, OnNewStream(s.records[x], stream));
    Note(s1.(slots := s1.slots[stream := ForExchange(x)]), Reconnected(x))
  }

  // ---- all inputs ------------------------------------------------------------------------

  /** Everything that can happen to the transport from outside. */
  datatype Input =
    | Command(call: Call)
    | Headers(stream: nat, head: Head)
    | Chunk(stream: nat, bytes: Bytes)
    | Finished(stream: nat, settled: bool)
    | Failed(stream: nat, settled: bool)
    | Destroyed(stream: nat, settled: bool)
    | ResumeTimeout(x: nat)
    | ListenTimeout
    | HttpDestroyed

  /** A stream reaches only the handlers it is still connected to, a timer only fires armed. */
  function Step(env: Env, s: State, input: Input): State {
    match input
    case Command(call) => Do(s, call)
    case Headers(st, head) =>
      // HttpStream fires its headers once (source/network/HttpStream.cpp:45-54).
      if st !in s.slots || st in s.headed then s
      else
        var s1 := s.(headed := s.headed + {st});
        if s.slots[st].ForListen? then OnListenHeaders(s1, head)
        else if s.slots[st].x in s.records then OnHeaders(s1, s.slots[st].x, head) else s
    case Chunk(st, bytes) =>
      if st !in s.slots then s
      else if s.slots[st].ForListen? then OnListenChunk(env, s, bytes)
      else if s.slots[st].x in s.records then OnChunk(env, s, s.slots[st].x, bytes) else s
    case Finished(st, settled) =>
      if st !in s.slots then s
      else if s.slots[st].ForListen? then OnListenEnded(s, settled)
      else if s.slots[st].x in s.records then OnFinished(env, s, s.slots[st].x) else s
    case Failed(st, settled) =>
      if st !in s.slots then s
      else if s.slots[st].ForListen? then OnListenEnded(s, settled)
      else if s.slots[st].x in s.records then OnError(s, s.slots[st].x) else s
    case Destroyed(st, settled) =>
      if st !in s.slots then s
      else if s.slots[st].ForListen? then OnListenEnded(s, settled)
      else if s.slots[st].x in s.records then OnDestroyed(s, s.slots[st].x) else s
    case ResumeTimeout(x) =>
      if x in s.records && s.records[x].resumeTimer.Some? then OnResumeTimeout(s, x) else s
    case ListenTimeout =>
      if s.listen.retryTimer.None? then s
      else OpenListenStream(s.(listen := s.listen.(retryTimer := None)))
    case HttpDestroyed => s.(http := false, listen := s.listen.(retryTimer := None))
  }

  function Run(env: Env, s: State, inputs: seq<Input>): State
    decreases |inputs|
  {
    if inputs == [] then s else Run(env, Step(env, s, inputs[0]), inputs[1..])
  }
}
