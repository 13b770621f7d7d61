/**
 The transport as the program has it, an object whose handlers update its fields in place. Every
 method is proved to compute the function of the same name in `McpTransport`, so what is proved
 there about all runs holds of this object.
 */
module McpStreamableTransport {
  import opened ByteStrings
  import opened Options
  import opened Sse
  import opened SseResume
  import T = McpTransport
  import opened McpTransport

  class Transport {
    var open: bool
    var http: bool
    var sessionId: string
    var protocolVersion: string
    var records: map<nat, Exchange>
    var exchanges: seq<nat>
    var connected: map<nat, Slot>
    var headed: set<nat>
    var nextStream: nat
    var listen: Listen
    var outcomes: seq<bool>
    var script: seq<seq<Call>>
    ghost var trace: seq<Signal>

    ghost function Model(): State
      reads this
    {
      State(open, http, sessionId, protocolVersion, records, exchanges, connected, headed,
            nextStream, listen, outcomes, script, trace)
    }

    constructor (outcomes: seq<bool>, script: seq<seq<Call>>)
      ensures Model() == Initial(outcomes, script)
    {
      open, http, sessionId, protocolVersion := false, true, "", "";
      records, exchanges, connected, headed, nextStream := map[], [], map[], {}, 0;
      listen := IdleListen;
      this.outcomes, this.script, trace := outcomes, script, [];
    }

    // ---- signals and the application's calls ------------------------------------------------

    method Emit(ghost g: Signal)
      modifies this
      ensures Model() == T.Emit(old(Model()), g)
      decreases |script|, 0
    {
      hide T.RunCalls;
      trace := trace + [g];
      if script != [] {
        var calls := script[0];
        script := script[1..];
        RunCalls(calls);
      }
    }

    method RunCalls(calls: seq<Call>)
      modifies this
      ensures Model() == T.RunCalls(old(Model()), calls)
      decreases |script|, 9
    {
      hide T.Do;
      ghost var before := Model();
      var i := 0;
      while i < |calls|
        invariant 0 <= i <= |calls| && |script| <= |old(script)|
        invariant T.RunCalls(before, calls) == T.RunCalls(Model(), calls[i..])
      {
        Do(calls[i]);
        assert calls[i..][1..] == calls[i + 1..];
        i := i + 1;
      }
    }

    method Do(call: Call)
      modifies this
      ensures Model() == T.Do(old(Model()), call)
      decreases |script|, 8
    {
      hide T.DoStop, T.Post, T.Emit, T.AbandonExchange;
      match call
      case Start => Start();
      case Stop => Stop();
      case Send(m) => Send(m);
      case Abandon(id) => AbandonExchange(id);
    }

    method Start()
      modifies this
      ensures Model() == T.Do(old(Model()), Call.Start)
    {
      hide T.DoStop, T.Post, T.Emit, T.AbandonExchange;
      if !open {
        open := true;
        trace := trace + [Started(protocolVersion != "")];
      }
    }

    method Stop()
      modifies this
      ensures Model() == T.DoStop(old(Model()))
      decreases |script|, 7
    {
      hide T.Emit, T.AbandonExchanges, T.NoteAbandoned, T.StopListening;
      if !open {
        return;
      }
      ghost var before := Model();
      open := false;
      sessionId := "";
      protocolVersion := "";
      var abandoned := AbandonExchanges();
      ghost var noted := T.NoteAbandoned(Model(), abandoned);
      trace := noted.trace;
      StopListening();
      assert Model() == T.Stopped(before);
      Emit(Closed);
    }

    method Send(m: Message)
      modifies this
      ensures Model() == T.Do(old(Model()), Call.Send(m))
      decreases |script|, 7, 1
    {
      hide T.DoStop, T.Post, T.Emit, T.AbandonExchange;
      if !open {
        Emit(ErrorOccurred(None));
      } else {
        Post(m);
      }
    }

    method Post(m: Message)
      modifies this
      ensures Model() == T.Post(old(Model()), m)
      decreases |script|, 7, 0
    {
      hide T.StartNewSession, T.FailUnsent, T.Attach;
      if !http {
        FailUnsent(m);
        return;
      }
      if IsInitialize(m) {
        StartNewSession();
      }
      var stream := OpenStream();
      if stream.None? {
        FailUnsent(m);
        return;
      }
      var x := |records|;
      records := records[x := Exchange(m, None, NoResponse, FreshReader, false, false, false, None, INITIAL_BACKOFF_MS, None)];
      exchanges := exchanges + [x];
      trace := trace + [Posted(x, open)];
      Attach(x, stream.value);
    }

    method OpenStream() returns (stream: Option<nat>)
      modifies this
      ensures (Model(), stream) == T.OpenStream(old(Model()))
    {
      if outcomes == [] || !outcomes[0] {
        stream := None;
      } else {
        stream := Some(nextStream);
        nextStream := nextStream + 1;
      }
      outcomes := if outcomes == [] then [] else outcomes[1..];
    }

    method Attach(x: nat, stream: nat)
      requires x in records
      modifies this
      ensures Model() == T.Attach(old(Model()), x, stream)
    {
      records := records[x := records[x].(stream := Some(stream))];
      connected := connected[stream := ForExchange(x)];
    }

    method FailUnsent(m: Message)
      modifies this
      ensures Model() == T.FailUnsent(old(Model()), m)
      decreases |script|, 3
    {
      hide T.Emit;
      Emit(ErrorOccurred(None));
      if IsRequest(m) {
        Emit(Unsent(m));
      }
    }

    method StartNewSession()
      modifies this
      ensures Model() == T.StartNewSession(old(Model()))
      decreases |script|, 6
    {
      hide T.Emit, T.AbandonExchanges, T.StopListening;
      var pending := AbandonExchanges();
      ghost var s1 := Model();
      var i := 0;
      while i < |pending|
        invariant 0 <= i <= |pending| && |script| <= |old(script)|
        invariant T.FailSuperseded(s1, pending) == T.FailSuperseded(Model(), pending[i..])
      {
        assert pending[i..][1..] == pending[i + 1..];
        var x := pending[i];
        if x in records && IsRequest(records[x].message) && !records[x].answered {
          Emit(SendFailed(x));
        }
        i := i + 1;
      }
      sessionId := "";
      protocolVersion := "";
      StopListening();
    }

    // ---- dropping exchanges ---------------------------------------------------------------------

    method Disconnect(stream: Option<nat>)
      modifies `connected
      ensures Model() == T.Disconnect(old(Model()), stream)
    {
      if stream.Some? {
        connected := connected - {stream.value};
      }
    }

    method Drop(x: nat)
      requires x in records
      modifies `records, `connected
      ensures Model() == T.Drop(old(Model()), x)
    {
      records := records[x := records[x].(done := true, resumeTimer := None)];
      Disconnect(records[x].stream);
    }

    method RemoveExchange(x: nat)
      modifies `exchanges
      ensures exchanges == T.Remove(old(exchanges), x)
    {
      var i := 0;
      while i < |exchanges| && exchanges[i] != x
        invariant 0 <= i <= |exchanges| && x !in exchanges[..i] && exchanges == old(exchanges)
      {
        i := i + 1;
      }
      RemoveIs(exchanges, x, i);
      if i < |exchanges| {
        exchanges := exchanges[..i] + exchanges[i + 1..];
      }
    }

    method Release(x: nat)
      requires x in records
      modifies this
      ensures Model() == T.Release(old(Model()), x)
    {
      hide T.Remove;
      records := records[x := records[x].(done := true, resumeTimer := None)];
      RemoveExchange(x);
      Disconnect(records[x].stream);
    }

    method AbandonExchanges() returns (pending: seq<nat>)
      modifies `exchanges, `records, `connected
      ensures pending == old(exchanges) && Model() == T.AbandonExchanges(old(Model()))
    {
      hide T.Drop;
      pending := exchanges;
      exchanges := [];
      ghost var s1 := Model();
      var i := 0;
      while i < |pending|
        invariant 0 <= i <= |pending|
        invariant T.DropAll(s1, pending) == T.DropAll(Model(), pending[i..])
      {
        assert pending[i..][1..] == pending[i + 1..];
        if pending[i] in records {
          Drop(pending[i]);
        }
        i := i + 1;
      }
    }

    method AbandonExchange(id: string)
      modifies this
      ensures Model() == T.AbandonExchange(old(Model()), id)
    {
      hide T.Release;
      ghost var s := Model();
      var i := 0;
      while i < |exchanges|
        invariant 0 <= i <= |exchanges| && Model() == s
        invariant T.FindRequest(s, s.table, id) == T.FindRequest(s, s.table[i..], id)
      {
        assert s.table[i..][1..] == s.table[i + 1..];
        var x := exchanges[i];
        if x in records && IsRequest(records[x].message) && IdText(records[x].message.id) == id {
          Release(x);
          trace := trace + [Abandoned(x)];
          return;
        }
        i := i + 1;
      }
    }

    // ---- the listen stream ------------------------------------------------------------------------

    method StopListening()
      modifies this
      ensures Model() == T.StopListening(old(Model()))
    {
      AbandonListenStream();
      listen := IdleListen;
      trace := trace + [ListeningStopped];
    }

    method AbandonListenStream()
      modifies `listen, `connected
      ensures Model() == T.ForgetListenStream(old(Model()))
    {
      if listen.stream.Some? {
        connected := connected - {listen.stream.value};
      }
      listen := listen.(stream := None);
    }

    method OpenListenStream()
      modifies this
      ensures Model() == T.OpenListenStream(old(Model()))
    {
      hide T.ScheduleListenRetry, T.OpenStream;
      if !open || !http || listen.stream.Some? || listen.refused {
        return;
      }
      var id := listen.lastEventId;
      listen := listen.(events := Parser([], false, Cleared.(idBuffer := id, lastEventId := id)),
                        resumed := id != [], heard := false);
      var stream := OpenStream();
      if stream.None? {
        ScheduleListenRetry();
        return;
      }
      listen := listen.(stream := stream);
      connected := connected[stream.value := ForListen];
      trace := trace + [ListenConnected(id)];
    }

    method ScheduleListenRetry()
      modifies this
      ensures Model() == T.ScheduleListenRetry(old(Model()))
    {
      hide T.ReportOutage;
      if !open || !http || listen.refused {
        return;
      }
      var delayMs := DelayMs(listen.serverRetryMs, listen.backoffMs);
      trace := trace + [RetryPlanned(delayMs, listen.serverRetryMs)];
      ReportOutage();
      listen := listen.(retryTimer := Some(delayMs), backoffMs := Min(listen.backoffMs * 2, MAX_BACKOFF_MS));
      trace := trace + [RetryArmed(delayMs)];
    }

    method ReportOutage()
      modifies this
      ensures Model() == T.ReportOutage(old(Model()))
    {
      hide T.Emit;
      if listen.backoffMs >= MAX_BACKOFF_MS && !listen.outageReported {
        listen := listen.(outageReported := true);
        Emit(ErrorOccurred(None));
      }
    }

    method OnListenHeaders(head: Head)
      modifies this
      ensures Model() == T.OnListenHeaders(old(Model()), head)
    {
      hide T.OnListenRefused;
      if IsEventStream(Response(head.status, head.eventStream, head.json, [])) {
        listen := listen.(accepted := true, uptimeValid := true);
        return;
      }
      AbandonListenStream();
      OnListenRefused(head.status);
    }

    method OnListenRefused(status: int)
      modifies this
      ensures Model() == T.OnListenRefused(old(Model()), status)
    {
      hide T.Emit, T.DoStop, T.ScheduleListenRetry;
      if status == 404 && listen.accepted && sessionId != "" {
        Emit(ErrorOccurred(None));
        sessionId := "";
        Stop();
        return;
      }
      if status == 400 && listen.lastEventId != [] {
        listen := listen.(lastEventId := []);
        ScheduleListenRetry();
        return;
      }
      if IsTransientRefusal(status) {
        ScheduleListenRetry();
        return;
      }
      listen := listen.(refused := true);
    }

    method OnListenChunk(env: Env, chunk: Bytes)
      modifies this
      ensures Model() == T.OnListenChunk(env, old(Model()), chunk)
    {
      hide T.DrainBacklog, AppendSpec, T.TakeListenChunk;
      var (p, events) := AppendSpec(DEFAULT_MAX_BUFFER_BYTES, listen.events, chunk);
      TakeListenChunk(p, events);
      trace := trace + [ListenArrived(chunk)];
      DrainBacklog(env);
    }

    method TakeListenChunk(p: Parser, events: seq<Event>)
      modifies `listen
      ensures listen == T.TakeListenChunk(old(listen), p, events)
    {
      var retryMs, heard := listen.serverRetryMs, listen.heard;
      if p.fields.retryMs.Some? {
        retryMs := p.fields.retryMs;
      }
      if events != [] || p.fields.lastEventId != listen.lastEventId {
        heard := true;
      }
      listen := listen.(events := p, serverRetryMs := retryMs, heard := heard,
                        lastEventId := p.fields.lastEventId, backlog := listen.backlog + events);
    }

    method DrainBacklog(env: Env)
      modifies this
      ensures Model() == T.DrainBacklog(env, old(Model()))
    {
      hide T.Emit;
      ghost var s1 := Model();
      while listen.backlog != []
        invariant T.DrainBacklog(env, s1) == T.DrainBacklog(env, Model())
        decreases |listen.backlog|
      {
        var event := listen.backlog[0];
        listen := listen.(backlog := listen.backlog[1..]);
        if event.kind == MESSAGE {
          var message := env.decode(event.data);
          if message.Some? && !message.value.isEmpty {
            listen := listen.(backoffMs := INITIAL_BACKOFF_MS, outageReported := false);
            Emit(ListenMessage(message.value));
          }
        }
      }
    }

    method OnListenEnded(settled: bool)
      modifies this
      ensures Model() == T.OnListenEnded(old(Model()), settled)
    {
      hide T.ScheduleListenRetry, EndedListen;
      var lasted := listen.uptimeValid && settled;
      EndListenUptime(settled);
      NoteSettled(lasted);
      AbandonListenStream();
      ScheduleListenRetry();
    }

    ghost method NoteSettled(lasted: bool)
      modifies `trace
      ensures trace == if lasted then old(trace) + [ListenSettled] else old(trace)
    {
      if lasted {
        trace := trace + [ListenSettled];
      }
    }

    method EndListenUptime(settled: bool)
      modifies `listen
      ensures listen == EndedListen(old(listen), settled)
    {
      if listen.uptimeValid {
        if settled {
          listen := listen.(backoffMs := INITIAL_BACKOFF_MS, outageReported := false);
        } else if listen.resumed && !listen.heard {
          listen := listen.(lastEventId := []);
        }
      }
      listen := listen.(uptimeValid := false);
    }

    // ---- the exchanges -------------------------------------------------------------------------------

    method OnHeaders(x: nat, head: Head)
      requires x in records
      modifies this
      ensures Model() == T.OnHeaders(old(Model()), x, head)
    {
      records := records[x := records[x].(response := Response(head.status, head.eventStream, head.json, []))];
      if head.session != "" {
        sessionId := head.session;
      }
    }

    method OnChunk(env: Env, x: nat, chunk: Bytes)
      requires x in records
      modifies this
      ensures Model() == T.OnChunk(env, old(Model()), x, chunk)
    {
      hide T.Receive, ReadChunk, T.Release;
      var e := records[x];
      if !IsEventStream(e.response) {
        records := records[x := e.(response := e.response.(body := e.response.body + chunk))];
        return;
      }
      var (reader, events) := ReadChunk(DEFAULT_MAX_BUFFER_BYTES, e.reader, chunk);
      TakeChunk(x, reader, events);
      trace := trace + [Arrived(x, chunk)];
      ReceiveEvents(env, x, events);
      if x in records && records[x].resuming && records[x].answered && !records[x].done {
        Release(x);
      }
    }

    method TakeChunk(x: nat, reader: Reader, events: seq<Event>)
      requires x in records
      modifies `records
      ensures Model() == SetExchange(old(Model()), x, T.TakeChunk(old(records[x]), reader, events))
    {
      var e := records[x];
      var retry := reader.events.fields.retryMs;
      if retry.Some? {
        e := e.(retryMs := retry);
      }
      if events != [] || reader.cursor != e.reader.cursor {
        e := e.(backoffMs := INITIAL_BACKOFF_MS);
      }
      records := records[x := e.(reader := reader)];
    }

    method ReceiveEvents(env: Env, x: nat, events: seq<Event>)
      modifies this
      ensures Model() == T.ReceiveEvents(env, old(Model()), x, events)
    {
      hide T.Receive;
      ghost var s1 := Model();
      var i := 0;
      while i < |events| && x in records && !records[x].done
        invariant 0 <= i <= |events|
        invariant T.ReceiveEvents(env, s1, x, events) == T.ReceiveEvents(env, Model(), x, events[i..])
      {
        assert events[i..][1..] == events[i + 1..];
        if events[i].kind == MESSAGE {
          var reply := env.decode(events[i].data);
          if reply.Some? && !reply.value.isEmpty {
            Receive(x, reply.value, false);
          }
        }
        i := i + 1;
      }
    }

    method Receive(x: nat, reply: Message, ghost fromBody: bool)
      requires x in records
      modifies this
      ensures Model() == T.Receive(old(Model()), x, reply, fromBody)
    {
      hide T.Emit, T.OpenListenStream;
      var e := records[x];
      if Answers(reply, e.message) {
        records := records[x := e.(answered := true)];
        if IsInitialize(e.message) && reply.version != "" {
          protocolVersion := reply.version;
          trace := trace + [Negotiated(x, open)];
          OpenListenStream();
        }
      }
      Emit(Reply(x, reply, Answers(reply, e.message), fromBody));
    }

    method OnFinished(env: Env, x: nat)
      requires x in records
      modifies this
      ensures Model() == T.OnFinished(env, old(Model()), x)
    {
      hide T.ScheduleResume, T.Release, T.FinishSuccess, T.FinishFailure, CanResume;
      var e := records[x];
      if (IsEventStream(e.response) || (e.resuming && IsTransientRefusal(e.response.status))) && CanResume(e) {
        ScheduleResume(x);
        return;
      }
      Release(x);
      ReleasedStays(old(Model()), x);
      if !IsSuccess(e.response) {
        FinishFailure(env, x);
      } else {
        FinishSuccess(env, x);
      }
    }

    method FinishFailure(env: Env, x: nat)
      requires x in records
      modifies this
      ensures Model() == T.FinishFailure(env, old(Model()), x)
    {
      hide T.Emit, T.DoStop;
      var e := records[x];
      Emit(ErrorOccurred(Some(x)));
      if IsRequest(e.message) {
        var error := env.decode(e.response.body);
        if error.Some? && error.value.hasError {
          Emit(Relayed(x, error.value.(id := e.message.id)));
        } else {
          Emit(SendFailed(x));
        }
      }
      if e.response.status == 404 && sessionId != "" {
        sessionId := "";
        Stop();
      }
    }

    method FinishSuccess(env: Env, x: nat)
      requires x in records
      modifies this
      ensures Model() == T.FinishSuccess(env, old(Model()), x)
    {
      hide T.Emit, T.DeliverBody;
      var e := records[x];
      if !IsEventStream(e.response) {
        DeliverBody(env, x);
      }
      if x in records && IsRequest(e.message) && !records[x].answered {
        Emit(SendFailed(x));
      }
    }

    method DeliverBody(env: Env, x: nat)
      requires x in records
      modifies this
      ensures Model() == T.DeliverBody(env, old(Model()), x)
    {
      hide T.Emit, T.Receive;
      var response := records[x].response;
      if response.status == 202 || response.body == [] || !response.json {
        return;
      }
      var reply := env.decode(response.body);
      if reply.Some? {
        Receive(x, reply.value, true);
      } else {
        Emit(ErrorOccurred(Some(x)));
      }
    }

    method Fail(x: nat)
      requires x in records
      modifies this
      ensures Model() == T.Fail(old(Model()), x)
    {
      hide T.Emit;
      Emit(ErrorOccurred(Some(x)));
      if x in records && IsRequest(records[x].message) && !records[x].answered {
        Emit(SendFailed(x));
      }
    }

    method OnError(x: nat)
      requires x in records
      modifies this
      ensures Model() == T.OnError(old(Model()), x)
    {
      hide T.ScheduleResume, T.Release, T.Fail, CanResume;
      if CanResume(records[x]) {
        ScheduleResume(x);
        return;
      }
      Release(x);
      ReleasedStays(old(Model()), x);
      Fail(x);
    }

    method OnDestroyed(x: nat)
      requires x in records
      modifies this
      ensures Model() == T.OnDestroyed(old(Model()), x)
    {
      hide T.Release, T.Fail;
      var stream := records[x].stream;
      records := records[x := records[x].(stream := None)];
      Disconnect(stream);
      ghost var s1 := Model();
      Release(x);
      ReleasedStays(s1, x);
      Fail(x);
    }

    method ScheduleResume(x: nat)
      requires x in records
      modifies this
      ensures Model() == T.ScheduleResume(old(Model()), x)
    {
      var e := records[x];
      Disconnect(e.stream);
      records := records[x := e.(stream := None,
                                 resumeTimer := Some(DelayMs(e.retryMs, e.backoffMs)),
                                 backoffMs := Min(e.backoffMs * 2, MAX_BACKOFF_MS))];
    }

    /** A single-shot timer that fires is no longer armed. */
    method OnResumeTimeout(x: nat)
      requires x in records
      modifies this
      ensures Model() == T.OnResumeTimeout(old(Model()), x)
    {
      hide T.Release, T.Fail, T.OpenStream, T.Reconnect;
      if records[x].done {
        records := records[x := records[x].(resumeTimer := None)];
        return;
      }
      ghost var s1 := Model();
      if !http {
        Release(x);
        ReleasedStays(s1, x);
        Fail(x);
        return;
      }
      var stream := OpenStream();
      OpenedStays(s1);
      if stream.None? {
        s1 := Model();
        Release(x);
        ReleasedStays(s1, x);
        Fail(x);
        return;
      }
      Reconnect(x, stream.value);
    }

    method Reconnect(x: nat, stream: nat)
      requires x in records
      modifies this
      ensures Model() == T.Reconnect(old(Model()), x, stream)
    {
      var e := records[x];
      e := e.(resuming := true, response := NoResponse, resumeTimer := None, reader := Resume(e.reader));
      records := records[x := e];
      Attach(x, stream);
      trace := trace + [Reconnected(x)];
    }

    // ---- all inputs --------------------------------------------------------------------------------------

    method Handle(env: Env, input: Input)
      modifies this
      ensures Model() == Step(env, old(Model()), input)
    {
      hide T.Do, T.OnListenHeaders, T.OnListenChunk, T.OnListenEnded, T.OnHeaders, T.OnChunk, T.OnFinished,
        T.OnError, T.OnDestroyed, T.OnResumeTimeout, T.OpenListenStream;
      match input
      case Command(call) => Do(call);
      case Headers(st, head) =>
        if st in connected && st !in headed {
          match connected[st]
          case ForListen =>
            headed := headed + {st};
            OnListenHeaders(head);
          case ForExchange(x) =>
            if x in records {
              headed := headed + {st};
              OnHeaders(x, head);
            }
        }
      case Chunk(st, bytes) =>
        if st in connected {
          match connected[st]
          case ForListen => OnListenChunk(env, bytes);
          case ForExchange(x) =>
            if x in records {
              OnChunk(env, x, bytes);
            }
        }
      case Finished(st, settled) =>
        if st in connected {
          match connected[st]
          case ForListen => OnListenEnded(settled);
          case ForExchange(x) =>
            if x in records {
              OnFinished(env, x);
            }
        }
      case Failed(st, settled) =>
        if st in connected {
          match connected[st]
          case ForListen => OnListenEnded(settled);
          case ForExchange(x) =>
            if x in records {
              OnError(x);
            }
        }
      case Destroyed(st, settled) =>
        if st in connected {
          match connected[st]
          case ForListen => OnListenEnded(settled);
          case ForExchange(x) =>
            if x in records {
              OnDestroyed(x);
            }
        }
      case ResumeTimeout(x) =>
        if x in records && records[x].resumeTimer.Some? {
          OnResumeTimeout(x);
        }
      case ListenTimeout =>
        if listen.retryTimer.Some? {
          listen := listen.(retryTimer := None);
          OpenListenStream();
        }
      case HttpDestroyed =>
        http := false;
        listen := listen.(retryTimer := None);
    }

    /** A whole run of the object is a run of the model. */
    method HandleAll(env: Env, inputs: seq<Input>)
      modifies this
      ensures Model() == Run(env, old(Model()), inputs)
    {
      hide Step;
      ghost var before := Model();
      var i := 0;
      while i < |inputs|
        invariant 0 <= i <= |inputs|
        invariant Run(env, before, inputs) == Run(env, Model(), inputs[i..])
      {
        assert inputs[i..][1..] == inputs[i + 1..];
        Handle(env, inputs[i]);
        i := i + 1;
      }
    }
  }

  lemma {:induction false} RemoveIs(xs: seq<nat>, x: nat, i: nat)
    requires i <= |xs| && x !in xs[..i] && (i < |xs| ==> xs[i] == x)
    ensures T.Remove(xs, x) == if i < |xs| then xs[..i] + xs[i + 1..] else xs
    decreases i
  {
    if i == 0 {
      assert xs != [] ==> xs[..0] + xs[1..] == xs[1..];
    } else {
      hide T.Remove;
      var rest := xs[1..];
      assert xs[0] == xs[..i][0];
      RemoveLater(xs, x);
      assert forall k :: 0 <= k < i - 1 ==> rest[k] == xs[..i][k + 1];
      RemoveIs(rest, x, i - 1);
      if i < |xs| {
        assert xs[..i] + xs[i + 1..] == [xs[0]] + (rest[..i - 1] + rest[i..]);
      } else {
        assert xs == [xs[0]] + rest;
      }
    }
  }

  lemma RemoveLater(xs: seq<nat>, x: nat)
    requires xs != [] && xs[0] != x
    ensures T.Remove(xs, x) == [xs[0]] + T.Remove(xs[1..], x)
  {
  }

  lemma ReleasedStays(s: State, x: nat)
    requires x in s.records
    ensures x in T.Release(s, x).records && T.Release(s, x).records[x] == Dropped(s.records[x])
  {
  }

  lemma OpenedStays(s: State)
    ensures T.OpenStream(s).0.records == s.records
  {
  }
}
