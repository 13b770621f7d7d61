/**
 What the listen stream tells the application: over all its connections since one was opened
 without a cursor, the messages handed on are those of the server's log, in order, none lost and
 none repeated.
 */
module McpListenResumption {
  import opened ByteStrings
  import opened Options
  import opened Sse
  import opened SseResume
  import opened McpTransport
  import opened McpExchanges
  import opened McpResumption

  // ---- what was heard and what was handed on --------------------------------------------

  /** The chunks of each connection since the last one without a cursor, none after listening was stopped. */
  function Heard(t: seq<Signal>): seq<seq<Bytes>>
    decreases |t|
  {
    if t == [] then [] else HeardNext(Heard(t[..|t| - 1]), t[|t| - 1])
  }

  function HeardNext(cs: seq<seq<Bytes>>, g: Signal): seq<seq<Bytes>> {
    match g
    case ListenConnected(cursor) => if cursor == [] then [[]] else cs + [[]]
    case ListenArrived(chunk) => if cs == [] then [] else cs[..|cs| - 1] + [cs[|cs| - 1] + [chunk]]
    case ListeningStopped => []
    case _ => cs
  }

  /** The messages handed on since then. */
  function HandedOn(t: seq<Signal>): seq<Message>
    decreases |t|
  {
    if t == [] then [] else HandedNext(HandedOn(t[..|t| - 1]), t[|t| - 1])
  }

  function HandedNext(ms: seq<Message>, g: Signal): seq<Message> {
    match g
    case ListenConnected(cursor) => if cursor == [] then [] else ms
    case ListenMessage(m) => ms + [m]
    case ListeningStopped => []
    case _ => ms
  }

  /** A connection resumes where reading stands, and a message handed on is the next one of those read. */
  ghost predicate NextHeard(env: Env, t: seq<Signal>, g: Signal) {
    match g
    case ListenConnected(cursor) => cursor == [] || (Heard(t) != [] && cursor == ReadTrail(Heard(t)).0.cursor)
    case ListenMessage(m) => Heard(t) != [] && HandedOn(t) + [m] <= Messages(env, ReadTrail(Heard(t)).1)
    case _ => true
  }

  ghost predicate HeardOk(env: Env, t: seq<Signal>) { forall i :: 0 <= i < |t| ==> NextHeard(env, t[..i], t[i]) }

  predicate IsListenNote(g: Signal) {
    g.ListenConnected? || g.ListenArrived? || g.ListenMessage? || g.ListeningStopped?
  }

  ghost predicate NoListenNotes(t: seq<Signal>, u: seq<Signal>) {
    t <= u && forall i :: |t| <= i < |u| ==> !IsListenNote(u[i])
  }

  lemma HeardSnoc(env: Env, t: seq<Signal>, g: Signal)
    ensures Heard(t + [g]) == HeardNext(Heard(t), g) && HandedOn(t + [g]) == HandedNext(HandedOn(t), g)
    ensures HeardOk(env, t) && NextHeard(env, t, g) ==> HeardOk(env, t + [g])
  {
    hide NextHeard, HeardNext, HandedNext;
    var u := t + [g];
    assert u[..|u| - 1] == t && u[|t|] == g && u[..|t|] == t;
    assert forall i :: 0 <= i < |t| ==> u[..i] == t[..i] && u[i] == t[i];
  }

  lemma {:induction false} NothingHeard(env: Env, t: seq<Signal>, u: seq<Signal>)
    requires NoListenNotes(t, u)
    ensures Heard(u) == Heard(t) && HandedOn(u) == HandedOn(t) && (HeardOk(env, t) ==> HeardOk(env, u))
    decreases |u|
  {
    hide Heard, HandedOn, HeardOk;
    if |t| == |u| {
      assert t == u;
    } else {
      var v, g := u[..|u| - 1], u[|u| - 1];
      assert u == v + [g] && !IsListenNote(g);
      NothingHeard(env, t, v);
      HeardSnoc(env, v, g);
    }
  }

  // ---- what is kept ---------------------------------------------------------------------

  /** The parser and the cursor of the listen stream are what reading the connections gives. */
  ghost predicate Reading(s: State) {
    var cs := Heard(s.trace);
    && (s.listen.stream.Some? ==> cs != [] && ReadTrail(cs).0 == Reader(s.listen.events, s.listen.lastEventId))
    && (s.listen.lastEventId != [] ==> cs != [] && ReadTrail(cs).0.cursor == s.listen.lastEventId)
  }

  /** What was handed on and what waits in the backlog are the messages read. */
  ghost predicate Owed(env: Env, s: State) {
    var cs, told := Heard(s.trace), HandedOn(s.trace);
    if cs == [] then told == [] && s.listen.backlog == []
    else told + Messages(env, s.listen.backlog) == Messages(env, ReadTrail(cs).1)
  }

  ghost predicate Follows(env: Env, s: State) { HeardOk(env, s.trace) && Reading(s) && Owed(env, s) }

  /** Between two inputs nothing waits. */
  ghost predicate Settled(env: Env, s: State) { Follows(env, s) && s.listen.backlog == [] }

  predicate SameCore(l: Listen, l': Listen) {
    l'.stream == l.stream && l'.events == l.events && l'.lastEventId == l.lastEventId && l'.backlog == l.backlog
  }

  predicate NoCore(l: Listen) { l.stream.None? && l.lastEventId == [] && l.backlog == [] }

  /** Listening went on as it was, or was stopped. */
  ghost predicate Undisturbed(env: Env, s: State, r: State) {
    && (HeardOk(env, s.trace) ==> HeardOk(env, r.trace))
    && (if SameCore(s.listen, r.listen) && Heard(r.trace) == Heard(s.trace) && HandedOn(r.trace) == HandedOn(s.trace)
        then true else Heard(r.trace) == [] && HandedOn(r.trace) == [] && NoCore(r.listen))
  }

  lemma Then(env: Env, a: State, b: State, c: State)
    requires Undisturbed(env, a, b) && Undisturbed(env, b, c)
    ensures Undisturbed(env, a, c)
  {
    hide HeardOk, Heard, HandedOn;
  }

  lemma StillFollows(env: Env, s: State, r: State)
    requires Undisturbed(env, s, r)
    ensures Follows(env, s) ==> Follows(env, r)
    ensures Settled(env, s) ==> Settled(env, r)
  {
    hide HeardOk, Heard, HandedOn, Messages, ReadTrail;
  }

  lemma Aside(env: Env, s: State, r: State)
    requires NoListenNotes(s.trace, r.trace) && SameCore(s.listen, r.listen)
    ensures Undisturbed(env, s, r)
  {
    hide HeardOk, Heard, HandedOn;
    NothingHeard(env, s.trace, r.trace);
  }

  lemma Stopping(env: Env, s: State, t: seq<Signal>, r: State)
    requires NoListenNotes(s.trace, t) && r.trace == t + [ListeningStopped] && r.listen == IdleListen
    ensures Undisturbed(env, s, r)
  {
    hide HeardOk, Heard, HandedOn;
    NothingHeard(env, s.trace, t);
    HeardSnoc(env, t, ListeningStopped);
  }

  // ---- the application's calls -------------------------------------------------------------

  lemma HandlersStay(env: Env, s: State, g: Signal)
    ensures Undisturbed(env, Note(s, g), Emit(s, g))
    decreases |s.script|, 0
  {
    hide Undisturbed, RunCalls;
    var s1 := Note(s, g);
    Aside(env, s1, s1);
    if s1.script != [] {
      var s2 := s1.(script := s1.script[1..]);
      Aside(env, s1, s2);
      RunCallsStay(env, s2, s1.script[0]);
      Then(env, s1, s2, RunCalls(s2, s1.script[0]));
    }
  }

  lemma EmitStays(env: Env, s: State, g: Signal)
    requires !IsListenNote(g)
    ensures Undisturbed(env, s, Emit(s, g))
    decreases |s.script|, 1
  {
    hide Undisturbed, Emit;
    Aside(env, s, Note(s, g));
    HandlersStay(env, s, g);
    Then(env, s, Note(s, g), Emit(s, g));
  }

  lemma RunCallsStay(env: Env, s: State, calls: seq<Call>)
    ensures Undisturbed(env, s, RunCalls(s, calls))
    decreases |s.script|, 9, |calls|
  {
    hide Undisturbed, Do;
    if calls == [] {
      Aside(env, s, s);
    } else {
      DoStays(env, s, calls[0]);
      RunCallsStay(env, Do(s, calls[0]), calls[1..]);
      Then(env, s, Do(s, calls[0]), RunCalls(Do(s, calls[0]), calls[1..]));
    }
  }

  lemma DoStays(env: Env, s: State, call: Call)
    ensures Undisturbed(env, s, Do(s, call))
    decreases |s.script|, 8
  {
    hide Undisturbed, DoStop, Post, Emit, AbandonExchange;
    match call
    case Start => Aside(env, s, Do(s, Start));
    case Stop => DoStopStays(env, s);
    case Send(m) =>
      if s.open {
        PostStays(env, s, m);
      } else {
        EmitStays(env, s, ErrorOccurred(None));
      }
    case Abandon(id) => AbandonOneStays(env, s, id);
  }

  lemma AbandonOneStays(env: Env, s: State, id: string)
    ensures Undisturbed(env, s, AbandonExchange(s, id))
  {
    hide Undisturbed, FindRequest, Remove;
    Aside(env, s, AbandonExchange(s, id));
  }

  lemma DoStopStays(env: Env, s: State)
    ensures Undisturbed(env, s, DoStop(s))
    decreases |s.script|, 7
  {
    hide Undisturbed, Stopped, Emit;
    if s.open {
      StoppedStays(env, s);
      EmitStays(env, Stopped(s), Closed);
      Then(env, s, Stopped(s), Emit(Stopped(s), Closed));
    } else {
      Aside(env, s, s);
    }
  }

  lemma StoppedStays(env: Env, s: State)
    ensures Undisturbed(env, s, Stopped(s))
  {
    hide Undisturbed, NoteAbandoned, AbandonExchanges, DropAll;
    var s1 := AbandonExchanges(s.(open := false, sessionId := "", protocolVersion := ""));
    AbandonAside(s.(open := false, sessionId := "", protocolVersion := ""));
    NotedAbandoned(s1, s.table);
    Stopping(env, s, NoteAbandoned(s1, s.table).trace, Stopped(s));
  }

  lemma AbandonAside(s: State)
    ensures AbandonExchanges(s).trace == s.trace && AbandonExchanges(s).listen == s.listen
    ensures AbandonExchanges(s).script == s.script
  {
    hide DropAll;
  }

  lemma {:induction false} NotedAbandoned(s: State, xs: seq<nat>)
    ensures NoListenNotes(s.trace, NoteAbandoned(s, xs).trace)
    decreases |xs|
  {
    if xs != [] {
      NotedAbandoned(Note(s, Abandoned(xs[0])), xs[1..]);
    }
  }

  lemma PostStays(env: Env, s: State, m: Message)
    ensures Undisturbed(env, s, Post(s, m))
    decreases |s.script|, 7
  {
    hide Undisturbed, StartNewSession, FailUnsent;
    if !s.http {
      FailUnsentStays(env, s, m);
    } else {
      var s1 := if IsInitialize(m) then StartNewSession(s) else s;
      if IsInitialize(m) {
        StartNewSessionStays(env, s);
      } else {
        Aside(env, s, s);
      }
      var (s2, stream) := OpenStream(s1);
      Aside(env, s1, s2);
      Then(env, s, s1, s2);
      if stream.None? {
        FailUnsentStays(env, s2, m);
      } else {
        Aside(env, s2, Post(s, m));
      }
      Then(env, s, s2, Post(s, m));
    }
  }

  lemma FailUnsentStays(env: Env, s: State, m: Message)
    ensures Undisturbed(env, s, FailUnsent(s, m))
    decreases |s.script|, 3
  {
    hide Undisturbed, Emit;
    var s1 := Emit(s, ErrorOccurred(None));
    EmitStays(env, s, ErrorOccurred(None));
    EmitStays(env, s1, Unsent(m));
    Then(env, s, s1, Emit(s1, Unsent(m)));
  }

  lemma StartNewSessionStays(env: Env, s: State)
    ensures Undisturbed(env, s, StartNewSession(s))
    decreases |s.script|, 6
  {
    hide Undisturbed, FailSuperseded, AbandonExchanges;
    var s1 := AbandonExchanges(s);
    var s2 := FailSuperseded(s1, s.table);
    AbandonAside(s);
    Aside(env, s, s1);
    FailSupersededStays(env, s1, s.table);
    Then(env, s, s1, s2);
    Stopping(env, s2, s2.trace, StartNewSession(s));
    Then(env, s, s2, StartNewSession(s));
  }

  lemma FailSupersededStays(env: Env, s: State, xs: seq<nat>)
    ensures Undisturbed(env, s, FailSuperseded(s, xs))
    decreases |s.script|, 5, |xs|
  {
    hide Undisturbed, Emit;
    Aside(env, s, s);
    if xs != [] {
      EmitStays(env, s, SendFailed(xs[0]));
      var s1 := if xs[0] in s.records && IsRequest(s.records[xs[0]].message) && !s.records[xs[0]].answered
                then Emit(s, SendFailed(xs[0])) else s;
      FailSupersededStays(env, s1, xs[1..]);
      Then(env, s, s1, FailSuperseded(s1, xs[1..]));
    }
  }

  // ---- the listen stream --------------------------------------------------------------------

  lemma ScheduleStays(env: Env, s: State)
    ensures Undisturbed(env, s, ScheduleListenRetry(s))
  {
    hide Undisturbed, ReportOutage;
    Aside(env, s, s);
    if s.open && s.http && !s.listen.refused {
      var delayMs := DelayMs(s.listen.serverRetryMs, s.listen.backoffMs);
      var s1 := Note(s, RetryPlanned(delayMs, s.listen.serverRetryMs));
      Aside(env, s, s1);
      ReportStays(env, s1);
      Then(env, s, s1, ReportOutage(s1));
      Aside(env, ReportOutage(s1), ScheduleListenRetry(s));
      Then(env, s, ReportOutage(s1), ScheduleListenRetry(s));
    }
  }

  lemma ReportStays(env: Env, s: State)
    ensures Undisturbed(env, s, ReportOutage(s))
  {
    hide Undisturbed, Emit;
    var s1 := s.(listen := s.listen.(outageReported := true));
    Aside(env, s, s);
    Aside(env, s, s1);
    EmitStays(env, s1, ErrorOccurred(None));
    Then(env, s, s1, Emit(s1, ErrorOccurred(None)));
  }

  /** The stream is gone, and the cursor perhaps with it. */
  lemma Loosened(env: Env, s: State, r: State)
    requires NoListenNotes(s.trace, r.trace) && r.listen.stream.None? && r.listen.backlog == s.listen.backlog
    requires r.listen.lastEventId == s.listen.lastEventId || r.listen.lastEventId == []
    ensures Settled(env, s) ==> Settled(env, r)
  {
    hide HeardOk, Heard, HandedOn, Messages, ReadTrail;
    NothingHeard(env, s.trace, r.trace);
  }

  lemma OpenListenStreamFollows(env: Env, s: State)
    ensures Settled(env, s) ==> Settled(env, OpenListenStream(s))
  {
    hide Settled, Undisturbed, ScheduleListenRetry;
    if s.open && s.http && s.listen.stream.None? && !s.listen.refused {
      var l := s.listen;
      var seeded := Parser([], false, Cleared.(idBuffer := l.lastEventId, lastEventId := l.lastEventId));
      var s1 := s.(listen := l.(events := seeded, resumed := l.lastEventId != [], heard := false));
      var (s2, stream) := OpenStream(s1);
      Loosened(env, s, s2);
      if stream.None? {
        ScheduleStays(env, s2);
        StillFollows(env, s2, ScheduleListenRetry(s2));
      } else if Settled(env, s2) {
        Connected(env, s2, OpenListenStream(s));
      }
    }
  }

  lemma Connected(env: Env, s: State, r: State)
    requires Settled(env, s) && r.trace == s.trace + [ListenConnected(s.listen.lastEventId)]
    requires var id := s.listen.lastEventId;
             && r.listen == s.listen.(stream := r.listen.stream)
             && s.listen.events == Parser([], false, Cleared.(idBuffer := id, lastEventId := id))
    ensures Settled(env, r)
  {
    hide HeardOk, Heard, HandedOn, ReadTrail, Messages, ReadAll;
    var id, cs := s.listen.lastEventId, Heard(s.trace);
    HeardSnoc(env, s.trace, ListenConnected(id));
    NoMessages(env);
    if id == [] {
      TrailOne([]);
      NothingRead();
    } else {
      TrailSnoc(cs, []);
      NothingReadAfter(Resume(ReadTrail(cs).0));
      var all := ReadTrail(cs).1;
      assert all + [] == all;
    }
  }

  lemma NoMessages(env: Env)
    ensures Messages(env, []) == []
  {
  }

  lemma SessionLostStays(env: Env, s: State)
    ensures Undisturbed(env, s, DoStop(Emit(s, ErrorOccurred(None)).(sessionId := "")))
  {
    hide Undisturbed, DoStop, Emit;
    var s1 := Emit(s, ErrorOccurred(None));
    var s2 := s1.(sessionId := "");
    EmitStays(env, s, ErrorOccurred(None));
    Aside(env, s1, s2);
    Then(env, s, s1, s2);
    DoStopStays(env, s2);
    Then(env, s, s2, DoStop(s2));
  }

  lemma CursorRefused(env: Env, s: State)
    requires s.listen.stream.None?
    ensures var s1 := s.(listen := s.listen.(lastEventId := []));
            Settled(env, s) ==> Settled(env, ScheduleListenRetry(s1))
  {
    hide Settled, Undisturbed, ScheduleListenRetry;
    var s1 := s.(listen := s.listen.(lastEventId := []));
    Loosened(env, s, s1);
    ScheduleStays(env, s1);
    StillFollows(env, s1, ScheduleListenRetry(s1));
  }

  lemma OnListenRefusedFollows(env: Env, s: State, status: int)
    requires s.listen.stream.None?
    ensures Settled(env, s) ==> Settled(env, OnListenRefused(s, status))
  {
    hide Settled, Undisturbed, DoStop, Emit, ScheduleListenRetry, OnListenRefused, IsTransientRefusal;
    RefusedCases(s, status);
    SessionLostStays(env, s);
    StillFollows(env, s, DoStop(Emit(s, ErrorOccurred(None)).(sessionId := "")));
    CursorRefused(env, s);
    ScheduleStays(env, s);
    StillFollows(env, s, ScheduleListenRetry(s));
    RefusedForGood(env, s);
  }

  lemma RefusedForGood(env: Env, s: State)
    ensures Settled(env, s) ==> Settled(env, s.(listen := s.listen.(refused := true)))
  {
    hide Settled, Undisturbed, Undisturbed;
    var r := s.(listen := s.listen.(refused := true));
    Aside(env, s, r);
    StillFollows(env, s, r);
  }

  lemma OnListenHeadersFollows(env: Env, s: State, head: Head)
    ensures Settled(env, s) ==> Settled(env, OnListenHeaders(s, head))
  {
    hide Settled, Undisturbed, OnListenRefused;
    if IsEventStream(Response(head.status, head.eventStream, head.json, [])) {
      Aside(env, s, OnListenHeaders(s, head));
      StillFollows(env, s, OnListenHeaders(s, head));
    } else {
      Loosened(env, s, ForgetListenStream(s));
      OnListenRefusedFollows(env, ForgetListenStream(s), head.status);
    }
  }

  lemma OnListenEndedFollows(env: Env, s: State, settled: bool)
    ensures Settled(env, s) ==> Settled(env, OnListenEnded(s, settled))
  {
    hide Settled, Undisturbed, ScheduleListenRetry;
    var s1 := s.(listen := EndedListen(s.listen, settled));
    var s2 := ForgetListenStream(if s.listen.uptimeValid && settled then Note(s1, ListenSettled) else s1);
    Loosened(env, s, s2);
    ScheduleStays(env, s2);
    StillFollows(env, s2, ScheduleListenRetry(s2));
  }

  lemma OnListenChunkFollows(env: Env, s: State, chunk: Bytes)
    requires s.listen.stream.Some?
    ensures Settled(env, s) ==> Settled(env, OnListenChunk(env, s, chunk))
  {
    hide AppendSpec, DrainBacklog, Settled;
    if Settled(env, s) {
      var (p, events) := AppendSpec(LIMIT, s.listen.events, chunk);
      ChunkHeard(env, s, chunk);
      DrainFollows(env, Note(s.(listen := TakeListenChunk(s.listen, p, events)), ListenArrived(chunk)));
    }
  }

  lemma ChunkHeard(env: Env, s: State, chunk: Bytes)
    requires s.listen.stream.Some? && Settled(env, s)
    ensures var (p, events) := AppendSpec(LIMIT, s.listen.events, chunk);
            Follows(env, Note(s.(listen := TakeListenChunk(s.listen, p, events)), ListenArrived(chunk)))
  {
    hide HeardOk, Heard, HandedOn, ReadTrail, Messages, AppendSpec;
    var cs := Heard(s.trace);
    var (p, events) := AppendSpec(LIMIT, s.listen.events, chunk);
    HeardSnoc(env, s.trace, ListenArrived(chunk));
    TrailChunk(cs, chunk);
    var (reader, all) := ReadTrail(cs);
    assert ReadChunk(LIMIT, reader, chunk) == (Reader(p, p.fields.lastEventId), events);
    MessagesConcat(env, all, events);
    NoMessages(env);
    assert [] + events == events;
    assert HandedOn(s.trace) + [] == HandedOn(s.trace);
  }

  lemma {:induction false} DrainFollows(env: Env, s: State)
    requires Follows(env, s)
    ensures Settled(env, DrainBacklog(env, s))
    decreases |s.listen.backlog|
  {
    hide Emit, Follows;
    if s.listen.backlog != [] {
      var event := s.listen.backlog[0];
      var s1 := s.(listen := s.listen.(backlog := s.listen.backlog[1..]));
      var message := if event.kind == MESSAGE then env.decode(event.data) else None;
      if message.None? || message.value.isEmpty {
        NotAMessage(env, s);
        DrainFollows(env, s1);
      } else {
        var s2, g := RestartListenBackoff(s1), ListenMessage(message.value);
        MessageHandedOn(env, s);
        HandlersStay(env, s2, g);
        StillFollows(env, Note(s2, g), Emit(s2, g));
        DrainFollows(env, Emit(s2, g));
      }
    }
  }

  lemma NotAMessage(env: Env, s: State)
    requires Follows(env, s) && s.listen.backlog != [] && FirstMessage(env, s.listen.backlog) == []
    ensures Follows(env, s.(listen := s.listen.(backlog := s.listen.backlog[1..])))
  {
    hide HeardOk, Heard, HandedOn, ReadTrail, Messages, FirstMessage;
    MessagesStep(env, s.listen.backlog);
    var rest := Messages(env, s.listen.backlog[1..]);
    assert [] + rest == rest;
  }

  lemma MessageHandedOn(env: Env, s: State)
    requires Follows(env, s) && s.listen.backlog != [] && FirstMessage(env, s.listen.backlog) != []
    ensures var s1 := s.(listen := s.listen.(backlog := s.listen.backlog[1..]));
            Follows(env, Note(RestartListenBackoff(s1), ListenMessage(FirstMessage(env, s.listen.backlog)[0])))
  {
    var m, told := FirstMessage(env, s.listen.backlog)[0], HandedOn(s.trace);
    assert FirstMessage(env, s.listen.backlog) == [m];
    hide HeardOk, Heard, HandedOn, ReadTrail, Messages, FirstMessage;
    MessagesStep(env, s.listen.backlog);
    HeardSnoc(env, s.trace, ListenMessage(m));
    var rest := Messages(env, s.listen.backlog[1..]);
    Assoc(told, [m], rest);
  }

  // ---- the exchanges -------------------------------------------------------------------------

  lemma ReceiveFollows(env: Env, s: State, x: nat, reply: Message, fromBody: bool)
    requires x in s.records
    ensures Settled(env, s) ==> Settled(env, Receive(s, x, reply, fromBody))
  {
    hide Emit, Settled, Receiving, Receive;
    var s1 := Receiving(s, x, reply);
    var g := Reply(x, reply, Answers(reply, s.records[x].message), fromBody);
    ReceivingFollows(env, s, x, reply);
    ReceivingThenEmit(s, x, reply, fromBody);
    EmitStays(env, s1, g);
    StillFollows(env, s1, Emit(s1, g));
  }

  lemma ReceivingFollows(env: Env, s: State, x: nat, reply: Message)
    requires x in s.records
    ensures Settled(env, s) ==> Settled(env, Receiving(s, x, reply))
  {
    hide OpenListenStream, Settled;
    var s1 := SetExchange(s, x, s.records[x].(answered := true));
    var s2 := Note(s1.(protocolVersion := reply.version), Negotiated(x, s.open));
    Aside(env, s, s1);
    StillFollows(env, s, s1);
    Aside(env, s, s2);
    StillFollows(env, s, s2);
    OpenListenStreamFollows(env, s2);
  }

  lemma {:induction false} ReceiveEventsFollow(env: Env, s: State, x: nat, events: seq<Event>)
    ensures Settled(env, s) ==> Settled(env, ReceiveEvents(env, s, x, events))
    decreases |events|
  {
    hide Settled, Undisturbed, Receive;
    if events != [] && x in s.records && !s.records[x].done {
      var reply := if events[0].kind == MESSAGE then env.decode(events[0].data) else None;
      if reply.None? || reply.value.isEmpty {
        ReceiveEventsFollow(env, s, x, events[1..]);
      } else {
        ReceiveFollows(env, s, x, reply.value, false);
        ReceiveEventsFollow(env, Receive(s, x, reply.value, false), x, events[1..]);
      }
    }
  }

  lemma OnChunkFollows(env: Env, s: State, x: nat, chunk: Bytes)
    requires x in s.records
    ensures Settled(env, s) ==> Settled(env, OnChunk(env, s, x, chunk))
  {
    hide Settled, Undisturbed, ReceiveEvents, ReadChunk, TakeChunk, Remove;
    if !IsEventStream(s.records[x].response) {
      Aside(env, s, OnChunk(env, s, x, chunk));
      StillFollows(env, s, OnChunk(env, s, x, chunk));
    } else {
      var (reader, events) := ReadChunk(LIMIT, s.records[x].reader, chunk);
      var s1 := Note(SetExchange(s, x, TakeChunk(s.records[x], reader, events)), Arrived(x, chunk));
      var s2 := ReceiveEvents(env, s1, x, events);
      Aside(env, s, s1);
      StillFollows(env, s, s1);
      ReceiveEventsFollow(env, s1, x, events);
      Aside(env, s2, OnChunk(env, s, x, chunk));
      StillFollows(env, s2, OnChunk(env, s, x, chunk));
    }
  }

  lemma FailStays(env: Env, s: State, x: nat)
    requires x in s.records
    ensures Undisturbed(env, s, Fail(s, x))
  {
    hide Undisturbed, Emit;
    var s1 := Emit(s, ErrorOccurred(Some(x)));
    EmitStays(env, s, ErrorOccurred(Some(x)));
    EmitStays(env, s1, SendFailed(x));
    Then(env, s, s1, Emit(s1, SendFailed(x)));
  }

  lemma FinishFailureStays(env: Env, s: State, x: nat)
    requires x in s.records
    ensures Undisturbed(env, s, FinishFailure(env, s, x))
  {
    hide Undisturbed, Emit, DoStop;
    var e := s.records[x];
    var s1 := Emit(s, ErrorOccurred(Some(x)));
    var error := env.decode(e.response.body);
    EmitStays(env, s, ErrorOccurred(Some(x)));
    Aside(env, s1, s1);
    EmitStays(env, s1, SendFailed(x));
    if error.Some? {
      EmitStays(env, s1, Relayed(x, error.value.(id := e.message.id)));
    }
    var s2 := if !IsRequest(e.message) then s1
              else if error.Some? && error.value.hasError
              then Emit(s1, Relayed(x, error.value.(id := e.message.id)))
              else Emit(s1, SendFailed(x));
    Then(env, s, s1, s2);
    var s3 := s2.(sessionId := "");
    Aside(env, s2, s3);
    DoStopStays(env, s3);
    Then(env, s, s2, s3);
    Then(env, s, s3, DoStop(s3));
  }

  lemma FinishSuccessFollows(env: Env, s: State, x: nat)
    requires x in s.records
    ensures Settled(env, s) ==> Settled(env, FinishSuccess(env, s, x))
  {
    hide Settled, Undisturbed, Emit, DeliverBody;
    var s1 := if IsEventStream(s.records[x].response) then s else DeliverBody(env, s, x);
    DeliverBodyFollows(env, s, x);
    EmitStays(env, s1, SendFailed(x));
    StillFollows(env, s1, Emit(s1, SendFailed(x)));
  }

  lemma DeliverBodyFollows(env: Env, s: State, x: nat)
    requires x in s.records
    ensures Settled(env, s) ==> Settled(env, DeliverBody(env, s, x))
  {
    hide Settled, Undisturbed, Emit, Receive;
    EmitStays(env, s, ErrorOccurred(Some(x)));
    StillFollows(env, s, Emit(s, ErrorOccurred(Some(x))));
    var reply := env.decode(s.records[x].response.body);
    if reply.Some? {
      ReceiveFollows(env, s, x, reply.value, true);
    }
  }

  /** An exchange that leaves the list, and what is told about it. */
  lemma ReleasedFollows(env: Env, s: State, x: nat)
    requires x in s.records
    ensures var r := Release(s, x);
            && x in r.records
            && (Settled(env, s) ==> Settled(env, r) && Settled(env, Fail(r, x))
                                    && Settled(env, FinishSuccess(env, r, x)) && Settled(env, FinishFailure(env, r, x)))
  {
    hide Settled, Undisturbed, Fail, FinishSuccess, FinishFailure, Remove;
    var r := Release(s, x);
    Aside(env, s, r);
    StillFollows(env, s, r);
    FailStays(env, r, x);
    StillFollows(env, r, Fail(r, x));
    FinishSuccessFollows(env, r, x);
    FinishFailureStays(env, r, x);
    StillFollows(env, r, FinishFailure(env, r, x));
  }

  lemma EndingFollows(env: Env, s: State, x: nat)
    requires x in s.records
    ensures Settled(env, s) ==>
              && Settled(env, OnFinished(env, s, x)) && Settled(env, OnError(s, x))
              && Settled(env, OnDestroyed(s, x)) && Settled(env, OnResumeTimeout(s, x))
  {
    hide Settled, Undisturbed, Fail, FinishSuccess, FinishFailure, Release, OnNewStream;
    ReleasedFollows(env, s, x);
    Aside(env, s, ScheduleResume(s, x));
    StillFollows(env, s, ScheduleResume(s, x));
    var s1 := Disconnect(SetExchange(s, x, s.records[x].(stream := None)), s.records[x].stream);
    Aside(env, s, s1);
    StillFollows(env, s, s1);
    ReleasedFollows(env, s1, x);
    TimeoutFollows(env, s, x);
  }

  lemma TimeoutFollows(env: Env, s: State, x: nat)
    requires x in s.records
    ensures Settled(env, s) ==> Settled(env, OnResumeTimeout(s, x))
  {
    hide Settled, Undisturbed, Fail, Release, Reconnect, OpenStream, SetExchange;
    OpenedFollows(env, s);
    ReleasedFollows(env, s, x);
    if s.records[x].done {
      RecordFollows(env, s, x, s.records[x].(resumeTimer := None));
    } else {
      var (s1, stream) := OpenStream(s);
      ReleasedFollows(env, s1, x);
      if stream.Some? {
        ReconnectedFollows(env, s1, x, stream.value);
      }
    }
  }

  lemma OpenedFollows(env: Env, s: State)
    ensures var s1 := OpenStream(s).0; s1.records == s.records && (Settled(env, s) ==> Settled(env, s1))
  {
    hide Settled, Undisturbed, Undisturbed;
    Aside(env, s, OpenStream(s).0);
    StillFollows(env, s, OpenStream(s).0);
  }

  lemma RecordFollows(env: Env, s: State, x: nat, e: Exchange)
    ensures Settled(env, s) ==> Settled(env, SetExchange(s, x, e))
  {
    hide Settled, Undisturbed, Undisturbed;
    Aside(env, s, SetExchange(s, x, e));
    StillFollows(env, s, SetExchange(s, x, e));
  }

  lemma ReconnectedFollows(env: Env, s: State, x: nat, stream: nat)
    requires x in s.records
    ensures Settled(env, s) ==> Settled(env, Reconnect(s, x, stream))
  {
    hide Settled, Undisturbed, OnNewStream;
    Aside(env, s, Reconnect(s, x, stream));
    StillFollows(env, s, Reconnect(s, x, stream));
  }

  // ---- every input ---------------------------------------------------------------------------

  lemma StepFollows(env: Env, s: State, input: Input)
    requires SlotsOk(s) && Settled(env, s)
    ensures Settled(env, Step(env, s, input))
  {
    hide Settled, Undisturbed, Do, OnListenHeaders, OnListenChunk, OnListenEnded, OnHeaders, OnChunk, OnFinished, OnError,
      OnDestroyed, OnResumeTimeout, OpenListenStream;
    match input
    case Command(call) =>
      DoStays(env, s, call);
      StillFollows(env, s, Do(s, call));
    case Headers(st, head) => HeadersFollow(env, s, st, head);
    case Chunk(st, bytes) =>
      if st in s.slots {
        if s.slots[st].ForListen? {
          OnListenChunkFollows(env, s, bytes);
        } else {
          OnChunkFollows(env, s, s.slots[st].x, bytes);
        }
      }
    case Finished(st, settled) => StreamEndFollows(env, s, st, settled);
    case Failed(st, settled) => StreamEndFollows(env, s, st, settled);
    case Destroyed(st, settled) => StreamEndFollows(env, s, st, settled);
    case ResumeTimeout(x) =>
      if x in s.records {
        TimeoutFollows(env, s, x);
      }
    case ListenTimeout =>
      var s1 := s.(listen := s.listen.(retryTimer := None));
      Aside(env, s, s1);
      StillFollows(env, s, s1);
      OpenListenStreamFollows(env, s1);
    case HttpDestroyed =>
      var s1 := s.(http := false, listen := s.listen.(retryTimer := None));
      Aside(env, s, s1);
      StillFollows(env, s, s1);
  }

  lemma HeadersFollow(env: Env, s: State, st: nat, head: Head)
    requires Settled(env, s)
    ensures Settled(env, Step(env, s, Headers(st, head)))
  {
    hide Settled, Undisturbed, OnListenHeaders;
    var s1 := s.(headed := s.headed + {st});
    Aside(env, s, s1);
    StillFollows(env, s, s1);
    OnListenHeadersFollows(env, s1, head);
    if st in s.slots && s.slots[st].ForExchange? && s.slots[st].x in s.records {
      Aside(env, s1, OnHeaders(s1, s.slots[st].x, head));
      StillFollows(env, s1, OnHeaders(s1, s.slots[st].x, head));
    }
  }

  lemma StreamEndFollows(env: Env, s: State, st: nat, settled: bool)
    requires SlotsOk(s) && Settled(env, s)
    ensures st in s.slots && s.slots[st].ForListen? ==> Settled(env, OnListenEnded(s, settled))
    ensures st in s.slots && s.slots[st].ForExchange? ==>
              var x := s.slots[st].x;
              && x in s.records
              && Settled(env, OnFinished(env, s, x)) && Settled(env, OnError(s, x)) && Settled(env, OnDestroyed(s, x))
  {
    hide Settled, Undisturbed, OnListenEnded, OnFinished, OnError, OnDestroyed;
    if st in s.slots {
      if s.slots[st].ForListen? {
        OnListenEndedFollows(env, s, settled);
      } else {
        EndingFollows(env, s, s.slots[st].x);
      }
    }
  }

  lemma {:induction false} RunFollows(env: Env, s: State, inputs: seq<Input>)
    requires Inv(s, {}, {}) && Settled(env, s)
    ensures Settled(env, Run(env, s, inputs))
    decreases |inputs|
  {
    hide Step, Inv, Settled;
    if inputs != [] {
      assert SlotsOk(s) by { InvSlots(s); }
      StepOk(env, s, inputs[0]);
      StepFollows(env, s, inputs[0]);
      RunFollows(env, Step(env, s, inputs[0]), inputs[1..]);
    }
  }

  lemma InvSlots(s: State)
    requires Inv(s, {}, {})
    ensures SlotsOk(s)
  {
  }

  // ---- against the server's log ---------------------------------------------------------------

  lemma InitialFollows(env: Env, outcomes: seq<bool>, script: seq<seq<Call>>)
    ensures Settled(env, Initial(outcomes, script))
  {
    hide ReadTrail, Messages;
  }

  /** Every connection but the first resumes with a cursor. */
  lemma {:induction false} CursorsHeard(env: Env, t: seq<Signal>, i: nat)
    requires HeardOk(env, t) && 0 < i < |Heard(t)|
    ensures ReadTrail(Heard(t)[..i]).0.cursor != []
    decreases |t|
  {
    hide ReadTrail, Messages, HandedOn, HandedNext;
    var u, g := t[..|t| - 1], t[|t| - 1];
    var cs := Heard(u);
    assert NextHeard(env, t[..|t| - 1], g);
    assert HeardOk(env, u) by {
      assert forall k :: 0 <= k < |u| ==> u[..k] == t[..k] && u[k] == t[k];
    }
    if g.ListenConnected? && i == |cs| {
      assert Heard(t)[..i] == cs;
    } else {
      assert Heard(t)[..i] == cs[..i];
      CursorsHeard(env, u, i);
    }
  }

  /** At any moment, what was handed on is the beginning of what was read. */
  lemma {:induction false} HandedOnInOrder(env: Env, t: seq<Signal>)
    requires HeardOk(env, t)
    ensures if Heard(t) == [] then HandedOn(t) == []
            else HandedOn(t) <= Messages(env, ReadTrail(Heard(t)).1)
    decreases |t|
  {
    hide ReadTrail, Messages, ReadAll;
    if t != [] {
      var u, g := t[..|t| - 1], t[|t| - 1];
      var cs := Heard(u);
      assert NextHeard(env, t[..|t| - 1], g);
      assert HeardOk(env, u) by {
        assert forall k :: 0 <= k < |u| ==> u[..k] == t[..k] && u[k] == t[k];
      }
      HandedOnInOrder(env, u);
      if g.ListenConnected? && cs != [] {
        TrailSnoc(cs, []);
        NothingReadAfter(Resume(ReadTrail(cs).0));
        assert ReadTrail(cs).1 + [] == ReadTrail(cs).1;
      }
      if g.ListenArrived? && cs != [] {
        TrailChunk(cs, g.chunk);
        MessagesConcat(env, ReadTrail(cs).1, ReadChunk(LIMIT, ReadTrail(cs).0, g.chunk).1);
      }
    }
  }

  /**
   At any moment `i` of any run: if the server served the connections made since one without a
   cursor from its log, the events read over all of them are a prefix of the log, and the messages
   handed on are those of that prefix, in order; all of them at the end of the run.
   */
  lemma ListenMessagesFollowTheLog(env: Env, outcomes: seq<bool>, script: seq<seq<Call>>, inputs: seq<Input>,
                                   i: nat, log: seq<Entry>) returns (n: nat)
    requires i <= |Run(env, Initial(outcomes, script), inputs).trace|
    requires var t := Run(env, Initial(outcomes, script), inputs).trace[..i];
             Heard(t) != [] && ValidLog(LIMIT, log) && ServedFrom(log, Heard(t))
    ensures n <= |log|
    ensures var s := Run(env, Initial(outcomes, script), inputs);
            var t := s.trace[..i];
            && ReadTrail(Heard(t)).1 == EventsOf(log[..n])
            && HandedOn(t) <= Messages(env, EventsOf(log[..n]))
            && (i == |s.trace| ==> HandedOn(t) == Messages(env, EventsOf(log[..n])))
            && (i == |s.trace| && s.listen.stream.Some? ==> s.listen.lastEventId == IdAt(log, n, []))
  {
    hide Run, Initial, Messages, ReadTrail, EventsOf, ValidLog, ServedFrom, Heard, HandedOn, NextHeard, Inv;
    InitialFollows(env, outcomes, script);
    InitialOk(outcomes, script);
    RunFollows(env, Initial(outcomes, script), inputs);
    var s := Run(env, Initial(outcomes, script), inputs);
    var t := s.trace[..i];
    assert HeardOk(env, t) by {
      assert forall k :: 0 <= k < i ==> t[..k] == s.trace[..k] && t[k] == s.trace[k];
    }
    HandedOnInOrder(env, t);
    forall k | 0 < k < |Heard(t)| ensures ReadTrail(Heard(t)[..k]).0.cursor != [] {
      CursorsHeard(env, t, k);
    }
    n := TrailReadsLog(log, Heard(t));
    if i == |s.trace| {
      assert t == s.trace;
      NoMessages(env);
    }
  }
}
