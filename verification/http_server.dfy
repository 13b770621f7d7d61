/**
 The server side of the Streamable HTTP transport (source/mcp/McpHttpServerTransport.cpp): which
 response goes to which socket, and the bounded queue of messages the server starts.

 `script` holds, signal by signal, the calls the application makes from inside it. What a request
 says is left to `Env`; its bytes are parsed by `HttpParser`.
 */
module HttpServer {
  import opened ByteStrings
  import opened Options
  import H = HttpParser
  import Rpc = RpcSession

  // ---- requests and replies ----------------------------------------------------------------

  datatype Verb = Post | Delete | OtherVerb

  /** What the handler looks at; `session` is empty when there is no such header. */
  datatype Parsed = Parsed(verb: Verb, pathOk: bool, originOk: bool, session: Option<nat>, message: Option<Rpc.Message>)

  datatype Env = Env(read: H.HttpRequest -> Parsed)

  datatype Content = Status(code: int) | Json(message: Rpc.Message) | Events(server: seq<Rpc.Message>, reply: Option<Rpc.Message>)

  /** Bytes written to a socket; `answering` is the accepted request they answer. */
  datatype Written = Written(socket: nat, answering: Option<nat>, content: Content)

  /** A request that was accepted, by its id and the socket that posted it. */
  datatype Accepted = Accepted(id: string, socket: nat)

  /** An entry of the table; its timer is armed as long as it is there. */
  datatype Entry = Entry(socket: nat, request: nat)

  datatype Call = Send(message: Rpc.Message) | Stop | Start

  /**
   What bears on the server's own messages, `held` of them being queued at that time: one more was sent,
   the transport was stopped, the session ended by a DELETE, or a POST that is no request acknowledged,
   on a socket `connected` or hung up by then.
   */
  datatype Happening =
    | MessageSent(held: nat)
    | TransportStopped(held: nat)
    | SessionEnded(held: nat)
    | Acknowledged(connected: bool, held: nat)

  /**
   `connections` are the sockets with a parser, `connected` those still in the connected state. The
   last four fields record history: requests accepted, bytes written, messages the server sent, and
   what happened to those.
   */
  datatype Server = Server(open: bool, connections: map<nat, H.Parser>, connected: set<nat>,
                           pending: map<string, Entry>, queue: seq<Rpc.Message>,
                           sessionId: nat, ended: set<nat>, limits: H.Limits, cap: int, script: seq<seq<Call>>,
                           accepted: seq<Accepted>, log: seq<Written>, sent: seq<Rpc.Message>,
                           happened: seq<Happening>)

  function Initial(limits: H.Limits, cap: int, script: seq<seq<Call>>): Server {
    Server(false, map[], {}, map[], [], 0, {}, limits, cap, script, [], [], [], [])
  }

  // ---- writing ---------------------------------------------------------------------------------

  /** Writing to a socket that is not connected has no effect. */
  function Write(s: Server, socket: nat, answering: Option<nat>, content: Content): Server {
    if socket in s.connected then s.(log := s.log + [Written(socket, answering, content)]) else s
  }

  function Hangup(s: Server, socket: nat): Server { s.(connected := s.connected - {socket}) }

  function Respond(s: Server, socket: nat, code: int): Server { Hangup(Write(s, socket, None, Status(code)), socket) }

  /** The queue is emptied whether or not the socket can still be written to. */
  function TakeQueue(s: Server): Server { s.(queue := []) }

  function Note(s: Server, h: Happening): Server { s.(happened := s.happened + [h]) }

  function WriteAckOrQueued(s: Server, socket: nat): Server {
    var content := if s.queue == [] then Status(202) else Events(s.queue, None);
    Hangup(TakeQueue(Note(Write(s, socket, None, content), Acknowledged(socket in s.connected, |s.queue|))), socket)
  }

  // ---- the application's side ----------------------------------------------------------------------

  predicate IsResponse(m: Rpc.Message) {
    m.id != Rpc.NoId && m.id != Rpc.NullId && (m.result.Some? || m.error.Some?)
  }

  /** The oldest messages beyond the cap are dropped. */
  function EnforceBudget(s: Server): Server {
    if s.cap <= 0 || |s.queue| <= s.cap then s
    else
      s.(queue := s.queue[|s.queue| - s.cap..])
  }

  /** A response, for the socket that is waiting for it. */
  function SendResponse(s: Server, id: string, m: Rpc.Message): Server
    requires id in s.pending
  {
    var entry := s.pending[id];
    var s1 := s.(pending := s.pending - {id});
    if entry.socket !in s.connected then s1
    else
      var content := if s.queue == [] then Json(m) else Events(s.queue, Some(m));
      Hangup(TakeQueue(Write(s1, entry.socket, Some(entry.request), content)), entry.socket)
  }

  /** No connection is made or fed by what the application does. */
  predicate NoNewInput(t: Server, s: Server) {
    |t.script| <= |s.script| && t.cap == s.cap
    && forall c :: c in t.connections ==> c in s.connections && t.connections[c] == s.connections[c]
  }

  function Emit(s: Server): (t: Server)
    ensures NoNewInput(t, s)
    decreases |s.script|, 0
  {
    if s.script == [] then s else RunCalls(s.(script := s.script[1..]), s.script[0])
  }

  function RunCalls(s: Server, calls: seq<Call>): (t: Server)
    ensures NoNewInput(t, s)
    decreases |s.script|, 9, |calls|
  {
    if calls == [] then s else RunCalls(Do(s, calls[0]), calls[1..])
  }

  function Do(s: Server, call: Call): (t: Server)
    ensures NoNewInput(t, s)
    decreases |s.script|, 8
  {
    match call
    case Send(m) => DoSend(s, m)
    case Stop => if s.open then Emit(Stopped(s)) else s
    case Start => s.(open := true)
  }

  function DoSend(s: Server, m: Rpc.Message): (t: Server)
    ensures NoNewInput(t, s)
    decreases |s.script|, 7
  {
    if !s.open then Emit(s)
    else if IsResponse(m) then
      var id := Rpc.IdToString(m.id);
      if id in s.pending then SendResponse(s, id, m) else s
    else EnforceBudget(Queued(s, m))
  }

  /** One more message of the server's own. */
  function Queued(s: Server, m: Rpc.Message): Server {
    Note(s.(queue := s.queue + [m], sent := s.sent + [m]), MessageSent(|s.queue|))
  }

  function Stopped(s: Server): Server {
    s.(open := false, connections := map[], connected := s.connected - s.connections.Keys,
       pending := map[], queue := [], happened := s.happened + [TransportStopped(|s.queue|)])
  }

  // ---- the network's side ------------------------------------------------------------------------------

  function EndSession(s: Server): Server {
    s.(connected := s.connected - (set id | id in s.pending :: s.pending[id].socket),
       pending := map[], queue := [], happened := s.happened + [SessionEnded(|s.queue|)],
       ended := s.ended + {s.sessionId}, sessionId := s.sessionId + 1)
  }

  function ProcessRequest(env: Env, s: Server, socket: nat, request: H.HttpRequest): (t: Server)
    ensures NoNewInput(t, s)
  {
    var r := env.read(request);
    if r.verb == OtherVerb then Respond(s, socket, 405)
    else if !r.pathOk then Respond(s, socket, 404)
    else if !r.originOk then Respond(s, socket, 403)
    else if r.session.Some? && r.session.value in s.ended then Respond(s, socket, 404)
    else if r.session.Some? && r.session.value != s.sessionId then Respond(s, socket, 400)
    else if r.verb == Delete then
      (if r.session.None? then Respond(s, socket, 400) else Respond(EndSession(s), socket, 200))
    else if r.message.None? || r.message.value.version != Rpc.JSONRPC then Respond(s, socket, 400)
    else ProcessMessage(s, socket, r.message.value)
  }

  function ProcessMessage(s: Server, socket: nat, m: Rpc.Message): (t: Server)
    ensures NoNewInput(t, s)
  {
    if Rpc.Classify(m) != Rpc.Kind.Request then WriteAckOrQueued(Emit(s), socket)
    else
      var id := Rpc.IdToString(m.id);
      if id == "" || id in s.pending then Respond(s, socket, 400)
      else
        Emit(s.(pending := s.pending[id := Entry(socket, |s.accepted|)],
                accepted := s.accepted + [Accepted(id, socket)]))
  }

  function ErrorCode(e: H.Error): int {
    match e
    case HeaderOverflow => 431
    case BodyTooLarge => 413
    case InvalidContentLength => 400
    case InvalidRequestLine => 400
  }

  /** The loop of `onReadyRead`. */
  function ReadRequests(env: Env, s: Server, socket: nat): (t: Server)
    requires socket in s.connections
    ensures t.cap == s.cap
    decreases |s.connections[socket].buffer|, if s.connections[socket].phase == H.ReadingHeaders then 0 else 1
  {
    H.ParseNextShrinks(s.limits, s.connections[socket]);
    var (p, status) := H.ParseNext(s.limits, s.connections[socket]);
    match status
    case NeedMoreData => s.(connections := s.connections[socket := p])
    case Failed(e) => Respond(s.(connections := s.connections[socket := p]), socket, ErrorCode(e))
    case Complete =>
      var s1 := ProcessRequest(env, s.(connections := s.connections[socket := H.Taken(p)]), socket, p.current);
      if socket !in s1.connections || socket !in s1.connected then s1 else ReadRequests(env, s1, socket)
  }

  /** `onDisconnected`: the entries of the socket go with it. */
  function Gone(s: Server, socket: nat): Server {
    s.(connections := s.connections - {socket}, connected := s.connected - {socket},
       pending := map id | id in s.pending && s.pending[id].socket != socket :: s.pending[id])
  }

  function TimedOut(s: Server, id: string): Server
    requires id in s.pending
  {
    var entry := s.pending[id];
    Hangup(Write(s.(pending := s.pending - {id}), entry.socket, Some(entry.request), Status(504)), entry.socket)
  }

  // ---- all events -----------------------------------------------------------------------------------------

  datatype Event =
    | FromApplication(call: Call)
    | Connected(socket: nat)
    | Readable(socket: nat, bytes: Bytes)
    | Disconnected(socket: nat)
    | Timeout(id: string)

  function Step(env: Env, s: Server, e: Event): (t: Server)
    ensures t.cap == s.cap
  {
    match e
    case FromApplication(call) => Do(s, call)
    case Connected(socket) =>
      if !s.open || socket in s.connections then s
      else s.(connections := s.connections[socket := H.Idle], connected := s.connected + {socket})
    case Readable(socket, bytes) =>
      if socket !in s.connections then s
      else ReadRequests(env, s.(connections := s.connections[socket := H.Feed(s.connections[socket], bytes)]), socket)
    case Disconnected(socket) => if socket in s.connections then Gone(s, socket) else s
    case Timeout(id) => if id in s.pending then TimedOut(s, id) else s
  }

  function Run(env: Env, s: Server, events: seq<Event>): (t: Server)
    ensures t.cap == s.cap
    decreases |events|
  {
    if events == [] then s else Run(env, Step(env, s, events[0]), events[1..])
  }

  // ---- what is kept ------------------------------------------------------------------------------------------

  /** The replies to one accepted request. */
  function Replies(log: seq<Written>, request: nat): nat
    decreases |log|
  {
    if log == [] then 0
    else Replies(log[..|log| - 1], request) + (if log[|log| - 1].answering == Some(request) then 1 else 0)
  }

  /** The server's own messages among what was written, in order. */
  function ServerMessages(log: seq<Written>): seq<Rpc.Message>
    decreases |log|
  {
    if log == [] then []
    else
      var w := log[|log| - 1];
      ServerMessages(log[..|log| - 1]) + (if w.content.Events? then w.content.server else [])
  }

  /** A response to the request with this id, or word that none came in time. */
  predicate AnswersTo(content: Content, id: string) {
    match content
    case Status(code) => code == 504
    case Json(m) => Rpc.IdToString(m.id) == id
    case Events(_, reply) => reply.Some? && Rpc.IdToString(reply.value.id) == id
  }

  ghost predicate TableOk(s: Server) {
    && (forall id :: id in s.pending ==>
          && s.pending[id].request < |s.accepted| && s.accepted[s.pending[id].request] == Accepted(id, s.pending[id].socket)
          && Replies(s.log, s.pending[id].request) == 0)
    && (forall n: nat :: Replies(s.log, n) <= 1)
    && (forall i :: 0 <= i < |s.log| && s.log[i].answering.Some? ==>
          var n := s.log[i].answering.value;
          n < |s.accepted| && s.log[i].socket == s.accepted[n].socket && AnswersTo(s.log[i].content, s.accepted[n].id))
  }

  /** `b` is what is left of `a` when some entries are thrown away. */
  ghost predicate Within(b: seq<Rpc.Message>, a: seq<Rpc.Message>)
    decreases |a|
  {
    if b == [] then true
    else a != [] && ((b[|b| - 1] == a[|a| - 1] && Within(b[..|b| - 1], a[..|a| - 1])) || Within(b, a[..|a| - 1]))
  }

  /** How many messages are thrown away when this happens, with room for `cap` of them if `cap` is positive. */
  function Loss(h: Happening, cap: int): nat {
    match h
    case MessageSent(held) => if cap > 0 && held + 1 > cap then held + 1 - cap else 0
    case TransportStopped(held) => held
    case SessionEnded(held) => held
    case Acknowledged(connected, held) => if connected then 0 else held
  }

  function Losses(happened: seq<Happening>, cap: int): nat
    decreases |happened|
  {
    if happened == [] then 0
    else Losses(happened[..|happened| - 1], cap) + Loss(happened[|happened| - 1], cap)
  }

  /** Written, queued and `lost` messages are the sent ones, the queued ones last, the written ones in order. */
  ghost predicate Balanced(s: Server, lost: nat) {
    var written := ServerMessages(s.log);
    && |written| + |s.queue| + lost == |s.sent|
    && |s.queue| <= |s.sent| && s.queue == s.sent[|s.sent| - |s.queue|..]
    && Within(written, s.sent[..|s.sent| - |s.queue|])
    && (lost == 0 ==> written + s.queue == s.sent)
  }

  ghost predicate QueueOk(s: Server) {
    (s.cap > 0 ==> |s.queue| <= s.cap) && Balanced(s, Losses(s.happened, s.cap))
  }

  ghost predicate Inv(s: Server) { TableOk(s) && QueueOk(s) }

  lemma LogSnoc(log: seq<Written>, w: Written)
    ensures forall n: nat :: Replies(log + [w], n) == Replies(log, n) + (if w.answering == Some(n) then 1 else 0)
    ensures ServerMessages(log + [w]) == ServerMessages(log) + (if w.content.Events? then w.content.server else [])
  {
    assert (log + [w])[..|log|] == log;
  }

  lemma {:induction false} WithinMore(b: seq<Rpc.Message>, a: seq<Rpc.Message>, c: seq<Rpc.Message>)
    requires Within(b, a)
    ensures Within(b, a + c) && Within(b + c, a + c)
    decreases |c|
  {
    if c == [] {
      assert a + c == a && b + c == b;
    } else {
      var n := |c| - 1;
      WithinMore(b, a, c[..n]);
      assert (a + c)[..|a + c| - 1] == a + c[..n] && (b + c)[..|b + c| - 1] == b + c[..n];
    }
  }

  // ---- the queue -----------------------------------------------------------------------------------------------

  lemma LossesSnoc(happened: seq<Happening>, h: Happening, cap: int)
    ensures Losses(happened + [h], cap) == Losses(happened, cap) + Loss(h, cap)
  {
    assert (happened + [h])[..|happened|] == happened;
  }

  /** The oldest `n` messages of the queue are thrown away. */
  lemma Dropped(s: Server, t: Server, n: nat, lost: nat)
    requires Balanced(s, lost) && n <= |s.queue| && t.sent == s.sent && t.log == s.log && t.queue == s.queue[n..]
    ensures Balanced(t, lost + n)
  {
    hide ServerMessages, Within;
    var k := |s.sent| - |s.queue|;
    assert s.sent[..k + n] == s.sent[..k] + s.sent[k..k + n];
    WithinMore(ServerMessages(s.log), s.sent[..k], s.sent[k..k + n]);
    assert s.queue[0..] == s.queue;
  }

  /** The whole queue is written out, in order. */
  lemma Flushed(s: Server, t: Server, w: Written, lost: nat)
    requires Balanced(s, lost) && t.sent == s.sent && t.log == s.log + [w]
    requires w.content.Events? && w.content.server == s.queue && t.queue == []
    ensures Balanced(t, lost)
  {
    LogSnoc(s.log, w);
    hide ServerMessages, Within;
    var k := |s.sent| - |s.queue|;
    assert s.sent == s.sent[..k] + s.queue && s.sent[..|s.sent|] == s.sent;
    WithinMore(ServerMessages(s.log), s.sent[..k], s.queue);
  }

  lemma SameBalance(s: Server, t: Server, w: Written, lost: nat)
    requires Balanced(s, lost) && t.sent == s.sent && (t.log == s.log || t.log == s.log + [w])
    requires !w.content.Events? && t.queue == s.queue
    ensures Balanced(t, lost)
  {
    LogSnoc(s.log, w);
    assert ServerMessages(s.log) + [] == ServerMessages(s.log);
    hide ServerMessages, Within;
  }

  lemma SameQueue(s: Server, t: Server, w: Written)
    requires QueueOk(s) && t.cap == s.cap && t.sent == s.sent && (t.log == s.log || t.log == s.log + [w])
    requires !w.content.Events? && t.queue == s.queue && t.happened == s.happened
    ensures QueueOk(t)
  {
    hide Balanced;
    SameBalance(s, t, w, Losses(s.happened, s.cap));
  }

  lemma OneMore(s: Server, t: Server, m: Rpc.Message, lost: nat)
    requires Balanced(s, lost) && t.queue == s.queue + [m] && t.sent == s.sent + [m] && t.log == s.log
    ensures Balanced(t, lost)
  {
    hide ServerMessages, Within;
    var k := |s.sent| - |s.queue|;
    assert t.sent[..k] == s.sent[..k] && t.sent[k..] == s.sent[k..] + [m];
    var written := ServerMessages(s.log);
    assert (written + s.queue) + [m] == written + (s.queue + [m]);
  }

  lemma QueuedMore(s: Server, m: Rpc.Message)
    requires QueueOk(s)
    ensures QueueOk(EnforceBudget(Queued(s, m)))
  {
    hide Balanced, Losses;
    var lost := Losses(s.happened, s.cap);
    var t := Queued(s, m);
    LossesSnoc(s.happened, MessageSent(|s.queue|), s.cap);
    OneMore(s, t, m, lost);
    if s.cap > 0 && |t.queue| > s.cap {
      Dropped(t, EnforceBudget(t), |t.queue| - s.cap, lost);
    }
  }

  /** The queue is given up, as a note says. */
  lemma GivenUp(s: Server, t: Server, h: Happening)
    requires QueueOk(s) && t.cap == s.cap && t.sent == s.sent && t.log == s.log && t.queue == []
    requires t.happened == s.happened + [h] && Loss(h, s.cap) == |s.queue|
    ensures QueueOk(t)
  {
    hide Balanced, Losses;
    LossesSnoc(s.happened, h, s.cap);
    Dropped(s, t, |s.queue|, Losses(s.happened, s.cap));
  }

  // ---- the table -------------------------------------------------------------------------------------------------

  /** An entry leaves the table, perhaps with its reply. */
  lemma TableLess(s: Server, t: Server, id: string, content: Content)
    requires TableOk(s) && id in s.pending && t.pending == s.pending - {id} && t.accepted == s.accepted
    requires t.log == s.log || t.log == s.log + [Written(s.pending[id].socket, Some(s.pending[id].request), content)]
    requires AnswersTo(content, id)
    ensures TableOk(t)
  {
    LogSnoc(s.log, Written(s.pending[id].socket, Some(s.pending[id].request), content));
    hide Replies, AnswersTo;
    forall other | other in t.pending ensures t.pending[other].request != s.pending[id].request {
      assert s.accepted[s.pending[other].request].id == other;
    }
  }

  lemma TableSame(s: Server, t: Server, w: Written)
    requires TableOk(s) && t.accepted == s.accepted && w.answering == None && (t.log == s.log || t.log == s.log + [w])
    requires forall id :: id in t.pending ==> id in s.pending && t.pending[id] == s.pending[id]
    ensures TableOk(t)
  {
    LogSnoc(s.log, w);
    hide Replies;
  }

  lemma TableMore(s: Server, id: string, socket: nat)
    requires TableOk(s)
    ensures TableOk(s.(pending := s.pending[id := Entry(socket, |s.accepted|)], accepted := s.accepted + [Accepted(id, socket)]))
  {
    NoReplyYet(s.log, |s.accepted|);
    hide Replies;
  }

  lemma {:induction false} NoReplyYet(log: seq<Written>, n: nat)
    requires forall i :: 0 <= i < |log| && log[i].answering.Some? ==> log[i].answering.value < n
    ensures Replies(log, n) == 0
    decreases |log|
  {
    if log != [] {
      NoReplyYet(log[..|log| - 1], n);
    }
  }

  // ---- every operation ----------------------------------------------------------------------------------------------

  lemma RespondOk(s: Server, socket: nat, code: int)
    requires Inv(s)
    ensures Inv(Respond(s, socket, code))
  {
    var w := Written(socket, None, Status(code));
    hide TableOk, QueueOk;
    SameQueue(s, Respond(s, socket, code), w);
    TableSame(s, Respond(s, socket, code), w);
  }

  lemma WriteAckOk(s: Server, socket: nat)
    requires Inv(s)
    ensures Inv(WriteAckOrQueued(s, socket))
  {
    var t := WriteAckOrQueued(s, socket);
    var w := Written(socket, None, if s.queue == [] then Status(202) else Events(s.queue, None));
    var h := Acknowledged(socket in s.connected, |s.queue|);
    hide TableOk, Balanced, Losses;
    LossesSnoc(s.happened, h, s.cap);
    TableSame(s, t, w);
    if s.queue == [] {
      SameBalance(s, t, w, Losses(s.happened, s.cap));
    } else if socket in s.connected {
      Flushed(s, t, w, Losses(s.happened, s.cap));
    } else {
      GivenUp(s, t, h);
    }
  }

  lemma SendResponseOk(s: Server, id: string, m: Rpc.Message)
    requires Inv(s) && id in s.pending && id == Rpc.IdToString(m.id)
    ensures Inv(SendResponse(s, id, m))
  {
    var t := SendResponse(s, id, m);
    var content := if s.queue == [] then Json(m) else Events(s.queue, Some(m));
    var w := Written(s.pending[id].socket, Some(s.pending[id].request), content);
    hide TableOk, Balanced, Losses;
    TableLess(s, t, id, content);
    if s.pending[id].socket !in s.connected || s.queue == [] {
      SameQueue(s, t, Written(s.pending[id].socket, Some(s.pending[id].request), Json(m)));
    } else {
      Flushed(s, t, w, Losses(s.happened, s.cap));
    }
  }

  lemma {:induction false} EmitOk(s: Server)
    requires Inv(s)
    ensures Inv(Emit(s))
    decreases |s.script|, 0
  {
    hide TableOk, QueueOk, RunCalls;
    if s.script != [] {
      var t := s.(script := s.script[1..]);
      Rescripted(s, t);
      RunCallsOk(t, s.script[0]);
    }
  }

  lemma Rescripted(s: Server, t: Server)
    requires Inv(s)
    requires t == s.(script := t.script, open := t.open, connections := t.connections, connected := t.connected)
    ensures Inv(t)
  {
  }

  lemma {:induction false} RunCallsOk(s: Server, calls: seq<Call>)
    requires Inv(s)
    ensures Inv(RunCalls(s, calls))
    decreases |s.script|, 9, |calls|
  {
    hide Inv, Do;
    if calls != [] {
      DoOk(s, calls[0]);
      RunCallsOk(Do(s, calls[0]), calls[1..]);
    }
  }

  lemma {:induction false} DoOk(s: Server, call: Call)
    requires Inv(s)
    ensures Inv(Do(s, call))
    decreases |s.script|, 8
  {
    hide Inv, Emit, SendResponse, EnforceBudget, IsResponse;
    match call
    case Send(m) =>
      if !s.open {
        EmitOk(s);
      } else if IsResponse(m) {
        if Rpc.IdToString(m.id) in s.pending {
          SendResponseOk(s, Rpc.IdToString(m.id), m);
        }
      } else {
        QueuedOk(s, m);
      }
    case Stop =>
      if s.open {
        StoppedOk(s);
        EmitOk(Stopped(s));
      }
    case Start => Rescripted(s, s.(open := true));
  }

  lemma QueuedOk(s: Server, m: Rpc.Message)
    requires Inv(s)
    ensures Inv(EnforceBudget(Queued(s, m)))
  {
    QueuedMore(s, m);
    hide QueueOk;
  }

  lemma StoppedOk(s: Server)
    requires Inv(s)
    ensures Inv(Stopped(s))
  {
    GivenUp(s, Stopped(s), TransportStopped(|s.queue|));
    hide QueueOk;
  }

  lemma EndSessionOk(s: Server)
    requires Inv(s)
    ensures Inv(EndSession(s))
  {
    GivenUp(s, EndSession(s), SessionEnded(|s.queue|));
    hide QueueOk;
  }

  lemma ProcessOk(env: Env, s: Server, socket: nat, request: H.HttpRequest)
    requires Inv(s)
    ensures Inv(ProcessRequest(env, s, socket, request))
  {
    hide Inv, Respond, EndSession, ProcessMessage;
    RespondOk(s, socket, 405);
    RespondOk(s, socket, 404);
    RespondOk(s, socket, 403);
    RespondOk(s, socket, 400);
    EndSessionOk(s);
    RespondOk(EndSession(s), socket, 200);
    var r := env.read(request);
    if r.message.Some? {
      ProcessMessageOk(s, socket, r.message.value);
    }
  }

  lemma ProcessMessageOk(s: Server, socket: nat, m: Rpc.Message)
    requires Inv(s)
    ensures Inv(ProcessMessage(s, socket, m))
  {
    hide TableOk, QueueOk, Respond, WriteAckOrQueued, Emit;
    EmitOk(s);
    WriteAckOk(Emit(s), socket);
    RespondOk(s, socket, 400);
    var id := Rpc.IdToString(m.id);
    TableMore(s, id, socket);
    var t := s.(pending := s.pending[id := Entry(socket, |s.accepted|)], accepted := s.accepted + [Accepted(id, socket)]);
    SameQueue(s, t, Written(socket, None, Status(0)));
    EmitOk(t);
  }

  lemma {:induction false} ReadOk(env: Env, s: Server, socket: nat)
    requires Inv(s) && socket in s.connections
    ensures Inv(ReadRequests(env, s, socket))
    decreases |s.connections[socket].buffer|, if s.connections[socket].phase == H.ReadingHeaders then 0 else 1
  {
    H.ParseNextShrinks(s.limits, s.connections[socket]);
    var (p, status) := H.ParseNext(s.limits, s.connections[socket]);
    hide Inv, Respond, ProcessRequest, H.ParseNext;
    Rescripted(s, s.(connections := s.connections[socket := p]));
    match status
    case NeedMoreData =>
    case Failed(e) => RespondOk(s.(connections := s.connections[socket := p]), socket, ErrorCode(e));
    case Complete =>
      var s0 := s.(connections := s.connections[socket := H.Taken(p)]);
      Rescripted(s, s0);
      ProcessOk(env, s0, socket, p.current);
      var s1 := ProcessRequest(env, s0, socket, p.current);
      if socket in s1.connections && socket in s1.connected {
        ReadOk(env, s1, socket);
      }
  }

  lemma StepOk(env: Env, s: Server, e: Event)
    requires Inv(s)
    ensures Inv(Step(env, s, e))
  {
    hide TableOk, QueueOk, Do, ReadRequests;
    match e
    case FromApplication(call) => DoOk(s, call);
    case Connected(socket) => Rescripted(s, Step(env, s, e));
    case Readable(socket, bytes) =>
      if socket in s.connections {
        var t := s.(connections := s.connections[socket := H.Feed(s.connections[socket], bytes)]);
        Rescripted(s, t);
        ReadOk(env, t, socket);
      }
    case Disconnected(socket) =>
      TableSame(s, Gone(s, socket), Written(socket, None, Status(0)));
      SameQueue(s, Gone(s, socket), Written(socket, None, Status(0)));
    case Timeout(id) =>
      if id in s.pending {
        TableLess(s, TimedOut(s, id), id, Status(504));
        SameQueue(s, TimedOut(s, id), Written(s.pending[id].socket, Some(s.pending[id].request), Status(504)));
      }
  }

  lemma {:induction false} RunOk(env: Env, s: Server, events: seq<Event>)
    requires Inv(s)
    ensures Inv(Run(env, s, events))
    decreases |events|
  {
    hide Inv, Step;
    if events != [] {
      StepOk(env, s, events[0]);
      RunOk(env, Step(env, s, events[0]), events[1..]);
    }
  }

  lemma InitialOk(limits: H.Limits, cap: int, script: seq<seq<Call>>)
    ensures Inv(Initial(limits, cap, script))
  {
  }

  // ---- what it comes to --------------------------------------------------------------------------------------------

  /**
   After any run an accepted request has been answered at most once, on the socket that posted it, with
   a response to its id or word that none came in time.
   */
  lemma RepliesGoHome(env: Env, limits: H.Limits, cap: int, script: seq<seq<Call>>, events: seq<Event>)
    ensures var s := Run(env, Initial(limits, cap, script), events);
            && (forall n: nat :: Replies(s.log, n) <= 1)
            && (forall i :: 0 <= i < |s.log| && s.log[i].answering.Some? ==>
                  var n := s.log[i].answering.value;
                  n < |s.accepted| && s.log[i].socket == s.accepted[n].socket
                  && AnswersTo(s.log[i].content, s.accepted[n].id))
            && (forall id :: id in s.pending ==> Replies(s.log, s.pending[id].request) == 0)
  {
    InitialOk(limits, cap, script);
    RunOk(env, Initial(limits, cap, script), events);
    hide Run, Initial, Replies, QueueOk;
  }

  /** With messages held, nothing that gives them up; and none sent beyond a positive cap. */
  predicate KeepsAll(h: Happening, cap: int) {
    match h
    case MessageSent(held) => cap <= 0 || held < cap
    case TransportStopped(held) => held == 0
    case SessionEnded(held) => held == 0
    case Acknowledged(connected, held) => connected || held == 0
  }

  lemma {:induction false} LossesMean(happened: seq<Happening>, cap: int)
    ensures Losses(happened, cap) == 0 <==> forall i :: 0 <= i < |happened| ==> KeepsAll(happened[i], cap)
    decreases |happened|
  {
    if happened != [] {
      LossesMean(happened[..|happened| - 1], cap);
      assert Loss(happened[|happened| - 1], cap) == 0 <==> KeepsAll(happened[|happened| - 1], cap);
    }
  }

  /**
   After any run the messages the server started were written at most once and in order, and the queue is
   within a positive cap. What was written and what is queued together are everything that was sent if and
   only if no message was sent beyond a positive cap and, while messages were held, the transport was not
   stopped, the session not ended, and no POST acknowledged on a socket that was hung up in the meantime.
   */
  lemma QueueConserves(env: Env, limits: H.Limits, cap: int, script: seq<seq<Call>>, events: seq<Event>)
    ensures var s := Run(env, Initial(limits, cap, script), events);
            var written := ServerMessages(s.log);
            && Within(written, s.sent)
            && (cap > 0 ==> |s.queue| <= cap)
            && |written| + |s.queue| + Losses(s.happened, cap) == |s.sent|
            && (written + s.queue == s.sent <==> forall i :: 0 <= i < |s.happened| ==> KeepsAll(s.happened[i], cap))
  {
    InitialOk(limits, cap, script);
    RunOk(env, Initial(limits, cap, script), events);
    var s := Run(env, Initial(limits, cap, script), events);
    LossesMean(s.happened, cap);
    hide Run, Initial, ServerMessages, Within, TableOk, Losses, KeepsAll;
    var k := |s.sent| - |s.queue|;
    WithinMore(ServerMessages(s.log), s.sent[..k], s.sent[k..]);
    assert s.sent[..k] + s.sent[k..] == s.sent;
  }
}
