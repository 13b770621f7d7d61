/** The server transport as the program has it, an object whose tables and queue change in place. */
module HttpServerObject {
  import opened ByteStrings
  import opened Options
  import H = HttpParser
  import Rpc = RpcSession
  import S = HttpServer
  import opened HttpServer

  class ServerTransport {
    var open: bool
    var connections: map<nat, H.Parser>
    var connected: set<nat>
    var pendingByRequestId: map<string, Entry>
    var queuedServerMessages: seq<Rpc.Message>
    var sessionId: nat
    var endedSessions: set<nat>
    var limits: H.Limits
    var maxQueuedServerMessages: int
    var script: seq<seq<Call>>
    var accepted: seq<Accepted>
    ghost var log: seq<Written>
    ghost var sent: seq<Rpc.Message>
    ghost var happened: seq<Happening>

    ghost function Model(): Server
      reads this
    {
      Server(open, connections, connected, pendingByRequestId, queuedServerMessages, sessionId, endedSessions,
             limits, maxQueuedServerMessages, script, accepted, log, sent, happened)
    }

    constructor (limits: H.Limits, cap: int, script: seq<seq<Call>>)
      ensures Model() == Initial(limits, cap, script)
    {
      open, connections, connected, pendingByRequestId := false, map[], {}, map[];
      queuedServerMessages, sessionId, endedSessions := [], 0, {};
      this.limits, maxQueuedServerMessages, this.script := limits, cap, script;
      accepted, log, sent, happened := [], [], [], [];
    }

    // ---- writing ------------------------------------------------------------------------------

    method Write(socket: nat, ghost answering: Option<nat>, ghost content: Content)
      modifies `log
      ensures Model() == S.Write(old(Model()), socket, answering, content)
    {
      if socket in connected {
        log := log + [Written(socket, answering, content)];
      }
    }

    method Hangup(socket: nat)
      modifies `connected
      ensures Model() == S.Hangup(old(Model()), socket)
    {
      connected := connected - {socket};
    }

    method Respond(socket: nat, code: int)
      modifies `log, `connected
      ensures Model() == S.Respond(old(Model()), socket, code)
    {
      Write(socket, None, Status(code));
      Hangup(socket);
    }

    method WriteAckOrQueuedMessages(socket: nat)
      modifies this
      ensures Model() == WriteAckOrQueued(old(Model()), socket)
    {
      if queuedServerMessages == [] {
        Write(socket, None, Status(202));
      } else {
        Write(socket, None, Events(queuedServerMessages, None));
      }
      happened := happened + [Acknowledged(socket in connected, |queuedServerMessages|)];
      queuedServerMessages := [];
      Hangup(socket);
    }

    // ---- the application's side --------------------------------------------------------------------

    method Emit()
      modifies this
      ensures Model() == S.Emit(old(Model()))
      decreases |script|, 0
    {
      hide S.RunCalls;
      if script != [] {
        var calls := script[0];
        script := script[1..];
        RunCalls(calls);
      }
    }

    method RunCalls(calls: seq<Call>)
      modifies this
      ensures Model() == S.RunCalls(old(Model()), calls)
      decreases |script|, 9
    {
      hide S.Do;
      ghost var before := Model();
      var i := 0;
      while i < |calls|
        invariant 0 <= i <= |calls| && |script| <= |old(script)|
        invariant S.RunCalls(before, calls) == S.RunCalls(Model(), calls[i..])
      {
        Do(calls[i]);
        assert calls[i..][1..] == calls[i + 1..];
        i := i + 1;
      }
    }

    method Do(call: Call)
      modifies this
      ensures Model() == S.Do(old(Model()), call)
      decreases |script|, 8
    {
      hide S.Emit, S.DoSend, S.Stopped;
      match call
      case Send(m) => Send(m);
      case Stop => Stop();
      case Start => open := true;
    }

    method Stop()
      modifies this
      ensures Model() == if old(open) then S.Emit(Stopped(old(Model()))) else old(Model())
      decreases |script|, 7
    {
      hide S.Emit;
      if !open {
        return;
      }
      ghost var before := Model();
      open := false;
      connected := connected - connections.Keys;
      connections := map[];
      pendingByRequestId := map[];
      happened := happened + [TransportStopped(|queuedServerMessages|)];
      queuedServerMessages := [];
      assert Model() == Stopped(before);
      Emit();
    }

    method Send(m: Rpc.Message)
      modifies this
      ensures Model() == S.DoSend(old(Model()), m)
      decreases |script|, 7
    {
      hide S.Emit, S.SendResponse, S.EnforceBudget, IsResponse;
      if !open {
        Emit();
        return;
      }
      if IsResponse(m) {
        var id := Rpc.IdToString(m.id);
        if id in pendingByRequestId {
          SendResponse(id, m);
        }
        return;
      }
      happened := happened + [MessageSent(|queuedServerMessages|)];
      queuedServerMessages := queuedServerMessages + [m];
      sent := sent + [m];
      EnforceQueueBudget();
    }

    method SendResponse(id: string, m: Rpc.Message)
      requires id in pendingByRequestId
      modifies this
      ensures Model() == S.SendResponse(old(Model()), id, m)
    {
      var entry := pendingByRequestId[id];
      pendingByRequestId := pendingByRequestId - {id};
      if entry.socket !in connected {
        return;
      }
      if queuedServerMessages == [] {
        Write(entry.socket, Some(entry.request), Json(m));
      } else {
        Write(entry.socket, Some(entry.request), Events(queuedServerMessages, Some(m)));
      }
      queuedServerMessages := [];
      Hangup(entry.socket);
    }

    method EnforceQueueBudget()
      modifies `queuedServerMessages
      ensures Model() == EnforceBudget(old(Model()))
    {
      if maxQueuedServerMessages <= 0 {
        return;
      }
      ghost var before := queuedServerMessages;
      ghost var dropped := 0;
      while |queuedServerMessages| > maxQueuedServerMessages
        invariant 0 <= dropped <= |before| && queuedServerMessages == before[dropped..]
        invariant dropped > 0 ==> |queuedServerMessages| >= maxQueuedServerMessages
        decreases |queuedServerMessages|
      {
        queuedServerMessages := queuedServerMessages[1..];
        dropped := dropped + 1;
      }
    }

    // ---- the network's side ------------------------------------------------------------------------------

    method EndSession()
      modifies this
      ensures Model() == S.EndSession(old(Model()))
    {
      HangupPending();
      pendingByRequestId := map[];
      happened := happened + [SessionEnded(|queuedServerMessages|)];
      queuedServerMessages := [];
      endedSessions := endedSessions + {sessionId};
      sessionId := sessionId + 1;
    }

    method HangupPending()
      modifies `connected
      ensures connected == old(connected) - (set id | id in pendingByRequestId :: pendingByRequestId[id].socket)
    {
      var ids := pendingByRequestId.Keys;
      ghost var done: set<string> := {};
      while ids != {}
        invariant ids + done == pendingByRequestId.Keys && ids !! done
        invariant connected == old(connected) - (set id | id in done :: pendingByRequestId[id].socket)
        decreases |ids|
      {
        var id :| id in ids;
        Hangup(pendingByRequestId[id].socket);
        ids := ids - {id};
        done := done + {id};
      }
      assert done == pendingByRequestId.Keys;
    }

    method ProcessRequest(env: Env, socket: nat, request: H.HttpRequest)
      modifies this
      ensures Model() == S.ProcessRequest(env, old(Model()), socket, request)
    {
      hide S.Respond, S.EndSession, S.ProcessMessage;
      var r := env.read(request);
      if r.verb != Post && r.verb != Delete {
        Respond(socket, 405);
        return;
      }
      if !r.pathOk {
        Respond(socket, 404);
        return;
      }
      if !r.originOk {
        Respond(socket, 403);
        return;
      }
      if r.session.Some? && r.session.value in endedSessions {
        Respond(socket, 404);
        return;
      }
      if r.session.Some? && r.session.value != sessionId {
        Respond(socket, 400);
        return;
      }
      if r.verb == Delete {
        if r.session.None? {
          Respond(socket, 400);
          return;
        }
        EndSession();
        Respond(socket, 200);
        return;
      }
      if r.message.None? || r.message.value.version != Rpc.JSONRPC {
        Respond(socket, 400);
        return;
      }
      ProcessMessage(socket, r.message.value);
    }

    method ProcessMessage(socket: nat, m: Rpc.Message)
      modifies this
      ensures Model() == S.ProcessMessage(old(Model()), socket, m)
    {
      hide S.Respond, S.WriteAckOrQueued, S.Emit, Rpc.IdToString;
      if Rpc.Classify(m) == Rpc.Kind.Request {
        var id := Rpc.IdToString(m.id);
        if id == "" || id in pendingByRequestId {
          Respond(socket, 400);
          return;
        }
        pendingByRequestId := pendingByRequestId[id := Entry(socket, |accepted|)];
        accepted := accepted + [Accepted(id, socket)];
        Emit();
        return;
      }
      Emit();
      WriteAckOrQueuedMessages(socket);
    }

    /** `onReadyRead`, once the bytes are fed. */
    method ReadRequests(env: Env, socket: nat)
      requires socket in connections
      modifies this
      ensures Model() == S.ReadRequests(env, old(Model()), socket)
    {
      ghost var before := Model();
      while true
        invariant socket in connections && S.ReadRequests(env, before, socket) == S.ReadRequests(env, Model(), socket)
        decreases |connections[socket].buffer|, if connections[socket].phase == H.ReadingHeaders then 0 else 1
      {
        H.ParseNextShrinks(limits, connections[socket]);
        hide H.ParseNext, S.ProcessRequest, S.Respond;
        var (p, status) := H.ParseNext(limits, connections[socket]);
        match status
        case NeedMoreData =>
          connections := connections[socket := p];
          return;
        case Failed(e) =>
          connections := connections[socket := p];
          Respond(socket, ErrorCode(e));
          return;
        case Complete =>
          connections := connections[socket := H.Taken(p)];
          ProcessRequest(env, socket, p.current);
          if socket !in connections || socket !in connected {
            return;
          }
      }
    }

    method OnDisconnected(socket: nat)
      modifies `connections, `connected, `pendingByRequestId
      ensures Model() == Gone(old(Model()), socket)
    {
      connections := connections - {socket};
      connected := connected - {socket};
      ForgetSocket(socket);
    }

    method ForgetSocket(socket: nat)
      modifies `pendingByRequestId
      ensures pendingByRequestId
           == map id | id in old(pendingByRequestId) && old(pendingByRequestId)[id].socket != socket :: old(pendingByRequestId)[id]
    {
      ghost var before := pendingByRequestId;
      var ids := pendingByRequestId.Keys;
      while ids != {}
        invariant ids <= before.Keys
        invariant forall id :: id in pendingByRequestId <==> id in before && (id in ids || before[id].socket != socket)
        invariant forall id :: id in pendingByRequestId ==> pendingByRequestId[id] == before[id]
        decreases |ids|
      {
        var id :| id in ids;
        if pendingByRequestId[id].socket == socket {
          pendingByRequestId := pendingByRequestId - {id};
        }
        ids := ids - {id};
      }
    }

    method OnTimeout(id: string)
      modifies this
      ensures Model() == if id in old(pendingByRequestId) then TimedOut(old(Model()), id) else old(Model())
    {
      if id !in pendingByRequestId {
        return;
      }
      var entry := pendingByRequestId[id];
      pendingByRequestId := pendingByRequestId - {id};
      if entry.socket in connected {
        Write(entry.socket, Some(entry.request), Status(504));
        Hangup(entry.socket);
      }
    }

    method Handle(env: Env, e: Event)
      modifies this
      ensures Model() == Step(env, old(Model()), e)
    {
      hide S.Do, S.ReadRequests, TimedOut, Gone;
      match e
      case FromApplication(call) => Do(call);
      case Connected(socket) =>
        if open && socket !in connections {
          connections := connections[socket := H.Idle];
          connected := connected + {socket};
        }
      case Readable(socket, bytes) =>
        if socket in connections {
          connections := connections[socket := H.Feed(connections[socket], bytes)];
          ReadRequests(env, socket);
        }
      case Disconnected(socket) =>
        if socket in connections {
          OnDisconnected(socket);
        }
      case Timeout(id) => OnTimeout(id);
    }
  }
}
