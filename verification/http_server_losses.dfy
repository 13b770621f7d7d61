/**
 A run of the server transport that throws a message away though nothing is stopped, ended or full: the
 handler of a POST answers an earlier request of the same socket, which hangs the socket up, and sends a
 message of its own, which then goes out with the acknowledgement of the POST, to nobody.
 */
module HttpServerLosses {
  import opened ByteStrings
  import opened Options
  import H = HttpParser
  import T = HttpRequestText
  import Rpc = RpcSession
  import opened HttpServer

  // ---- two requests without fields and body ---------------------------------------------------------

  const P: byte := 80
  const A: byte := 97
  const B: byte := 98

  function Line(target: byte): Bytes { T.RequestLine([P], [target], [P]) }

  /** The head of the request, and its blank line. */
  function Wire(target: byte): Bytes { H.Message(Line(target), []) }

  function RequestFor(target: byte): H.HttpRequest { H.HttpRequest([P], [target], [P], map[], []) }

  lemma LineIs(target: byte)
    ensures Line(target) == [P, SPACE, target, SPACE, P]
  {
  }

  lemma LineReads(target: byte)
    requires target == A || target == B
    ensures H.ReadBlock(H.NoRequest, Line(target)) == RequestFor(target)
  {
    hide H.ReadBlock;
    T.HeadIsRead([P], [target], [P], [], []);
    assert T.Head(Line(target), T.FieldLines([]), []) == Line(target);
    assert T.Collected([]) == map[];
  }

  lemma EndOf(block: Bytes)
    requires |block| == 5 && CR !in block
    ensures H.HeaderEnd(block + H.TERMINATOR) == Some(5)
  {
    hide H.HeaderEnd;
    var s := block + H.TERMINATOR;
    assert s[5..9] == H.TERMINATOR;
    assert H.EndsAt(s, 5);
    forall j: nat | j < 5 ensures !H.EndsAt(s, j) {
      assert s[j] == block[j] && (j + 4 <= |s| ==> s[j..j + 4][0] == s[j]);
    }
  }

  lemma LineIsMessage(limits: H.Limits, target: byte)
    requires target == A || target == B
    ensures H.IsMessage(limits, Line(target), []) && H.Arrived(limits, Line(target), 0)
    ensures H.RequestOf(Line(target), []) == RequestFor(target)
  {
    LineIs(target);
    LineReads(target);
    EndOf(Line(target));
    hide H.ReadBlock, H.HeaderEnd, Line;
    NoLength(limits, target);
  }

  lemma NoLength(limits: H.Limits, target: byte)
    ensures H.BodyLength(limits, RequestFor(target)) == (Some(0), H.Complete) && H.BodyTaken(0) == 0
  {
  }

  lemma ReadsWire(limits: H.Limits, target: byte) returns (n: nat)
    requires target == A || target == B
    ensures H.ParseNext(limits, H.Idle.(buffer := Wire(target))) == (H.Parser([], RequestFor(target), H.Finished, n), H.Complete)
  {
    hide *;
    LineIsMessage(limits, target);
    n := H.ParseNextIs(limits, Line(target), [], []);
    assert H.Message(Line(target), []) + [] == H.Message(Line(target), []);
    WireIs(target);
  }

  lemma WireIs(target: byte)
    ensures Wire(target) == H.Message(Line(target), [])
  {
  }

  // ---- one POST ------------------------------------------------------------------------------------------

  const Free: H.Limits := H.Limits(64, 64)

  lemma FirstRead(env: Env, s: Server, socket: nat, p: H.Parser)
    requires socket in s.connections && H.ParseNext(s.limits, s.connections[socket]) == (p, H.Complete) && H.Taken(p) == H.Idle
    ensures var t := ProcessRequest(env, s.(connections := s.connections[socket := H.Idle]), socket, p.current);
            ReadRequests(env, s, socket)
            == if socket !in t.connections || socket !in t.connected then t else ReadRequests(env, t, socket)
  {
    hide ProcessRequest, H.ParseNext;
    H.ParseNextShrinks(s.limits, s.connections[socket]);
  }

  lemma NothingToRead(env: Env, s: Server, socket: nat)
    requires s.limits == Free && socket in s.connections && s.connections[socket] == H.Idle
    ensures ReadRequests(env, s, socket) == s
  {
    assert H.ParseNext(Free, H.Idle) == (H.Idle, H.NeedMoreData);
    assert s.connections[socket := H.Idle] == s.connections;
  }

  /** A socket reads one such request: it is processed, and the parser waits for the next. */
  lemma OnePost(env: Env, s: Server, socket: nat, target: byte)
    requires target == A || target == B
    requires s.limits == Free && socket in s.connections && s.connections[socket] == H.Idle
    requires ProcessRequest(env, s, socket, RequestFor(target)).limits == Free
    ensures Step(env, s, Readable(socket, Wire(target))) == ProcessRequest(env, s, socket, RequestFor(target))
  {
    hide *;
    var fed := s.(connections := s.connections[socket := H.Feed(H.Idle, Wire(target))]);
    var t := ProcessRequest(env, s, socket, RequestFor(target));
    StepReads(env, s, socket, Wire(target));
    FedIs(Wire(target));
    var n := ReadsWire(Free, target);
    TakenIs(RequestFor(target), n);
    FirstRead(env, fed, socket, H.Parser([], RequestFor(target), H.Finished, n));
    Restored(s, socket, H.Feed(H.Idle, Wire(target)));
    StillIdle(env, s, socket, RequestFor(target));
    if socket in t.connections && socket in t.connected {
      NothingToRead(env, t, socket);
    }
  }

  lemma StepReads(env: Env, s: Server, socket: nat, bytes: Bytes)
    requires socket in s.connections
    ensures Step(env, s, Readable(socket, bytes))
         == ReadRequests(env, s.(connections := s.connections[socket := H.Feed(s.connections[socket], bytes)]), socket)
  {
    hide ReadRequests;
  }

  lemma FedIs(bytes: Bytes)
    ensures H.Feed(H.Idle, bytes) == H.Idle.(buffer := bytes)
  {
    assert [] + bytes == bytes;
  }

  lemma Restored(s: Server, socket: nat, p: H.Parser)
    requires socket in s.connections && s.connections[socket] == H.Idle
    ensures var fed := s.(connections := s.connections[socket := p]);
            fed.(connections := fed.connections[socket := H.Idle]) == s
  {
    assert s.connections[socket := p][socket := H.Idle] == s.connections;
  }

  lemma TakenIs(request: H.HttpRequest, n: nat)
    ensures H.Taken(H.Parser([], request, H.Finished, n)) == H.Idle
  {
  }

  lemma StillIdle(env: Env, s: Server, socket: nat, request: H.HttpRequest)
    requires socket in s.connections && s.connections[socket] == H.Idle
    ensures var t := ProcessRequest(env, s, socket, request); socket in t.connections ==> t.connections[socket] == H.Idle
  {
    hide ProcessRequest;
    assert NoNewInput(ProcessRequest(env, s, socket, request), s);
  }

  // ---- the run -----------------------------------------------------------------------------------------------

  const REQUEST: Rpc.Message := Rpc.Message(Rpc.JSONRPC, Rpc.Text("1"), Some("ask"), Rpc.NoParams, None, None)
  const RESPONSE: Rpc.Message := Rpc.Message(Rpc.JSONRPC, Rpc.Text("1"), None, Rpc.NoParams, Some(""), None)
  const NOTE: Rpc.Message := Rpc.Message(Rpc.JSONRPC, Rpc.NoId, Some("note"), Rpc.NoParams, None, None)

  /** The first line posts a request, the other a notification. */
  const Posts: Env := Env((r: H.HttpRequest) => Parsed(Post, true, true, None, Some(if r.target == [A] then REQUEST else NOTE)))

  const REACTION: seq<Call> := [Send(RESPONSE), Send(NOTE)]

  function Opened(): Server {
    Initial(Free, 0, [[], REACTION]).(open := true, connections := map[5 := H.Idle], connected := {5})
  }

  function Asked(): Server {
    Opened().(pending := map["1" := Entry(5, 0)], accepted := [Accepted("1", 5)], script := [REACTION])
  }

  /** After the reaction: the request is answered, its socket hung up, and the note is queued. */
  function Reacted(): Server {
    Asked().(pending := map[], connected := {}, script := [], queue := [NOTE], sent := [NOTE],
             log := [Written(5, Some(0), Json(RESPONSE))], happened := [MessageSent(0)])
  }

  lemma Opens(env: Env)
    ensures var s0 := Initial(Free, 0, [[], REACTION]);
            Step(env, Step(env, s0, FromApplication(Start)), Connected(5)) == Opened()
  {
  }

  lemma Asks()
    ensures ProcessRequest(Posts, Opened(), 5, RequestFor(A)) == Asked()
  {
    var s := Opened();
    assert Posts.read(RequestFor(A)).message == Some(REQUEST);
    assert ProcessRequest(Posts, s, 5, RequestFor(A)) == ProcessMessage(s, 5, REQUEST);
    var t := s.(pending := s.pending["1" := Entry(5, 0)], accepted := [Accepted("1", 5)]);
    assert s.accepted + [Accepted("1", 5)] == [Accepted("1", 5)];
    assert ProcessMessage(s, 5, REQUEST) == Emit(t);
    assert t.script[1..] == [REACTION] && t.script[0] == [];
    assert Emit(t) == RunCalls(t.(script := [REACTION]), []);
  }

  lemma Reacts()
    ensures Emit(Asked()) == Reacted()
  {
    var s := Asked().(script := []);
    assert Emit(Asked()) == RunCalls(s, REACTION);
    var t := Do(s, Send(RESPONSE));
    assert t == s.(pending := map[], connected := {}, log := [Written(5, Some(0), Json(RESPONSE))]) by {
      assert s.pending - {"1"} == map[];
    }
    var u := Do(t, Send(NOTE));
    assert u == Reacted();
    assert REACTION[1..] == [Send(NOTE)] && REACTION[1..][1..] == [];
    assert RunCalls(s, REACTION) == RunCalls(t, REACTION[1..]) == RunCalls(u, []);
  }

  lemma Acknowledges()
    ensures ProcessRequest(Posts, Asked(), 5, RequestFor(B))
         == Reacted().(queue := [], happened := [MessageSent(0), Acknowledged(false, 1)])
  {
    assert Posts.read(RequestFor(B)).message == Some(NOTE);
    Reacts();
    hide Emit;
    assert ProcessRequest(Posts, Asked(), 5, RequestFor(B)) == WriteAckOrQueued(Emit(Asked()), 5);
  }

  /** A message is lost with no stop, no end of a session, no limit on the queue, and all of them delivered or not. */
  lemma AcknowledgedToNobody() returns (env: Env, events: seq<Event>)
    ensures var s := Run(env, Initial(Free, 0, [[], REACTION]), events);
            && s.happened == [MessageSent(0), Acknowledged(false, 1)]
            && s.sent == [NOTE] && s.queue == [] && ServerMessages(s.log) == []
  {
    env := Posts;
    var a, b, c, d := FromApplication(Start), Connected(5), Readable(5, Wire(A)), Readable(5, Wire(B));
    events := [a, b, c, d];
    var s0 := Initial(Free, 0, [[], REACTION]);
    Opens(env);
    Asks();
    Acknowledges();
    OnePost(env, Opened(), 5, A);
    OnePost(env, Asked(), 5, B);
    FourSteps(env, s0, a, b, c, d);
    hide Step, Run, ProcessRequest, Wire;
    assert [Written(5, Some(0), Json(RESPONSE))][..0] == [];
  }

  lemma FourSteps(env: Env, s: Server, a: Event, b: Event, c: Event, d: Event)
    ensures Run(env, s, [a, b, c, d]) == Step(env, Step(env, Step(env, Step(env, s, a), b), c), d)
  {
    hide Step;
    var s1 := Step(env, s, a);
    var s2 := Step(env, s1, b);
    var s3 := Step(env, s2, c);
    assert [a, b, c, d][1..] == [b, c, d] && [b, c, d][1..] == [c, d] && [c, d][1..] == [d] && [d][1..] == [];
    assert Run(env, s, [a, b, c, d]) == Run(env, s1, [b, c, d]) == Run(env, s2, [c, d]);
    assert Run(env, s2, [c, d]) == Run(env, s3, [d]) == Run(env, Step(env, s3, d), []);
  }
}
