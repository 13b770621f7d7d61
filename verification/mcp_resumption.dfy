/**
 What a resumed exchange tells the application: over all its connections, the replies it hands on
 are the messages of the server's log, in order, none lost and none repeated.
 */
module McpResumption {
  import opened ByteStrings
  import opened Options
  import opened Sse
  import opened SseResume
  import opened McpTransport
  import opened McpExchanges

  const LIMIT: int := DEFAULT_MAX_BUFFER_BYTES

  // ---- what was read and what was handed on ---------------------------------------------

  /** The events in the chunks of a history, read connection by connection. */
  function EventsRead(h: seq<Signal>): seq<Event>
    decreases |h|
  {
    if h == [] then []
    else
      var before, g := h[..|h| - 1], h[|h| - 1];
      EventsRead(before) + (if g.Arrived? then ReadChunk(LIMIT, ReaderOf(before), g.chunk).1 else [])
  }

  /** The replies of a history that came from an event stream. */
  function StreamReplies(h: seq<Signal>): seq<Message>
    decreases |h|
  {
    if h == [] then []
    else
      var g := h[|h| - 1];
      StreamReplies(h[..|h| - 1]) + (if g.Reply? && !g.fromBody then [g.message] else [])
  }

  function FirstMessage(env: Env, events: seq<Event>): seq<Message>
    requires events != []
  {
    var m := if events[0].kind == MESSAGE then env.decode(events[0].data) else None;
    if m.None? || m.value.isEmpty then [] else [m.value]
  }

  /** The JSON objects carried by events of type `message`. */
  function Messages(env: Env, events: seq<Event>): seq<Message> {
    if events == [] then [] else FirstMessage(env, events) + Messages(env, events[1..])
  }

  lemma {:induction false} MessagesConcat(env: Env, a: seq<Event>, b: seq<Event>)
    ensures Messages(env, a + b) == Messages(env, a) + Messages(env, b)
    decreases |a|
  {
    hide *;
    MessagesStep(env, a);
    MessagesStep(env, a + b);
    if a == [] {
      assert a + b == b;
    } else {
      MessagesConcat(env, a[1..], b);
      assert (a + b)[1..] == a[1..] + b;
      Assoc(FirstMessage(env, a), Messages(env, a[1..]), Messages(env, b));
    }
  }

  lemma MessagesStep(env: Env, events: seq<Event>)
    ensures Messages(env, events) == if events == [] then [] else FirstMessage(env, events) + Messages(env, events[1..])
    ensures events != [] ==> forall more :: FirstMessage(env, events + more) == FirstMessage(env, events)
  {
  }

  lemma ReadingSnoc(h: seq<Signal>, g: Signal)
    ensures StreamReplies(h + [g]) == StreamReplies(h) + (if g.Reply? && !g.fromBody then [g.message] else [])
    ensures EventsRead(h + [g])
         == EventsRead(h) + (if g.Arrived? then ReadChunk(LIMIT, ReaderOf(h), g.chunk).1 else [])
  {
    assert (h + [g])[..|h|] == h;
  }

  /** Nothing was read or handed on for `x` between the two traces. */
  ghost predicate SameReading(t: seq<Signal>, u: seq<Signal>, x: nat) {
    && StreamReplies(History(u, x)) == StreamReplies(History(t, x))
    && EventsRead(History(u, x)) == EventsRead(History(t, x))
  }

  lemma {:induction false} QuietReading(t: seq<Signal>, u: seq<Signal>, x: nat)
    requires Quiet(t, u)
    ensures SameReading(t, u, x)
    decreases |u|
  {
    if |u| == |t| {
      assert u == t;
    } else {
      var v, g := u[..|u| - 1], u[|u| - 1];
      assert u == v + [g] && !IsStreamed(u[|u| - 1]);
      QuietReading(t, v, x);
      HistorySnoc(v, g, x);
      ReadingSnoc(History(v, x), g);
    }
  }

  /** What exchange `x` has handed on, against what it has read. */
  ghost predicate Told(env: Env, s: State, x: nat)
    requires x in s.records
  {
    var h := History(s.trace, x);
    var told, all := StreamReplies(h), Messages(env, EventsRead(h));
    told <= all && (!s.records[x].done ==> told == all)
  }

  // ---- one chunk --------------------------------------------------------------------------

  lemma ReceiveTells(s: State, x: nat, reply: Message, y: nat)
    requires x in s.records
    ensures var r := Receive(s, x, reply, false);
            && EventsRead(History(r.trace, y)) == EventsRead(History(s.trace, y))
            && StreamReplies(History(r.trace, y))
               == StreamReplies(History(s.trace, y)) + (if y == x then [reply] else [])
  {
    hide *;
    var s2, answering := Receiving(s, x, reply), Answers(reply, s.records[x].message);
    var g := Reply(x, reply, answering, false);
    ReceivingThenEmit(s, x, reply, false);
    ReceivingQuiet(s, x, reply);
    QuietReading(s.trace, s2.trace, y);
    HistorySnoc(s2.trace, g, y);
    ReadingSnoc(History(s2.trace, y), g);
    QuietReading(s2.trace + [g], Emit(s2, g).trace, y);
    ReceiveTellsSum(s, s2, g, Emit(s2, g), y);
  }

  lemma ReceivingQuiet(s: State, x: nat, reply: Message)
    requires x in s.records
    ensures Quiet(s.trace, Receiving(s, x, reply).trace)
  {
  }

  lemma ReceiveTellsSum(s: State, s2: State, g: Signal, r: State, y: nat)
    requires g.Reply? && !g.fromBody && About(g) == Some(g.x)
    requires SameReading(s.trace, s2.trace, y) && SameReading(s2.trace + [g], r.trace, y)
    requires History(s2.trace + [g], y)
          == if About(g) == Some(y) then History(s2.trace, y) + [g] else History(s2.trace, y)
    requires StreamReplies(History(s2.trace, y) + [g]) == StreamReplies(History(s2.trace, y)) + [g.message]
    requires EventsRead(History(s2.trace, y) + [g]) == EventsRead(History(s2.trace, y)) + []
    ensures EventsRead(History(r.trace, y)) == EventsRead(History(s.trace, y))
    ensures StreamReplies(History(r.trace, y))
         == StreamReplies(History(s.trace, y)) + (if y == g.x then [g.message] else [])
  {
    hide History, StreamReplies, EventsRead;
  }

  /** The loop over the events: a prefix of their messages, and all of them while `x` is open. */
  lemma {:induction false} ReceiveEventsTell(env: Env, s: State, x: nat, events: seq<Event>, y: nat)
    returns (told: seq<Message>)
    requires Inv(s, {}, {}) && x in s.records
    requires !s.records[x].done ==> IsSuccess(s.records[x].response) && s.records[x].stream.Some?
    ensures var r := ReceiveEvents(env, s, x, events);
            && EventsRead(History(r.trace, y)) == EventsRead(History(s.trace, y))
            && StreamReplies(History(r.trace, y)) == StreamReplies(History(s.trace, y)) + (if y == x then told else [])
            && told <= Messages(env, events)
            && x in r.records && (!r.records[x].done ==> told == Messages(env, events))
    decreases |events|
  {
    hide *;
    told := [];
    if events == [] || s.records[x].done {
      NothingReceived(env, s, x, events);
      MessagesOf(env, events);
    } else {
      MessagesOf(env, events);
      var s1, first := EventTells(env, s, x, events, y);
      var rest := ReceiveEventsTell(env, s1, x, events[1..], y);
      told := first + rest;
      Assoc(StreamReplies(History(s.trace, y)), first, rest);
    }
  }

  lemma Assoc<T>(a: seq<T>, b: seq<T>, c: seq<T>)
    ensures (a + b) + c == a + (b + c)
  {
  }

  lemma MessagesOf(env: Env, events: seq<Event>)
    ensures Messages(env, []) == []
    ensures events != [] ==>
              Messages(env, events)
              == (var m := if events[0].kind == MESSAGE then env.decode(events[0].data) else None;
                  (if m.None? || m.value.isEmpty then [] else [m.value]) + Messages(env, events[1..]))
  {
  }

  lemma EventTells(env: Env, s: State, x: nat, events: seq<Event>, y: nat) returns (s1: State, first: seq<Message>)
    requires Inv(s, {}, {}) && x in s.records && events != [] && !s.records[x].done
    requires IsSuccess(s.records[x].response) && s.records[x].stream.Some?
    ensures ReceiveEvents(env, s, x, events) == ReceiveEvents(env, s1, x, events[1..])
    ensures Inv(s1, {}, {}) && x in s1.records
    ensures !s1.records[x].done ==> IsSuccess(s1.records[x].response) && s1.records[x].stream.Some?
    ensures var m := if events[0].kind == MESSAGE then env.decode(events[0].data) else None;
            first == if m.None? || m.value.isEmpty then [] else [m.value]
    ensures EventsRead(History(s1.trace, y)) == EventsRead(History(s.trace, y))
    ensures StreamReplies(History(s1.trace, y)) == StreamReplies(History(s.trace, y)) + (if y == x then first else [])
  {
    hide Inv, Receive, Unended, History, Answers, Keeps, EventsRead, StreamReplies;
    var reply := if events[0].kind == MESSAGE then env.decode(events[0].data) else None;
    UnendedWhileOpen(s, x);
    if reply.None? || reply.value.isEmpty {
      s1, first := s, [];
    } else {
      s1, first := Receive(s, x, reply.value, false), [reply.value];
      ReceiveOk(s, x, reply.value, false, {});
      ReceiveTells(s, x, reply.value, y);
    }
  }

  /** A chunk reaches `x`: the other exchanges are not concerned, and `x` hands on what it read. */
  lemma ChunkTells(env: Env, s: State, x: nat, chunk: Bytes, y: nat)
    requires Inv(s, {}, {}) && x in s.records && !s.records[x].done && s.records[x].stream.Some?
    requires Told(env, s, x)
    ensures var r := OnChunk(env, s, x, chunk);
            && (y != x ==> SameReading(s.trace, r.trace, y))
            && x in r.records && Told(env, r, x)
  {
    if !IsEventStream(s.records[x].response) {
      hide History, EventsRead, StreamReplies, Messages;
    } else {
      StreamChunkTells(env, s, x, chunk, y);
    }
  }

  lemma StreamChunkTells(env: Env, s: State, x: nat, chunk: Bytes, y: nat)
    requires Inv(s, {}, {}) && x in s.records && !s.records[x].done && s.records[x].stream.Some?
    requires IsEventStream(s.records[x].response) && Told(env, s, x)
    ensures var r := OnChunk(env, s, x, chunk);
            && (y != x ==> SameReading(s.trace, r.trace, y))
            && x in r.records && Told(env, r, x)
  {
    hide Inv, Keeps, History, EventsRead, StreamReplies, Messages, ReadChunk, ReceiveEvents, OnChunk, ReaderOf;
    var g, h := Arrived(x, chunk), History(s.trace, x);
    var events := ReadChunk(LIMIT, s.records[x].reader, chunk).1;
    var s1 := ChunkTaken(s, x, chunk);
    ChunkTakenOk(s, x, chunk);
    ReaderIsRead(s, x);
    ReadingSnoc(h, g);
    HistorySnoc(s.trace, g, y);
    MessagesConcat(env, EventsRead(h), events);
    var told := ReceiveEventsTell(env, s1, x, events, x);
    var toldY := ReceiveEventsTell(env, s1, x, events, y);
    OnChunkTrace(env, s, x, chunk);
    assert s1.trace == s.trace + [g];
  }

  lemma ReaderIsRead(s: State, x: nat)
    requires Inv(s, {}, {}) && x in s.records
    ensures s.records[x].reader == ReaderOf(History(s.trace, x))
    ensures ResumesKnown(History(s.trace, x))
  {
    assert Ok(s, x, {}, {});
  }

  lemma OnChunkTrace(env: Env, s: State, x: nat, chunk: Bytes)
    requires x in s.records && IsEventStream(s.records[x].response)
    ensures var events := ReadChunk(LIMIT, s.records[x].reader, chunk).1;
            var s2 := ReceiveEvents(env, ChunkTaken(s, x, chunk), x, events);
            var r := OnChunk(env, s, x, chunk);
            && r.trace == s2.trace
            && (x in s2.records ==> x in r.records && (s2.records[x].done ==> r.records[x].done)
                                    && (!r.records[x].done ==> !s2.records[x].done))
  {
    hide ReadChunk, ReceiveEvents, TakeChunk;
  }

  // ---- every input --------------------------------------------------------------------------

  /** Only a chunk on the stream of an exchange is read. */
  predicate IsRead(s: State, input: Input) {
    input.Chunk? && input.stream in s.slots && s.slots[input.stream].ForExchange?
  }

  lemma StepQuiet(env: Env, s: State, input: Input)
    requires !IsRead(s, input)
    ensures Quiet(s.trace, Step(env, s, input).trace)
  {
    hide Do, OnListenHeaders, OnListenChunk, OnChunk, OnListenEnded, OnFinished, OnError, OnDestroyed,
      OnResumeTimeout, OpenListenStream;
  }

  lemma StepTells(env: Env, s: State, input: Input)
    requires Inv(s, {}, {}) && forall x :: x in s.records ==> Told(env, s, x)
    ensures var r := Step(env, s, input); forall x :: x in r.records ==> Told(env, r, x)
  {
    var r := Step(env, s, input);
    StepOk(env, s, input);
    hide Step, Messages, EventsRead, StreamReplies, History, Told, Consistent, Ended;
    forall y | y in r.records ensures Told(env, r, y) {
      if IsRead(s, input) {
        SlotTarget(s, input.stream);
        var x := s.slots[input.stream].x;
        ChunkTells(env, s, x, input.bytes, y);
        ChunkStep(env, s, input);
      } else {
        StepQuiet(env, s, input);
        QuietReading(s.trace, r.trace, y);
      }
      if !IsRead(s, input) || y != s.slots[input.stream].x {
        if y in s.records {
          StaysTold(env, s, r, y, Target(s, input));
        } else {
          NewIsTold(env, s, r, y);
        }
      }
    }
  }

  lemma ChunkStep(env: Env, s: State, input: Input)
    requires IsRead(s, input) && s.slots[input.stream].x in s.records
    ensures Step(env, s, input) == OnChunk(env, s, s.slots[input.stream].x, input.bytes)
  {
    hide OnChunk;
  }

  lemma StaysTold(env: Env, s: State, r: State, y: nat, busy: set<nat>)
    requires y in s.records && y in r.records && Told(env, s, y) && SameReading(s.trace, r.trace, y)
    requires s.records[y].done ==> r.records[y].done
    ensures Told(env, r, y)
  {
    hide Messages, EventsRead, StreamReplies, History;
  }

  lemma NewIsTold(env: Env, s: State, r: State, y: nat)
    requires y in r.records && History(s.trace, y) == [] && SameReading(s.trace, r.trace, y)
    ensures Told(env, r, y)
  {
    assert StreamReplies([]) == [] && EventsRead([]) == [];
    hide History;
  }

  lemma {:induction false} RunTells(env: Env, s: State, inputs: seq<Input>)
    requires Inv(s, {}, {}) && forall x :: x in s.records ==> Told(env, s, x)
    ensures var r := Run(env, s, inputs);
            Inv(r, {}, {}) && forall x :: x in r.records ==> Told(env, r, x)
    decreases |inputs|
  {
    hide Inv, Step, Told;
    if inputs != [] {
      StepOk(env, s, inputs[0]);
      StepTells(env, s, inputs[0]);
      RunTells(env, Step(env, s, inputs[0]), inputs[1..]);
    }
  }

  // ---- against the server's log ---------------------------------------------------------------

  /** The chunks of a history, connection by connection. */
  function Connections(h: seq<Signal>): (cs: seq<seq<Bytes>>)
    ensures cs != []
    decreases |h|
  {
    if h == [] then [[]]
    else
      var cs, g := Connections(h[..|h| - 1]), h[|h| - 1];
      match g
      case Arrived(_, chunk) => cs[..|cs| - 1] + [cs[|cs| - 1] + [chunk]]
      case Reconnected(_) => cs + [[]]
      case _ => cs
  }

  function ReadTrail(cs: seq<seq<Bytes>>): (Reader, seq<Event>)
    requires cs != []
  {
    var (r, first) := ReadAll(LIMIT, FreshReader, cs[0]);
    var (r', more) := ReadConnections(LIMIT, r, cs[1..]);
    (r', first + more)
  }

  /** The first connection carries a prefix of the log, every later one of what follows its cursor. */
  predicate ServedFrom(log: seq<Entry>, cs: seq<seq<Bytes>>)
    requires cs != []
    decreases |cs|
  {
    if |cs| == 1 then Concat(cs[0]) <= Stream(log)
    else
      && ServedFrom(log, cs[..|cs| - 1])
      && Concat(cs[|cs| - 1]) <= Stream(Replay(log, ReadTrail(cs[..|cs| - 1]).0.cursor))
  }

  lemma {:induction false} ReadAllSnoc(r: Reader, chunks: seq<Bytes>, c: Bytes)
    ensures var (r1, e1) := ReadAll(LIMIT, r, chunks);
            var (r2, e2) := ReadChunk(LIMIT, r1, c);
            ReadAll(LIMIT, r, chunks + [c]) == (r2, e1 + e2)
    decreases |chunks|
  {
    hide ReadChunk;
    if chunks == [] {
      var e := ReadChunk(LIMIT, r, c).1;
      assert chunks + [c] == [c] && [c][1..] == [] && e + [] == e == [] + e;
    } else {
      var (r0, e0) := ReadChunk(LIMIT, r, chunks[0]);
      var (r1, e1) := ReadAll(LIMIT, r0, chunks[1..]);
      Assoc(e0, e1, ReadChunk(LIMIT, r1, c).1);
      ReadAllSnoc(r0, chunks[1..], c);
      assert (chunks + [c])[1..] == chunks[1..] + [c];
    }
  }

  lemma {:induction false} ReadConnectionsSnoc(r: Reader, cs: seq<seq<Bytes>>, last: seq<Bytes>)
    ensures var (r1, e1) := ReadConnections(LIMIT, r, cs);
            var (r2, e2) := ReadAll(LIMIT, Resume(r1), last);
            ReadConnections(LIMIT, r, cs + [last]) == (r2, e1 + e2)
    decreases |cs|
  {
    hide ReadAll;
    if cs == [] {
      var e := ReadAll(LIMIT, Resume(r), last).1;
      assert cs + [last] == [last] && [last][1..] == [] && e + [] == e == [] + e;
    } else {
      var (r0, e0) := ReadAll(LIMIT, Resume(r), cs[0]);
      var (r1, e1) := ReadConnections(LIMIT, r0, cs[1..]);
      Assoc(e0, e1, ReadAll(LIMIT, Resume(r1), last).1);
      ReadConnectionsSnoc(r0, cs[1..], last);
      assert (cs + [last])[1..] == cs[1..] + [last];
    }
  }

  lemma {:induction false} TrailSnoc(cs: seq<seq<Bytes>>, last: seq<Bytes>)
    requires cs != []
    ensures var (r1, e1) := ReadTrail(cs);
            var (r2, e2) := ReadAll(LIMIT, Resume(r1), last);
            ReadTrail(cs + [last]) == (r2, e1 + e2)
  {
    hide ReadAll, ReadConnections;
    assert (cs + [last])[1..] == cs[1..] + [last];
    var (r0, e0) := ReadAll(LIMIT, FreshReader, cs[0]);
    var (r1, e1) := ReadConnections(LIMIT, r0, cs[1..]);
    Assoc(e0, e1, ReadAll(LIMIT, Resume(r1), last).1);
    ReadConnectionsSnoc(r0, cs[1..], last);
  }

  lemma TrailOne(chunks: seq<Bytes>)
    ensures ReadTrail([chunks]) == ReadAll(LIMIT, FreshReader, chunks)
  {
    hide ReadAll;
    var r := ReadAll(LIMIT, FreshReader, chunks);
    assert r.1 + [] == r.1;
  }

  lemma {:induction false} TrailChunk(cs: seq<seq<Bytes>>, c: Bytes)
    requires cs != []
    ensures var (r1, e1) := ReadTrail(cs);
            var (r2, e2) := ReadChunk(LIMIT, r1, c);
            ReadTrail(cs[..|cs| - 1] + [cs[|cs| - 1] + [c]]) == (r2, e1 + e2)
  {
    hide ReadAll, ReadConnections, ReadChunk, ReadTrail;
    var front, last := cs[..|cs| - 1], cs[|cs| - 1];
    if front == [] {
      assert cs == [last] && front + [last + [c]] == [last + [c]];
      TrailOne(last);
      TrailOne(last + [c]);
      ReadAllSnoc(FreshReader, last, c);
    } else {
      assert cs == front + [last];
      TrailSnoc(front, last);
      TrailSnoc(front, last + [c]);
      var (r0, e0) := ReadTrail(front);
      var (r1, e1) := ReadAll(LIMIT, Resume(r0), last);
      Assoc(e0, e1, ReadChunk(LIMIT, r1, c).1);
      ReadAllSnoc(Resume(r0), last, c);
    }
  }

  /** Reading the connections of a history is what its exchange did. */
  lemma {:induction false} HistoryIsTrail(h: seq<Signal>)
    ensures ReadTrail(Connections(h)) == (ReaderOf(h), EventsRead(h))
    decreases |h|
  {
    hide ReadAll, ReadConnections, ReadChunk, ReadTrail;
    if h == [] {
      TrailOne([]);
      NothingRead();
    } else {
      var before, g := h[..|h| - 1], h[|h| - 1];
      HistoryIsTrail(before);
      match g
      case Arrived(_, chunk) => TrailChunk(Connections(before), chunk);
      case Reconnected(_) =>
        TrailSnoc(Connections(before), []);
        NothingReadAfter(Resume(ReaderOf(before)));
        assert EventsRead(before) + [] == EventsRead(before);
      case _ =>
        assert EventsRead(before) + [] == EventsRead(before);
    }
  }

  lemma NothingRead()
    ensures ReadAll(LIMIT, FreshReader, []) == (FreshReader, [])
  {
  }

  lemma NothingReadAfter(r: Reader)
    ensures ReadAll(LIMIT, r, []) == (r, [])
  {
  }

  /** The events of a trail served from a log. */
  lemma {:induction false} TrailReadsLog(log: seq<Entry>, cs: seq<seq<Bytes>>) returns (n: nat)
    requires ValidLog(LIMIT, log) && cs != [] && ServedFrom(log, cs)
    requires forall i :: 0 < i < |cs| ==> ReadTrail(cs[..i]).0.cursor != []
    ensures n <= |log|
    ensures var (r, events) := ReadTrail(cs);
            events == EventsOf(log[..n]) && r.cursor == IdAt(log, n, [])
    decreases |cs|
  {
    hide ReadAll, ReadConnections, ReadTrail, ValidLog, EventsOf, Stream, Replay;
    if |cs| == 1 {
      assert cs == [cs[0]];
      TrailOne(cs[0]);
      n := FirstReadsLog(log, cs[0]);
    } else {
      var front, last := cs[..|cs| - 1], cs[|cs| - 1];
      assert cs == front + [last];
      assert forall i :: 0 < i < |front| ==> front[..i] == cs[..i];
      var k := TrailReadsLog(log, front);
      TrailSnoc(front, last);
      n := NextReadsLog(log, ReadTrail(front).0, k, last);
    }
  }

  lemma FirstReadsLog(log: seq<Entry>, chunks: seq<Bytes>) returns (n: nat)
    requires ValidLog(LIMIT, log) && Concat(chunks) <= Stream(log)
    ensures n <= |log|
    ensures var (r, events) := ReadAll(LIMIT, FreshReader, chunks);
            events == EventsOf(log[..n]) && r.cursor == IdAt(log, n, [])
  {
    assert Resume(Reader(FreshReader.events, [])) == FreshReader;
    hide ReadAll, EventsOf, Stream, Renders;
    n := ReadConnection(LIMIT, log, [], chunks);
  }

  lemma NextReadsLog(log: seq<Entry>, r: Reader, k: nat, chunks: seq<Bytes>) returns (n: nat)
    requires ValidLog(LIMIT, log) && 0 <= k <= |log| && r.cursor == IdAt(log, k, []) && r.cursor != []
    requires Concat(chunks) <= Stream(Replay(log, r.cursor))
    ensures n <= |log|
    ensures var (r', events) := ReadAll(LIMIT, Resume(r), chunks);
            EventsOf(log[..k]) + events == EventsOf(log[..n]) && r'.cursor == IdAt(log, n, [])
  {
    hide ReadAll, EventsOf, Stream, Renders, Replay;
    var rest := log[k..];
    ReplayFollows(log, k);
    assert forall e :: e in rest ==> e in log;
    assert Resume(r) == Resume(Reader(FreshReader.events, r.cursor));
    var m := ReadConnection(LIMIT, rest, r.cursor, chunks);
    n := k + m;
    assert m > 0 ==> rest[m - 1] == log[n - 1];
    assert log[..n] == log[..k] + rest[..m];
    EventsConcat(log[..k], rest[..m]);
  }

  lemma {:induction false} CursorsKnown(h: seq<Signal>, i: nat)
    requires ResumesKnown(h) && 0 < i < |Connections(h)|
    ensures ReadTrail(Connections(h)[..i]).0.cursor != []
    decreases |h|
  {
    hide ReadAll, ReadConnections, ReadChunk, ReadTrail, ReaderOf;
    if h != [] {
      var before, g := h[..|h| - 1], h[|h| - 1];
      var cs := Connections(before);
      if g.Reconnected? && i == |cs| {
        assert (cs + [[]])[..i] == cs;
        HistoryIsTrail(before);
      } else {
        assert Connections(h)[..i] == cs[..i];
        CursorsKnown(before, i);
      }
    }
  }

  /**
   After any run: if the server served the connections of exchange `x` from its log, the events
   read over all of them are a prefix of the log, and the replies handed to the application are
   the messages of that prefix, in order; all of them unless the exchange ended on the way.
   */
  lemma RepliesFollowTheLog(env: Env, outcomes: seq<bool>, script: seq<seq<Call>>, inputs: seq<Input>,
                            x: nat, log: seq<Entry>) returns (n: nat)
    requires x in Run(env, Initial(outcomes, script), inputs).records
    requires ValidLog(LIMIT, log)
    requires ServedFrom(log, Connections(History(Run(env, Initial(outcomes, script), inputs).trace, x)))
    ensures n <= |log|
    ensures var s := Run(env, Initial(outcomes, script), inputs);
            var h := History(s.trace, x);
            && EventsRead(h) == EventsOf(log[..n])
            && StreamReplies(h) <= Messages(env, EventsOf(log[..n]))
            && (x in s.table ==> StreamReplies(h) == Messages(env, EventsOf(log[..n])))
            && s.records[x].reader.cursor == IdAt(log, n, [])
  {
    hide ValidLog, ServedFrom, Connections, EventsRead, StreamReplies, Messages, EventsOf, Step, Told;
    InitialOk(outcomes, script);
    RunTells(env, Initial(outcomes, script), inputs);
    var s := Run(env, Initial(outcomes, script), inputs);
    hide Run, Initial;
    var h := History(s.trace, x);
    ReaderIsRead(s, x);
    ListedMeansOpen(s, x);
    hide Inv, History;
    HistoryIsTrail(h);
    forall i | 0 < i < |Connections(h)| ensures ReadTrail(Connections(h)[..i]).0.cursor != [] {
      CursorsKnown(h, i);
    }
    n := TrailReadsLog(log, Connections(h));
    ToldUnfolds(env, s, x);
  }

  lemma ListedMeansOpen(s: State, x: nat)
    requires Inv(s, {}, {}) && x in s.records
    ensures x in s.table <==> !s.records[x].done
  {
    assert Ok(s, x, {}, {});
  }

  lemma ToldUnfolds(env: Env, s: State, x: nat)
    requires x in s.records && Told(env, s, x)
    ensures var h := History(s.trace, x);
            && StreamReplies(h) <= Messages(env, EventsRead(h))
            && (!s.records[x].done ==> StreamReplies(h) == Messages(env, EventsRead(h)))
  {
  }
}
