/**
 When the listen stream is lost until the next answer to `initialize`: the transport is started
 with a protocol version still set. The trace shows exactly when that happens.
 */
module McpRestarts {
  import opened ByteStrings
  import opened Options
  import opened Sse
  import opened SseResume
  import opened McpTransport
  import opened McpExchanges
  import opened McpListen

  // ---- when a version survives --------------------------------------------------------------

  /** The version was set at `i`, on a closed transport, and lasted until that was started at `j`. */
  ghost predicate Survives(t: seq<Signal>, i: nat, j: nat)
    requires i < j < |t|
  {
    && t[i].Negotiated? && !t[i].open && t[j].Started?
    && forall k :: i < k < j ==> !t[k].Negotiated? && !t[k].ListeningStopped? && !t[k].Started?
  }

  /** `Survives` before the start. */
  ghost predicate Lasts(t: seq<Signal>, i: nat)
    requires i < |t|
  {
    && t[i].Negotiated? && !t[i].open
    && forall k :: i < k < |t| ==> !t[k].Negotiated? && !t[k].ListeningStopped? && !t[k].Started?
  }

  lemma {:induction false} DeafMeans(t: seq<Signal>)
    ensures SummaryOf(t).deaf <==> exists i :: 0 <= i < |t| && Lasts(t, i)
    decreases |t|
  {
    hide SummaryOf;
    if t == [] {
      assert !SummaryOf([]).deaf by { EmptySummary(); }
    } else {
      var u, g := t[..|t| - 1], t[|t| - 1];
      assert t == u + [g];
      Noted(u, g);
      DeafMeans(u);
      forall i | 0 <= i < |u|
        ensures Lasts(t, i) <==> Lasts(u, i) && !g.Negotiated? && !g.ListeningStopped? && !g.Started?
      {
        assert forall k :: 0 <= k < |u| ==> u[k] == t[k];
        assert t[|u|] == g;
      }
      assert Lasts(t, |u|) <==> g.Negotiated? && !g.open;
    }
  }

  /** The transport was started at `j` with a version still set, and nothing was connected, armed or stopped since. */
  ghost predicate Loses(t: seq<Signal>, j: nat)
    requires j < |t|
  {
    && t[j] == Started(true)
    && forall k :: j < k < |t| ==> !t[k].Started? && !t[k].ListenConnected? && !t[k].RetryArmed? && !t[k].ListeningStopped?
  }

  lemma {:induction false} LostMeans(t: seq<Signal>)
    ensures SummaryOf(t).lost <==> exists j :: 0 <= j < |t| && Loses(t, j)
    decreases |t|
  {
    hide SummaryOf;
    if t == [] {
      assert !SummaryOf([]).lost by { EmptySummary(); }
    } else {
      var u, g := t[..|t| - 1], t[|t| - 1];
      assert t == u + [g];
      Noted(u, g);
      LostMeans(u);
      forall j | 0 <= j < |u|
        ensures Loses(t, j) <==>
                (Loses(u, j) && !g.Started? && !g.ListenConnected? && !g.RetryArmed? && !g.ListeningStopped?)
      {
        assert forall k :: 0 <= k < |u| ==> u[k] == t[k];
        assert t[|u|] == g;
      }
      assert Loses(t, |u|) <==> g == Started(true);
    }
  }

  lemma EmptySummary()
    ensures !SummaryOf([]).deaf && !SummaryOf([]).lost
  {
  }

  /**
   In every run: a start finds a protocol version if and only if the answer to an `initialize` came
   while the transport was closed, and until that start nothing was negotiated, stopped or started.
   Such an `initialize` was posted on a closed transport, though `send` posts on open ones only: the
   transport was open when another request failed, and it was stopped after that.
   */
  lemma StartedDeaf(env: Env, outcomes: seq<bool>, script: seq<seq<Call>>, inputs: seq<Input>)
    ensures var t := Run(env, Initial(outcomes, script), inputs).trace;
            && (Started(true) in t <==> exists i, j :: 0 <= i < j < |t| && Survives(t, i, j))
            && (forall i :: 0 <= i < |t| && t[i].Negotiated? && !t[i].open ==> Posted(t[i].x, false) in t[..i])
            && (forall i :: 0 <= i < |t| && t[i].Posted? && !t[i].open ==> StoppedInSend(t[..i]))
  {
    Reached(env, outcomes, script, inputs);
    hide Run, Initial, SummaryOf, Listening, SlotsOk, Accounted, StoppedInSend, TraceOk;
    var t := Run(env, Initial(outcomes, script), inputs).trace;
    DeafStarts(t);
    SurvivesMeans(t);
    PostedWhileClosed(t);
  }

  lemma DeafStarts(t: seq<Signal>)
    requires TraceOk(t)
    ensures Started(true) in t <==> exists j :: 0 <= j < |t| && t[j].Started? && SummaryOf(t[..j]).deaf
  {
    hide SummaryOf, StoppedInSend;
    if Started(true) in t {
      var j :| 0 <= j < |t| && t[j] == Started(true);
      assert NextOk(t[..j], t[j]);
    }
    if j :| 0 <= j < |t| && t[j].Started? && SummaryOf(t[..j]).deaf {
      assert NextOk(t[..j], t[j]);
      assert t[j] == Started(true);
    }
  }

  lemma PostedWhileClosed(t: seq<Signal>)
    requires TraceOk(t)
    ensures forall i :: 0 <= i < |t| && t[i].Negotiated? && !t[i].open ==> Posted(t[i].x, false) in t[..i]
    ensures forall i :: 0 <= i < |t| && t[i].Posted? && !t[i].open ==> StoppedInSend(t[..i])
  {
    hide SummaryOf, StoppedInSend;
    assert forall i :: 0 <= i < |t| ==> NextOk(t[..i], t[i]);
  }

  lemma SurvivesMeans(t: seq<Signal>)
    ensures (exists j :: 0 <= j < |t| && t[j].Started? && SummaryOf(t[..j]).deaf)
       <==> exists i, j :: 0 <= i < j < |t| && Survives(t, i, j)
  {
    hide SummaryOf;
    forall i, j | 0 <= i < j < |t|
      ensures Survives(t, i, j) <==> t[j].Started? && Lasts(t[..j], i)
    {
      assert forall k :: 0 <= k < j ==> t[..j][k] == t[k];
    }
    forall j | 0 <= j < |t|
      ensures SummaryOf(t[..j]).deaf <==> exists i :: 0 <= i < j && Lasts(t[..j], i)
    {
      DeafMeans(t[..j]);
    }
    if i, j :| 0 <= i < j < |t| && Survives(t, i, j) {
      assert Lasts(t[..j], i);
    }
    if j :| 0 <= j < |t| && t[j].Started? && SummaryOf(t[..j]).deaf {
      var i :| 0 <= i < j && Lasts(t[..j], i);
      assert Survives(t, i, j);
    }
  }

  /**
   In every run: an open negotiated transport that was not refused for good has neither listen stream
   nor armed retry if and only if the last start found a version still set, and nothing was connected,
   armed or stopped since.
   */
  lemma LostExactly(env: Env, outcomes: seq<bool>, script: seq<seq<Call>>, inputs: seq<Input>)
    ensures var s := Run(env, Initial(outcomes, script), inputs);
            !Listening(s) <==> s.http && s.listen.retryTimer.None? && exists j :: 0 <= j < |s.trace| && Loses(s.trace, j)
  {
    ListenStreamIsKept(env, outcomes, script, inputs);
    hide Run, Initial, SummaryOf, Listening;
    LostMeans(Run(env, Initial(outcomes, script), inputs).trace);
  }

  /**
   In every run, what a start does to a closed transport: it keeps listening unless the protocol
   version was set while it was closed, and no retry is armed from before.
   */
  lemma StartKeepsListening(env: Env, outcomes: seq<bool>, script: seq<seq<Call>>, inputs: seq<Input>)
    requires !Run(env, Initial(outcomes, script), inputs).open
    ensures var s := Run(env, Initial(outcomes, script), inputs);
            Listening(Do(s, Start)) <==>
            (s.http && (exists i :: 0 <= i < |s.trace| && Lasts(s.trace, i)) ==> s.listen.retryTimer.Some?)
  {
    Reached(env, outcomes, script, inputs);
    hide Run, Initial, SummaryOf, SlotsOk, TraceOk, Undone, Backoff;
    DeafMeans(Run(env, Initial(outcomes, script), inputs).trace);
  }

  /**
   The version does survive: `initialize` abandons an earlier request, its `sendFailed` makes the
   application stop the transport, the post goes on all the same, and the answer sets the version
   of a closed transport. Started again, that transport has neither stream nor timer.
   */
  lemma StoppedDuringInitialize() returns (env: Env, inputs: seq<Input>)
    ensures !Listening(Run(env, Initial([true, true], [[Stop]]), inputs))
  {
    var earlier := Message(Some("tools/list"), TextId("1"), "", false, false);
    var initialize := Message(Some("initialize"), TextId("2"), "", false, false);
    var answer := Message(None, TextId("2"), "2025-03-26", false, false);
    env := Env(bytes => Some(answer));
    var posts := [Command(Start), Command(Send(earlier)), Command(Send(initialize))];
    var answered := [Headers(1, Head(200, false, true, "")), Chunk(1, [0x7b]), Finished(1, false), Command(Start)];
    inputs := posts + answered;
    var s0 := Initial([true, true], [[Stop]]);
    var s1 := PostedBoth(env, earlier, initialize);
    AnswersClosed(env, s1, answer);
    RunConcat(env, s0, posts, answered);
  }

  lemma {:induction false} RunConcat(env: Env, s: State, a: seq<Input>, b: seq<Input>)
    ensures Run(env, s, a + b) == Run(env, Run(env, s, a), b)
    decreases |a|
  {
    hide Step;
    if a == [] {
      assert a + b == b;
    } else {
      assert (a + b)[1..] == a[1..] + b;
      RunConcat(env, Step(env, s, a[0]), a[1..], b);
    }
  }

  lemma RunTwo(env: Env, s: State, a: Input, rest: seq<Input>)
    ensures Run(env, s, [a] + rest) == Run(env, Step(env, s, a), rest)
    ensures Run(env, s, []) == s
  {
    hide Step;
    assert ([a] + rest)[1..] == rest;
  }

  lemma PostedBoth(env: Env, earlier: Message, initialize: Message) returns (r: State)
    requires IsRequest(earlier) && !IsInitialize(earlier) && IsInitialize(initialize)
    ensures r == Run(env, Initial([true, true], [[Stop]]),
                     [Command(Start), Command(Send(earlier)), Command(Send(initialize))])
    ensures !r.open && r.http && r.listen == IdleListen && r.protocolVersion == "" && r.script == []
    ensures 1 in r.slots && r.slots[1] == ForExchange(1) && 1 !in r.headed
    ensures 1 in r.records && r.records[1].message == initialize && !r.records[1].done
    ensures r.records[1].response == NoResponse && !r.records[1].answered && r.records[1].reader == FreshReader
  {
    var a, b, c := Command(Start), Command(Send(earlier)), Command(Send(initialize));
    var s0 := Initial([true, true], [[Stop]]);
    assert [a, b, c] == [a] + [b, c] && [b, c] == [b] + [c] && [c] == [c] + [];
    RunTwo(env, s0, a, [b, c]);
    RunTwo(env, Step(env, s0, a), b, [c]);
    RunTwo(env, Step(env, Step(env, s0, a), b), c, []);
    hide Run;
    var s1 := s0.(open := true, trace := [Started(false)]);
    assert Step(env, s0, a) == s1;
    hide Initial;
    var s2 := PostedTo(env, s1, earlier, 0);
    var s3 := Superseded(s2, earlier);
    r := PostedAnew(env, s2, s3, initialize);
  }

  lemma PostedTo(env: Env, s: State, m: Message, x: nat) returns (r: State)
    requires s.open && s.http && !IsInitialize(m) && s.outcomes == [true, true]
    requires s.nextStream == 0 && |s.records| == 0
    ensures r == Step(env, s, Command(Send(m))) && r == Attach(AddExchange(OpenStream(s).0, m), 0, 0)
  {
    hide StartNewSession, Emit, AddExchange, Attach;
    r := Step(env, s, Command(Send(m)));
    assert Do(s, Send(m)) == Post(s, m);
  }

  lemma PostedAnew(env: Env, s: State, s1: State, m: Message) returns (r: State)
    requires s.open && s.http && IsInitialize(m) && s1 == StartNewSession(s) && s1.outcomes == [true]
    requires s1.nextStream == 1 && |s1.records| == 1 && s1.headed == {}
    ensures r == Step(env, s, Command(Send(m)))
    ensures r.open == s1.open && r.http == s1.http && r.listen == s1.listen
    ensures r.protocolVersion == s1.protocolVersion && r.script == s1.script
    ensures 1 in r.slots && r.slots[1] == ForExchange(1) && 1 !in r.headed
    ensures 1 in r.records && r.records[1].message == m && !r.records[1].done
    ensures r.records[1].response == NoResponse && !r.records[1].answered && r.records[1].reader == FreshReader
  {
    hide StartNewSession, Emit;
    r := Step(env, s, Command(Send(m)));
    assert Do(s, Send(m)) == Post(s, m);
  }

  lemma Superseded(s: State, earlier: Message) returns (r: State)
    requires s.open && s.http && s.listen == IdleListen && s.script == [[Stop]] && s.outcomes == [true]
    requires s.table == [0] && |s.records| == 1 && 0 in s.records && s.records[0].message == earlier
    requires IsRequest(earlier) && !s.records[0].answered && s.records[0].stream == Some(0)
    requires s.slots == map[0 := ForExchange(0)] && s.nextStream == 1 && s.headed == {}
    ensures r == StartNewSession(s) && |r.records| == 1 && r.records.Keys == s.records.Keys
    ensures !r.open && r.http && r.listen == IdleListen && r.protocolVersion == "" && r.script == []
    ensures r.slots == map[] && r.nextStream == 1 && r.headed == {} && r.outcomes == [true] && r.table == []
  {
    var s1 := AbandonExchanges(s);
    assert s1 == Drop(s.(table := []), 0) by {
      assert DropAll(Drop(s.(table := []), 0), []) == Drop(s.(table := []), 0);
      assert [0][1..] == [];
    }
    var s2 := Note(s1, SendFailed(0)).(script := []);
    var s3 := Stopped(s2);
    assert AbandonExchanges(s2.(open := false, sessionId := "", protocolVersion := ""))
        == s2.(open := false, sessionId := "", protocolVersion := "");
    assert s3 == s2.(open := false, sessionId := "", protocolVersion := "", listen := IdleListen,
                     trace := s2.trace + [ListeningStopped]);
    assert DoStop(s2) == Note(s3, Closed);
    assert RunCalls(s2, [Stop]) == Note(s3, Closed) by {
      assert [Stop][1..] == [];
      assert RunCalls(Note(s3, Closed), []) == Note(s3, Closed);
    }
    assert Emit(s1, SendFailed(0)) == Note(s3, Closed) by {
      assert [[Stop]][1..] == [];
    }
    assert FailSuperseded(s1, [0]) == Note(s3, Closed) by {
      assert [0][1..] == [];
    }
    r := StartNewSession(s);
    assert r.records.Keys == s.records.Keys;
  }

  lemma AnswersClosed(env: Env, s: State, answer: Message)
    requires !s.open && s.http && s.listen == IdleListen && s.script == []
    requires 1 in s.slots && s.slots[1] == ForExchange(1) && 1 !in s.headed
    requires 1 in s.records && IsInitialize(s.records[1].message) && !s.records[1].done
    requires s.records[1].response == NoResponse && !s.records[1].answered && s.records[1].reader == FreshReader
    requires env.decode([0x7b]) == Some(answer) && answer.version != "" && Answers(answer, s.records[1].message)
    ensures !Listening(Run(env, s, [Headers(1, Head(200, false, true, "")), Chunk(1, [0x7b]), Finished(1, false), Command(Start)]))
  {
    var a, b, c, d := Headers(1, Head(200, false, true, "")), Chunk(1, [0x7b]), Finished(1, false), Command(Start);
    RunFour(env, s, a, b, c, d);
    BodyRead(env, s);
    hide Run, Step;
    var s2 := Step(env, Step(env, s, a), b);
    BodyAnswers(env, s2, answer);
    StartsDeaf(env, Step(env, s2, c));
  }

  lemma RunFour(env: Env, s: State, a: Input, b: Input, c: Input, d: Input)
    ensures Run(env, s, [a, b, c, d]) == Step(env, Step(env, Step(env, Step(env, s, a), b), c), d)
  {
    hide Step;
    assert [a, b, c, d] == [a] + [b, c, d];
    assert [b, c, d] == [b] + [c, d];
    assert [c, d] == [c] + [d];
    assert [d] == [d] + [];
    RunTwo(env, s, a, [b, c, d]);
    RunTwo(env, Step(env, s, a), b, [c, d]);
    RunTwo(env, Step(env, Step(env, s, a), b), c, [d]);
    RunTwo(env, Step(env, Step(env, Step(env, s, a), b), c), d, []);
    hide Run;
  }

  lemma BodyRead(env: Env, s: State)
    requires 1 in s.slots && s.slots[1] == ForExchange(1) && 1 !in s.headed && 1 in s.records
    ensures var r := Step(env, Step(env, s, Headers(1, Head(200, false, true, ""))), Chunk(1, [0x7b]));
            && 1 in r.records && r.slots == s.slots && r.script == s.script && r.listen == s.listen
            && r.open == s.open && r.http == s.http
            && r.records[1] == s.records[1].(response := Response(200, false, true, [0x7b]))
  {
    hide Do, ReceiveEvents, ReadChunk, OnListenChunk, OnListenHeaders;
    assert [] + [0x7b] == [0x7b];
  }

  lemma BodyAnswers(env: Env, s: State, answer: Message)
    requires !s.open && s.listen == IdleListen && s.script == []
    requires 1 in s.slots && s.slots[1] == ForExchange(1)
    requires 1 in s.records && IsInitialize(s.records[1].message)
    requires s.records[1].response == Response(200, false, true, [0x7b])
    requires env.decode([0x7b]) == Some(answer) && answer.version != "" && Answers(answer, s.records[1].message)
    ensures var r := Step(env, s, Finished(1, false));
            !r.open && r.http == s.http && r.listen == IdleListen && r.protocolVersion == answer.version
  {
    hide Do, Remove, Answers, IsRequest, OnListenEnded, ScheduleResume;
    var released := Release(s, 1);
    assert OnFinished(env, s, 1) == FinishSuccess(env, released, 1);
    assert DeliverBody(env, released, 1) == Receive(released, 1, answer, true);
  }

  lemma StartsDeaf(env: Env, s: State)
    requires !s.open && s.http && s.listen == IdleListen && s.protocolVersion != ""
    ensures !Listening(Step(env, s, Command(Start)))
  {
    hide Emit;
  }
}
