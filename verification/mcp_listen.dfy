/**
 The listen stream: an open, negotiated transport that was not refused for good always has a live
 listen stream or an armed retry timer, never two streams, and its retries back off from 1 s to 30 s.

 What the trace notes about retries, versions and starts is folded into a summary, and the
 invariant ties the fields of the transport to it.
 */
module McpListen {
  import opened ByteStrings
  import opened Options
  import opened Sse
  import opened SseResume
  import opened McpTransport
  import opened McpExchanges

  // ---- what the trace tells ---------------------------------------------------------------

  /** The backoff after `k` failures in a row: 1, 2, 4, 8, 16 and then 30 seconds. */
  function Backoff(k: nat): nat {
    if k == 0 then INITIAL_BACKOFF_MS else Min(Backoff(k - 1) * 2, MAX_BACKOFF_MS)
  }

  /**
   The retries armed since the last listen message, the last stream that had lasted, or since
   listening was stopped; the last delay settled on and the last armed; whether the transport is
   open; whether the protocol version was set on a closed transport and nothing was started,
   stopped or negotiated since; and whether the last start found a version and nothing was connected,
   armed or stopped since.
   */
  datatype Summary =
    Summary(failures: nat, planned: Option<nat>, armed: Option<nat>, open: bool, deaf: bool, lost: bool)

  function Recount(m: Summary, g: Signal): Summary {
    match g
    case ListenMessage(_) => m.(failures := 0)
    case ListenSettled => m.(failures := 0)
    case ListeningStopped => m.(failures := 0, deaf := false, lost := false)
    case ListenConnected(_) => m.(lost := false)
    case RetryPlanned(delayMs, _) => m.(planned := Some(delayMs))
    case RetryArmed(delayMs) => m.(failures := m.failures + 1, armed := Some(delayMs), lost := false)
    case Negotiated(_, open) => m.(deaf := !open)
    case Started(negotiated) => m.(open := true, deaf := false, lost := negotiated)
    case Closed => m.(open := false)
    case _ => m
  }

  function SummaryOf(t: seq<Signal>): Summary {
    if t == [] then Summary(0, None, None, false, false, false) else Recount(SummaryOf(t[..|t| - 1]), t[|t| - 1])
  }

  /** A transport that was open when a request failed was stopped after that and not started again. */
  ghost predicate StoppedInSend(t: seq<Signal>) {
    exists h, k :: 0 <= h < k < |t| && t[h].SendFailed? && SummaryOf(t[..h]).open && StoppedAt(t, k)
  }

  ghost predicate StoppedAt(t: seq<Signal>, k: nat)
    requires k < |t|
  {
    t[k].Closed? && forall l :: k < l < |t| ==> !t[l].Started?
  }

  /** What holds of `g` when it follows `t`. */
  ghost predicate NextOk(t: seq<Signal>, g: Signal) {
    match g
    case RetryPlanned(delayMs, serverRetryMs) => delayMs == DelayMs(serverRetryMs, Backoff(SummaryOf(t).failures))
    case RetryArmed(delayMs) => SummaryOf(t).planned == Some(delayMs)
    case Started(negotiated) => negotiated <==> SummaryOf(t).deaf
    case Posted(_, open) => open == SummaryOf(t).open && (open || StoppedInSend(t))
    case Negotiated(x, open) => open == SummaryOf(t).open && (open || Posted(x, false) in t)
    case _ => true
  }

  ghost predicate TraceOk(t: seq<Signal>) { forall i :: 0 <= i < |t| ==> NextOk(t[..i], t[i]) }

  /** The notes that the summary or `NextOk` looks at. */
  predicate IsNews(g: Signal) {
    g.ListenMessage? || g.ListenSettled? || g.ListeningStopped? || g.RetryPlanned? || g.RetryArmed?
    || g.Posted? || g.Negotiated? || g.Started? || g.Closed? || g.ListenConnected?
  }

  ghost predicate NoNews(t: seq<Signal>, u: seq<Signal>) {
    t <= u && forall i :: |t| <= i < |u| ==> !IsNews(u[i])
  }

  lemma Noted(t: seq<Signal>, g: Signal)
    ensures SummaryOf(t + [g]) == Recount(SummaryOf(t), g)
    ensures TraceOk(t) && NextOk(t, g) ==> TraceOk(t + [g])
  {
    hide NextOk, Recount;
    var u := t + [g];
    assert u[..|u| - 1] == t && u[|t|] == g && u[..|t|] == t;
    assert forall i :: 0 <= i < |t| ==> u[..i] == t[..i] && u[i] == t[i];
  }

  lemma {:induction false} NothingNew(t: seq<Signal>, u: seq<Signal>)
    requires NoNews(t, u)
    ensures SummaryOf(u) == SummaryOf(t) && (TraceOk(t) ==> TraceOk(u))
    decreases |u|
  {
    hide SummaryOf, TraceOk;
    if |t| == |u| {
      assert t == u;
    } else {
      var v, g := u[..|u| - 1], u[|u| - 1];
      assert u == v + [g] && !IsNews(g);
      NothingNew(t, v);
      Noted(v, g);
    }
  }

  // ---- what is kept ---------------------------------------------------------------------

  ghost predicate Undone(s: State, x: nat) { x in s.records && !s.records[x].done }

  /** The timing of the retries and the protocol version are what the trace says. */
  ghost predicate Paced(s: State) {
    var m := SummaryOf(s.trace);
    && TraceOk(s.trace)
    && s.listen.backoffMs == Backoff(m.failures)
    && (s.listen.retryTimer.Some? ==> s.listen.retryTimer == m.armed)
    && m.open == s.open
    && (m.deaf <==> !s.open && s.protocolVersion != "")
    && (m.lost ==> s.open && s.protocolVersion != "" && s.listen.stream.None? && !s.listen.refused)
  }

  /** A closed transport has no listen stream, and no exchange but those posted while it was closed. */
  ghost predicate Accounted(s: State) {
    && (forall x :: Undone(s, x) ==> x in s.table)
    && (!s.open ==>
          && s.listen.stream.None? && !s.listen.refused
          && forall x :: Undone(s, x) ==> Posted(x, false) in s.trace)
  }

  ghost predicate Tidy(s: State) { Paced(s) && Accounted(s) }

  /** Messages the server starts can reach the application, now or after a retry. */
  ghost predicate Listening(s: State) {
    s.open && s.http && s.protocolVersion != "" && !s.listen.refused
    ==> s.listen.stream.Some? || s.listen.retryTimer.Some?
  }

  /** Listening, or known from the trace to have been lost. */
  ghost predicate Kept(s: State) { SummaryOf(s.trace).lost || Listening(s) }

  /** From `s` to `r`, the listen stream is not lost unnoticed. */
  ghost predicate KeepsListening(s: State, r: State) {
    && s.trace <= r.trace
    && (Tidy(s) ==> Tidy(r))
    && (Kept(s) ==> Kept(r))
  }

  /** The same when the listen stream may be lost in `s`. */
  ghost predicate Regains(s: State, r: State) {
    && s.trace <= r.trace
    && (Tidy(s) ==> Tidy(r))
    && Kept(r)
  }

  /** What handlers keep: they settle on no retry either. */
  ghost predicate Handled(s: State, r: State) {
    KeepsListening(s, r) && SummaryOf(r.trace).planned == SummaryOf(s.trace).planned
  }

  lemma Both(a: State, b: State, c: State)
    requires KeepsListening(b, c) && a.trace <= b.trace
    ensures KeepsListening(a, b) ==> KeepsListening(a, c)
    ensures Regains(a, b) ==> Regains(a, c)
    ensures Handled(a, b) && Handled(b, c) ==> Handled(a, c)
  {
    hide Tidy, Kept, SummaryOf;
  }

  lemma Joined(a: State, b: State, c: State)
    requires KeepsListening(a, b) && KeepsListening(b, c)
    ensures KeepsListening(a, c) && (Handled(a, b) && Handled(b, c) ==> Handled(a, c))
  {
    hide Tidy, Kept, SummaryOf;
    Both(a, b, c);
  }

  /** Nothing becomes undone, and what is stays in the list. */
  ghost predicate Fewer(s: State, r: State) {
    forall x :: Undone(r, x) ==> Undone(s, x) && (x in s.table ==> x in r.table)
  }

  lemma StillAccounted(s: State, r: State)
    requires Fewer(s, r) && s.trace <= r.trace
    requires r.open || (!s.open && r.listen.stream == s.listen.stream && r.listen.refused == s.listen.refused)
    ensures Accounted(s) ==> Accounted(r)
  {
    hide Undone;
  }

  lemma StillPaced(s: State, r: State)
    requires NoNews(s.trace, r.trace) && r.listen.backoffMs == s.listen.backoffMs
    requires r.listen.retryTimer == s.listen.retryTimer || r.listen.retryTimer.None?
    requires r.open == s.open && r.protocolVersion == s.protocolVersion
    requires r.listen.stream == s.listen.stream || r.listen.stream.None?
    requires r.listen.refused == s.listen.refused
    ensures Paced(s) ==> Paced(r)
    ensures SummaryOf(r.trace) == SummaryOf(s.trace)
  {
    hide TraceOk, SummaryOf, Backoff;
    NothingNew(s.trace, r.trace);
  }

  lemma Untouched(s: State, r: State)
    requires NoNews(s.trace, r.trace) && r.listen == s.listen && Fewer(s, r)
    requires r.open == s.open && r.http == s.http && r.protocolVersion == s.protocolVersion
    ensures KeepsListening(s, r) && Handled(s, r)
  {
    hide Fewer, Paced, Accounted, SummaryOf;
    StillPaced(s, r);
    StillAccounted(s, r);
  }

  /** A state with the same trace and exchanges as another, but perhaps other streams and listen fields. */
  lemma Edited(s: State, r: State)
    requires r.trace == s.trace && r.open == s.open && r.protocolVersion == s.protocolVersion
    requires r.records == s.records && r.table == s.table
    requires r.listen.retryTimer == s.listen.retryTimer || r.listen.retryTimer.None?
    requires r.listen.refused == s.listen.refused && r.listen.backoffMs == s.listen.backoffMs
    requires r.listen.stream == s.listen.stream || r.listen.stream.None?
    ensures Tidy(s) ==> Tidy(r)
  {
    hide Paced;
    StillPaced(s, r);
  }

  lemma SameListening(s: State, r: State)
    requires r.open == s.open && r.http == s.http && r.protocolVersion == s.protocolVersion
    requires r.listen.stream == s.listen.stream && r.listen.retryTimer == s.listen.retryTimer
    requires r.listen.refused == s.listen.refused
    ensures Listening(s) ==> Listening(r)
  {
  }

  // ---- dropped exchanges --------------------------------------------------------------------

  lemma {:induction false} RemoveOne(table: seq<nat>, x: nat)
    ensures forall y :: y in table && y != x ==> y in Remove(table, x)
  {
    if table != [] && table[0] != x {
      RemoveOne(table[1..], x);
    }
  }

  lemma ReleaseFewer(s: State, x: nat)
    requires x in s.records
    ensures Fewer(s, Release(s, x))
  {
    hide Remove;
    RemoveOne(s.table, x);
  }

  lemma ReleaseListens(s: State, x: nat)
    requires x in s.records
    ensures Handled(s, Release(s, x)) && KeepsListening(s, Release(s, x))
  {
    hide Remove, Fewer, Handled, KeepsListening;
    ReleaseFewer(s, x);
    Untouched(s, Release(s, x));
  }

  lemma AbandonFewer(s: State)
    requires forall x :: Undone(s, x) ==> x in s.table
    ensures forall x :: !Undone(AbandonExchanges(s), x)
  {
    hide DropAll;
    DropAllEffect(s.(table := []), s.table);
  }

  lemma AbandonListens(s: State)
    ensures Handled(s, AbandonExchanges(s)) && KeepsListening(s, AbandonExchanges(s))
  {
    hide Paced, SummaryOf, DropAll, AbandonExchanges;
    var r := AbandonExchanges(s);
    AbandonSame(s);
    StillPaced(s, r);
    if Tidy(s) {
      AbandonFewer(s);
      assert Accounted(r) by { hide Undone; }
    }
    assert Listening(s) ==> Listening(r);
  }

  lemma AbandonSame(s: State)
    ensures AbandonExchanges(s) == s.(table := [], records := AbandonExchanges(s).records, slots := AbandonExchanges(s).slots)
  {
    hide DropAll;
  }

  // ---- notes ----------------------------------------------------------------------------------

  /** Listening starts afresh: nothing of the listen stream is left, nor a protocol version. */
  lemma StoppingListens(s: State, t: seq<Signal>, r: State)
    requires NoNews(s.trace, t) && r.trace == t + [ListeningStopped] && r.open == s.open
    requires r.listen == IdleListen && r.protocolVersion == ""
    requires Accounted(s) ==> Accounted(r)
    ensures KeepsListening(s, r) && Regains(s, r) && Handled(s, r)
  {
    hide Accounted, TraceOk, SummaryOf;
    NothingNew(s.trace, t);
    Noted(t, ListeningStopped);
  }

  /** The same for a transport that is closed with it. */
  lemma ClosingListens(s: State, t: seq<Signal>, r: State)
    requires NoNews(s.trace, t) && r.trace == t + [ListeningStopped] + [Closed] && !r.open
    requires r.listen == IdleListen && r.protocolVersion == ""
    requires Accounted(s) ==> Accounted(r)
    ensures KeepsListening(s, r) && Regains(s, r) && Handled(s, r)
  {
    hide Accounted, TraceOk, SummaryOf;
    NothingNew(s.trace, t);
    Noted(t, ListeningStopped);
    Noted(t + [ListeningStopped], Closed);
  }

  lemma StartListens(s: State)
    ensures Handled(s, Do(s, Start)) && KeepsListening(s, Do(s, Start))
  {
    hide TraceOk, SummaryOf, Backoff;
    var r := Do(s, Start);
    var note := Started(s.protocolVersion != "");
    if s.open {
      assert r == s;
    } else {
      assert r.trace == s.trace + [note];
      assert note in r.trace;
      Noted(s.trace, note);
      StartAccounted(s, r);
      NoStreamWhileClosed(s);
      assert Tidy(s) ==> Paced(r) by { hide Undone; }
    }
  }

  lemma NoStreamWhileClosed(s: State)
    ensures Accounted(s) && !s.open ==> s.listen.stream.None? && !s.listen.refused
  {
  }

  lemma StartAccounted(s: State, r: State)
    requires r.open && r.records == s.records && r.table == s.table
    ensures Accounted(s) ==> Accounted(r)
  {
  }

  // ---- the application's calls -------------------------------------------------------------

  /** Handlers that run after `g` was noted. */
  lemma EmittedListens(a: State, s: State, g: Signal)
    requires Handled(a, Note(s, g)) && KeepsListening(a, Note(s, g))
    ensures Handled(a, Emit(s, g)) && KeepsListening(a, Emit(s, g))
    decreases |s.script|, 0
  {
    hide KeepsListening, RunCalls, Handled;
    var s1 := Note(s, g);
    if s1.script != [] {
      var s2 := s1.(script := s1.script[1..]);
      Untouched(s1, s2);
      Joined(a, s1, s2);
      RunCallsListens(s2, s1.script[0]);
      Joined(a, s2, RunCalls(s2, s1.script[0]));
    }
  }

  lemma HandlersListen(s: State, g: Signal)
    ensures var a := Note(s, g); Handled(a, Emit(s, g)) && KeepsListening(a, Emit(s, g))
    decreases |s.script|, 1
  {
    hide KeepsListening, Handled, Emit;
    Untouched(Note(s, g), Note(s, g));
    EmittedListens(Note(s, g), s, g);
  }

  lemma EmitListens(s: State, g: Signal)
    requires !IsNews(g)
    ensures Handled(s, Emit(s, g)) && KeepsListening(s, Emit(s, g))
    decreases |s.script|, 1
  {
    hide KeepsListening, Handled, Emit;
    Untouched(s, Note(s, g));
    EmittedListens(s, s, g);
  }

  lemma RunCallsListens(s: State, calls: seq<Call>)
    ensures Handled(s, RunCalls(s, calls)) && KeepsListening(s, RunCalls(s, calls))
    decreases |s.script|, 9, |calls|
  {
    hide KeepsListening, Do, Handled;
    if calls == [] {
      Untouched(s, s);
    } else {
      var s1 := Do(s, calls[0]);
      DoListens(s, calls[0]);
      RunCallsListens(s1, calls[1..]);
      Joined(s, s1, RunCalls(s1, calls[1..]));
    }
  }

  lemma DoListens(s: State, call: Call)
    ensures Handled(s, Do(s, call)) && KeepsListening(s, Do(s, call))
    decreases |s.script|, 8
  {
    hide DoStop, Post, Emit, AbandonExchange, KeepsListening, Handled;
    match call
    case Start => StartListens(s);
    case Stop => DoStopListens(s);
    case Send(m) =>
      if s.open {
        PostListens(s, m);
      } else {
        EmitListens(s, ErrorOccurred(None));
      }
    case Abandon(id) => AbandonOneListens(s, id);
  }

  lemma AbandonOneListens(s: State, id: string)
    ensures Handled(s, AbandonExchange(s, id)) && KeepsListening(s, AbandonExchange(s, id))
  {
    hide KeepsListening, FindRequest, Release, Handled;
    Untouched(s, s);
    var x := FindRequest(s, s.table, id);
    if x.Some? && x.value in s.records {
      var s1 := Release(s, x.value);
      ReleaseListens(s, x.value);
      Untouched(s1, Note(s1, Abandoned(x.value)));
      Joined(s, s1, Note(s1, Abandoned(x.value)));
    }
  }

  lemma DoStopListens(s: State)
    ensures Handled(s, DoStop(s)) && KeepsListening(s, DoStop(s)) && Regains(s, DoStop(s))
    decreases |s.script|, 7
  {
    hide Stopped, Emit, Tidy, SummaryOf;
    if s.open {
      StoppedListens(s);
      var s1 := Note(Stopped(s), Closed);
      assert s1.script == s.script;
      HandlersListen(Stopped(s), Closed);
      Both(s, s1, Emit(Stopped(s), Closed));
    }
  }

  lemma StoppedListens(s: State)
    ensures var r := Note(Stopped(s), Closed); KeepsListening(s, r) && Regains(s, r) && Handled(s, r)
  {
    hide KeepsListening, Regains, Handled, NoteAbandoned, AbandonExchanges, Undone, NoNews;
    var s0 := s.(open := false, sessionId := "", protocolVersion := "");
    var s1 := AbandonExchanges(s0);
    var s2 := NoteAbandoned(s1, s.table);
    AbandonSame(s0);
    NotedAbandoned(s1, s.table);
    if Accounted(s) {
      assert forall x :: Undone(s0, x) ==> Undone(s, x) by { SameUndone(s, s0); }
      AbandonFewer(s0);
      SameUndone(s1, Note(Stopped(s), Closed));
    }
    ClosingListens(s, s2.trace, Note(Stopped(s), Closed));
  }

  lemma SameUndone(s: State, r: State)
    requires r.records == s.records
    ensures forall x :: Undone(r, x) <==> Undone(s, x)
  {
  }

  lemma {:induction false} NotedAbandoned(s: State, xs: seq<nat>)
    ensures NoNews(s.trace, NoteAbandoned(s, xs).trace)
    decreases |xs|
  {
    if xs != [] {
      NotedAbandoned(Note(s, Abandoned(xs[0])), xs[1..]);
    }
  }

  lemma PostListens(s: State, m: Message)
    requires s.open
    ensures Handled(s, Post(s, m)) && KeepsListening(s, Post(s, m))
    decreases |s.script|, 7
  {
    hide KeepsListening, StartNewSession, FailUnsent, Handled, AddExchange, Attach, Tidy, StoppedInSend;
    Untouched(s, s);
    if !s.http {
      FailUnsentListens(s, m);
    } else {
      var s1 := if IsInitialize(m) then StartNewSession(s) else s;
      if IsInitialize(m) {
        StartNewSessionListens(s);
        SessionStops(s);
      }
      var (s2, stream) := OpenStream(s1);
      Untouched(s1, s2);
      Joined(s, s1, s2);
      if stream.None? {
        FailUnsentListens(s2, m);
        Joined(s, s2, FailUnsent(s2, m));
      } else {
        AddedListens(s, s2, m, stream.value);
      }
    }
  }

  /** An exchange posted on a closed transport is noted as such. */
  lemma AddedListens(a: State, s: State, m: Message, stream: nat)
    requires Handled(a, s) && KeepsListening(a, s) && (Tidy(a) ==> s.open || StoppedInSend(s.trace))
    ensures var r := Attach(AddExchange(s, m), |s.records|, stream); Handled(a, r) && KeepsListening(a, r)
  {
    hide TraceOk, SummaryOf, StoppedInSend, Backoff, Undone;
    var x := |s.records|;
    var r := Attach(AddExchange(s, m), x, stream);
    Noted(s.trace, Posted(x, s.open));
    AddedAccounted(s, m, stream);
  }

  lemma AddedAccounted(s: State, m: Message, stream: nat)
    ensures var r := Attach(AddExchange(s, m), |s.records|, stream);
            && (Accounted(s) ==> Accounted(r)) && r.trace == s.trace + [Posted(|s.records|, s.open)]
  {
    var x := |s.records|;
    var r := Attach(AddExchange(s, m), x, stream);
    assert Posted(x, s.open) in r.trace;
    assert forall y :: y in r.table <==> y in s.table || y == x;
  }

  /** A transport that is closed once `startNewSession` is over was stopped in a handler of `sendFailed`. */
  lemma SessionStops(s: State)
    requires s.open
    ensures var r := StartNewSession(s); Tidy(s) && !r.open ==> StoppedInSend(r.trace)
    decreases |s.script|, 6
  {
    hide KeepsListening, FailSuperseded, AbandonExchanges, Tidy, StoppedInSend;
    var s1 := AbandonExchanges(s);
    AbandonSame(s);
    AbandonListens(s);
    if Tidy(s) {
      TidyKept(s, s1);
      SupersededStops(s1, s.table);
      var s2 := FailSuperseded(s1, s.table);
      if !s2.open {
        StillStopped(s2.trace, ListeningStopped);
      }
    }
  }

  lemma StillStopped(t: seq<Signal>, g: Signal)
    requires StoppedInSend(t) && !g.Started?
    ensures StoppedInSend(t + [g])
  {
    hide SummaryOf;
    var u := t + [g];
    var h, k :| 0 <= h < k < |t| && t[h].SendFailed? && SummaryOf(t[..h]).open && StoppedAt(t, k);
    assert u[..h] == t[..h] && u[h] == t[h] && StoppedAt(u, k);
  }

  lemma {:induction false} SupersededStops(s: State, xs: seq<nat>)
    requires Tidy(s) && s.open
    ensures var r := FailSuperseded(s, xs); !r.open ==> StoppedInSend(r.trace)
    decreases |s.script|, 5, |xs|, 1
  {
    hide Emit, Tidy, KeepsListening, StoppedInSend;
    if xs != [] {
      var r := FailSuperseded(s, xs);
      if xs[0] in s.records && IsRequest(s.records[xs[0]].message) && !s.records[xs[0]].answered {
        var g := SendFailed(xs[0]);
        FailSupersededListens(s, xs);
        TidyKept(s, r);
        assert s.trace + [g] <= Emit(s, g).trace <= r.trace;
        if !r.open {
          FailedThenStopped(s, r, xs[0]);
        }
      } else {
        SupersededStops(s, xs[1..]);
      }
    }
  }

  lemma FailedThenStopped(s: State, r: State, x: nat)
    requires Tidy(s) && Tidy(r) && s.open && !r.open && s.trace + [SendFailed(x)] <= r.trace
    ensures StoppedInSend(r.trace)
  {
    hide SummaryOf, TraceOk, Accounted, StoppedAt;
    var h := |s.trace|;
    assert r.trace[..h] == s.trace && r.trace[h] == SendFailed(x);
    var k := LastStop(r.trace, h);
    assert r.trace[k].Closed? by { assert StoppedAt(r.trace, k); ClosedThere(r.trace, k); }
    assert h < k;
  }

  lemma ClosedThere(t: seq<Signal>, k: nat)
    requires k < |t| && StoppedAt(t, k)
    ensures t[k].Closed?
  {
  }

  lemma {:induction false} LastStop(t: seq<Signal>, h: nat) returns (k: nat)
    requires h <= |t| && SummaryOf(t[..h]).open && !SummaryOf(t).open
    ensures h <= k < |t| && StoppedAt(t, k)
    decreases |t|
  {
    assert t[..|t|] == t;
    var u, g := t[..|t| - 1], t[|t| - 1];
    assert t == u + [g];
    Noted(u, g);
    if g.Closed? {
      k := |t| - 1;
    } else {
      assert u[..h] == t[..h];
      k := LastStop(u, h);
    }
  }

  lemma FailUnsentListens(s: State, m: Message)
    ensures Handled(s, FailUnsent(s, m)) && KeepsListening(s, FailUnsent(s, m))
    decreases |s.script|, 3
  {
    hide KeepsListening, Emit, Handled;
    var s1 := Emit(s, ErrorOccurred(None));
    EmitListens(s, ErrorOccurred(None));
    EmitListens(s1, Unsent(m));
    Joined(s, s1, Emit(s1, Unsent(m)));
  }

  lemma StartNewSessionListens(s: State)
    ensures Handled(s, StartNewSession(s)) && KeepsListening(s, StartNewSession(s))
    decreases |s.script|, 6
  {
    hide KeepsListening, Regains, Handled, FailSuperseded, AbandonExchanges;
    var s1 := AbandonExchanges(s);
    var s2 := FailSuperseded(s1, s.table);
    var r := StartNewSession(s);
    AbandonSame(s);
    AbandonListens(s);
    FailSupersededListens(s1, s.table);
    Joined(s, s1, s2);
    StopsAccounted(s2, r);
    StoppingListens(s2, s2.trace, r);
    Joined(s, s2, r);
  }

  lemma StopsAccounted(s: State, r: State)
    requires r.open == s.open && r.records == s.records && r.table == s.table && s.trace <= r.trace
    requires r.listen == IdleListen
    ensures Accounted(s) ==> Accounted(r)
  {
  }

  lemma FailSupersededListens(s: State, xs: seq<nat>)
    ensures Handled(s, FailSuperseded(s, xs)) && KeepsListening(s, FailSuperseded(s, xs))
    decreases |s.script|, 5, |xs|, 0
  {
    hide KeepsListening, Handled, Emit;
    Untouched(s, s);
    if xs != [] {
      EmitListens(s, SendFailed(xs[0]));
      var s1 := if xs[0] in s.records && IsRequest(s.records[xs[0]].message) && !s.records[xs[0]].answered
                then Emit(s, SendFailed(xs[0])) else s;
      FailSupersededListens(s1, xs[1..]);
      Joined(s, s1, FailSuperseded(s1, xs[1..]));
    }
  }

  // ---- the listen stream --------------------------------------------------------------------

  lemma ScheduleRegains(s: State)
    requires s.open
    ensures Regains(s, ScheduleListenRetry(s))
  {
    hide ReportOutage, ArmListenRetry, Tidy, Listening, SummaryOf;
    if !s.http || s.listen.refused {
      NothingOwed(s);
    } else {
      var delayMs := DelayMs(s.listen.serverRetryMs, s.listen.backoffMs);
      var s1 := Note(s, RetryPlanned(delayMs, s.listen.serverRetryMs));
      var s2 := ReportOutage(s1);
      PlannedTidy(s, delayMs);
      ReportListens(s1);
      ArmedTidy(s2, delayMs);
    }
  }

  lemma NothingOwed(s: State)
    requires !s.open || !s.http || s.listen.refused || s.listen.stream.Some?
    ensures Listening(s)
  {
  }

  lemma PlannedTidy(s: State, delayMs: nat)
    requires delayMs == DelayMs(s.listen.serverRetryMs, s.listen.backoffMs)
    ensures var g := RetryPlanned(delayMs, s.listen.serverRetryMs);
            && (Tidy(s) ==> Tidy(Note(s, g))) && SummaryOf(Note(s, g).trace).planned == Some(delayMs)
  {
    hide TraceOk, SummaryOf, Backoff;
    Noted(s.trace, RetryPlanned(delayMs, s.listen.serverRetryMs));
  }

  lemma ReportListens(s: State)
    ensures Handled(s, ReportOutage(s)) && KeepsListening(s, ReportOutage(s))
  {
    hide KeepsListening, Handled, Emit;
    Untouched(s, s);
    var s1 := s.(listen := s.listen.(outageReported := true));
    if s.listen.backoffMs >= MAX_BACKOFF_MS && !s.listen.outageReported {
      OutageNoted(s, s1);
      EmitListens(s1, ErrorOccurred(None));
      Joined(s, s1, ReportOutage(s));
    }
  }

  lemma OutageNoted(s: State, s1: State)
    requires s1 == s.(listen := s.listen.(outageReported := true))
    ensures Handled(s, s1) && KeepsListening(s, s1)
  {
    hide Tidy;
    Edited(s, s1);
  }

  lemma ArmedTidy(s: State, delayMs: nat)
    requires SummaryOf(s.trace).planned == Some(delayMs)
    ensures var r := ArmListenRetry(s, delayMs); (Tidy(s) ==> Tidy(r)) && Listening(r) && s.trace <= r.trace
  {
    hide TraceOk, SummaryOf;
    Noted(s.trace, RetryArmed(delayMs));
  }

  lemma OpenListenStreamRegains(s: State)
    ensures Regains(s, OpenListenStream(s))
  {
    hide ScheduleListenRetry, Tidy, Listening;
    if s.open && s.http && s.listen.stream.None? && !s.listen.refused {
      var l := s.listen;
      var seeded := Parser([], false, Cleared.(idBuffer := l.lastEventId, lastEventId := l.lastEventId));
      var s1 := s.(listen := l.(events := seeded, resumed := l.lastEventId != [], heard := false));
      var (s2, stream) := OpenStream(s1);
      Edited(s, s2);
      if stream.None? {
        ScheduleRegains(s2);
      } else {
        Opened(s2, OpenListenStream(s));
      }
    } else {
      NothingOwed(s);
    }
  }

  lemma Opened(s: State, r: State)
    requires s.open && r.open && r.listen.stream.Some? && r.listen == s.listen.(stream := r.listen.stream)
    requires r.trace == s.trace + [ListenConnected(s.listen.lastEventId)]
    requires r.records == s.records && r.table == s.table && r.protocolVersion == s.protocolVersion
    ensures (Tidy(s) ==> Tidy(r)) && Listening(r)
  {
    hide TraceOk, SummaryOf, Backoff;
    Noted(s.trace, ListenConnected(s.listen.lastEventId));
  }

  lemma OnListenHeadersListens(s: State, head: Head)
    requires s.open && s.listen.stream.Some? && Tidy(s)
    ensures KeepsListening(s, OnListenHeaders(s, head))
  {
    hide OnListenRefused, Tidy, Listening, SummaryOf;
    var r := OnListenHeaders(s, head);
    if IsEventStream(Response(head.status, head.eventStream, head.json, [])) {
      Edited(s, r);
      SameListening(s, r);
    } else {
      Edited(s, ForgetListenStream(s));
      NotLost(s);
      OnListenRefusedListens(ForgetListenStream(s), head.status);
    }
  }

  lemma NotLost(s: State)
    requires Tidy(s) && s.listen.stream.Some?
    ensures !SummaryOf(s.trace).lost
  {
    hide SummaryOf;
  }

  lemma OnListenRefusedListens(s: State, status: int)
    requires s.open && !SummaryOf(s.trace).lost
    ensures Regains(s, OnListenRefused(s, status))
  {
    hide SummaryOf, DoStop, Emit, ScheduleListenRetry, Tidy, Listening;
    if status == 404 && s.listen.accepted && s.sessionId != "" {
      SessionLost(s);
    } else if status == 400 && s.listen.lastEventId != [] {
      var s1 := s.(listen := s.listen.(lastEventId := []));
      Edited(s, s1);
      ScheduleRegains(s1);
    } else if IsTransientRefusal(status) {
      ScheduleRegains(s);
    } else {
      RefusedForGood(s, OnListenRefused(s, status));
    }
  }

  lemma SessionLost(s: State)
    ensures Regains(s, DoStop(Emit(s, ErrorOccurred(None)).(sessionId := "")))
  {
    hide DoStop, Emit, Tidy, Listening;
    var s1 := Emit(s, ErrorOccurred(None));
    EmitListens(s, ErrorOccurred(None));
    Edited(s1, s1.(sessionId := ""));
    DoStopListens(s1.(sessionId := ""));
  }

  lemma RefusedForGood(s: State, r: State)
    requires s.open && !SummaryOf(s.trace).lost && r == s.(listen := s.listen.(refused := true))
    ensures (Tidy(s) ==> Tidy(r)) && Listening(r)
  {
    hide TraceOk, SummaryOf, Backoff;
  }

  lemma OnListenEndedListens(s: State, settled: bool)
    requires s.open
    ensures Regains(s, OnListenEnded(s, settled))
  {
    hide ScheduleListenRetry, Tidy, Listening, OnListenEnded;
    var s1 := EndedStream(s, settled);
    ScheduleRegains(s1);
  }

  lemma EndedStream(s: State, settled: bool) returns (r: State)
    requires s.open
    ensures OnListenEnded(s, settled) == ScheduleListenRetry(r)
    ensures r.open && s.trace <= r.trace && (Tidy(s) ==> Tidy(r))
  {
    hide ScheduleListenRetry, Tidy, EndedListen;
    var s1 := s.(listen := EndedListen(s.listen, settled));
    if s.listen.uptimeValid && settled {
      r := ForgetListenStream(Note(s1, ListenSettled));
      SettledTidy(s, r);
    } else {
      r := ForgetListenStream(s1);
      assert r.listen.backoffMs == s.listen.backoffMs by { EndedFields(s.listen, settled); }
      EndedFields(s.listen, settled);
      Edited(s, r);
    }
  }

  lemma EndedFields(l: Listen, settled: bool)
    ensures var r := EndedListen(l, settled);
            && r.retryTimer == l.retryTimer && r.refused == l.refused && r.stream == l.stream
            && r.backoffMs == if l.uptimeValid && settled then INITIAL_BACKOFF_MS else l.backoffMs
  {
  }

  lemma SettledTidy(s: State, r: State)
    requires s.open && s.listen.uptimeValid
    requires r == ForgetListenStream(Note(s.(listen := EndedListen(s.listen, true)), ListenSettled))
    ensures Tidy(s) ==> Tidy(r)
  {
    hide TraceOk, SummaryOf;
    Noted(s.trace, ListenSettled);
  }

  lemma OnListenChunkListens(env: Env, s: State, chunk: Bytes)
    ensures KeepsListening(s, OnListenChunk(env, s, chunk))
  {
    hide AppendSpec, DrainBacklog, Tidy, Listening;
    var (p, events) := AppendSpec(DEFAULT_MAX_BUFFER_BYTES, s.listen.events, chunk);
    var s0 := s.(listen := TakeListenChunk(s.listen, p, events));
    Edited(s, s0);
    SameListening(s, s0);
    var s1 := Note(s0, ListenArrived(chunk));
    Untouched(s0, s1);
    DrainBacklogListens(env, s1);
    Joined(s, s0, s1);
    Joined(s, s1, DrainBacklog(env, s1));
  }

  lemma {:induction false} DrainBacklogListens(env: Env, s: State)
    ensures KeepsListening(s, DrainBacklog(env, s))
    decreases |s.listen.backlog|
  {
    hide Emit, KeepsListening, Handled;
    Untouched(s, s);
    if s.listen.backlog != [] {
      var event := s.listen.backlog[0];
      var s1 := s.(listen := s.listen.(backlog := s.listen.backlog[1..]));
      TakenListens(s, s1);
      var message := if event.kind == MESSAGE then env.decode(event.data) else None;
      if message.None? || message.value.isEmpty {
        DrainBacklogListens(env, s1);
        Joined(s, s1, DrainBacklog(env, s1));
      } else {
        var s2, g := RestartListenBackoff(s1), ListenMessage(message.value);
        ResetListens(s1, message.value);
        EmittedListens(s1, s2, g);
        var s3 := Emit(s2, g);
        DrainBacklogListens(env, s3);
        Joined(s, s1, s3);
        Joined(s, s3, DrainBacklog(env, s3));
      }
    }
  }

  lemma TakenListens(s: State, r: State)
    requires s.listen.backlog != [] && r == s.(listen := s.listen.(backlog := s.listen.backlog[1..]))
    ensures KeepsListening(s, r)
  {
    hide Tidy;
    Edited(s, r);
  }

  /** A listen message restarts the backoff before the application hears of it. */
  lemma ResetListens(s: State, m: Message)
    ensures var r := Note(RestartListenBackoff(s), ListenMessage(m)); Handled(s, r) && KeepsListening(s, r)
  {
    hide TraceOk, SummaryOf;
    Noted(s.trace, ListenMessage(m));
  }

  // ---- the exchanges -------------------------------------------------------------------------

  lemma ReceiveListens(s: State, x: nat, reply: Message, fromBody: bool)
    requires x in s.records
    requires Undone(s, x) || s.open || Posted(x, false) in s.trace
    ensures KeepsListening(s, Receive(s, x, reply, fromBody))
  {
    hide Emit, KeepsListening, Handled, Receiving, Receive;
    var s1 := Receiving(s, x, reply);
    var g := Reply(x, reply, Answers(reply, s.records[x].message), fromBody);
    ReceivingListens(s, x, reply);
    ReceivingThenEmit(s, x, reply, fromBody);
    EmitListens(s1, g);
    Joined(s, s1, Emit(s1, g));
  }

  lemma ReceivingListens(s: State, x: nat, reply: Message)
    requires x in s.records
    requires Undone(s, x) || s.open || Posted(x, false) in s.trace
    ensures KeepsListening(s, Receiving(s, x, reply))
  {
    hide OpenListenStream, Tidy, Listening, SummaryOf;
    Untouched(s, s);
    if Answers(reply, s.records[x].message) {
      var s1 := SetExchange(s, x, s.records[x].(answered := true));
      Untouched(s, s1);
      if IsInitialize(s.records[x].message) && reply.version != "" {
        var s2 := Note(s1.(protocolVersion := reply.version), Negotiated(x, s.open));
        if Tidy(s) {
          KnownOpen(s, x);
          NegotiatedTidy(s1, x, reply.version);
        }
        OpenListenStreamRegains(s2);
      }
    }
  }

  lemma KnownOpen(s: State, x: nat)
    requires Tidy(s) && (Undone(s, x) || s.open || Posted(x, false) in s.trace)
    ensures s.open || Posted(x, false) in s.trace
  {
    hide Paced;
  }

  lemma NegotiatedTidy(s: State, x: nat, version: string)
    requires Tidy(s) && version != "" && (s.open || Posted(x, false) in s.trace)
    ensures Tidy(Note(s.(protocolVersion := version), Negotiated(x, s.open)))
  {
    hide TraceOk, SummaryOf;
    Noted(s.trace, Negotiated(x, s.open));
  }


  lemma {:induction false} ReceiveEventsListen(env: Env, s: State, x: nat, events: seq<Event>)
    ensures KeepsListening(s, ReceiveEvents(env, s, x, events))
    decreases |events|
  {
    hide KeepsListening, Receive;
    Untouched(s, s);
    if events != [] && x in s.records && !s.records[x].done {
      var reply := if events[0].kind == MESSAGE then env.decode(events[0].data) else None;
      var s1 := s;
      if reply.Some? && !reply.value.isEmpty {
        s1 := Receive(s, x, reply.value, false);
        ReceiveListens(s, x, reply.value, false);
      }
      ReceiveEventsListen(env, s1, x, events[1..]);
      Joined(s, s1, ReceiveEvents(env, s1, x, events[1..]));
    }
  }


  lemma OnChunkListens(env: Env, s: State, x: nat, chunk: Bytes)
    requires x in s.records
    ensures KeepsListening(s, OnChunk(env, s, x, chunk))
  {
    hide KeepsListening, Handled, ReceiveEvents, Release;
    var e := s.records[x];
    if !IsEventStream(e.response) {
      RecordListens(s, x, e.(response := e.response.(body := e.response.body + chunk)));
    } else {
      var events := ReadChunk(DEFAULT_MAX_BUFFER_BYTES, e.reader, chunk).1;
      var s1 := ChunkTaken(s, x, chunk);
      var s2 := ReceiveEvents(env, s1, x, events);
      ChunkTakenListens(s, x, chunk);
      ReceiveEventsListen(env, s1, x, events);
      Joined(s, s1, s2);
      if x in s2.records {
        ReleaseListens(s2, x);
        Joined(s, s2, Release(s2, x));
      }
    }
  }

  lemma RecordListens(s: State, x: nat, e: Exchange)
    requires x in s.records && e.done == s.records[x].done
    ensures KeepsListening(s, SetExchange(s, x, e))
  {
    hide KeepsListening, Handled;
    Untouched(s, SetExchange(s, x, e));
  }

  lemma ChunkTakenListens(s: State, x: nat, chunk: Bytes)
    requires x in s.records
    ensures KeepsListening(s, ChunkTaken(s, x, chunk))
  {
    hide KeepsListening, Handled, ReadChunk;
    Untouched(s, ChunkTaken(s, x, chunk));
  }

  /** A signal that is only emitted under some condition. */
  lemma MaybeEmitListens(a: State, s: State, g: Signal, b: bool)
    requires KeepsListening(a, s) && !IsNews(g)
    ensures KeepsListening(a, if b then Emit(s, g) else s)
  {
    hide KeepsListening, Handled, Emit;
    EmitListens(s, g);
    Joined(a, s, Emit(s, g));
  }

  lemma FinishFailureListens(env: Env, s: State, x: nat)
    requires x in s.records
    ensures KeepsListening(s, FinishFailure(env, s, x))
  {
    hide KeepsListening, Regains, Emit, DoStop;
    var e := s.records[x];
    var s1 := Emit(s, ErrorOccurred(Some(x)));
    EmitListens(s, ErrorOccurred(Some(x)));
    var error := env.decode(e.response.body);
    if error.Some? {
      MaybeEmitListens(s, s1, Relayed(x, error.value.(id := e.message.id)), true);
    }
    MaybeEmitListens(s, s1, SendFailed(x), true);
    var s2 := if !IsRequest(e.message) then s1
              else if error.Some? && error.value.hasError
              then Emit(s1, Relayed(x, error.value.(id := e.message.id)))
              else Emit(s1, SendFailed(x));
    assert KeepsListening(s, s2);
    var s3 := s2.(sessionId := "");
    Untouched(s2, s3);
    DoStopListens(s3);
    Joined(s, s2, s3);
    Joined(s, s3, DoStop(s3));
  }

  lemma FinishSuccessListens(env: Env, s: State, x: nat)
    requires x in s.records && (s.open || Posted(x, false) in s.trace)
    ensures KeepsListening(s, FinishSuccess(env, s, x))
  {
    hide KeepsListening, Emit, DeliverBody;
    var s1 := if IsEventStream(s.records[x].response) then s else DeliverBody(env, s, x);
    Untouched(s, s);
    DeliverBodyListens(env, s, x);
    MaybeEmitListens(s, s1, SendFailed(x), true);
  }

  lemma DeliverBodyListens(env: Env, s: State, x: nat)
    requires x in s.records && (s.open || Posted(x, false) in s.trace)
    ensures KeepsListening(s, DeliverBody(env, s, x))
  {
    hide KeepsListening, Emit, Receive;
    Untouched(s, s);
    EmitListens(s, ErrorOccurred(Some(x)));
    var reply := env.decode(s.records[x].response.body);
    if reply.Some? {
      ReceiveListens(s, x, reply.value, true);
    }
  }

  lemma FailListens(s: State, x: nat)
    requires x in s.records
    ensures KeepsListening(s, Fail(s, x))
  {
    hide KeepsListening, Emit;
    var s1 := Emit(s, ErrorOccurred(Some(x)));
    EmitListens(s, ErrorOccurred(Some(x)));
    MaybeEmitListens(s, s1, SendFailed(x), true);
  }

  /** The endings of an exchange: everything that is not a chunk or headers. */
  lemma EndingListens(env: Env, s: State, x: nat)
    requires Undone(s, x) && Tidy(s)
    ensures KeepsListening(s, OnFinished(env, s, x)) && KeepsListening(s, OnError(s, x))
    ensures KeepsListening(s, OnDestroyed(s, x))
  {
    hide KeepsListening, Emit, FinishSuccess, FinishFailure, Fail, Release, ScheduleResume, Tidy, SetExchange;
    var released := Release(s, x);
    ReleaseListens(s, x);
    ScheduledListens(s, x);
    KnownOpen(s, x);
    ReleasedSame(s, x);
    FinishSuccessListens(env, released, x);
    Joined(s, released, FinishSuccess(env, released, x));
    FinishFailureListens(env, released, x);
    Joined(s, released, FinishFailure(env, released, x));
    FailListens(released, x);
    Joined(s, released, Fail(released, x));
    DestroyedListens(s, x);
  }

  lemma ReleasedSame(s: State, x: nat)
    requires x in s.records
    ensures var r := Release(s, x); r.open == s.open && r.trace == s.trace && x in r.records
  {
  }

  lemma ScheduledListens(s: State, x: nat)
    requires x in s.records
    ensures KeepsListening(s, ScheduleResume(s, x))
  {
    hide KeepsListening, Handled;
    Untouched(s, ScheduleResume(s, x));
  }

  lemma DestroyedListens(s: State, x: nat)
    requires x in s.records
    ensures KeepsListening(s, OnDestroyed(s, x))
  {
    hide KeepsListening, Handled, Fail, Release;
    var s1 := SetExchange(s, x, s.records[x].(stream := None));
    var s2 := Disconnect(s1, s.records[x].stream);
    Untouched(s, s2);
    ReleasedFails(s, s2, x);
  }

  lemma ReleasedFails(a: State, s: State, x: nat)
    requires KeepsListening(a, s) && x in s.records
    ensures KeepsListening(a, Fail(Release(s, x), x))
  {
    hide KeepsListening, Fail, Release;
    ReleasedSame(s, x);
    ReleaseListens(s, x);
    Joined(a, s, Release(s, x));
    FailListens(Release(s, x), x);
    Joined(a, Release(s, x), Fail(Release(s, x), x));
  }

  lemma TimeoutListens(s: State, x: nat)
    requires x in s.records
    ensures KeepsListening(s, OnResumeTimeout(s, x))
  {
    hide KeepsListening, Handled, Fail, Release, OnNewStream;
    Untouched(s, s);
    if s.records[x].done {
      RecordListens(s, x, s.records[x].(resumeTimer := None));
    } else {
      var (s1, stream) := OpenStream(s);
      var s2 := if s.http then s1 else s;
      Untouched(s, s2);
      ReleasedFails(s, s2, x);
      if s.http && stream.Some? {
        ReconnectedListens(s1, x, stream.value);
        Joined(s, s1, Reconnect(s1, x, stream.value));
      }
    }
  }

  lemma ReconnectedListens(s: State, x: nat, stream: nat)
    requires x in s.records
    ensures KeepsListening(s, Reconnect(s, x, stream))
  {
    hide KeepsListening, Handled;
    Untouched(s, Reconnect(s, x, stream));
  }

  // ---- every input ---------------------------------------------------------------------------

  lemma StepListens(env: Env, s: State, input: Input)
    requires SlotsOk(s) && Tidy(s)
    ensures KeepsListening(s, Step(env, s, input))
  {
    hide KeepsListening, Do, OnListenHeaders, OnListenChunk, OnListenEnded, OnHeaders, OnChunk, OnFinished,
      OnError, OnDestroyed, OnResumeTimeout, OpenListenStream;
    Untouched(s, s);
    match input
    case Command(call) => DoListens(s, call);
    case Headers(st, head) => HeadersListen(env, s, st, head);
    case Chunk(st, bytes) =>
      OnListenChunkListens(env, s, bytes);
      if st in s.slots && s.slots[st].ForExchange? {
        OnChunkListens(env, s, s.slots[st].x, bytes);
      }
    case Finished(st, settled) => StreamEndListens(env, s, st, settled);
    case Failed(st, settled) => StreamEndListens(env, s, st, settled);
    case Destroyed(st, settled) => StreamEndListens(env, s, st, settled);
    case ResumeTimeout(x) =>
      if x in s.records {
        TimeoutListens(s, x);
      }
    case ListenTimeout => ListenTimeoutListens(s);
    case HttpDestroyed => HttpDestroyedListens(s);
  }

  lemma HeadersListen(env: Env, s: State, st: nat, head: Head)
    requires SlotsOk(s) && Tidy(s)
    ensures KeepsListening(s, Step(env, s, Headers(st, head)))
  {
    hide KeepsListening, OnListenHeaders;
    Untouched(s, s);
    if st in s.slots && st !in s.headed {
      var s1 := s.(headed := s.headed + {st});
      Untouched(s, s1);
      if s.slots[st].ForListen? {
        TidyKept(s, s1);
        OnListenHeadersListens(s1, head);
        Joined(s, s1, OnListenHeaders(s1, head));
      } else {
        Untouched(s, OnHeaders(s1, s.slots[st].x, head));
      }
    }
  }

  lemma StreamEndListens(env: Env, s: State, st: nat, settled: bool)
    requires SlotsOk(s) && Tidy(s)
    ensures st in s.slots && s.slots[st].ForListen? ==> KeepsListening(s, OnListenEnded(s, settled))
    ensures st in s.slots && s.slots[st].ForExchange? ==>
              var x := s.slots[st].x;
              && x in s.records
              && KeepsListening(s, OnFinished(env, s, x)) && KeepsListening(s, OnError(s, x))
              && KeepsListening(s, OnDestroyed(s, x))
  {
    hide OnListenEnded, OnFinished, OnError, OnDestroyed;
    if st in s.slots {
      if s.slots[st].ForListen? {
        OnListenEndedListens(s, settled);
      } else {
        EndingListens(env, s, s.slots[st].x);
      }
    }
  }

  lemma ListenTimeoutListens(s: State)
    ensures KeepsListening(s, if s.listen.retryTimer.None? then s
                              else OpenListenStream(s.(listen := s.listen.(retryTimer := None))))
  {
    hide OpenListenStream;
    OpenListenStreamRegains(s.(listen := s.listen.(retryTimer := None)));
  }

  lemma HttpDestroyedListens(s: State)
    ensures KeepsListening(s, s.(http := false, listen := s.listen.(retryTimer := None)))
  {
  }

  lemma {:induction false} RunListens(env: Env, s: State, inputs: seq<Input>)
    requires Inv(s, {}, {}) && Tidy(s)
    ensures var r := Run(env, s, inputs); Inv(r, {}, {}) && KeepsListening(s, r)
    decreases |inputs|
  {
    hide Step, Inv, KeepsListening;
    if inputs == [] {
      Untouched(s, s);
    } else {
      InvSlots(s);
      StepOk(env, s, inputs[0]);
      StepListens(env, s, inputs[0]);
      TidyKept(s, Step(env, s, inputs[0]));
      RunListens(env, Step(env, s, inputs[0]), inputs[1..]);
      Joined(s, Step(env, s, inputs[0]), Run(env, s, inputs));
    }
  }

  lemma InvSlots(s: State)
    requires Inv(s, {}, {})
    ensures SlotsOk(s)
  {
  }

  lemma TidyKept(s: State, r: State)
    requires Tidy(s) && KeepsListening(s, r)
    ensures Tidy(r)
  {
  }

  lemma Reached(env: Env, outcomes: seq<bool>, script: seq<seq<Call>>, inputs: seq<Input>)
    ensures var s := Run(env, Initial(outcomes, script), inputs);
            Tidy(s) && SlotsOk(s) && Kept(s)
  {
    InitialListens(outcomes, script);
    InitialOk(outcomes, script);
    RunListens(env, Initial(outcomes, script), inputs);
    hide Inv, Run, Kept, Initial, Paced, Accounted;
    InvSlots(Run(env, Initial(outcomes, script), inputs));
  }

  lemma InitialListens(outcomes: seq<bool>, script: seq<seq<Call>>)
    ensures Kept(Initial(outcomes, script)) && Tidy(Initial(outcomes, script))
  {
  }

  /**
   In every reachable state: at most one stream is connected as the listen stream, none while the
   transport is closed; and an open negotiated transport that was not refused for good has its stream
   or an armed timer, unless it was started with a protocol version still set and since then nothing
   was connected, armed or stopped.
   */
  lemma ListenStreamIsKept(env: Env, outcomes: seq<bool>, script: seq<seq<Call>>, inputs: seq<Input>)
    ensures var s := Run(env, Initial(outcomes, script), inputs);
            && (Listening(s) <==> !(SummaryOf(s.trace).lost && s.http && s.listen.retryTimer.None?))
            && (!s.open ==> s.listen.stream.None?)
            && (forall st :: st in s.slots && s.slots[st].ForListen? ==> s.listen.stream == Some(st))
            && (s.listen.stream.Some? ==> s.listen.stream.value in s.slots)
  {
    Reached(env, outcomes, script, inputs);
    hide Run, Initial, SummaryOf, TraceOk, Backoff;
  }

  // ---- the backoff ----------------------------------------------------------------------------

  predicate IsReset(g: Signal) { g.ListenMessage? || g.ListenSettled? || g.ListeningStopped? }

  function Armings(t: seq<Signal>): nat {
    if t == [] then 0 else Armings(t[..|t| - 1]) + if t[|t| - 1].RetryArmed? then 1 else 0
  }

  /**
   In every run, whatever handlers do: each delay settled on is the larger of what the server asked
   for and the backoff after the failures since the last reset, each retry armed waits for the delay
   last settled on, and the fields of the transport hold the backoff and the delay that come of it.
   */
  lemma RetriesBackOff(env: Env, outcomes: seq<bool>, script: seq<seq<Call>>, inputs: seq<Input>)
    ensures var s := Run(env, Initial(outcomes, script), inputs);
            var t := s.trace;
            && s.listen.backoffMs == Backoff(SummaryOf(t).failures)
            && s.listen.backoffMs in {1000, 2000, 4000, 8000, 16000, 30000}
            && (s.listen.retryTimer.Some? ==>
                  s.listen.retryTimer == SummaryOf(t).armed && s.listen.retryTimer.value >= INITIAL_BACKOFF_MS)
            && (forall i :: 0 <= i < |t| && t[i].RetryPlanned? ==>
                  t[i].delayMs == DelayMs(t[i].serverRetryMs, Backoff(SummaryOf(t[..i]).failures)))
            && (forall i :: 0 <= i < |t| && t[i].RetryArmed? ==> SummaryOf(t[..i]).planned == Some(t[i].delayMs))
  {
    Reached(env, outcomes, script, inputs);
    hide Run, Initial, SummaryOf, Listening, SlotsOk, Accounted, Backoff;
    var s := Run(env, Initial(outcomes, script), inputs);
    var t := s.trace;
    BackoffSteps(SummaryOf(t).failures);
    DelaysAreLong(t);
    assert forall i :: 0 <= i < |t| ==> NextOk(t[..i], t[i]);
  }

  lemma {:induction false} BackoffSteps(k: nat)
    ensures Backoff(k) in {1000, 2000, 4000, 8000, 16000, 30000}
  {
    if k > 0 {
      BackoffSteps(k - 1);
    }
  }

  ghost predicate LongDelays(m: Summary) {
    && (m.planned.Some? ==> m.planned.value >= INITIAL_BACKOFF_MS)
    && (m.armed.Some? ==> m.armed.value >= INITIAL_BACKOFF_MS)
  }

  lemma {:induction false} DelaysAreLong(t: seq<Signal>)
    requires TraceOk(t)
    ensures LongDelays(SummaryOf(t))
    decreases |t|
  {
    hide LongDelays, NextOk, Recount;
    if t == [] {
      NoDelays();
    } else {
      var u, g := t[..|t| - 1], t[|t| - 1];
      assert forall i :: 0 <= i < |u| ==> u[..i] == t[..i] && u[i] == t[i];
      DelaysAreLong(u);
      assert NextOk(t[..|t| - 1], t[|t| - 1]);
      NextDelay(u, g);
    }
  }

  lemma NoDelays()
    ensures LongDelays(SummaryOf([]))
  {
  }

  lemma NextDelay(t: seq<Signal>, g: Signal)
    requires LongDelays(SummaryOf(t)) && NextOk(t, g)
    ensures LongDelays(Recount(SummaryOf(t), g))
  {
    hide SummaryOf, Backoff, StoppedInSend;
    BackoffSteps(SummaryOf(t).failures);
  }

  /**
   Between two resets every retry armed is one more failure, and so one step further in the backoff;
   and from the start or a reset on, the failures are the retries armed since.
   */
  lemma {:induction false} FailuresAddUp(t: seq<Signal>, u: seq<Signal>)
    requires forall g :: g in u ==> !IsReset(g)
    ensures SummaryOf(t + u).failures == SummaryOf(t).failures + Armings(u)
    ensures t == [] || IsReset(t[|t| - 1]) ==> SummaryOf(t + u).failures == Armings(u)
    decreases |u|
  {
    if u == [] {
      assert t + u == t;
    } else {
      hide SummaryOf;
      var v, g := u[..|u| - 1], u[|u| - 1];
      assert t + u == (t + v) + [g] && g in u;
      FailuresAddUp(t, v);
      Noted(t + v, g);
    }
  }
}
