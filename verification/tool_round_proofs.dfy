/**
 A tool round completes exactly once, with a result for each of its calls, dispatched in order and
 not too many at a time, whatever the handlers of its signals do.
 */
module ToolRoundProofs {
  import opened Options
  import opened ToolRounds

  // ---- one round ------------------------------------------------------------------------------

  function Ids(pending: seq<PendingTool>): (ids: seq<string>)
    ensures |ids| == |pending|
  {
    seq(|pending|, i requires 0 <= i < |pending| => pending[i].id)
  }

  ghost predicate Distinct(ids: seq<string>) { forall i, j :: 0 <= i < j < |ids| ==> ids[i] != ids[j] }

  /** The calls dispatched and not settled, among the first `n`. */
  function Open(pending: seq<PendingTool>, n: nat): nat
    requires n <= |pending|
  {
    if n == 0 then 0 else Open(pending, n - 1) + (if pending[n - 1].result.None? then 1 else 0)
  }

  ghost predicate RoundOk(r: Round) {
    && Distinct(r.queued) && r.dispatched <= r.queued
    && r.next <= |r.pending|
    && (r.pending == [] ==> r.next == 0)
    && (r.pending != [] ==> Ids(r.pending) == r.queued && r.dispatched == r.queued[..r.next])
    && (!r.closed ==> r.pending != [])
    && (r.closed && r.advancing ==> r.pending == [])
    && (r.closed && r.pending != [] ==> IsSettled(r))
  }

  function InFlight(r: Round): nat
    requires r.next <= |r.pending|
  {
    Open(r.pending, r.next)
  }

  lemma {:induction false} OpenChanges(pending: seq<PendingTool>, i: nat, n: nat, result: ToolResult)
    requires i < |pending| && n <= |pending| && pending[i].result.None?
    ensures Open(pending[i := pending[i].(result := Some(result))], n) == Open(pending, n) - (if i < n then 1 else 0)
    ensures i < n ==> Open(pending, n) > 0
    decreases n
  {
    if n > 0 {
      OpenChanges(pending, i, n - 1, result);
    }
  }

  lemma {:induction false} OpenPrefix(a: seq<PendingTool>, b: seq<PendingTool>, n: nat)
    requires n <= |a| && a <= b
    ensures Open(b, n) == Open(a, n)
  {
    if n > 0 {
      OpenPrefix(a, b, n - 1);
    }
  }

  lemma {:induction false} NoneOpen(pending: seq<PendingTool>, n: nat)
    requires n <= |pending|
    ensures Open(pending, n) == 0 <==> forall i :: 0 <= i < n ==> pending[i].result.Some?
  {
    if n > 0 {
      NoneOpen(pending, n - 1);
    }
  }

  lemma FindIs(pending: seq<PendingTool>, i: nat)
    requires i < |pending| && Distinct(Ids(pending))
    ensures Find(pending, pending[i].id) == i
  {
    assert forall k :: 0 <= k < |pending| ==> Ids(pending)[k] == pending[k].id;
    hide Find, Ids;
  }

  lemma {:induction false} AddCallsOk(r: Round, calls: seq<Request>)
    requires Distinct(Ids(r.pending)) && Ids(r.pending) == r.queued
    ensures var t := AddCalls(r, calls);
            && r.pending <= t.pending && t == r.(pending := t.pending, queued := t.queued)
            && Distinct(Ids(t.pending)) && Ids(t.pending) == t.queued
            && (calls != [] ==> t.pending != [])
            && (forall i :: |r.pending| <= i < |t.pending| ==> t.pending[i].result.None?)
    decreases |calls|
  {
    hide Find;
    if calls != [] {
      var c := calls[0];
      if Find(r.pending, c.id) < |r.pending| {
        AddCallsOk(r, calls[1..]);
      } else {
        var r1 := r.(pending := r.pending + [PendingTool(c.id, c.name, None)], queued := r.queued + [c.id]);
        OneMore(r.pending, PendingTool(c.id, c.name, None));
        AddCallsOk(r1, calls[1..]);
      }
    }
  }

  lemma OneMore(pending: seq<PendingTool>, call: PendingTool)
    requires Distinct(Ids(pending)) && Find(pending, call.id) == |pending|
    ensures Ids(pending + [call]) == Ids(pending) + [call.id] && Distinct(Ids(pending + [call]))
  {
    hide Find, Distinct;
    assert Ids(pending + [call]) == Ids(pending) + [call.id];
    assert forall k :: 0 <= k < |pending| ==> Ids(pending)[k] == pending[k].id != call.id;
    hide Ids;
    DistinctSnoc(Ids(pending), call.id);
  }

  lemma DistinctSnoc(ids: seq<string>, id: string)
    requires Distinct(ids) && forall k :: 0 <= k < |ids| ==> ids[k] != id
    ensures Distinct(ids + [id])
  {
  }

  // ---- the invariant --------------------------------------------------------------------------------

  /** Every call in flight is still to be answered. */
  ghost predicate Tracked(s: Manager, r: Round) {
    forall i :: 0 <= i < |r.pending| && i < r.next && r.pending[i].result.None? ==>
      Outstanding(s, Key(r.request, r.pending[i].id)) > 0
  }

  /**
   What the notes of a trace say of one round: how often it was begun, also while it was being advanced
   and when nothing was left of it, how often a report on another round has left it open under the
   request, how many of its calls were settled before they were dispatched, how often it was driven
   with nothing left, and how many calls were skipped.
   */
  datatype Tally =
    Tally(begun: nat, nested: nat, refills: nat, strays: nat, early: nat, idle: nat, skipped: nat)

  const NOTHING: Tally := Tally(0, 0, 0, 0, 0, 0, 0)

  function Counted(t: Tally, g: Signal, k: nat): Tally {
    match g
    case Begun(round, nested, refill) =>
      if round != k then t
      else t.(begun := t.begun + 1, nested := t.nested + (if nested then 1 else 0), refills := t.refills + (if refill then 1 else 0))
    case Settled(round, early) => if round == k && early then t.(early := t.early + 1) else t
    case Returned(of, under) => if under == Some(k) && of != k then t.(strays := t.strays + 1) else t
    case Idled(round) => if round == k then t.(idle := t.idle + 1) else t
    case Skipped(round) => if round == k then t.(skipped := t.skipped + 1) else t
    case _ => t
  }

  function TallyOf(trace: seq<Signal>, k: nat): Tally
    decreases |trace|
  {
    if trace == [] then NOTHING else Counted(TallyOf(trace[..|trace| - 1], k), trace[|trace| - 1], k)
  }

  lemma TallySnoc(trace: seq<Signal>, g: Signal, k: nat)
    ensures TallyOf(trace + [g], k) == Counted(TallyOf(trace, k), g, k)
  {
    assert (trace + [g])[..|trace|] == trace;
  }

  /** The calls without a result, beyond those that are left to dispatch. */
  function Surplus(r: Round): int { Open(r.pending, |r.pending|) - (|r.pending| - r.next) }

  /** The calls left to dispatch that have a result already. */
  function Waiting(r: Round): int
    requires r.next <= |r.pending|
  {
    InFlight(r) - Surplus(r)
  }

  /**
   The balance of a round. `owed` is how often it is about to be driven: every drive dispatches one call
   to wait for, or finds none left; and every call that is settled makes for another drive.
   */
  ghost predicate Room(r: Round, t: Tally, owed: nat)
    requires r.next <= |r.pending|
  {
    && Surplus(r) + owed + t.nested + t.idle == t.begun + t.strays + t.skipped
    && Surplus(r) + owed > 0
    && Waiting(r) + t.skipped <= t.early
    && (r.next < |r.pending| && t.refills == 0 ==> t.idle == 0)
  }

  ghost predicate RoundInv(s: Manager, k: nat, owed: multiset<nat>)
    requires k < |s.rounds|
  {
    var r := s.rounds[k];
    && RoundOk(r)
    && (!r.closed ==>
          && r.request in s.current && s.current[r.request] == k
          && Tracked(s, r) && Room(r, TallyOf(s.trace, k), owed[k]))
  }

  function Completions(trace: seq<Signal>, k: nat): nat
    decreases |trace|
  {
    if trace == [] then 0
    else
      var g := trace[|trace| - 1];
      Completions(trace[..|trace| - 1], k) + (if g.Complete? && g.round == k then 1 else 0)
  }

  ghost predicate MapOk(s: Manager) {
    forall request :: request in s.current ==>
      s.current[request] < |s.rounds| && s.rounds[s.current[request]].request == request
  }

  ghost predicate IsComplete(s: Manager, g: Signal) {
    g.Complete? ==>
      && g.round < |s.rounds| && s.rounds[g.round].closed && (forall id :: id in g.results <==> id in s.rounds[g.round].queued)
      && (s.rounds[g.round].pending != [] ==> g.results == Results(s.rounds[g.round]))
  }

  /** A round is reported once at most, closed, with the result of each of its calls, and is, unless it was cleaned up. */
  ghost predicate TraceOk(s: Manager) {
    && (forall k: nat :: Completions(s.trace, k) <= 1)
    && (forall k: nat :: Completions(s.trace, k) == 1 ==> k < |s.rounds| && s.rounds[k].closed)
    && (forall k: nat :: k < |s.rounds| && s.rounds[k].closed && s.rounds[k].pending != [] ==> Completions(s.trace, k) == 1)
    && (forall i :: 0 <= i < |s.trace| ==> IsComplete(s, s.trace[i]))
    && (forall k: nat :: k >= |s.rounds| ==> TallyOf(s.trace, k) == NOTHING)
  }

  ghost predicate Inv(s: Manager, owed: multiset<nat>) {
    && MapOk(s) && TraceOk(s) && (forall k :: k in owed ==> k < |s.rounds|)
    && forall k :: 0 <= k < |s.rounds| ==> RoundInv(s, k, owed)
  }

  /** What code run from inside a signal leaves of a round that is being advanced. */
  ghost predicate Steady(r: Round, t: Round) {
    if r.closed then t == r
    else if t.closed then t.pending == [] && t.next == 0 && t.advancing
    else r.pending <= t.pending && t.next == r.next && t.advancing
  }

  ghost predicate KeptRound(r: Round, t: Round) {
    && t.request == r.request
    && (r.closed ==> t.closed && t.queued == r.queued)
    && (if r.advancing then Steady(r, t) else !t.advancing)
  }

  /** For the round `k` itself, while it is being advanced. */
  ghost predicate StillAdvancing(r: Round, t: Round) {
    t.request == r.request && r.advancing && t.advancing && (r.closed ==> t == r)
  }

  ghost predicate Keeps(s: Manager, t: Manager) {
    && |s.rounds| <= |t.rounds| && t.starting == s.starting
    && (forall k :: 0 <= k < |s.rounds| ==> KeptRound(s.rounds[k], t.rounds[k]))
    && (forall k :: |s.rounds| <= k < |t.rounds| ==> !t.rounds[k].advancing)
  }

  ghost predicate KeepsBut(s: Manager, t: Manager, k: nat)
    requires k < |s.rounds|
  {
    && |s.rounds| <= |t.rounds| && t.starting == s.starting
    && (forall j :: 0 <= j < |s.rounds| && j != k ==> KeptRound(s.rounds[j], t.rounds[j]))
    && StillAdvancing(s.rounds[k], t.rounds[k])
    && (forall j :: |s.rounds| <= j < |t.rounds| ==> !t.rounds[j].advancing)
  }

  lemma KeepsButThen(a: Manager, b: Manager, c: Manager, k: nat)
    requires k < |a.rounds| && KeepsBut(a, b, k) && (KeepsBut(b, c, k) || Keeps(b, c))
    ensures KeepsBut(a, c, k)
  {
  }

  lemma KeepsSelf(s: Manager)
    ensures Keeps(s, s)
  {
  }

  lemma KeepsTransitive(a: Manager, b: Manager, c: Manager)
    requires Keeps(a, b) && Keeps(b, c)
    ensures Keeps(a, c)
  {
  }

  // ---- elementary updates --------------------------------------------------------------------------

  /** The calls under the request of `k` are changed; the other open rounds belong to other requests. */
  lemma UpdateRound(s: Manager, t: Manager, k: nat, owed: multiset<nat>, owed': multiset<nat>)
    requires Inv(s, owed) && k < |s.rounds| == |t.rounds| && t.rounds == s.rounds[k := t.rounds[k]]
    requires t.current == s.current && t.trace == s.trace
    requires !s.rounds[k].closed && t.rounds[k].request == s.rounds[k].request && !t.rounds[k].closed
    requires forall key: Key :: key.request != s.rounds[k].request ==> Outstanding(t, key) >= Outstanding(s, key)
    requires RoundInv(t, k, owed') && forall j: nat :: j != k ==> owed'[j] == owed[j]
    ensures Inv(t, owed')
  {
    hide RoundOk, InFlight, Room, Outstanding, Completions, TallyOf;
    forall j | 0 <= j < |t.rounds| && j != k ensures RoundInv(t, j, owed') {
      assert RoundInv(s, j, owed) && t.rounds[j] == s.rounds[j];
      assert RoundInv(s, k, owed);
    }
  }

  /** Nothing but what is outstanding changes, and for calls in flight not even that. */
  lemma SameRounds(s: Manager, t: Manager, owed: multiset<nat>)
    requires Inv(s, owed) && t.rounds == s.rounds && t.current == s.current && t.trace == s.trace
    requires forall k :: 0 <= k < |s.rounds| && !s.rounds[k].closed && Tracked(s, s.rounds[k]) ==> Tracked(t, t.rounds[k])
    ensures Inv(t, owed)
  {
    hide RoundOk, Room, Tracked, Completions, TallyOf;
    forall j | 0 <= j < |t.rounds| ensures RoundInv(t, j, owed) {
      assert RoundInv(s, j, owed);
    }
  }

  lemma Less(s: Manager, owed: multiset<nat>, k: nat)
    requires Inv(s, owed + multiset{k}) && k < |s.rounds|
    requires s.rounds[k].closed
    ensures Inv(s, owed)
  {
    hide RoundOk, Tracked, MapOk, TraceOk, TallyOf, Open;
    forall j | 0 <= j < |s.rounds| ensures RoundInv(s, j, owed) {
      assert RoundInv(s, j, owed + multiset{k});
      assert (owed + multiset{k})[j] == owed[j] + if j == k then 1 else 0;
    }
    forall j | j in owed ensures j < |s.rounds| {
      assert j in owed + multiset{k};
    }
  }

  /** A signal, or a note that leaves the tally of every round. */
  lemma NoteOk(s: Manager, g: Signal, owed: multiset<nat>)
    requires Inv(s, owed) && !g.Complete? && forall t: Tally, k: nat :: Counted(t, g, k) == t
    ensures Inv(Note(s, g), owed) && Keeps(s, Note(s, g))
  {
    var t := Note(s, g);
    forall k: nat ensures TallyOf(t.trace, k) == TallyOf(s.trace, k) {
      TallySnoc(s.trace, g, k);
    }
    hide RoundOk, Room, TallyOf, Counted;
    TraceSnoc(s, t, g);
    hide TraceOk;
    forall j | 0 <= j < |t.rounds| ensures RoundInv(t, j, owed) {
      assert RoundInv(s, j, owed);
    }
  }

  /** A note about one round, for which there is room. */
  lemma RecordOk(s: Manager, g: Signal, k: nat, owed: multiset<nat>, owed': multiset<nat>)
    requires Inv(s, owed) && !g.Complete? && k < |s.rounds|
    requires forall t: Tally, j: nat :: j != k ==> Counted(t, g, j) == t
    requires forall j: nat :: j != k ==> owed'[j] == owed[j]
    requires RoundOk(s.rounds[k]) && (!s.rounds[k].closed ==> Room(s.rounds[k], Counted(TallyOf(s.trace, k), g, k), owed'[k]))
    ensures Inv(Note(s, g), owed') && Keeps(s, Note(s, g))
  {
    hide RoundOk, Room, TallyOf, Counted, TraceOk, RoundInv;
    var t := Note(s, g);
    forall j: nat ensures TallyOf(t.trace, j) == Counted(TallyOf(s.trace, j), g, j) {
      TallySnoc(s.trace, g, j);
    }
    TraceSnoc(s, t, g);
    forall j | 0 <= j < |t.rounds| ensures RoundInv(t, j, owed') {
      assert RoundInv(s, j, owed);
      Recorded(s, g, j, owed, owed');
    }
    forall j | j in owed' ensures j < |t.rounds| {
      assert j != k ==> j in owed;
    }
  }

  lemma Recorded(s: Manager, g: Signal, j: nat, owed: multiset<nat>, owed': multiset<nat>)
    requires j < |s.rounds| && RoundInv(s, j, owed)
    requires (TallyOf(s.trace + [g], j) == TallyOf(s.trace, j) && owed'[j] == owed[j])
          || (!s.rounds[j].closed ==> Room(s.rounds[j], TallyOf(s.trace + [g], j), owed'[j]))
    ensures RoundInv(Note(s, g), j, owed')
  {
    hide RoundOk, Room, TallyOf;
    assert Tracked(s, s.rounds[j]) ==> Tracked(Note(s, g), s.rounds[j]);
  }

  lemma TraceSnoc(s: Manager, t: Manager, g: Signal)
    requires TraceOk(s) && t == s.(trace := s.trace + [g]) && !g.Complete?
    requires forall k: nat :: k >= |s.rounds| ==> TallyOf(t.trace, k) == TallyOf(s.trace, k)
    ensures TraceOk(t)
  {
    hide TallyOf;
    forall k: nat ensures Completions(t.trace, k) == Completions(s.trace, k) {
      assert t.trace[..|t.trace| - 1] == s.trace;
    }
    forall i | 0 <= i < |t.trace| ensures IsComplete(t, t.trace[i]) {
      if i < |s.trace| {
        assert IsComplete(s, s.trace[i]);
      }
    }
  }

  // ---- queueing, cleaning up ------------------------------------------------------------------------

  lemma CleanupOk(s: Manager, request: string, owed: multiset<nat>)
    requires Inv(s, owed)
    ensures Inv(CleanupRequest(s, request), owed) && Keeps(s, CleanupRequest(s, request))
  {
    var t := CleanupRequest(s, request);
    KeepsSelf(s);
    if request in s.current {
      var k := s.current[request];
      assert RoundInv(s, k, owed);
      AbandonedOk(s.rounds[k]);
      hide RoundOk, Room, TallyOf;
      ClosedTrace(s, t, k);
      hide TraceOk;
      forall j | 0 <= j < |t.rounds| ensures RoundInv(t, j, owed) {
        assert RoundInv(s, j, owed);
        if j != k && !t.rounds[j].closed {
          assert s.rounds[j].request != request;
        }
      }
    }
  }

  lemma AbandonedOk(r: Round)
    requires RoundOk(r)
    ensures RoundOk(Abandoned(r))
  {
  }

  /** Closing a round says nothing new about what was completed. */
  lemma ClosedTrace(s: Manager, t: Manager, k: nat)
    requires TraceOk(s) && k < |s.rounds| && t.trace == s.trace && |t.rounds| == |s.rounds|
    requires t.rounds == s.rounds[k := t.rounds[k]] && t.rounds[k].queued == s.rounds[k].queued
    requires s.rounds[k].closed ==> t.rounds[k].closed
    requires t.rounds[k].pending == []
          || (t.rounds[k].pending == s.rounds[k].pending && t.rounds[k].closed == s.rounds[k].closed)
    ensures TraceOk(t)
  {
    hide Completions, Results, TallyOf;
    if t.rounds[k].pending != [] {
      SameResults(s.rounds[k], t.rounds[k]);
    }
    forall i | 0 <= i < |t.trace| ensures IsComplete(t, t.trace[i]) {
      assert IsComplete(s, s.trace[i]);
    }
  }

  lemma SameResults(r: Round, t: Round)
    requires t.pending == r.pending
    ensures Results(t) == Results(r)
  {
  }

  /** A round's own change, its request, openness and history kept. */
  lemma KeepsUpdate(s: Manager, t: Manager, k: nat)
    requires k < |s.rounds| == |t.rounds| && t.rounds == s.rounds[k := t.rounds[k]] && t.starting == s.starting
    requires t.rounds[k].request == s.rounds[k].request && !s.rounds[k].closed
    requires if s.rounds[k].advancing then Steady(s.rounds[k], t.rounds[k]) else !t.rounds[k].advancing
    ensures Keeps(s, t)
  {
  }

  lemma {:induction false} OpenMore(a: seq<PendingTool>, b: seq<PendingTool>, n: nat)
    requires a <= b && |a| <= n <= |b| && forall i :: |a| <= i < n ==> b[i].result.None?
    ensures Open(b, n) == Open(a, |a|) + n - |a|
    decreases n
  {
    if n > |a| {
      OpenMore(a, b, n - 1);
    } else {
      OpenPrefix(a, b, n);
    }
  }

  /** More calls are queued, after a note if there were none left. */
  lemma RoomQueued(r: Round, r': Round, t: Tally, owed: nat)
    requires r.next <= |r.pending| && r.pending <= r'.pending && r'.next == r.next && Room(r, t, owed)
    requires forall i :: |r.pending| <= i < |r'.pending| ==> r'.pending[i].result.None?
    requires r.next < |r.pending| || t.refills > 0
    ensures Room(r', t, owed)
  {
    OpenPrefix(r.pending, r'.pending, r.next);
    OpenMore(r.pending, r'.pending, |r'.pending|);
  }

  /** A round is owed one drive more, unless it is being advanced already. */
  function Owing(owed: multiset<nat>, k: nat, advancing: bool): multiset<nat> {
    if advancing then owed else owed + multiset{k}
  }

  lemma QueueOk(s: Manager, request: string, calls: seq<Request>, owed: multiset<nat>)
    requires Inv(s, owed) && calls != []
    ensures var t := Queue(s, request, calls);
            && HasRound(t, request) && Keeps(s, t)
            && Inv(t, Owing(owed, t.current[request], t.rounds[t.current[request]].advancing))
  {
    var k := if HasRound(s, request) then s.current[request] else |s.rounds|;
    var t := Queue(s, request, calls);
    if HasRound(s, request) {
      QueueMore(s, request, calls, owed);
    } else {
      QueueNew(s, request, calls, owed);
    }
  }

  lemma QueueMore(s: Manager, request: string, calls: seq<Request>, owed: multiset<nat>)
    requires Inv(s, owed) && calls != [] && HasRound(s, request)
    ensures var t, k := Queue(s, request, calls), s.current[request];
            && |t.rounds| == |s.rounds| && t.current == s.current && t.rounds[k].advancing == s.rounds[k].advancing
            && Inv(t, Owing(owed, k, s.rounds[k].advancing)) && Keeps(s, t) && !t.rounds[k].closed
  {
    var k := s.current[request];
    var r := s.rounds[k];
    var r' := AddCalls(r, calls);
    var g := Begun(k, r.advancing, r.next >= |r.pending|);
    var owed' := Owing(owed, k, r.advancing);
    var u := Note(s, g);
    var t := Put(u, k, r');
    assert Queue(s, request, calls) == t;
    assert RoundInv(s, k, owed);
    AddCallsOk(r, calls);
    BegunOk(s, k, owed);
    assert RoundInv(u, k, owed') && (r.next < |r.pending| || TallyOf(u.trace, k).refills > 0) by {
      TallySnoc(s.trace, g, k);
    }
    RoomQueued(r, r', TallyOf(u.trace, k), owed'[k]);
    OpenPrefix(r.pending, r'.pending, r.next);
    hide AddCalls, Queue, Outstanding, TallyOf, Room, TraceOk;
    assert RoundOk(r') && Tracked(t, r');
    hide RoundOk, Tracked;
    UpdateRound(u, t, k, owed', owed');
    KeepsUpdate(u, t, k);
    KeepsTransitive(s, u, t);
  }

  lemma BegunOk(s: Manager, k: nat, owed: multiset<nat>)
    requires Inv(s, owed) && k < |s.rounds| && !s.rounds[k].closed
    ensures var r := s.rounds[k];
            var u := Note(s, Begun(k, r.advancing, r.next >= |r.pending|));
            Inv(u, Owing(owed, k, r.advancing)) && Keeps(s, u)
  {
    var r := s.rounds[k];
    assert RoundInv(s, k, owed);
    hide TraceOk, Tracked, Open;
    RecordOk(s, Begun(k, r.advancing, r.next >= |r.pending|), k, owed, Owing(owed, k, r.advancing));
  }

  lemma QueueNew(s: Manager, request: string, calls: seq<Request>, owed: multiset<nat>)
    requires Inv(s, owed) && calls != [] && !HasRound(s, request)
    ensures var t, k := Queue(s, request, calls), |s.rounds|;
            && request in t.current && t.current[request] == k && |t.rounds| == k + 1
            && !t.rounds[k].closed && !t.rounds[k].advancing
            && Inv(t, owed + multiset{k}) && Keeps(s, t)
  {
    var k := |s.rounds|;
    var r := Round(request, [], 0, false, false, [], []);
    var t := Queue(s, request, calls);
    var g := Begun(k, false, false);
    AddCallsOk(r, calls);
    var r' := AddCalls(r, calls);
    OpenMore([], r'.pending, |r'.pending|);
    assert t.rounds == s.rounds + [r'] && t.trace == s.trace + [g];
    forall j: nat ensures TallyOf(t.trace, j) == Counted(TallyOf(s.trace, j), g, j) {
      TallySnoc(s.trace, g, j);
    }
    hide AddCalls, Outstanding, Queue, TallyOf;
    assert RoundOk(r') && k !in owed;
    assert Room(r', TallyOf(t.trace, k), 1);
    hide RoundOk, Room;
    NewTrace(s, s.(rounds := t.rounds));
    TraceSnoc(s.(rounds := t.rounds), s.(rounds := t.rounds).(trace := t.trace), g);
    TraceAlone(s.(rounds := t.rounds).(trace := t.trace), t);
    NewMap(s, t, request, k);
    hide TraceOk, MapOk, Counted;
    forall j | 0 <= j < k ensures RoundInv(t, j, owed + multiset{k}) {
      OldRound(s, t, j, request, owed);
    }
  }

  lemma TraceAlone(s: Manager, t: Manager)
    requires TraceOk(s) && t.trace == s.trace && t.rounds == s.rounds
    ensures TraceOk(t)
  {
    hide Completions, TallyOf, Results;
    forall i | 0 <= i < |t.trace| ensures IsComplete(t, t.trace[i]) {
      assert IsComplete(s, s.trace[i]);
    }
  }

  lemma NewMap(s: Manager, t: Manager, request: string, k: nat)
    requires MapOk(s) && k == |s.rounds| && |t.rounds| == k + 1 && t.current == s.current[request := k]
    requires forall j :: 0 <= j < k ==> t.rounds[j] == s.rounds[j]
    requires t.rounds[k].request == request
    ensures MapOk(t)
  {
  }

  lemma OldRound(s: Manager, t: Manager, j: nat, request: string, owed: multiset<nat>)
    requires Inv(s, owed) && j < |s.rounds| < |t.rounds| && t.rounds[j] == s.rounds[j]
    requires !HasRound(s, request) && t.current == s.current[request := |s.rounds|]
    requires t.gates == s.gates && t.starting == s.starting && t.running == s.running
    requires TallyOf(t.trace, j) == TallyOf(s.trace, j)
    ensures RoundInv(t, j, owed + multiset{|s.rounds|})
  {
    hide RoundOk, Room, Tracked, TraceOk, TallyOf;
    assert RoundInv(s, j, owed);
    SameOutstanding(s, t, s.rounds[j]);
  }

  lemma SameOutstanding(s: Manager, t: Manager, r: Round)
    requires t.gates == s.gates && t.starting == s.starting && t.running == s.running
    ensures Tracked(s, r) ==> Tracked(t, r)
  {
  }

  lemma NewTrace(s: Manager, t: Manager)
    requires TraceOk(s) && t.trace == s.trace && |s.rounds| <= |t.rounds|
    requires forall k :: 0 <= k < |s.rounds| ==> t.rounds[k] == s.rounds[k]
    requires forall k :: |s.rounds| <= k < |t.rounds| ==> !t.rounds[k].closed
    ensures TraceOk(t)
  {
    hide Completions, Results, TallyOf;
    forall i | 0 <= i < |t.trace| ensures IsComplete(t, t.trace[i]) {
      assert IsComplete(s, s.trace[i]);
    }
  }

  // ---- dispatching one call --------------------------------------------------------------------------

  lemma TakenOk(r: Round)
    requires RoundOk(r) && r.next < |r.pending| && !r.closed
    ensures RoundOk(Taken(r))
    ensures InFlight(Taken(r)) == InFlight(r) + (if r.pending[r.next].result.None? then 1 else 0)
  {
    assert r.queued[..r.next + 1] == r.queued[..r.next] + [r.queued[r.next]];
  }

  /** A call is dispatched, whatever its result, on behalf of a drive that was owed. */
  lemma RoomTaken(r: Round, t: Tally, owed: nat)
    requires RoundOk(r) && r.next < |r.pending| && !r.closed && Room(r, t, owed + 1)
    ensures Room(Taken(r), t, owed)
    ensures r.pending[r.next].result.Some? ==> Waiting(Taken(r)) + 1 == Waiting(r)
  {
    TakenOk(r);
    hide RoundOk, Open;
  }

  /** A call of the round becomes outstanding, by a question to the gate or by its start. */
  lemma AwaitedOk(s: Manager, t: Manager, k: nat, owed: multiset<nat>)
    requires Inv(s, owed + multiset{k}) && k < |s.rounds| && s.rounds[k].advancing && s.rounds[k].next < |s.rounds[k].pending|
    requires var r := s.rounds[k];
             var key := Key(r.request, r.pending[r.next].id);
             && t == Put(s, k, Taken(r)).(gates := t.gates, starting := t.starting)
             && ((t.gates == s.gates + multiset{key} && t.starting == s.starting)
                 || (t.gates == s.gates && t.starting == s.starting + multiset{key}))
    ensures Inv(t, owed) && !t.rounds[k].closed && t.rounds[k] == Taken(s.rounds[k])
  {
    var r := s.rounds[k];
    assert RoundInv(s, k, owed + multiset{k});
    TakenOk(r);
    RoomTaken(r, TallyOf(s.trace, k), owed[k]);
    AwaitedTracked(s, t, r);
    hide RoundOk, Room, Tracked, Taken, TraceOk, TallyOf;
    assert RoundInv(t, k, owed) by {
      hide Outstanding;
    }
    UpdateRound(s, t, k, owed + multiset{k}, owed);
  }

  lemma AwaitedTracked(s: Manager, t: Manager, r: Round)
    requires r.next < |r.pending| && t.running == s.running
    requires var key := Key(r.request, r.pending[r.next].id);
             || (t.gates == s.gates + multiset{key} && t.starting == s.starting)
             || (t.gates == s.gates && t.starting == s.starting + multiset{key})
    requires Tracked(s, r)
    ensures Tracked(t, Taken(r))
  {
  }

  /** A tool that is not there: its call is settled on the spot. */
  lemma MissingOk(s: Manager, t: Manager, k: nat, result: ToolResult, owed: multiset<nat>)
    requires Inv(s, owed + multiset{k}) && k < |s.rounds| && s.rounds[k].advancing && s.rounds[k].next < |s.rounds[k].pending|
    requires var r := s.rounds[k]; r.pending[r.next].result.None?
    requires var r := s.rounds[k];
             Unsettled(Taken(r), r.pending[r.next].id)
             && t == Put(s, k, Settle(Taken(r), r.pending[r.next].id, result))
    ensures Inv(t, owed + multiset{k}) && !t.rounds[k].closed && KeepsBut(s, t, k)
  {
    var r := s.rounds[k];
    var r' := t.rounds[k];
    assert RoundInv(s, k, owed + multiset{k});
    TakenOk(r);
    SettleNext(r, r.next, result);
    RoomMissing(r, TallyOf(s.trace, k), (owed + multiset{k})[k], result);
    MissingTracked(s, t, r, r');
    hide RoundOk, Room, Tracked, Taken, Settle, TraceOk, Outstanding, TallyOf;
    UpdateRound(s, t, k, owed + multiset{k}, owed + multiset{k});
  }

  lemma RoomMissing(r: Round, t: Tally, owed: nat, result: ToolResult)
    requires RoundOk(r) && r.next < |r.pending| && !r.closed && r.pending[r.next].result.None? && Room(r, t, owed)
    ensures Unsettled(Taken(r), r.pending[r.next].id) && Room(Settle(Taken(r), r.pending[r.next].id, result), t, owed)
  {
    SettleNext(r, r.next, result);
    OpenChanges(r.pending, r.next, |r.pending|, result);
    hide RoundOk, Settle, Open;
  }

  lemma SettleNext(r: Round, i: nat, result: ToolResult)
    requires RoundOk(r) && i == r.next < |r.pending| && !r.closed && r.pending[i].result.None?
    ensures Unsettled(Taken(r), r.pending[i].id)
    ensures var t := Settle(Taken(r), r.pending[i].id, result);
            && RoundOk(t) && InFlight(t) == InFlight(r) && !t.closed && t.request == r.request && t.advancing == r.advancing
            && t.queued == r.queued && t.next == r.next + 1
            && t.pending == r.pending[i := r.pending[i].(result := Some(result))]
  {
    TakenOk(r);
    FindIs(r.pending, i);
    OpenChanges(r.pending, i, i + 1, result);
    var t := Settle(Taken(r), r.pending[i].id, result);
    assert Ids(t.pending) == Ids(r.pending);
  }

  lemma MissingTracked(s: Manager, t: Manager, r: Round, r': Round)
    requires Tracked(s, r) && r.next < |r.pending| && r'.request == r.request && r'.next == r.next + 1
    requires t.gates == s.gates && t.starting == s.starting && t.running == s.running
    requires exists result :: r'.pending == r.pending[r.next := r.pending[r.next].(result := Some(result))]
    ensures Tracked(t, r')
  {
  }

  // ---- whatever the application calls from inside a signal ------------------------------------------------

  lemma {:induction false} EmitOk(s: Manager, g: Signal, owed: multiset<nat>)
    requires Inv(s.(trace := s.trace + [g]), owed)
    ensures Inv(Emit(s, g), owed) && Keeps(s, Emit(s, g))
    decreases |s.script|, 0
  {
    hide Inv, Keeps, RunCalls;
    var s1 := s.(trace := s.trace + [g]);
    NotedKeeps(s, g);
    if s1.script != [] {
      var s2 := s1.(script := s1.script[1..]);
      ScriptOk(s1, s2, owed);
      RunCallsOk(s2, s1.script[0], owed);
      KeepsTransitive(s, s2, RunCalls(s2, s1.script[0]));
    }
  }

  lemma NotedKeeps(s: Manager, g: Signal)
    ensures Keeps(s, s.(trace := s.trace + [g]))
    ensures s.script != [] ==> Keeps(s, s.(trace := s.trace + [g]).(script := s.script[1..]))
  {
  }

  lemma ScriptOk(s: Manager, t: Manager, owed: multiset<nat>)
    requires Inv(s, owed) && t == s.(script := t.script, tools := t.tools, gate := t.gate)
    ensures Inv(t, owed) && Keeps(s, t)
  {
    hide RoundOk, Room, Completions, TallyOf;
    forall i | 0 <= i < |t.trace| ensures IsComplete(t, t.trace[i]) {
      assert IsComplete(s, s.trace[i]);
    }
    forall j | 0 <= j < |t.rounds| ensures RoundInv(t, j, owed) {
      assert RoundInv(s, j, owed);
    }
  }

  lemma {:induction false} RunCallsOk(s: Manager, calls: seq<Call>, owed: multiset<nat>)
    requires Inv(s, owed)
    ensures Inv(RunCalls(s, calls), owed) && Keeps(s, RunCalls(s, calls))
    decreases |s.script|, 9, |calls|
  {
    hide Inv, Keeps, Do;
    KeepsSelf(s);
    if calls != [] {
      DoOk(s, calls[0], owed);
      RunCallsOk(Do(s, calls[0]), calls[1..], owed);
      KeepsTransitive(s, Do(s, calls[0]), RunCalls(s, calls));
    }
  }

  lemma {:induction false} DoOk(s: Manager, call: Call, owed: multiset<nat>)
    requires Inv(s, owed)
    ensures Inv(Do(s, call), owed) && Keeps(s, Do(s, call))
    decreases |s.script|, 8
  {
    hide Inv, Keeps, BeginRound, CleanupRequest;
    KeepsSelf(s);
    match call
    case Begin(request, calls) =>
      if calls != [] {
        BeginRoundOk(s, request, calls, owed);
      }
    case Cleanup(request) => CleanupOk(s, request, owed);
    case _ => ScriptOk(s, Do(s, call), owed);
  }

  lemma {:induction false} BeginRoundOk(s: Manager, request: string, calls: seq<Request>, owed: multiset<nat>)
    requires Inv(s, owed) && calls != []
    ensures Inv(BeginRound(s, request, calls), owed) && Keeps(s, BeginRound(s, request, calls))
    decreases |s.script|, 7
  {
    hide Inv, Keeps, Queue, Drive;
    var t := Queue(s, request, calls);
    QueueOk(s, request, calls, owed);
    var k := t.current[request];
    if t.rounds[k].advancing {
      DriveNothing(t, request);
      KeepsSelf(t);
    } else {
      DriveOwedOk(t, request, owed);
    }
    KeepsTransitive(s, t, Drive(t, request));
  }

  lemma DriveNothing(s: Manager, request: string)
    requires !HasRound(s, request) || s.rounds[s.current[request]].advancing
    ensures Drive(s, request) == s
  {
  }

  /** Driving a round that has room for another call in flight. */
  lemma {:induction false} DriveOwedOk(s: Manager, request: string, owed: multiset<nat>)
    requires HasRound(s, request) && !s.rounds[s.current[request]].advancing
    requires Inv(s, owed + multiset{s.current[request]})
    ensures Inv(Drive(s, request), owed) && Keeps(s, Drive(s, request))
    decreases |s.script|, 6, Remaining(s.rounds), 3
  {
    var k := s.current[request];
    var r := s.rounds[k].(advancing := true);
    var s1 := Put(s, k, r);
    AdvancingOk(s, k, true, owed + multiset{k});
    RemainingUpdate(s.rounds, k, r);
    AdvanceOk(s1, k, owed);
    var s2 := Advance(s1, k);
    var s3 := Put(s2, k, s2.rounds[k].(advancing := false));
    DriveIs(s, request);
    RestedKeeps(s, s1, s2, k);
    RemainingUpdate(s2.rounds, k, s2.rounds[k].(advancing := false));
    hide Inv, Keeps, Advance, Drive, RoundOk, KeepsBut, Finish;
    if Inv(s2, owed) {
      AdvancingOk(s2, k, false, owed);
      FinishOk(s3, k, owed, owed);
    } else {
      AdvancingOk(s2, k, false, owed + multiset{k});
      FinishOk(s3, k, owed + multiset{k}, owed);
    }
    KeepsTransitive(s, s3, Finish(s3, k));
  }

  lemma DriveIs(s: Manager, request: string)
    requires HasRound(s, request) && !s.rounds[s.current[request]].advancing
    ensures var k := s.current[request];
            var s2 := Advance(Put(s, k, s.rounds[k].(advancing := true)), k);
            && k < |s2.rounds|
            && Drive(s, request) == Finish(Put(s2, k, s2.rounds[k].(advancing := false)), k)
  {
    hide Advance, Finish;
  }

  /** Whether a round is being advanced is no part of its invariant. */
  lemma AdvancingOk(s: Manager, k: nat, advancing: bool, owed: multiset<nat>)
    requires Inv(s, owed) && k < |s.rounds| && (advancing ==> !s.rounds[k].closed)
    ensures Inv(Put(s, k, s.rounds[k].(advancing := advancing)), owed)
  {
    var t := Put(s, k, s.rounds[k].(advancing := advancing));
    assert RoundInv(s, k, owed);
    assert RoundOk(t.rounds[k]);
    AdvancingTracked(s, t, s.rounds[k], advancing);
    ClosedTrace(s, t, k);
    hide RoundOk, Tracked, TraceOk, TallyOf, Open;
    forall j | 0 <= j < |t.rounds| ensures RoundInv(t, j, owed) {
      assert RoundInv(s, j, owed);
      SameOutstanding(s, t, s.rounds[j]);
    }
  }

  lemma AdvancingTracked(s: Manager, t: Manager, r: Round, advancing: bool)
    requires t.gates == s.gates && t.starting == s.starting && t.running == s.running
    ensures Tracked(s, r) ==> Tracked(t, r.(advancing := advancing))
  {
  }

  lemma SameKeys(s: Manager, t: Manager)
    requires t.gates == s.gates && t.starting == s.starting && t.running == s.running
    ensures forall key :: Outstanding(t, key) == Outstanding(s, key)
  {
  }

  lemma RestedKeeps(s: Manager, s1: Manager, s2: Manager, k: nat)
    requires k < |s.rounds| && s1 == Put(s, k, s.rounds[k].(advancing := true)) && KeepsBut(s1, s2, k)
    requires !s.rounds[k].advancing && !s.rounds[k].closed
    ensures Keeps(s, Put(s2, k, s2.rounds[k].(advancing := false)))
  {
  }

  /** A settled round is reported, once. */
  lemma {:induction false} FinishOk(s: Manager, k: nat, owed': multiset<nat>, owed: multiset<nat>)
    requires k < |s.rounds| && !s.rounds[k].advancing && Inv(s, owed')
    requires owed' == owed || (owed' == owed + multiset{k} && (s.rounds[k].closed || IsSettled(s.rounds[k])))
    ensures Inv(Finish(s, k), owed) && Keeps(s, Finish(s, k))
    decreases |s.script|, 1
  {
    KeepsSelf(s);
    var r := s.rounds[k];
    if r.closed || !IsSettled(r) {
      if owed' != owed {
        Less(s, owed, k);
      }
    } else {
      var t := Put(s, k, r.(closed := true));
      var g := Complete(k, Results(r));
      CompleteOk(s, k, owed', owed);
      hide Inv, Keeps, Emit, IsSettled, Results;
      EmitOk(t, g, owed);
      ClosedKeeps(s, k);
      KeepsTransitive(s, t, Emit(t, g));
    }
  }

  lemma ClosedKeeps(s: Manager, k: nat)
    requires k < |s.rounds| && !s.rounds[k].advancing
    ensures Keeps(s, Put(s, k, s.rounds[k].(closed := true)))
  {
  }

  lemma CompleteOk(s: Manager, k: nat, owed': multiset<nat>, owed: multiset<nat>)
    requires k < |s.rounds| && !s.rounds[k].advancing && !s.rounds[k].closed && Inv(s, owed')
    requires owed' == owed || owed' == owed + multiset{k}
    requires IsSettled(s.rounds[k])
    ensures var t := Put(s, k, s.rounds[k].(closed := true));
            Inv(t.(trace := t.trace + [Complete(k, Results(s.rounds[k]))]), owed)
  {
    var r := s.rounds[k];
    var t := Put(s, k, r.(closed := true));
    var g := Complete(k, Results(r));
    var u := t.(trace := t.trace + [g]);
    assert RoundInv(s, k, owed');
    ResultsKeys(r);
    assert RoundOk(u.rounds[k]);
    forall j: nat ensures TallyOf(u.trace, j) == TallyOf(s.trace, j) {
      TallySnoc(s.trace, g, j);
    }
    hide TallyOf;
    CompletedTrace(s, u, k, g);
    hide RoundOk, Room, TraceOk, Results, IsSettled;
    forall j | 0 <= j < |u.rounds| ensures RoundInv(u, j, owed) {
      assert RoundInv(s, j, owed');
      if j != k {
        SameOutstanding(s, u, s.rounds[j]);
        assert owed'[j] == owed[j];
      }
    }
    forall j | j in owed ensures j < |u.rounds| {
      assert j in owed';
    }
  }

  lemma ResultsKeys(r: Round)
    requires RoundOk(r) && !r.closed && IsSettled(r)
    ensures forall id :: id in Results(r) <==> id in r.queued
  {
    hide Find;
    forall i | 0 <= i < |r.pending| ensures Find(r.pending, r.pending[i].id) == i {
      FindIs(r.pending, i);
    }
    forall id | id in r.queued ensures id in Results(r) {
      var i :| 0 <= i < |r.queued| && r.queued[i] == id;
      assert Ids(r.pending)[i] == r.pending[i].id;
    }
    forall id | id in Results(r) ensures id in r.queued {
      var i :| 0 <= i < |r.pending| && r.pending[i].id == id;
      assert Ids(r.pending)[i] == id;
    }
  }

  lemma CompletedTrace(s: Manager, u: Manager, k: nat, g: Signal)
    requires TraceOk(s) && k < |s.rounds| && !s.rounds[k].closed
    requires u.rounds == s.rounds[k := s.rounds[k].(closed := true)] && u.trace == s.trace + [g]
    requires g.Complete? && g.round == k && forall id :: id in g.results <==> id in s.rounds[k].queued
    requires g.results == Results(s.rounds[k])
    requires forall j: nat :: TallyOf(u.trace, j) == TallyOf(s.trace, j)
    ensures TraceOk(u)
  {
    SameResults(s.rounds[k], u.rounds[k]);
    hide Results, TallyOf;
    forall j: nat ensures Completions(u.trace, j) == Completions(s.trace, j) + (if j == k then 1 else 0) {
      assert u.trace[..|u.trace| - 1] == s.trace;
    }
    hide Completions;
    forall i | 0 <= i < |u.trace| ensures IsComplete(u, u.trace[i]) {
      if i < |s.trace| {
        assert IsComplete(s, s.trace[i]);
      }
    }
  }

  // ---- advancing a round ---------------------------------------------------------------------------------

  lemma {:induction false} AdvanceOk(s: Manager, k: nat, owed: multiset<nat>)
    requires k < |s.rounds| && s.rounds[k].advancing && Inv(s, owed + multiset{k})
    ensures var t := Advance(s, k);
            && KeepsBut(s, t, k)
            && (Inv(t, owed) || (Inv(t, owed + multiset{k}) && IsSettled(t.rounds[k])))
    decreases |s.script|, 6, Remaining(s.rounds), 2
  {
    var r := s.rounds[k];
    if r.next >= |r.pending| {
      AdvanceEnds(s, k, owed);
    } else {
      KeepsButSelf(s, k);
      var call := r.pending[r.next];
      var s0 := Put(s, k, Taken(r));
      RemainingUpdate(s.rounds, k, Taken(r));
      AdvanceIs(s, k);
      TakeIs(s, k);
      StillOpen(s, k, owed + multiset{k});
      hide Inv, KeepsBut, Advance, Finalize, StartExecution, Drive, Emit, Taken, RoundOk, Take;
      if call.name !in s.tools {
        var t := MissingDispatched(s, k, owed);
        AdvanceOk(t, k, owed);
        KeepsButThen(s, t, Advance(s, k), k);
      } else if s.gate && s.tools[call.name] {
        AwaitedOk(s, Dispatch(s0, r.request, call).0, k, owed);
        AwaitedKeeps(s, Dispatch(s0, r.request, call).0, k, owed);
      } else {
        StartDispatched(s, k, owed);
      }
    }
  }

  lemma TakeIs(s: Manager, k: nat)
    requires k < |s.rounds| && s.rounds[k].next < |s.rounds[k].pending|
    ensures var r := s.rounds[k];
            var t := Put(s, k, Taken(r));
            Take(s, k) == if r.pending[r.next].name !in s.tools && r.pending[r.next].result.Some?
                          then Note(t, Skipped(k)) else t
  {
  }

  lemma KeepsButSelf(s: Manager, k: nat)
    requires k < |s.rounds| && s.rounds[k].advancing
    ensures KeepsBut(s, s, k)
  {
  }

  lemma AdvanceEnds(s: Manager, k: nat, owed: multiset<nat>)
    requires k < |s.rounds| && s.rounds[k].next >= |s.rounds[k].pending| && s.rounds[k].advancing
    requires Inv(s, owed + multiset{k})
    ensures var t := Advance(s, k);
            && KeepsBut(s, t, k)
            && (Inv(t, owed) || (Inv(t, owed + multiset{k}) && IsSettled(t.rounds[k])))
  {
    var r := s.rounds[k];
    assert RoundInv(s, k, owed + multiset{k});
    KeepsButSelf(s, k);
    NoneOpen(r.pending, r.next);
    assert !r.closed && !IsSettled(r) ==> InFlight(r) > 0;
    if r.closed {
      hide Inv;
      Less(s, owed, k);
    } else if !IsSettled(r) {
      hide Inv, RoundOk, RoundInv, KeepsBut, Open;
      IdledOk(s, k, owed);
    }
  }

  lemma IdledOk(s: Manager, k: nat, owed: multiset<nat>)
    requires k < |s.rounds| && s.rounds[k].advancing && !s.rounds[k].closed && !IsSettled(s.rounds[k])
    requires s.rounds[k].next >= |s.rounds[k].pending| && RoundOk(s.rounds[k]) && InFlight(s.rounds[k]) > 0
    requires Inv(s, owed + multiset{k}) && RoundInv(s, k, owed + multiset{k})
    ensures Advance(s, k) == Note(s, Idled(k)) && KeepsBut(s, Note(s, Idled(k)), k) && Inv(Note(s, Idled(k)), owed)
  {
    KeepsButSelf(s, k);
    hide TraceOk, Tracked, Open, TallyOf, MapOk, IsSettled;
    assert Room(s.rounds[k], Counted(TallyOf(s.trace, k), Idled(k), k), owed[k]);
    hide Room, Counted, Inv, RoundOk;
    assert forall u: Tally, j: nat :: j != k ==> Counted(u, Idled(k), j) == u by { OthersNotIdled(k); }
    RecordOk(s, Idled(k), k, owed + multiset{k}, owed);
    hide Keeps, KeepsBut;
    KeepsButThen(s, s, Note(s, Idled(k)), k);
  }

  lemma OthersNotIdled(k: nat)
    ensures forall u: Tally, j: nat :: j != k ==> Counted(u, Idled(k), j) == u
  {
  }

  lemma AdvanceIs(s: Manager, k: nat)
    requires k < |s.rounds| && s.rounds[k].next < |s.rounds[k].pending|
    ensures var r := s.rounds[k];
            var d := Dispatch(Take(s, k), r.request, r.pending[r.next]);
            k < |d.0.rounds| && Advance(s, k) == if d.1 then d.0 else Advance(d.0, k)
  {
    hide Dispatch, Take;
    RemainingUpdate(s.rounds, k, Taken(s.rounds[k]));
  }

  lemma StillOpen(s: Manager, k: nat, owed: multiset<nat>)
    requires k < |s.rounds| && s.rounds[k].advancing && s.rounds[k].next < |s.rounds[k].pending| && Inv(s, owed)
    ensures !s.rounds[k].closed && s.rounds[k].request in s.current && s.current[s.rounds[k].request] == k
    ensures RoundOk(s.rounds[k])
  {
    assert RoundInv(s, k, owed);
  }

  lemma AwaitedKeeps(s: Manager, t: Manager, k: nat, owed: multiset<nat>)
    requires k < |s.rounds| && s.rounds[k].advancing && !s.rounds[k].closed && s.rounds[k].next < |s.rounds[k].pending|
    requires t == Put(s, k, Taken(s.rounds[k])).(gates := t.gates) && Inv(t, owed)
    ensures KeepsBut(s, t, k)
  {
  }

  /** The tool of the next call is missing. */
  lemma {:induction false} MissingDispatched(s: Manager, k: nat, owed: multiset<nat>) returns (t: Manager)
    requires k < |s.rounds| && s.rounds[k].advancing && s.rounds[k].next < |s.rounds[k].pending|
    requires Inv(s, owed + multiset{k}) && s.rounds[k].pending[s.rounds[k].next].name !in s.tools
    ensures var r := s.rounds[k]; (t, false) == Dispatch(Take(s, k), r.request, r.pending[r.next])
    ensures KeepsBut(s, t, k) && Inv(t, owed + multiset{k}) && t.rounds[k].advancing
    decreases |s.script|, 6, Remaining(s.rounds), 1
  {
    hide Inv, KeepsBut, Finalize, Taken, RoundOk, Dispatch, InFlight, Unsettled, Take;
    var r := s.rounds[k];
    var call := r.pending[r.next];
    var s0 := Take(s, k);
    TakeIs(s, k);
    var result := ToolResult("Error: Tool not found: " + call.name, true);
    StillOpen(s, k, owed + multiset{k});
    t := Dispatch(s0, r.request, call).0;
    DispatchMissing(s0, r.request, call, result);
    if call.result.Some? {
      SkippedOk(s, k, owed);
      SkippedFinalize(s0, k, r.request, call.id, result);
    } else {
      MissingReported(s, k, result, owed);
    }
  }

  lemma {:induction false} MissingReported(s: Manager, k: nat, result: ToolResult, owed: multiset<nat>)
    requires k < |s.rounds| && s.rounds[k].advancing && s.rounds[k].next < |s.rounds[k].pending| && !s.rounds[k].closed
    requires s.rounds[k].request in s.current && s.current[s.rounds[k].request] == k && RoundOk(s.rounds[k])
    requires Inv(s, owed + multiset{k}) && s.rounds[k].pending[s.rounds[k].next].result.None?
    ensures var r := s.rounds[k];
            var t := Finalize(Put(s, k, Taken(r)), r.request, r.pending[r.next].id, result, false);
            KeepsBut(s, t, k) && Inv(t, owed + multiset{k}) && k < |t.rounds| && t.rounds[k].advancing
    decreases |s.script|, 6, Remaining(s.rounds), 0
  {
    hide Inv, KeepsBut, Keeps, Finalize, Drive, Emit, ResultText, RoundOk, InFlight, Settle, Taken, Unsettled;
    var r := s.rounds[k];
    var call := r.pending[r.next];
    var s0 := Put(s, k, Taken(r));
    SettleNext(r, r.next, result);
    FoundName(r, r.next);
    var s1 := Put(s, k, Settle(Taken(r), call.id, result));
    var g := Reported(r.request, call.id, call.name, ResultText(result, false));
    assert Put(s0, k, Settle(Taken(r), call.id, result)) == s1;
    TakenRequest(r);
    FinalizeIs(s0, k, r.request, call.id, result, false);
    MissingOk(s, s1, k, result, owed);
    RemainingUpdate(s.rounds, k, s1.rounds[k]);
    var s2 := Note(s1, Settled(k, false));
    NoteOk(s1, Settled(k, false), owed + multiset{k});
    NoteOk(s2, g, owed + multiset{k});
    EmitOk(s2, g, owed + multiset{k});
    var s3 := Emit(s2, g);
    KeepsTransitive(s1, s2, s3);
    KeepsButThen(s, s1, s3, k);
    StillAdvances(s, s3, k);
    var s4 := Note(s3, Returned(k, Under(s3, r.request)));
    ReturnedOk(s2, s3, k, r.request, owed + multiset{k}, owed + multiset{k});
    KeepsButThen(s, s3, s4, k);
    if Under(s3, r.request) == None || Under(s3, r.request) == Some(k) {
      DriveNothing(s4, r.request);
      StillAdvances(s, s4, k);
    } else {
      DriveOwedOk(s4, r.request, owed + multiset{k});
      KeepsButThen(s, s4, Drive(s4, r.request), k);
      StillAdvances(s, Drive(s4, r.request), k);
    }
  }

  /** Another round that is found after a report is a new one, and there is room for driving it. */
  lemma ReturnedOk(s: Manager, t: Manager, k: nat, request: string, before: multiset<nat>, owed: multiset<nat>)
    requires Inv(s, before) && Inv(t, owed) && Keeps(s, t)
    requires k < |s.rounds| && request in s.current && s.current[request] == k
    ensures var under := Under(t, request);
            var u := Note(t, Returned(k, under));
            && Keeps(t, u)
            && (if under.Some? && under.value != k then !t.rounds[under.value].advancing && Inv(u, owed + multiset{under.value})
                else Inv(u, owed))
  {
    var under := Under(t, request);
    var g := Returned(k, under);
    hide TraceOk, Tracked, RoundOk, Open, TallyOf;
    if under.Some? && under.value != k {
      var j := under.value;
      assert RoundInv(t, j, owed);
      RoundAt(s, j, before);
      RecordOk(t, g, j, owed, owed + multiset{j});
    } else {
      NoteOk(t, g, owed);
    }
  }

  lemma RoundAt(s: Manager, j: nat, owed: multiset<nat>)
    requires Inv(s, owed)
    ensures j < |s.rounds| ==> RoundInv(s, j, owed)
  {
  }

  lemma TakenRequest(r: Round)
    requires r.next < |r.pending|
    ensures Taken(r).request == r.request && Taken(r).next == r.next + 1
  {
  }

  lemma StillAdvances(s: Manager, t: Manager, k: nat)
    requires k < |s.rounds| && KeepsBut(s, t, k)
    ensures k < |t.rounds| && t.rounds[k].advancing
  {
  }

  lemma FoundName(r: Round, i: nat)
    requires RoundOk(r) && i == r.next < |r.pending|
    ensures Find(Taken(r).pending, r.pending[i].id) == i && Taken(r).pending == r.pending && i < Taken(r).next
  {
    FindIs(r.pending, i);
  }

  lemma DispatchMissing(s: Manager, request: string, call: PendingTool, result: ToolResult)
    requires call.name !in s.tools && result == ToolResult("Error: Tool not found: " + call.name, true)
    ensures Dispatch(s, request, call) == (Finalize(s, request, call.id, result, false), false)
  {
    hide Finalize;
  }

  lemma FinalizeIs(s: Manager, k: nat, request: string, id: string, result: ToolResult, success: bool)
    requires request in s.current && s.current[request] == k < |s.rounds| && Unsettled(s.rounds[k], id)
    ensures var r := s.rounds[k];
            var i := Find(r.pending, id);
            var s0 := Note(Put(s, k, Settle(r, id, result)), Settled(k, i >= r.next));
            var s1 := Emit(s0, Reported(request, id, r.pending[i].name, ResultText(result, success)));
            Finalize(s, request, id, result, success) == Drive(Note(s1, Returned(k, Under(s1, request))), request)
  {
    hide Drive, Emit;
    RemainingUpdate(s.rounds, k, Settle(s.rounds[k], id, result));
  }

  lemma SkippedFinalize(s: Manager, k: nat, request: string, id: string, result: ToolResult)
    requires k < |s.rounds| && request in s.current && s.current[request] == k && !Unsettled(s.rounds[k], id)
    ensures Finalize(s, request, id, result, false) == s
  {
    hide Drive, Emit;
  }

  /** A call that was settled before its turn, under a reused id. */
  lemma SkippedOk(s: Manager, k: nat, owed: multiset<nat>)
    requires Inv(s, owed + multiset{k}) && k < |s.rounds| && s.rounds[k].advancing && s.rounds[k].next < |s.rounds[k].pending|
    requires s.rounds[k].pending[s.rounds[k].next].result.Some?
    ensures var r := s.rounds[k];
            var t := Note(Put(s, k, Taken(r)), Skipped(k));
            && Inv(t, owed + multiset{k}) && KeepsBut(s, t, k)
            && !Unsettled(t.rounds[k], r.pending[r.next].id) && t.rounds[k].advancing
            && r.request in t.current && t.current[r.request] == k
  {
    var r := s.rounds[k];
    var t := Put(s, k, Taken(r));
    StillOpen(s, k, owed + multiset{k});
    assert RoundInv(s, k, owed + multiset{k});
    TakenOk(r);
    RoomTaken(r, TallyOf(s.trace, k), owed[k]);
    FindIs(r.pending, r.next);
    SkippedTracked(s, t, r);
    hide RoundOk, Tracked, TraceOk, TallyOf, Open;
    SkippedRoom(r, TallyOf(s.trace, k), owed[k]);
    hide Room;
    assert RoundInv(t, k, owed);
    hide Outstanding;
    SameKeys(s, t);
    UpdateRound(s, t, k, owed + multiset{k}, owed);
    RecordOk(t, Skipped(k), k, owed, owed + multiset{k});
    assert KeepsBut(s, t, k);
    hide Inv, Keeps, KeepsBut, Taken;
    KeepsButThen(s, t, Note(t, Skipped(k)), k);
  }

  /** The drive that came to a call to skip goes on. */
  lemma SkippedRoom(r: Round, t: Tally, owed: nat)
    requires RoundOk(r) && r.next < |r.pending| && !r.closed && r.pending[r.next].result.Some? && Room(r, t, owed + 1)
    ensures Room(Taken(r), t.(skipped := t.skipped + 1), owed + 1)
  {
    RoomTaken(r, t, owed);
    hide RoundOk, Open;
  }

  lemma SkippedTracked(s: Manager, t: Manager, r: Round)
    requires t.gates == s.gates && t.starting == s.starting && t.running == s.running
    requires Tracked(s, r) && r.next < |r.pending| && r.pending[r.next].result.Some?
    ensures Tracked(t, Taken(r))
  {
  }

  /** The next call is started. */
  lemma {:induction false} StartDispatched(s: Manager, k: nat, owed: multiset<nat>)
    requires k < |s.rounds| && s.rounds[k].advancing && s.rounds[k].next < |s.rounds[k].pending|
    requires Inv(s, owed + multiset{k})
    requires var call := s.rounds[k].pending[s.rounds[k].next]; call.name in s.tools && !(s.gate && s.tools[call.name])
    ensures var r := s.rounds[k];
            var t := Dispatch(Put(s, k, Taken(r)), r.request, r.pending[r.next]).0;
            Dispatch(Put(s, k, Taken(r)), r.request, r.pending[r.next]).1
            && KeepsBut(s, t, k) && Inv(t, owed)
    decreases |s.script|, 6, Remaining(s.rounds), 1
  {
    var r := s.rounds[k];
    var call := r.pending[r.next];
    var key := Key(r.request, call.id);
    var s1 := Put(s, k, Taken(r)).(starting := s.starting + multiset{key});
    AwaitedOk(s, s1, k, owed);
    StartIs(Put(s, k, Taken(r)), r.request, call);
    var s2 := Emit(s1, Started(r.request, call.id));
    var t := s2.(starting := s2.starting - multiset{key}, running := s2.running + {key});
    StillOpen(s, k, owed + multiset{k});
    TakenOk(r);
    hide Inv, KeepsBut, Emit, RoundOk, InFlight, Dispatch, Keeps, Taken;
    NoteOk(s1, Started(r.request, call.id), owed);
    EmitOk(s1, Started(r.request, call.id), owed);
    SwapOk(s2, t, key, owed);
    StartedKeeps(s, s1, s2, t, k, key);
  }

  lemma StartIs(s: Manager, request: string, call: PendingTool)
    requires call.name in s.tools && !(s.gate && s.tools[call.name])
    ensures var key := Key(request, call.id);
            var s2 := Emit(s.(starting := s.starting + multiset{key}), Started(request, call.id));
            Dispatch(s, request, call)
            == (s2.(starting := s2.starting - multiset{key}, running := s2.running + {key}), true)
  {
    hide Emit, Finalize;
  }

  /** A tool that was being started is running: it is awaited as before. */
  lemma SwapOk(s: Manager, t: Manager, key: Key, owed: multiset<nat>)
    requires Inv(s, owed) && key in s.starting
    requires t == s.(starting := s.starting - multiset{key}, running := s.running + {key})
    ensures Inv(t, owed)
  {
    forall k | 0 <= k < |s.rounds| && !s.rounds[k].closed && Tracked(s, s.rounds[k]) ensures Tracked(t, t.rounds[k]) {
      SwapTracked(s, t, key, s.rounds[k]);
    }
    hide Tracked;
    SameRounds(s, t, owed);
  }

  lemma SwapTracked(s: Manager, t: Manager, key: Key, r: Round)
    requires Tracked(s, r) && key in s.starting
    requires t == s.(starting := s.starting - multiset{key}, running := s.running + {key})
    ensures Tracked(t, r)
  {
    forall other | Outstanding(s, other) > 0 ensures Outstanding(t, other) > 0 {
    }
    hide Outstanding;
  }

  lemma StartedKeeps(s: Manager, s1: Manager, s2: Manager, t: Manager, k: nat, key: Key)
    requires k < |s.rounds| && s.rounds[k].advancing && !s.rounds[k].closed && s.rounds[k].next < |s.rounds[k].pending|
    requires s1 == Put(s, k, Taken(s.rounds[k])).(starting := s.starting + multiset{key}) && Keeps(s1, s2)
    requires t == s2.(starting := s2.starting - multiset{key}, running := s2.running + {key})
    ensures KeepsBut(s, t, k) && key in s2.starting
  {
    assert KeptRound(s1.rounds[k], s2.rounds[k]);
    assert s.starting + multiset{key} - multiset{key} == s.starting;
  }

  /** Between events no round is being advanced. */
  ghost predicate Idle(s: Manager) { forall k :: 0 <= k < |s.rounds| ==> !s.rounds[k].advancing }

  lemma IdleKept(s: Manager, t: Manager)
    requires Idle(s) && Keeps(s, t)
    ensures Idle(t)
  {
  }

  // ---- events ----------------------------------------------------------------------------------------------

  /** One awaited answer has come: the call is no longer outstanding, but not settled yet. */
  ghost predicate Answered(s: Manager, t: Manager, key: Key) {
    && t == s.(gates := t.gates, running := t.running)
    && Outstanding(s, key) > 0 && Outstanding(t, key) == Outstanding(s, key) - 1
    && forall other: Key :: other != key ==> Outstanding(t, other) == Outstanding(s, other)
  }

  /** An answer for a call that is not waiting, which takes a reused id or a round that is gone. */
  lemma UnheardOk(s: Manager, t: Manager, key: Key)
    requires Inv(s, multiset{}) && Answered(s, t, key)
    requires key.request !in s.current || !Unsettled(s.rounds[s.current[key.request]], key.id)
    ensures Inv(t, multiset{})
  {
    forall k | 0 <= k < |s.rounds| && !s.rounds[k].closed && Tracked(s, s.rounds[k]) ensures Tracked(t, t.rounds[k]) {
      UnheardTracked(s, t, key, k);
    }
    hide Tracked, Unsettled, Outstanding;
    SameRounds(s, t, multiset{});
  }

  lemma UnheardTracked(s: Manager, t: Manager, key: Key, k: nat)
    requires Inv(s, multiset{}) && Answered(s, t, key) && k < |s.rounds| && !s.rounds[k].closed && Tracked(s, s.rounds[k])
    requires key.request !in s.current || !Unsettled(s.rounds[s.current[key.request]], key.id)
    ensures Tracked(t, s.rounds[k])
  {
    var r := s.rounds[k];
    assert RoundInv(s, k, multiset{});
    hide TraceOk, Room, Outstanding;
    forall i | 0 <= i < |r.pending| && r.pending[i].result.None? ensures Key(r.request, r.pending[i].id) != key {
      FindIs(r.pending, i);
    }
  }

  lemma {:induction false} FinalizeOk(s: Manager, t: Manager, key: Key, result: ToolResult, success: bool)
    requires Inv(s, multiset{}) && Answered(s, t, key)
    requires Idle(s)
    ensures var u := Finalize(t, key.request, key.id, result, success); Inv(u, multiset{}) && Idle(u)
  {
    if key.request !in s.current || !Unsettled(s.rounds[s.current[key.request]], key.id) {
      UnheardOk(s, t, key);
      NothingFinalized(t, key, result, success);
    } else {
      var k := s.current[key.request];
      var r := s.rounds[k];
      var i := Find(r.pending, key.id);
      var g := Reported(key.request, key.id, r.pending[i].name, ResultText(result, success));
      var t1 := Note(Put(t, k, Settle(r, key.id, result)), Settled(k, i >= r.next));
      FinalizeIs(t, k, key.request, key.id, result, success);
      HeardOk(s, t, key, k, result);
      assert Idle(t1) && t1.current[key.request] == k;
      hide *;
      NoteOk(t1, g, multiset{k});
      EmitOk(t1, g, multiset{k});
      var t2 := Emit(t1, g);
      DriveAfterReport(t1, t2, k, key.request);
      var u := Finalize(t, key.request, key.id, result, success);
      KeepsTransitive(t1, t2, u);
      IdleKept(t1, u);
    }
  }

  lemma NothingFinalized(t: Manager, key: Key, result: ToolResult, success: bool)
    requires key.request !in t.current || t.current[key.request] >= |t.rounds|
             || !Unsettled(t.rounds[t.current[key.request]], key.id)
    ensures Finalize(t, key.request, key.id, result, success) == t
  {
    hide Drive, Emit;
  }

  lemma HeardOk(s: Manager, t: Manager, key: Key, k: nat, result: ToolResult)
    requires Inv(s, multiset{}) && Answered(s, t, key) && key.request in s.current && s.current[key.request] == k
    requires Unsettled(s.rounds[k], key.id)
    ensures var r := s.rounds[k];
            var t1 := Note(Put(t, k, Settle(r, key.id, result)), Settled(k, Find(r.pending, key.id) >= r.next));
            && Inv(t1, multiset{k})
            && t1.rounds[k].request == key.request
  {
    var r := s.rounds[k];
    var i := Find(r.pending, key.id);
    var g := Settled(k, i >= r.next);
    var s1 := Note(s, g);
    var t1 := Note(Put(t, k, Settle(r, key.id, result)), g);
    assert RoundInv(s, k, multiset{});
    SettledRound(r, key.id, result);
    RecordOk(s, g, k, multiset{}, multiset{}) by {
      hide RoundOk, Open, TallyOf;
    }
    TallySnoc(s.trace, g, k);
    RoomSettled(r, TallyOf(s.trace, k), key.id, result);
    SettledTracked(s, t1, r, t1.rounds[k], key, i, result);
    hide RoundOk, Room, Tracked, TraceOk, Settle, Unsettled, TallyOf, Counted;
    assert forall other: Key :: other.request != r.request ==> Outstanding(t1, other) == Outstanding(s1, other) by {
      SameKeys(t, t1);
      SameKeys(s, s1);
      hide Outstanding;
    }
    hide Outstanding;
    UpdateRound(s1, t1, k, multiset{}, multiset{k});
  }

  lemma SettledRound(r: Round, id: string, result: ToolResult)
    requires RoundOk(r) && Unsettled(r, id)
    ensures !r.closed
    ensures var i, t := Find(r.pending, id), Settle(r, id, result);
            && RoundOk(t) && InFlight(t) == InFlight(r) - (if i < r.next then 1 else 0) && !t.closed
            && t.request == r.request && t.next == r.next
            && t.pending == r.pending[i := r.pending[i].(result := Some(result))]
  {
    var i := Find(r.pending, id);
    OpenChanges(r.pending, i, r.next, result);
    assert Ids(Settle(r, id, result).pending) == Ids(r.pending);
  }

  /** A call settled makes room for a drive, also if it was not in flight. */
  lemma RoomSettled(r: Round, t: Tally, id: string, result: ToolResult)
    requires RoundOk(r) && Unsettled(r, id) && Room(r, t, 0)
    ensures Room(Settle(r, id, result), if Find(r.pending, id) >= r.next then t.(early := t.early + 1) else t, 1)
  {
    SettledRound(r, id, result);
    OpenChanges(r.pending, Find(r.pending, id), |r.pending|, result);
    hide RoundOk, Open, Settle, Unsettled;
  }

  /** The call is awaited no more, the others are awaited as before. */
  lemma SettledTracked(s: Manager, t: Manager, r: Round, r': Round, key: Key, i: nat, result: ToolResult)
    requires RoundOk(r) && Tracked(s, r) && i < |r.pending| && r.pending[i].id == key.id && r.request == key.request
    requires r.pending[i].result.None? && r'.request == r.request && r'.next == r.next
    requires r'.pending == r.pending[i := r.pending[i].(result := Some(result))]
    requires forall other: Key :: other != key ==> Outstanding(t, other) == Outstanding(s, other)
    ensures Tracked(t, r')
  {
    hide Outstanding;
    forall j | 0 <= j < |r'.pending| && j < r'.next && r'.pending[j].result.None?
      ensures Outstanding(t, Key(r'.request, r'.pending[j].id)) > 0
    {
      assert Ids(r.pending)[j] == r.pending[j].id && Ids(r.pending)[i] == r.pending[i].id;
      assert Outstanding(s, Key(r.request, r.pending[j].id)) > 0;
    }
  }

  /** The round whose call was reported is driven, or the one that is found in its place. */
  lemma DriveAfterReport(t1: Manager, t2: Manager, k: nat, request: string)
    requires Inv(t1, multiset{k}) && k < |t1.rounds| && request in t1.current && t1.current[request] == k
    requires t1.rounds[k].request == request && Keeps(t1, t2) && !t1.rounds[k].advancing
    requires Inv(t2, multiset{k})
    ensures var u := Drive(Note(t2, Returned(k, Under(t2, request))), request);
            Inv(u, multiset{}) && Keeps(t2, u)
  {
    hide Inv, Drive;
    var under := Under(t2, request);
    var t3 := Note(t2, Returned(k, under));
    var none: multiset<nat> := multiset{};
    assert none + multiset{k} == multiset{k};
    ReturnedOk(t1, t2, k, request, multiset{k}, multiset{k});
    assert t2.rounds[k].request == request && !t2.rounds[k].advancing;
    hide Keeps;
    Gone(t2, k, request, multiset{k});
    if under == Some(k) {
      DriveOwedOk(t3, request, none);
      KeepsTransitive(t2, t3, Drive(t3, request));
    } else {
      if under.Some? {
        assert none + multiset{under.value} + multiset{k} == multiset{k} + multiset{under.value};
        Less(t3, none + multiset{under.value}, k);
        DriveOwedOk(t3, request, none);
        KeepsTransitive(t2, t3, Drive(t3, request));
      } else {
        Less(t3, none, k);
        DriveNothing(t3, request);
      }
    }
  }

  /** An open round is the current one of its request. */
  lemma Gone(s: Manager, k: nat, request: string, owed: multiset<nat>)
    requires Inv(s, owed) && k < |s.rounds| && s.rounds[k].request == request
    ensures !s.rounds[k].closed ==> HasRound(s, request) && s.current[request] == k
  {
    assert RoundInv(s, k, owed);
  }

  lemma StartAllowedOk(s: Manager, t: Manager, key: Key, name: string)
    requires Inv(s, multiset{}) && Idle(s) && key in s.gates && t == s.(gates := s.gates - multiset{key})
    ensures var u := StartExecution(t, key.request, key.id, name); Inv(u, multiset{}) && Idle(u)
  {
    GateAnswered(s, t, key);
    if name !in t.tools {
      FinalizeOk(s, t, key, ToolResult("Tool not found: " + name, true), false);
      StartMissing(t, key, name);
    } else {
      var s1 := t.(starting := t.starting + multiset{key});
      var g := Started(key.request, key.id);
      var s2 := Emit(s1, g);
      var u := s2.(starting := s2.starting - multiset{key}, running := s2.running + {key});
      StartPresent(t, key, name);
      AskedStarts(s, s1, key);
      hide Inv, Emit, StartExecution, Finalize;
      NoteOk(s1, g, multiset{});
      EmitOk(s1, g, multiset{});
      assert key in s2.starting;
      SwapOk(s2, u, key, multiset{});
    }
  }

  lemma StartMissing(t: Manager, key: Key, name: string)
    requires name !in t.tools
    ensures StartExecution(t, key.request, key.id, name)
         == Finalize(t, key.request, key.id, ToolResult("Tool not found: " + name, true), false)
  {
    hide Finalize, Emit;
  }

  lemma StartPresent(t: Manager, key: Key, name: string)
    requires name in t.tools
    ensures var s2 := Emit(t.(starting := t.starting + multiset{key}), Started(key.request, key.id));
            StartExecution(t, key.request, key.id, name)
            == s2.(starting := s2.starting - multiset{key}, running := s2.running + {key})
  {
    hide Finalize, Emit;
  }

  lemma GateAnswered(s: Manager, t: Manager, key: Key)
    requires key in s.gates && t == s.(gates := s.gates - multiset{key})
    ensures Answered(s, t, key)
  {
  }

  lemma AskedStarts(s: Manager, t: Manager, key: Key)
    requires Inv(s, multiset{}) && key in s.gates
    requires t == s.(gates := s.gates - multiset{key}, starting := s.starting + multiset{key})
    ensures Inv(t, multiset{})
  {
    assert forall other :: Outstanding(t, other) == Outstanding(s, other);
    hide Outstanding;
    SameRounds(s, t, multiset{});
  }

  lemma StepOk(s: Manager, e: Event)
    requires Inv(s, multiset{}) && Idle(s)
    ensures Inv(Step(s, e), multiset{}) && Idle(Step(s, e))
  {
    hide Inv, Do, Finalize, StartExecution, Keeps, Idle;
    match e
    case FromApplication(call) =>
      DoOk(s, call, multiset{});
      IdleKept(s, Do(s, call));
    case GateResolved(key, name, allowed) =>
      if key in s.gates {
        var t := s.(gates := s.gates - multiset{key});
        GateAnswered(s, t, key);
        StartAllowedOk(s, t, key, name);
        FinalizeOk(s, t, key, ToolResult("The user declined to run " + name, true), false);
      }
    case ToolFinished(key, result, success) =>
      if key in s.running {
        var t := s.(running := s.running - {key});
        RunAnswered(s, t, key);
        FinalizeOk(s, t, key, result, success);
      }
  }

  lemma RunAnswered(s: Manager, t: Manager, key: Key)
    requires key in s.running && t == s.(running := s.running - {key})
    ensures Answered(s, t, key)
  {
  }

  lemma {:induction false} RunOk(s: Manager, events: seq<Event>)
    requires Inv(s, multiset{}) && Idle(s)
    ensures Inv(Run(s, events), multiset{}) && Idle(Run(s, events))
    decreases |events|
  {
    hide Inv, Step, Idle;
    if events != [] {
      StepOk(s, events[0]);
      RunOk(Step(s, events[0]), events[1..]);
    }
  }

  // ---- what it comes to --------------------------------------------------------------------------------------

  /**
   After any run, with handlers calling back as they like: a round is reported complete at most once,
   and exactly once if it was closed without being cleaned up; it is reported with the result of each
   call queued on it and no other; its calls are dispatched in the order in which they were queued, each
   once.
   */
  lemma RoundsCompleteOnce(tools: map<string, bool>, script: seq<seq<Call>>, events: seq<Event>)
    ensures var s := Run(Initial(tools, script), events);
            && (forall k: nat :: Completions(s.trace, k) <= 1)
            && (forall i :: 0 <= i < |s.trace| ==> IsComplete(s, s.trace[i]))
            && (forall k :: 0 <= k < |s.rounds| && s.rounds[k].closed && s.rounds[k].pending != [] ==>
                  Completions(s.trace, k) == 1)
            && (forall k :: 0 <= k < |s.rounds| ==>
                  var r := s.rounds[k];
                  && Distinct(r.queued) && r.dispatched <= r.queued
                  && (r.pending != [] ==> Ids(r.pending) == r.queued)
                  && r.next <= |r.pending|)
  {
    RunOk(Initial(tools, script), events);
    var s := Run(Initial(tools, script), events);
    hide Run;
    forall k | 0 <= k < |s.rounds|
      ensures var r := s.rounds[k];
              && Distinct(r.queued) && r.dispatched <= r.queued && (r.pending != [] ==> Ids(r.pending) == r.queued)
              && r.next <= |r.pending|
    {
      assert RoundInv(s, k, multiset{});
    }
  }

  /**
   Nothing gets stuck: after any run a round that is not closed waits for a gate or a tool that was asked
   for one of its calls. So once all of them have answered, every round was completed or cleaned up.
   */
  lemma OpenRoundsWait(tools: map<string, bool>, script: seq<seq<Call>>, events: seq<Event>, k: nat)
    requires k < |Run(Initial(tools, script), events).rounds|
    requires !Run(Initial(tools, script), events).rounds[k].closed
    ensures var s := Run(Initial(tools, script), events);
            exists key :: Outstanding(s, key) > 0 && key.request == s.rounds[k].request && key.id in s.rounds[k].dispatched
  {
    RunOk(Initial(tools, script), events);
    var s := Run(Initial(tools, script), events);
    hide Run;
    assert RoundInv(s, k, multiset{});
    var r := s.rounds[k];
    var i := SomeInFlight(r);
    assert Outstanding(s, Key(r.request, r.pending[i].id)) > 0;
    assert Ids(r.pending)[i] == r.pending[i].id && r.dispatched[i] == r.queued[i];
  }

  /** With more calls open than left to dispatch, one that was dispatched is open. */
  lemma SomeInFlight(r: Round) returns (i: nat)
    requires RoundOk(r) && Surplus(r) > 0
    ensures i < r.next <= |r.pending| && r.pending[i].result.None?
  {
    OpenAtMost(r.pending, r.next, |r.pending|);
    NoneOpen(r.pending, r.next);
    i :| 0 <= i < r.next && r.pending[i].result.None?;
  }

  lemma {:induction false} OpenAtMost(pending: seq<PendingTool>, n: nat, m: nat)
    requires n <= m <= |pending|
    ensures Open(pending, m) <= Open(pending, n) + m - n
    ensures Open(pending, m) == Open(pending, n) + m - n <==> forall i :: n <= i < m ==> pending[i].result.None?
    decreases m
  {
    if m > n {
      OpenAtMost(pending, n, m - 1);
    }
  }

  /** No report on another round has left round `k` under their request. */
  ghost predicate NotInherited(trace: seq<Signal>, k: nat) {
    forall i :: 0 <= i < |trace| && trace[i].Returned? && trace[i].under == Some(k) ==> trace[i].of == k
  }

  /** No call of round `k` got its result before it was dispatched. */
  ghost predicate NoneEarly(trace: seq<Signal>, k: nat) {
    forall i :: 0 <= i < |trace| && trace[i].Settled? && trace[i].round == k ==> !trace[i].early
  }

  /** Round `k` was begun only from outside its own dispatching, and only while calls were left, but for the first time. */
  ghost predicate BegunInTime(trace: seq<Signal>, k: nat) {
    forall i :: 0 <= i < |trace| && trace[i].Begun? && trace[i].round == k ==> !trace[i].nested && !trace[i].refill
  }

  /** How often `beginRound` was called on round `k`. */
  function Begins(trace: seq<Signal>, k: nat): nat { TallyOf(trace, k).begun }

  lemma {:induction false} TallyMeans(trace: seq<Signal>, k: nat)
    ensures NotInherited(trace, k) <==> TallyOf(trace, k).strays == 0
    ensures NoneEarly(trace, k) <==> TallyOf(trace, k).early == 0
    ensures BegunInTime(trace, k) ==> TallyOf(trace, k).nested == 0 && TallyOf(trace, k).refills == 0
    decreases |trace|
  {
    if trace != [] {
      var init, g := trace[..|trace| - 1], trace[|trace| - 1];
      TallyMeans(init, k);
      assert trace == init + [g];
      TallyAgain(init, g, k);
    }
  }

  lemma TallyAgain(init: seq<Signal>, g: Signal, k: nat)
    ensures NotInherited(init + [g], k) <==> NotInherited(init, k) && NotInherited([g], k)
    ensures NoneEarly(init + [g], k) <==> NoneEarly(init, k) && NoneEarly([g], k)
    ensures BegunInTime(init + [g], k) <==> BegunInTime(init, k) && BegunInTime([g], k)
  {
    var t := init + [g];
    assert t[|init|] == g && forall i :: 0 <= i < |init| ==> t[i] == init[i];
  }

  /**
   One call at a time for each `beginRound`: no more calls of a round are in flight than it was begun, if
   no handler of `toolExecutionResult` left it in the place of the round reported on, and no call was
   settled early under an id used before.
   */
  lemma OneAtATime(tools: map<string, bool>, script: seq<seq<Call>>, events: seq<Event>, k: nat)
    requires k < |Run(Initial(tools, script), events).rounds|
    ensures var s := Run(Initial(tools, script), events);
            var r := s.rounds[k];
            && r.next <= |r.pending|
            && (!r.closed && NotInherited(s.trace, k) && NoneEarly(s.trace, k) ==> InFlight(r) <= Begins(s.trace, k))
  {
    RunOk(Initial(tools, script), events);
    var s := Run(Initial(tools, script), events);
    hide Run, TallyOf, NotInherited, NoneEarly, BegunInTime;
    TallyMeans(s.trace, k);
    assert RoundInv(s, k, multiset{});
  }

  /**
   And exactly when. Every drive of a round puts one call in flight, or finds none left, and every call
   settled makes for another drive; so of any open round, what is in flight is what it was begun, with
   the reports that returned to it from another round, the calls skipped and those left that have a
   result already, less the times it was begun while being advanced and the drives that found nothing
   left. A round begun in time with calls left keeps the bound exactly when no report was inherited,
   none of its calls was skipped and none of those left has its result.
   */
  lemma OneAtATimeExactly(tools: map<string, bool>, script: seq<seq<Call>>, events: seq<Event>, k: nat)
    requires k < |Run(Initial(tools, script), events).rounds|
    requires !Run(Initial(tools, script), events).rounds[k].closed
    ensures var s := Run(Initial(tools, script), events);
            var r, t := s.rounds[k], TallyOf(s.trace, k);
            && r.next <= |r.pending|
            && InFlight(r) + t.nested + t.idle == Begins(s.trace, k) + t.strays + t.skipped + Waiting(r)
            && (InFlight(r) <= Begins(s.trace, k) <==> t.strays + t.skipped + Waiting(r) <= t.nested + t.idle)
            && (NoneEarly(s.trace, k) ==> t.skipped == 0 && Waiting(r) == 0)
            && (r.next < |r.pending| && BegunInTime(s.trace, k) ==>
                  (InFlight(r) <= Begins(s.trace, k) <==>
                   NotInherited(s.trace, k) && t.skipped == 0
                   && forall i :: r.next <= i < |r.pending| ==> r.pending[i].result.None?))
  {
    RunOk(Initial(tools, script), events);
    var s := Run(Initial(tools, script), events);
    hide Run, TallyOf, NotInherited, NoneEarly, BegunInTime;
    TallyMeans(s.trace, k);
    assert RoundInv(s, k, multiset{});
    OpenAtMost(s.rounds[k].pending, s.rounds[k].next, |s.rounds[k].pending|);
  }

  // ---- one beginRound, two calls in flight -----------------------------------------------------------------

  const X: Request := Request("x", "tool")
  const A: Request := Request("a", "tool")
  const B: Request := Request("b", "tool")

  /**
   It does happen: the handler told of the last result of a round cleans the request up and begins a new
   round of two calls; the first is dispatched, and when the handler is back the manager drives the round
   it finds under the request, dispatching the second.
   */
  lemma DrivenOnceTooOften() returns (events: seq<Event>)
    ensures var s := Run(Initial(map["tool" := false], [[], [Cleanup("r"), Begin("r", [A, B])]]), events);
            && |s.rounds| == 2 && !s.rounds[1].closed && Begins(s.trace, 1) == 1 && !NotInherited(s.trace, 1)
            && s.rounds[1].next == 2 == |s.rounds[1].pending| && InFlight(s.rounds[1]) == 2
  {
    var a, b := FromApplication(Begin("r", [X])), ToolFinished(Key("r", "x"), ToolResult("", false), true);
    events := [a, b];
    var s0 := Initial(map["tool" := false], [[], [Cleanup("r"), Begin("r", [A, B])]]);
    var s1 := FirstRound(s0);
    var s2 := SecondRound(s1);
    assert [a, b][1..] == [b] && [b][1..] == [];
    assert Run(s0, events) == Run(Step(s0, a), [b]) == Run(Step(Step(s0, a), b), []);
  }

  /** Driving a round whose next tool is there and needs no permission, with nothing to react to it. */
  lemma DriveStarts(s: Manager, request: string)
    requires HasRound(s, request) && !s.rounds[s.current[request]].advancing && !s.gate
    requires s.script == [] || s.script[0] == []
    requires var r := s.rounds[s.current[request]];
             r.request == request && r.next < |r.pending| && r.pending[r.next].name in s.tools
             && !s.tools[r.pending[r.next].name] && r.pending[r.next].result.None?
    ensures var k := s.current[request];
            var r := s.rounds[k];
            var id := r.pending[r.next].id;
            Drive(s, request)
            == s.(rounds := s.rounds[k := Taken(r)],
                  running := s.running + {Key(request, id)},
                  script := if s.script == [] then [] else s.script[1..],
                  trace := s.trace + [Started(request, id)])
  {
    var k := s.current[request];
    var r := s.rounds[k];
    var r1 := r.(advancing := true);
    DriveIs(s, request);
    hide *;
    AdvanceStarts(Put(s, k, r1), k);
    PutTwice(s, k, r1, r);
    StillWaits(Advance(Put(s, k, r1), k), k, r1);
  }

  lemma PutTwice(s: Manager, k: nat, r1: Round, r: Round)
    requires k < |s.rounds| && r1 == r.(advancing := true) && !r.advancing && r.next < |r.pending|
    ensures Put(s, k, r1) == s.(rounds := s.rounds[k := r1]) && s.rounds[k := r1][k := Taken(r1)] == s.rounds[k := Taken(r1)]
    ensures s.rounds[k := Taken(r1)][k := Taken(r1).(advancing := false)] == s.rounds[k := Taken(r)]
    ensures forall t: Manager, u: Round :: k < |t.rounds| ==> Put(t, k, u) == t.(rounds := t.rounds[k := u])
  {
  }

  lemma AdvanceStarts(s: Manager, k: nat)
    requires k < |s.rounds| && !s.gate && (s.script == [] || s.script[0] == [])
    requires var r := s.rounds[k];
             r.next < |r.pending| && r.pending[r.next].name in s.tools && !s.tools[r.pending[r.next].name]
    ensures var r := s.rounds[k];
            var id := r.pending[r.next].id;
            Advance(s, k)
            == s.(rounds := s.rounds[k := Taken(r)], running := s.running + {Key(r.request, id)},
                  script := if s.script == [] then [] else s.script[1..], trace := s.trace + [Started(r.request, id)])
  {
    var r := s.rounds[k];
    var call := r.pending[r.next];
    var key := Key(r.request, call.id);
    var s1 := Put(s, k, Taken(r));
    var s2 := s1.(starting := s1.starting + multiset{key});
    AdvanceIs(s, k);
    StartIs(s1, r.request, call);
    Unheard(s2, Started(r.request, call.id));
    hide Advance, Dispatch, Emit, Taken;
    assert s2.starting - multiset{key} == s.starting;
  }

  /** The call just dispatched keeps the round open. */
  lemma StillWaits(s: Manager, k: nat, r: Round)
    requires k < |s.rounds| && r.next < |r.pending| && r.pending[r.next].result.None? && s.rounds[k] == Taken(r)
    ensures var t := Put(s, k, s.rounds[k].(advancing := false)); Finish(t, k) == t
  {
    hide Emit;
    assert Put(s, k, s.rounds[k].(advancing := false)).rounds[k].pending[r.next].result.None?;
  }

  lemma Unheard(s: Manager, g: Signal)
    requires s.script == [] || s.script[0] == []
    ensures Emit(s, g) == s.(trace := s.trace + [g], script := if s.script == [] then [] else s.script[1..])
  {
  }

  /** A round of one call, its tool running. */
  lemma FirstRound(s: Manager) returns (t: Manager)
    requires s == Initial(map["tool" := false], [[], [Cleanup("r"), Begin("r", [A, B])]])
    ensures t == Step(s, FromApplication(Begin("r", [X])))
    ensures t.tools == s.tools && !t.gate && t.script == [[Cleanup("r"), Begin("r", [A, B])]] && t.running == {Key("r", "x")}
    ensures t.current == map["r" := 0] && t.gates == multiset{} && t.starting == multiset{}
    ensures t.rounds == [Round("r", [PendingTool("x", "tool", None)], 1, false, false, ["x"], ["x"])]
    ensures TallyOf(t.trace, 1) == NOTHING
  {
    var q := Queue(s, "r", [X]);
    assert [X][1..] == [] && [] + ["x"] == ["x"] && [] + [PendingTool("x", "tool", None)] == [PendingTool("x", "tool", None)];
    var r0 := Round("r", [], 0, false, false, [], []);
    AddsOne(r0, X);
    assert q.rounds == [] + [AddCalls(r0, [X])];
    assert q.rounds == [Round("r", [PendingTool("x", "tool", None)], 0, false, false, ["x"], [])];
    DriveStarts(q, "r");
    TallySnoc([], Begun(0, false, false), 1);
    TallySnoc(q.trace, Started("r", "x"), 1);
    hide Drive, Queue, TallyOf;
    t := Step(s, FromApplication(Begin("r", [X])));
    assert t == BeginRound(s, "r", [X]);
  }

  lemma SecondRound(s: Manager) returns (t: Manager)
    requires s.tools == map["tool" := false] && !s.gate && s.script == [[Cleanup("r"), Begin("r", [A, B])]]
    requires s.current == map["r" := 0] && s.gates == multiset{} && s.starting == multiset{} && s.running == {Key("r", "x")}
    requires s.rounds == [Round("r", [PendingTool("x", "tool", None)], 1, false, false, ["x"], ["x"])]
    requires TallyOf(s.trace, 1) == NOTHING
    ensures t == Step(s, ToolFinished(Key("r", "x"), ToolResult("", false), true))
    ensures |t.rounds| == 2 && !t.rounds[1].closed && Begins(t.trace, 1) == 1 && !NotInherited(t.trace, 1)
    ensures t.rounds[1].next == 2 == |t.rounds[1].pending| && InFlight(t.rounds[1]) == 2
  {
    t := Step(s, ToolFinished(Key("r", "x"), ToolResult("", false), true));
    var s1 := s.(running := {});
    var g := Reported("r", "x", "tool", "");
    var s2 := Note(Put(s1, 0, Settle(s1.rounds[0], "x", ToolResult("", false))), Settled(0, false));
    FinalizeIs(s1, 0, "r", "x", ToolResult("", false), true);
    assert Find(s1.rounds[0].pending, "x") == 0 && s.running - {Key("r", "x")} == {};
    TallySnoc(s.trace, Settled(0, false), 1);
    hide TallyOf;
    var s3 := Replaced(s2, g);
    var s4 := Note(s3, Returned(0, Some(1)));
    hide Drive, Finalize, Emit;
    DriveStarts(s4, "r");
    assert t == Finalize(s1, "r", "x", ToolResult("", false), true);
    assert Under(s3, "r") == Some(1) && t == Drive(s4, "r");
    assert s4.rounds[1].pending[..2] == s4.rounds[1].pending;
    TallySnoc(s3.trace, Returned(0, Some(1)), 1);
    TallySnoc(s4.trace, Started("r", "b"), 1);
    TallyMeans(t.trace, 1);
  }

  /** The handler of the result replaces the round by one of two calls. */
  lemma Replaced(s: Manager, g: Signal) returns (t: Manager)
    requires s.tools == map["tool" := false] && !s.gate && s.script == [[Cleanup("r"), Begin("r", [A, B])]]
    requires s.current == map["r" := 0] && s.gates == multiset{} && s.starting == multiset{} && s.running == {}
    requires |s.rounds| == 1 && s.rounds[0].request == "r" && g.Reported? && TallyOf(s.trace, 1) == NOTHING
    ensures t == Emit(s, g)
    ensures t.tools == s.tools && !t.gate && t.script == [] && t.current == map["r" := 1] && |t.rounds| == 2
    ensures t.rounds[1]
         == Round("r", [PendingTool("a", "tool", None), PendingTool("b", "tool", None)], 1, false, false, ["a", "b"], ["a"])
    ensures TallyOf(t.trace, 1) == Tally(1, 0, 0, 0, 0, 0, 0)
  {
    t := Emit(s, g);
    var s1 := s.(trace := s.trace + [g], script := []);
    var s2 := CleanupRequest(s1, "r");
    var q := Queue(s2, "r", [A, B]);
    assert s2.current == map[] && |s2.rounds| == 1;
    QueuesTwo(s2);
    DriveStarts(q, "r");
    TallySnoc(s.trace, g, 1);
    TallySnoc(s2.trace, Begun(1, false, false), 1);
    TallySnoc(q.trace, Started("r", "a"), 1);
    hide Drive, Queue, CleanupRequest, TallyOf;
    var calls := [Cleanup("r"), Begin("r", [A, B])];
    assert calls[1..] == [Begin("r", [A, B])] && calls[1..][1..] == [];
    assert Do(s1, calls[0]) == s2 && Do(s2, calls[1]) == BeginRound(s2, "r", [A, B]) == Drive(q, "r");
    hide Do, BeginRound;
    assert RunCalls(s1, calls) == RunCalls(s2, calls[1..]);
    assert RunCalls(s2, calls[1..]) == RunCalls(Drive(q, "r"), []);
  }

  lemma AddsOne(r: Round, c: Request)
    requires Find(r.pending, c.id) == |r.pending|
    ensures AddCalls(r, [c]) == r.(pending := r.pending + [PendingTool(c.id, c.name, None)], queued := r.queued + [c.id])
  {
    assert [c][1..] == [];
  }

  lemma QueuesTwo(s: Manager)
    requires s.current == map[] && |s.rounds| == 1
    ensures var q := Queue(s, "r", [A, B]);
            && q.current == map["r" := 1] && |q.rounds| == 2
            && q == s.(rounds := q.rounds, current := q.current, trace := s.trace + [Begun(1, false, false)])
            && q.rounds[1]
               == Round("r", [PendingTool("a", "tool", None), PendingTool("b", "tool", None)], 0, false, false, ["a", "b"], [])
  {
    var r0 := Round("r", [], 0, false, false, [], []);
    var r1 := r0.(pending := [PendingTool("a", "tool", None)], queued := ["a"]);
    assert [A, B][1..] == [B] && [B][1..] == [];
    assert [] + ["a"] == ["a"] && [] + [PendingTool("a", "tool", None)] == [PendingTool("a", "tool", None)];
    AddsOne(r0, A);
    AddsOne(r1, B);
    assert AddCalls(r0, [A, B]) == AddCalls(r1, [B]);
    assert ["a"] + ["b"] == ["a", "b"];
    assert [PendingTool("a", "tool", None)] + [PendingTool("b", "tool", None)]
        == [PendingTool("a", "tool", None), PendingTool("b", "tool", None)];
  }
}
