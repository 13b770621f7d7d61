/**
 Two JSON-RPC sessions joined by a queue in each direction. The queues keep their order but may
 lose messages; each session also sees its own events, in any order, and its transport may close
 and open again.
 */
module RpcTwoSessions {
  import opened Options
  import opened RpcSession

  /** The messages of `x` that `y` has seen are the first `ySeen`, and the other way round. */
  datatype System = System(x: Session, y: Session, xSeen: nat, ySeen: nat, lossy: bool)

  const Start: System := System(Fresh, Fresh, 0, 0, false)

  datatype Input = Own(e: Event) | Deliver(threw: Option<Error>) | Lose

  /** A step of `x`; a session only receives what the other one sent. */
  function StepX(s: System, input: Input): System
    requires PromisesKnown(s.x)
  {
    match input
    case Own(e) => if e.Received? then s else s.(x := Handle(s.x, e))
    case Deliver(threw) =>
      if s.xSeen < |s.y.sent| && s.x.open
      then s.(x := Receive(s.x, s.y.sent[s.xSeen], threw), xSeen := s.xSeen + 1) else s
    case Lose => if s.xSeen < |s.y.sent| then s.(xSeen := s.xSeen + 1, lossy := true) else s
  }

  function Swap(s: System): System { System(s.y, s.x, s.ySeen, s.xSeen, s.lossy) }

  function Step(s: System, byX: bool, input: Input): System
    requires PromisesKnown(s.x) && PromisesKnown(s.y)
  {
    if byX then StepX(s, input) else Swap(StepX(Swap(s), input))
  }

  // ---- counting messages --------------------------------------------------------------------

  predicate IsRequestFor(m: Message, id: string) { m.name.Some? && m.id == Text(id) }

  predicate IsReplyTo(m: Message, id: string) { m.name.None? && m.id == Text(id) }

  predicate IsCancelOf(m: Message, id: string) { m.name == Some(CANCELLED) && IdToString(m.params.requestId) == id }

  function Requests(ms: seq<Message>, id: string): nat
    decreases |ms|
  {
    if ms == [] then 0
    else Requests(ms[..|ms| - 1], id) + (if IsRequestFor(ms[|ms| - 1], id) then 1 else 0)
  }

  function Replies(ms: seq<Message>, id: string): nat
    decreases |ms|
  {
    if ms == [] then 0
    else Replies(ms[..|ms| - 1], id) + (if IsReplyTo(ms[|ms| - 1], id) then 1 else 0)
  }

  ghost predicate Cancels(ms: seq<Message>, id: string) { exists m :: m in ms && IsCancelOf(m, id) }

  lemma CountSnoc(ms: seq<Message>, m: Message, id: string)
    ensures Requests(ms + [m], id) == Requests(ms, id) + (if IsRequestFor(m, id) then 1 else 0)
    ensures Replies(ms + [m], id) == Replies(ms, id) + (if IsReplyTo(m, id) then 1 else 0)
    ensures Cancels(ms + [m], id) <==> Cancels(ms, id) || IsCancelOf(m, id)
  {
    assert (ms + [m])[..|ms|] == ms;
    assert forall k :: k in ms + [m] <==> k in ms || k == m;
    if Cancels(ms, id) {
      var k :| k in ms && IsCancelOf(k, id);
      assert k in ms + [m];
    }
    if IsCancelOf(m, id) {
      assert m in ms + [m];
    }
  }

  lemma {:induction false} CountPrefix(ms: seq<Message>, n: nat, id: string)
    requires n <= |ms|
    ensures Requests(ms[..n], id) <= Requests(ms, id) && Replies(ms[..n], id) <= Replies(ms, id)
    decreases |ms|
  {
    if n == |ms| {
      assert ms[..n] == ms;
    } else {
      assert ms[..|ms| - 1][..n] == ms[..n];
      CountPrefix(ms[..|ms| - 1], n, id);
    }
  }

  lemma CountNext(ms: seq<Message>, n: nat, id: string)
    requires n < |ms|
    ensures Requests(ms[..n + 1], id) == Requests(ms[..n], id) + (if IsRequestFor(ms[n], id) then 1 else 0)
    ensures Replies(ms[..n + 1], id) == Replies(ms[..n], id) + (if IsReplyTo(ms[n], id) then 1 else 0)
    ensures Requests(ms[..n + 1], id) <= Requests(ms, id)
  {
    assert ms[..n + 1] == ms[..n] + [ms[n]];
    CountSnoc(ms[..n], ms[n], id);
    CountPrefix(ms, n + 1, id);
  }

  // ---- what each side keeps ---------------------------------------------------------------------

  ghost predicate WellFormed(m: Message) {
    && m.version == JSONRPC
    && (m.name.Some? ==> m.id == NoId || (m.id.Text? && m.id.text != ""))
    && (m.name.None? ==> m.id.Text? && m.id.text != "" && (m.result.Some? <==> m.error.None?))
  }

  /** `x` asks under fresh ids, once each, and a request on its table was sent. */
  ghost predicate Asks(x: Session) {
    && TableOk(x)
    && (forall m :: m in x.sent ==> WellFormed(m))
    && (forall id :: Requests(x.sent, id) <= 1)
    && (forall n: nat :: n >= x.nextId ==> Requests(x.sent, Digits(n)) == 0)
    && (forall id :: id in x.pending ==> Requests(x.sent, id) == 1)
  }

  ghost predicate Fits(m: Message, reply: Reply) {
    match reply
    case Answer(value) => m.error.None? && m.result == Some(value)
    case Refusal(error) => m.error == Some(error)
  }

  /**
   How `y` accounts for the requests of `x`: each one dispatched is still running, was answered,
   was cancelled by `x`, or finished while the transport of `y` was closed; and what its handler
   came to is what the answer says.
   */
  ghost predicate Answers(x: Session, y: Session, ySeen: nat, lossy: bool) {
    Counted(x, y, ySeen, lossy) && Booked(x, y)
  }

  ghost predicate Counted(x: Session, y: Session, ySeen: nat, lossy: bool) {
    && ySeen <= |x.sent|
    && (forall id :: y.accepted[id] <= Requests(x.sent[..ySeen], id))
    && (!lossy ==> forall id :: y.accepted[id] == Requests(x.sent[..ySeen], id))
    && (forall id :: Replies(y.sent, id) + y.running[Text(id)] + y.suppressed[id] + y.muted[id] == y.accepted[id])
  }

  ghost predicate Booked(x: Session, y: Session) {
    && (forall k :: k in y.running ==> k.Text? && k.text != "")
    && (forall id :: id in y.inFlight <==> Text(id) in y.running)
    && y.cancelled <= y.inFlight
    && (forall id :: id in y.cancelled || id in y.suppressed ==> Cancels(x.sent, id))
    && (forall id :: id in y.produced ==> id in y.accepted && Text(id) !in y.running)
    && (forall m :: m in y.sent && m.name.None? ==> m.id.Text? && m.id.text in y.produced && Fits(m, y.produced[m.id.text]))
  }

  /** Where an outcome of a promise of `x` may come from. */
  ghost predicate Justified(outcome: Outcome, id: string, y: Session) {
    match outcome
    case Result(value) => id in y.produced && y.produced[id] == Answer(value)
    case Failed(RemoteError(error)) => id in y.produced && y.produced[id] == Refusal(error)
    case Failed(CancelledByPeer) => Cancels(y.sent, id)
    case _ => true
  }

  /** What `x` has learned from `y`. */
  ghost predicate Learned(x: Session, y: Session, xSeen: nat, lossy: bool) {
    && xSeen <= |y.sent|
    && (forall p :: 0 <= p < |x.promises| ==>
          forall k :: 0 <= k < |x.promises[p].outcomes| ==>
            Justified(x.promises[p].outcomes[k], Digits(x.promises[p].number), y))
    && (!lossy ==> forall id :: id in x.pending ==> Replies(y.sent[..xSeen], id) == 0)
  }

  ghost predicate Inv(s: System) {
    && Asks(s.x) && Asks(s.y)
    && Answers(s.x, s.y, s.ySeen, s.lossy) && Answers(s.y, s.x, s.xSeen, s.lossy)
    && Learned(s.x, s.y, s.xSeen, s.lossy) && Learned(s.y, s.x, s.ySeen, s.lossy)
  }

  // ---- what does not change ------------------------------------------------------------------------

  /** `x` only sent more and came to more. */
  ghost predicate Grows(x: Session, x': Session) {
    && x.sent <= x'.sent
    && forall id :: id in x.produced ==> id in x'.produced && x'.produced[id] == x.produced[id]
  }

  lemma CancelsGrow(ms: seq<Message>, ms': seq<Message>, id: string)
    requires ms <= ms'
    ensures Cancels(ms, id) ==> Cancels(ms', id)
  {
    if Cancels(ms, id) {
      var k :| k in ms && IsCancelOf(k, id);
      assert k in ms';
    }
  }

  /** The other side's books stay right while this side sends more. */
  lemma AnswersGrow(x: Session, x': Session, y: Session, ySeen: nat, lossy: bool)
    requires Answers(x, y, ySeen, lossy) && x.sent <= x'.sent
    ensures Answers(x', y, ySeen, lossy)
  {
    hide Requests, Replies, Cancels, Fits;
    assert x'.sent[..ySeen] == x.sent[..ySeen];
    forall id | id in y.cancelled || id in y.suppressed ensures Cancels(x'.sent, id) {
      CancelsGrow(x.sent, x'.sent, id);
    }
  }

  lemma LearnedGrow(y: Session, x: Session, x': Session, ySeen: nat, lossy: bool)
    requires Learned(y, x, ySeen, lossy) && Grows(x, x')
    ensures Learned(y, x', ySeen, lossy)
  {
    hide Replies, Cancels;
    assert x'.sent[..ySeen] == x.sent[..ySeen];
    forall p, k | 0 <= p < |y.promises| && 0 <= k < |y.promises[p].outcomes|
      ensures Justified(y.promises[p].outcomes[k], Digits(y.promises[p].number), x')
    {
      CancelsGrow(x.sent, x'.sent, Digits(y.promises[p].number));
    }
  }

  /** What a step of `x` has to keep itself. */
  lemma Moved(s: System, x': Session, xSeen: nat)
    requires Inv(s) && Grows(s.x, x') && xSeen >= s.xSeen
    requires Asks(x') && Answers(s.y, x', xSeen, s.lossy) && Learned(x', s.y, xSeen, s.lossy)
    ensures Inv(s.(x := x', xSeen := xSeen))
  {
    hide *;
    InvParts(s);
    GrowsSent(s.x, x');
    AnswersGrow(s.x, x', s.y, s.ySeen, s.lossy);
    LearnedGrow(s.y, s.x, x', s.ySeen, s.lossy);
    InvOf(s.(x := x', xSeen := xSeen));
  }

  lemma InvParts(s: System)
    requires Inv(s)
    ensures Asks(s.x) && Asks(s.y)
    ensures Answers(s.x, s.y, s.ySeen, s.lossy) && Answers(s.y, s.x, s.xSeen, s.lossy)
    ensures Learned(s.x, s.y, s.xSeen, s.lossy) && Learned(s.y, s.x, s.ySeen, s.lossy)
  {
  }

  lemma InvOf(s: System)
    requires Asks(s.x) && Asks(s.y)
    requires Answers(s.x, s.y, s.ySeen, s.lossy) && Answers(s.y, s.x, s.xSeen, s.lossy)
    requires Learned(s.x, s.y, s.xSeen, s.lossy) && Learned(s.y, s.x, s.ySeen, s.lossy)
    ensures Inv(s)
  {
  }

  lemma GrowsSent(x: Session, x': Session)
    requires Grows(x, x')
    ensures x.sent <= x'.sent
  {
  }

  // ---- asking -----------------------------------------------------------------------------------------

  /** Answering nothing, and sending at most one message, which is no answer. */
  ghost predicate OnlyAsks(x: Session, x': Session) {
    && x'.accepted == x.accepted && x'.running == x.running && x'.suppressed == x.suppressed
    && x'.muted == x.muted && x'.inFlight == x.inFlight && x'.cancelled == x.cancelled && x'.produced == x.produced
    && (x'.sent == x.sent || exists m :: x'.sent == x.sent + [m] && m.name.Some?)
  }

  lemma AnswersSame(y: Session, x: Session, x': Session, xSeen: nat, lossy: bool)
    requires Answers(y, x, xSeen, lossy) && OnlyAsks(x, x')
    ensures Answers(y, x', xSeen, lossy) && Grows(x, x')
  {
    hide Requests, Replies, Cancels, Fits;
    if x'.sent != x.sent {
      var m :| x'.sent == x.sent + [m] && m.name.Some?;
      forall id ensures Replies(x'.sent, id) == Replies(x.sent, id) {
        CountSnoc(x.sent, m, id);
      }
      AskNotReplied(y, x, x', m);
    }
  }

  lemma AskNotReplied(y: Session, x: Session, x': Session, m: Message)
    requires Booked(y, x) && x'.sent == x.sent + [m] && m.name.Some?
    requires x'.running == x.running && x'.inFlight == x.inFlight && x'.suppressed == x.suppressed
    requires x'.cancelled == x.cancelled && x'.produced == x.produced && x'.accepted == x.accepted
    ensures Booked(y, x')
  {
    hide Cancels, Fits;
  }

  /** Fewer requests on the table, and perhaps a notification sent. */
  lemma AsksLess(x: Session, x': Session)
    requires Asks(x) && TableOk(x') && x'.nextId == x.nextId && x'.pending.Keys <= x.pending.Keys
    requires x'.sent == x.sent || exists m :: x'.sent == x.sent + [m] && WellFormed(m) && (m.id == NoId || m.name.None?)
    ensures Asks(x')
  {
    hide TableOk, Requests, Digits, WellFormed;
    if x'.sent != x.sent {
      var m :| x'.sent == x.sent + [m] && WellFormed(m) && (m.id == NoId || m.name.None?);
      forall id ensures Requests(x'.sent, id) == Requests(x.sent, id) {
        CountSnoc(x.sent, m, id);
      }
      forall k | k in x'.sent ensures WellFormed(k) {
        assert k in x.sent || k == m;
      }
    }
  }

  /** Outcomes that need no message of the peer. */
  predicate IsOwn(outcome: Outcome) {
    outcome in {Failed(TransportError), Failed(CancelledByCaller), Failed(TimedOut)}
  }

  ghost predicate OwnOutcomes(x: Session, x': Session) {
    && |x.promises| <= |x'.promises|
    && (forall p :: 0 <= p < |x.promises| ==>
          && x'.promises[p].number == x.promises[p].number
          && (x'.promises[p].outcomes == x.promises[p].outcomes
              || exists o :: IsOwn(o) && x'.promises[p].outcomes == x.promises[p].outcomes + [o]))
    && (forall p, k :: |x.promises| <= p < |x'.promises| && 0 <= k < |x'.promises[p].outcomes| ==>
          IsOwn(x'.promises[p].outcomes[k]))
  }

  lemma LearnedOwn(x: Session, x': Session, y: Session, xSeen: nat, lossy: bool)
    requires Learned(x, y, xSeen, lossy) && OwnOutcomes(x, x')
    requires forall id :: id in x'.pending ==> id in x.pending || Replies(y.sent, id) == 0
    ensures Learned(x', y, xSeen, lossy)
  {
    hide Replies, Cancels, Digits;
    forall p, k | 0 <= p < |x'.promises| && 0 <= k < |x'.promises[p].outcomes|
      ensures Justified(x'.promises[p].outcomes[k], Digits(x'.promises[p].number), y)
    {
      if p < |x.promises| && k < |x.promises[p].outcomes| {
        assert x'.promises[p].outcomes[k] == x.promises[p].outcomes[k];
      }
    }
    forall id | id in x'.pending && Replies(y.sent, id) == 0 ensures Replies(y.sent[..xSeen], id) == 0 {
      CountPrefix(y.sent, xSeen, id);
    }
  }

  // ---- the events a session makes itself ------------------------------------------------------------------

  lemma AskKeeps(s: System, name: string, params: Params, tracked: bool)
    requires Inv(s)
    ensures Inv(s.(x := SendRequest(s.x, name, params, tracked)))
  {
    var x := s.x;
    var x' := SendRequest(x, name, params, tracked);
    SendRequestOk(x, name, params, tracked);
    SendRequestEffect(x, name, params, tracked);
    InvParts(s);
    hide Inv, SendRequest, Learned, Answers, Requests, Replies, TableOk, Digits;
    NewAsks(x, x');
    NewUnanswered(s);
    AnswersSame(s.y, x, x', s.xSeen, s.lossy);
    LearnedOwn(x, x', s.y, s.xSeen, s.lossy);
    Moved(s, x', s.xSeen);
  }

  lemma SendRequestEffect(x: Session, name: string, params: Params, tracked: bool)
    ensures var x' := SendRequest(x, name, params, tracked);
            OnlyAsks(x, x') && OwnOutcomes(x, x') && AskedAnew(x, x')
  {
    hide Digits;
  }

  ghost predicate AskedAnew(x: Session, x': Session) {
    if !x.open then x'.sent == x.sent && x'.pending == x.pending && x'.nextId == x.nextId
    else
      && x'.nextId == x.nextId + 1
      && (forall id :: id in x'.pending <==> id in x.pending || id == Digits(x.nextId))
      && exists m :: x'.sent == x.sent + [m] && m.name.Some? && m.id == Text(Digits(x.nextId)) && m.version == JSONRPC
  }

  lemma NewAsks(x: Session, x': Session)
    requires Asks(x) && TableOk(x') && AskedAnew(x, x')
    ensures Asks(x')
  {
    hide TableOk, Requests, Digits;
    if x.open {
      var id0 := Digits(x.nextId);
      var m :| x'.sent == x.sent + [m] && m.name.Some? && m.id == Text(id0) && m.version == JSONRPC;
      assert Requests(x.sent, id0) == 0;
      forall id ensures Requests(x'.sent, id) == Requests(x.sent, id) + (if id == id0 then 1 else 0) {
        CountSnoc(x.sent, m, id);
      }
      forall n: nat | n >= x'.nextId ensures Requests(x'.sent, Digits(n)) == 0 {
        if Digits(n) == id0 {
          DigitsInjective(n, x.nextId);
        }
      }
      hide Requests;
      forall k | k in x'.sent ensures WellFormed(k) {
        assert k in x.sent || k == m;
      }
    }
  }

  /** Nothing was ever answered under the new id. */
  lemma NewUnanswered(s: System)
    requires Inv(s)
    ensures Replies(s.y.sent, Digits(s.x.nextId)) == 0
  {
    hide Requests, Replies, Digits, Learned, TableOk, Cancels;
    var id0 := Digits(s.x.nextId);
    assert Requests(s.x.sent, id0) == 0;
    CountPrefix(s.x.sent, s.ySeen, id0);
    assert s.y.accepted[id0] == 0;
  }

  /** Everything else a session does on its own account. */
  lemma OwnKeeps(s: System, e: Event)
    requires Inv(s) && !e.Received? && !e.Finished? && !e.Ask?
    ensures PromisesKnown(s.x) && Inv(s.(x := Handle(s.x, e)))
  {
    InvParts(s);
    var x := s.x;
    assert TableOk(x);
    HandleOk(x, e);
    OwnEffect(x, e);
    var x' := Handle(x, e);
    hide Inv, Handle, Learned, Answers, Requests, Replies, TableOk, Digits;
    AsksLess(x, x');
    AnswersSame(s.y, x, x', s.xSeen, s.lossy);
    LearnedOwn(x, x', s.y, s.xSeen, s.lossy);
    Moved(s, x', s.xSeen);
  }

  lemma OwnEffect(x: Session, e: Event)
    requires TableOk(x) && !e.Received? && !e.Finished? && !e.Ask?
    ensures var x' := Handle(x, e);
            && OnlyAsks(x, x') && OwnOutcomes(x, x') && x'.nextId == x.nextId && x'.pending.Keys <= x.pending.Keys
            && (x'.sent == x.sent
                || exists m :: x'.sent == x.sent + [m] && WellFormed(m) && (m.id == NoId || m.name.None?))
  {
    hide Settle, AbortPending, TableOk, Digits;
    assert PromisesKnown(x) by {
      Known(x);
    }
    match e
    case Notify(name, params) =>
      if x.open {
        assert WellFormed(NotificationMessage(name, params));
      }
    case Cancel(id, reason) =>
      if id in x.pending {
        GiveUpEffect(x, id, reason, Failed(CancelledByCaller));
      }
    case Timeout(id) =>
      if id in x.pending {
        GiveUpEffect(x, id, "Request timed out", Failed(TimedOut));
      }
    case Unsent(m) =>
      if IdToString(m.id) in x.pending {
        SettleEffect(x, IdToString(m.id), Failed(TransportError));
      }
    case Abort => AbortEffect(x);
    case Closed => AbortEffect(x.(open := false));
    case _ =>
  }

  lemma SettleEffect(x: Session, id: string, outcome: Outcome)
    requires PromisesKnown(x) && id in x.pending
    ensures var x' := Settle(x, id, outcome);
            && OnlyAsks(x, x') && (IsOwn(outcome) ==> OwnOutcomes(x, x'))
            && x'.nextId == x.nextId && x'.sent == x.sent && x'.pending == x.pending - {id} && x'.open == x.open
            && x'.promises == Give(x.promises, x.pending[id].promise, outcome)
  {
    GiveEffect(x.promises, x.pending[id].promise, outcome);
  }

  lemma GiveUpEffect(x: Session, id: string, reason: string, outcome: Outcome)
    requires PromisesKnown(x) && id in x.pending && IsOwn(outcome)
    ensures var x' := GiveUp(x, id, reason, outcome);
            && OnlyAsks(x, x') && OwnOutcomes(x, x') && x'.nextId == x.nextId && x'.pending.Keys <= x.pending.Keys
            && (x'.sent == x.sent || exists m :: x'.sent == x.sent + [m] && WellFormed(m) && m.id == NoId)
  {
    hide Settle;
    var m := NotificationMessage(CANCELLED, NoParams.(requestId := Text(id), reason := reason));
    var x1 := AbandonRequest(x, id, x.pending[id].name, reason);
    assert WellFormed(m);
    assert x1.sent == x.sent || x1.sent == x.sent + [m];
    assert OnlyAsks(x, x1) && x1.promises == x.promises && x1.pending == x.pending;
    SettleEffect(x1, id, outcome);
  }

  lemma AbortEffect(x: Session)
    ensures var x' := AbortPending(x);
            && OnlyAsks(x, x') && OwnOutcomes(x, x') && x'.nextId == x.nextId && x'.sent == x.sent
            && x'.pending == map[]
  {
    hide Waits;
    assert IsOwn(Failed(TransportError));
  }

  // ---- dispatching and answering ------------------------------------------------------------------------

  /** Nothing has happened yet under the id of a request about to be dispatched. */
  lemma UntouchedId(y: Session, x: Session, xSeen: nat, lossy: bool, id: string)
    requires Asks(y) && Answers(y, x, xSeen, lossy) && xSeen < |y.sent| && IsRequestFor(y.sent[xSeen], id)
    ensures x.accepted[id] == 0 && Replies(x.sent, id) == 0 && x.running[Text(id)] == 0
    ensures x.suppressed[id] == 0 && x.muted[id] == 0
    ensures id !in x.produced && id !in x.inFlight && id !in x.cancelled
  {
    hide Replies, Cancels, TableOk, Fits, Requests, WellFormed;
    CountNext(y.sent, xSeen, id);
  }

  lemma SentFacts(y: Session, i: nat)
    requires Asks(y) && i < |y.sent|
    ensures y.sent[i] in y.sent && WellFormed(y.sent[i])
    ensures var m := y.sent[i];
            && (m.name.Some? && m.id != NoId ==> m.id.Text? && m.id.text != "" && IsRequestFor(m, m.id.text))
            && (m.name.None? ==> m.id.Text? && m.id.text != "" && IsReplyTo(m, m.id.text)
                                 && (m.result.Some? <==> m.error.None?))
            && (m.name.None? || m.id == NoId ==> forall id :: !IsRequestFor(m, id))
  {
    hide TableOk, Requests;
    assert y.sent[i] in y.sent;
  }

  lemma DispatchKeeps(s: System, threw: Option<Error>)
    requires Inv(s) && s.xSeen < |s.y.sent| && s.y.sent[s.xSeen].name.Some? && s.y.sent[s.xSeen].id != NoId
    ensures var x' := DispatchRequest(s.x, s.y.sent[s.xSeen], threw);
            Inv(s.(x := x', xSeen := s.xSeen + 1))
  {
    hide *;
    InvParts(s);
    var x, y, m := s.x, s.y, s.y.sent[s.xSeen];
    SentFacts(y, s.xSeen);
    var id := m.id.text;
    var x' := DispatchRequest(x, m, threw);
    UntouchedId(y, x, s.xSeen, s.lossy, id);
    DispatchEffect(x, m, threw);
    AsksTable(x);
    TableSame(x, x');
    AsksLess(x, x');
    if m.name.value in x.handlers && threw.None? {
      RunningAnswers(y, x, x', s.xSeen, s.lossy, id);
    } else {
      SeenRequest(y, x, s.xSeen, s.lossy, id);
      RefusedAnswers(y, x, x', s.xSeen, s.lossy, id);
    }
    LearnedSame(x, x', y, s.xSeen, s.lossy);
    Moved(s, x', s.xSeen + 1);
  }

  /** A reply is sent, or swallowed by a closed transport. */
  ghost predicate Replied(x: Session, x': Session, id: string) {
    && id in x'.produced && x'.produced == x.produced[id := x'.produced[id]]
    && if x.open
       then
         && x'.muted == x.muted
         && x'.sent == x.sent + [ReplyMessage(Text(id), x'.produced[id])]
       else x'.muted == x.muted + multiset{id} && x'.sent == x.sent
  }

  lemma DispatchEffect(x: Session, m: Message, threw: Option<Error>)
    requires m.name.Some? && m.id.Text? && m.id.text != "" && m.id.text !in x.inFlight
    ensures var id, x' := m.id.text, DispatchRequest(x, m, threw);
            && x'.promises == x.promises && x'.pending == x.pending && x'.nextId == x.nextId
            && x'.accepted == x.accepted + multiset{id} && x'.suppressed == x.suppressed && x'.cancelled == x.cancelled
            && (x'.sent == x.sent
                || exists k :: x'.sent == x.sent + [k] && WellFormed(k) && (k.id == NoId || k.name.None?))
            && if m.name.value in x.handlers && threw.None?
               then
                 && x'.running == x.running + multiset{Text(id)} && x'.inFlight == x.inFlight + {id}
                 && x'.muted == x.muted && x'.sent == x.sent && x'.produced == x.produced
               else x'.running == x.running && x'.inFlight == x.inFlight && Replied(x, x', id)
  {
    var id, x' := m.id.text, DispatchRequest(x, m, threw);
    if m.name.value !in x.handlers || threw.Some? {
      assert x.inFlight + {id} - {id} == x.inFlight;
      assert WellFormed(ReplyMessage(Text(id), x'.produced[id]));
    }
  }

  lemma RunningCounts(y: Session, x: Session, x': Session, xSeen: nat, lossy: bool, id: string)
    requires Counted(y, x, xSeen, lossy) && xSeen < |y.sent| && IsRequestFor(y.sent[xSeen], id)
    requires x'.accepted == x.accepted + multiset{id} && x'.running == x.running + multiset{Text(id)}
    requires x'.suppressed == x.suppressed && x'.muted == x.muted && x'.sent == x.sent
    ensures Counted(y, x', xSeen + 1, lossy)
  {
    hide Replies, Requests;
    forall other ensures Requests(y.sent[..xSeen + 1], other)
                      == Requests(y.sent[..xSeen], other) + (if other == id then 1 else 0) {
      CountNext(y.sent, xSeen, other);
    }
  }

  lemma RunningBooks(y: Session, x: Session, x': Session, id: string)
    requires Booked(y, x) && id != "" && id !in x.produced
    requires x'.accepted == x.accepted + multiset{id} && x'.running == x.running + multiset{Text(id)}
    requires x'.inFlight == x.inFlight + {id} && x'.suppressed == x.suppressed && x'.cancelled == x.cancelled
    requires x'.sent == x.sent && x'.produced == x.produced
    ensures Booked(y, x')
  {
    hide Cancels, Fits;
  }

  lemma RunningAnswers(y: Session, x: Session, x': Session, xSeen: nat, lossy: bool, id: string)
    requires Asks(y) && Answers(y, x, xSeen, lossy) && xSeen < |y.sent| && IsRequestFor(y.sent[xSeen], id) && id != ""
    requires x'.accepted == x.accepted + multiset{id} && x'.running == x.running + multiset{Text(id)}
    requires x'.inFlight == x.inFlight + {id}
    requires x'.suppressed == x.suppressed && x'.cancelled == x.cancelled && x'.muted == x.muted
    requires x'.sent == x.sent && x'.produced == x.produced
    ensures Answers(y, x', xSeen + 1, lossy) && Grows(x, x')
  {
    UntouchedId(y, x, xSeen, lossy, id);
    hide Requests, Replies, Cancels, Fits, WellFormed, TableOk, Asks;
    RunningCounts(y, x, x', xSeen, lossy, id);
    RunningBooks(y, x, x', id);
    hide Counted, Booked;
  }

  /** `y`'s request has reached `x` and was counted, but has come to nothing yet. */
  ghost predicate Due(y: Session, x: Session, xSeen: nat, lossy: bool, id: string) {
    && xSeen <= |y.sent|
    && (forall other :: x.accepted[other] + (if other == id then 1 else 0) <= Requests(y.sent[..xSeen], other))
    && (!lossy ==> forall other ::
          x.accepted[other] + (if other == id then 1 else 0) == Requests(y.sent[..xSeen], other))
  }

  lemma SeenRequest(y: Session, x: Session, xSeen: nat, lossy: bool, id: string)
    requires Answers(y, x, xSeen, lossy) && xSeen < |y.sent| && IsRequestFor(y.sent[xSeen], id)
    ensures Due(y, x, xSeen + 1, lossy, id)
  {
    hide Replies, Cancels, Fits, Requests;
    forall other ensures Requests(y.sent[..xSeen + 1], other)
                      == Requests(y.sent[..xSeen], other) + (if other == id then 1 else 0) {
      CountNext(y.sent, xSeen, other);
    }
  }

  lemma RefusedIs(y: Session, x: Session, x': Session, xSeen: nat, lossy: bool, id: string)
    requires Answers(y, x, xSeen, lossy) && Due(y, x, xSeen + 1, lossy, id)
    requires x.accepted[id] == 0 && id !in x.inFlight
    requires x'.accepted == x.accepted + multiset{id} && x'.running == x.running && x'.inFlight == x.inFlight
    requires x'.suppressed == x.suppressed && x'.cancelled == x.cancelled
    requires forall other :: Replies(x'.sent, other) + x'.muted[other]
                          == Replies(x.sent, other) + x.muted[other] + (if other == id then 1 else 0)
    requires forall m :: m in x'.sent && m.name.None? ==>
               m.id.Text? && m.id.text in x'.produced && Fits(m, x'.produced[m.id.text])
    requires forall k :: k in x'.produced <==> k in x.produced || k == id
    ensures Answers(y, x', xSeen + 1, lossy)
  {
    hide Replies, Cancels, Requests, Fits;
  }

  lemma RefusedAnswers(y: Session, x: Session, x': Session, xSeen: nat, lossy: bool, id: string)
    requires Asks(y) && Answers(y, x, xSeen, lossy) && xSeen < |y.sent| && IsRequestFor(y.sent[xSeen], id) && id != ""
    requires Due(y, x, xSeen + 1, lossy, id)
    requires x'.accepted == x.accepted + multiset{id} && x'.running == x.running && x'.inFlight == x.inFlight
    requires x'.suppressed == x.suppressed && x'.cancelled == x.cancelled && Replied(x, x', id)
    ensures Answers(y, x', xSeen + 1, lossy) && Grows(x, x')
  {
    hide *;
    UntouchedId(y, x, xSeen, lossy, id);
    RepliedCounts(x, x', id);
    AnsweredFits(y, x, xSeen, lossy);
    RepliedFits(x, x', id);
    ProducedOne(x, x', id);
    RefusedIs(y, x, x', xSeen, lossy, id);
  }

  lemma RepliedCounts(x: Session, x': Session, id: string)
    requires Replied(x, x', id)
    ensures forall other :: Replies(x'.sent, other) + x'.muted[other]
                         == Replies(x.sent, other) + x.muted[other] + (if other == id then 1 else 0)
  {
    forall other ensures Replies(x'.sent, other) + x'.muted[other]
                      == Replies(x.sent, other) + x.muted[other] + (if other == id then 1 else 0) {
      CountSnoc(x.sent, ReplyMessage(Text(id), x'.produced[id]), other);
    }
  }

  lemma RepliedFits(x: Session, x': Session, id: string)
    requires Replied(x, x', id) && id !in x.produced
    requires forall m :: m in x.sent && m.name.None? ==>
               m.id.Text? && m.id.text in x.produced && Fits(m, x.produced[m.id.text])
    ensures forall m :: m in x'.sent && m.name.None? ==>
              m.id.Text? && m.id.text in x'.produced && Fits(m, x'.produced[m.id.text])
    ensures Grows(x, x')
  {
    forall m | m in x'.sent && m.name.None?
      ensures m.id.Text? && m.id.text in x'.produced && Fits(m, x'.produced[m.id.text])
    {
      if m !in x.sent {
        assert m == ReplyMessage(Text(id), x'.produced[id]);
      }
    }
  }

  /** A message that is no answer was seen. */
  lemma LearnedSame(x: Session, x': Session, y: Session, xSeen: nat, lossy: bool)
    requires Learned(x, y, xSeen, lossy) && xSeen < |y.sent| && y.sent[xSeen].name.Some?
    requires x'.promises == x.promises && x'.pending == x.pending
    ensures Learned(x', y, xSeen + 1, lossy)
  {
    hide Replies, Cancels, Digits;
    forall id | id in x'.pending ensures Replies(y.sent[..xSeen + 1], id) == Replies(y.sent[..xSeen], id) {
      CountNext(y.sent, xSeen, id);
    }
  }

  lemma RunningIds(y: Session, x: Session, xSeen: nat, lossy: bool, k: Id)
    requires Answers(y, x, xSeen, lossy) && k in x.running
    ensures k.Text? && k.text != ""
  {
    hide Requests, Replies, Cancels, Fits;
  }

  lemma SamePromises(x: Session, x': Session)
    requires x'.promises == x.promises
    ensures OwnOutcomes(x, x')
  {
  }

  lemma FinishedKeeps(s: System, k: Id, reply: Reply)
    requires Inv(s) && k in s.x.running
    ensures Inv(s.(x := HandlerFinished(s.x, k, reply)))
  {
    hide *;
    InvParts(s);
    var x, y := s.x, s.y;
    RunningIds(y, x, s.xSeen, s.lossy, k);
    var id := k.text;
    var x' := HandlerFinished(x, k, reply);
    FinishedEffect(x, id, reply);
    AsksTable(x);
    TableSame(x, x');
    AsksLess(x, x');
    FinishedAnswers(y, x, x', s.xSeen, s.lossy, id);
    SamePromises(x, x');
    LearnedOwn(x, x', y, s.xSeen, s.lossy);
    Moved(s, x', s.xSeen);
  }

  /** A cancelled request gets no answer, and its cancellation is forgotten. */
  ghost predicate Suppressed(x: Session, x': Session, id: string) {
    && x'.cancelled == x.cancelled - {id} && x'.suppressed == x.suppressed + multiset{id}
    && x'.sent == x.sent && x'.muted == x.muted
    && id in x'.produced && x'.produced == x.produced[id := x'.produced[id]]
  }

  lemma ReplyWellFormed(id: string, reply: Reply)
    requires id != ""
    ensures WellFormed(ReplyMessage(Text(id), reply)) && ReplyMessage(Text(id), reply).name.None?
  {
  }

  lemma FinishedEffect(x: Session, id: string, reply: Reply)
    requires Text(id) in x.running && id != ""
    ensures var x' := HandlerFinished(x, Text(id), reply);
            && x'.promises == x.promises && x'.pending == x.pending && x'.nextId == x.nextId
            && x'.accepted == x.accepted && x'.running == x.running - multiset{Text(id)}
            && x'.inFlight == x.inFlight - {id} && id in x'.produced && x'.produced[id] == reply
            && (x'.sent == x.sent
                || exists k :: x'.sent == x.sent + [k] && WellFormed(k) && (k.id == NoId || k.name.None?))
            && if id in x.cancelled then Suppressed(x, x', id)
               else x'.cancelled == x.cancelled && x'.suppressed == x.suppressed && Replied(x, x', id)
  {
    hide WellFormed;
    var x' := HandlerFinished(x, Text(id), reply);
    if id !in x.cancelled && x.open {
      ReplyWellFormed(id, reply);
      assert x'.sent == x.sent + [ReplyMessage(Text(id), reply)];
    }
  }

  lemma OnlyOnce(y: Session, x: Session, xSeen: nat, lossy: bool, id: string)
    requires Asks(y) && Answers(y, x, xSeen, lossy) && Text(id) in x.running
    ensures x.running[Text(id)] == 1 && x.accepted[id] == 1 && id !in x.produced
  {
    hide Replies, Cancels, TableOk, Requests, WellFormed, Fits;
    CountPrefix(y.sent, xSeen, id);
  }

  lemma AnsweredFits(y: Session, x: Session, xSeen: nat, lossy: bool)
    requires Answers(y, x, xSeen, lossy)
    ensures forall m :: m in x.sent && m.name.None? ==>
              m.id.Text? && m.id.text in x.produced && Fits(m, x.produced[m.id.text])
  {
    hide Requests, Replies, Cancels, Fits;
  }

  lemma ProducedOne(x: Session, x': Session, id: string)
    requires Replied(x, x', id)
    ensures forall k :: k in x'.produced <==> k in x.produced || k == id
  {
  }

  lemma SuppressedCounts(y: Session, x: Session, x': Session, xSeen: nat, lossy: bool, id: string)
    requires Counted(y, x, xSeen, lossy) && x.running[Text(id)] == 1
    requires x'.accepted == x.accepted && x'.running == x.running - multiset{Text(id)} && Suppressed(x, x', id)
    ensures Counted(y, x', xSeen, lossy)
  {
    hide Replies, Requests;
  }

  lemma SuppressedBooks(y: Session, x: Session, x': Session, id: string)
    requires Booked(y, x) && x.running[Text(id)] == 1 && id in x.cancelled && id in x.accepted
    requires x'.accepted == x.accepted && x'.running == x.running - multiset{Text(id)} && x'.inFlight == x.inFlight - {id}
    requires Suppressed(x, x', id) && id !in x.produced
    ensures Booked(y, x')
  {
    hide Cancels, Fits;
  }

  lemma SuppressedAnswers(y: Session, x: Session, x': Session, xSeen: nat, lossy: bool, id: string)
    requires Answers(y, x, xSeen, lossy) && x.running[Text(id)] == 1 && x.accepted[id] == 1
    requires id in x.cancelled && id !in x.produced
    requires x'.accepted == x.accepted && x'.running == x.running - multiset{Text(id)} && x'.inFlight == x.inFlight - {id}
    requires Suppressed(x, x', id)
    ensures Answers(y, x', xSeen, lossy) && Grows(x, x')
  {
    SuppressedCounts(y, x, x', xSeen, lossy, id);
    SuppressedBooks(y, x, x', id);
    hide Counted, Booked;
  }

  lemma RepliedAnswers(y: Session, x: Session, x': Session, xSeen: nat, lossy: bool, id: string)
    requires Answers(y, x, xSeen, lossy) && x.running[Text(id)] == 1 && x.accepted[id] == 1 && id !in x.cancelled
    requires x'.accepted == x.accepted && x'.running == x.running - multiset{Text(id)} && x'.inFlight == x.inFlight - {id}
    requires x'.cancelled == x.cancelled && x'.suppressed == x.suppressed
    requires forall other :: Replies(x'.sent, other) + x'.muted[other]
                          == Replies(x.sent, other) + x.muted[other] + (if other == id then 1 else 0)
    requires forall m :: m in x'.sent && m.name.None? ==>
               m.id.Text? && m.id.text in x'.produced && Fits(m, x'.produced[m.id.text])
    requires forall k :: k in x'.produced <==> k in x.produced || k == id
    ensures Answers(y, x', xSeen, lossy)
  {
    hide Replies, Cancels, Requests, Fits;
  }

  lemma FinishedAnswers(y: Session, x: Session, x': Session, xSeen: nat, lossy: bool, id: string)
    requires Asks(y) && Answers(y, x, xSeen, lossy) && Text(id) in x.running
    requires x'.accepted == x.accepted && x'.running == x.running - multiset{Text(id)} && x'.inFlight == x.inFlight - {id}
    requires if id in x.cancelled then Suppressed(x, x', id)
             else x'.cancelled == x.cancelled && x'.suppressed == x.suppressed && Replied(x, x', id)
    ensures Answers(y, x', xSeen, lossy) && Grows(x, x')
  {
    hide *;
    OnlyOnce(y, x, xSeen, lossy, id);
    if id in x.cancelled {
      SuppressedAnswers(y, x, x', xSeen, lossy, id);
    } else {
      RepliedCounts(x, x', id);
      AnsweredFits(y, x, xSeen, lossy);
      RepliedFits(x, x', id);
      ProducedOne(x, x', id);
      RepliedAnswers(y, x, x', xSeen, lossy, id);
    }
  }

  // ---- cancels and answers received --------------------------------------------------------------------------

  /** A message that is no request was seen. */
  lemma SeenMore(y: Session, x: Session, xSeen: nat, lossy: bool)
    requires Answers(y, x, xSeen, lossy) && xSeen < |y.sent|
    requires forall id :: !IsRequestFor(y.sent[xSeen], id)
    ensures Answers(y, x, xSeen + 1, lossy)
  {
    hide Replies, Cancels, Fits, Requests;
    forall id ensures Requests(y.sent[..xSeen + 1], id) == Requests(y.sent[..xSeen], id) {
      CountNext(y.sent, xSeen, id);
    }
  }

  function Marked(x: Session, id: string): Session {
    if id in x.inFlight then x.(cancelled := x.cancelled + {id}) else x
  }

  lemma MarkedSame(x: Session, id: string)
    ensures Marked(x, id) == x.(cancelled := Marked(x, id).cancelled)
  {
  }

  lemma NotificationEffect(x: Session, m: Message)
    requires PromisesKnown(x) && m.name.Some?
    ensures var id := IdToString(m.params.requestId);
            DispatchNotification(x, m)
            == if !IsCancelOf(m, id) || id == "" then x
               else if id in Marked(x, id).pending then Settle(Marked(x, id), id, Failed(CancelledByPeer))
               else Marked(x, id)
  {
    hide IdToString, Settle;
  }

  lemma ByPeer(y: Session, id: string)
    requires Cancels(y.sent, id)
    ensures Justified(Failed(CancelledByPeer), id, y)
  {
  }

  lemma CancelKeeps(s: System)
    requires Inv(s) && s.xSeen < |s.y.sent| && s.y.sent[s.xSeen].name.Some? && s.y.sent[s.xSeen].id == NoId
    ensures PromisesKnown(s.x)
    ensures Inv(s.(x := DispatchNotification(s.x, s.y.sent[s.xSeen]), xSeen := s.xSeen + 1))
  {
    hide *;
    InvParts(s);
    var x, y, m := s.x, s.y, s.y.sent[s.xSeen];
    AsksTable(x);
    Known(x);
    SentFacts(y, s.xSeen);
    SeenMore(y, x, s.xSeen, s.lossy);
    LearnedSame(x, x, y, s.xSeen, s.lossy);
    NotificationEffect(x, m);
    var id := IdToString(m.params.requestId);
    if IsCancelOf(m, id) && id != "" {
      Mentioned(y.sent, m, id);
      var x1 := Marked(x, id);
      MarkedSame(x, id);
      MarkedAnswers(y, x, x1, s.xSeen + 1, s.lossy, id);
      AsksLess2(x, x1);
      GrowsSame(x, x1);
      LearnedAs(x, x1, y, s.xSeen + 1, s.lossy);
      Moved(s, x1, s.xSeen + 1);
      if id in x1.pending {
        ByPeer(y, id);
        SettleKeeps(s.(x := x1, xSeen := s.xSeen + 1), id, Failed(CancelledByPeer));
      }
    } else {
      GrowsSame(x, x);
      Moved(s, x, s.xSeen + 1);
    }
  }

  lemma Mentioned(ms: seq<Message>, m: Message, id: string)
    requires m in ms && IsCancelOf(m, id)
    ensures Cancels(ms, id)
  {
  }

  lemma AsksTable(x: Session)
    requires Asks(x)
    ensures TableOk(x)
  {
  }

  lemma AsksLess2(x: Session, x': Session)
    requires Asks(x) && x'.promises == x.promises && x'.pending == x.pending && x'.nextId == x.nextId && x'.sent == x.sent
    ensures Asks(x')
  {
    TableSame(x, x');
    hide TableOk;
  }

  lemma GrowsSame(x: Session, x': Session)
    requires x'.sent == x.sent && x'.produced == x.produced
    ensures Grows(x, x')
  {
  }

  lemma LearnedAs(x: Session, x': Session, y: Session, xSeen: nat, lossy: bool)
    requires Learned(x, y, xSeen, lossy) && x'.promises == x.promises && x'.pending == x.pending
    ensures Learned(x', y, xSeen, lossy)
  {
  }

  lemma MarkedAnswers(y: Session, x: Session, x': Session, xSeen: nat, lossy: bool, id: string)
    requires Answers(y, x, xSeen, lossy) && Cancels(y.sent, id)
    requires x' == Marked(x, id)
    ensures Answers(y, x', xSeen, lossy)
  {
    hide Replies, Cancels, Fits, Requests;
  }

  /** An outcome the peer accounts for. */
  lemma SettleKeeps(s: System, id: string, outcome: Outcome)
    requires Inv(s) && id in s.x.pending && Justified(outcome, id, s.y)
    ensures PromisesKnown(s.x) && Inv(s.(x := Settle(s.x, id, outcome)))
  {
    InvParts(s);
    var x, y := s.x, s.y;
    AsksTable(x);
    Known(x);
    SettleOk(x, id, outcome);
    SettleEffect(x, id, outcome);
    var x' := Settle(x, id, outcome);
    hide Inv, Settle, Requests, Replies, Answers, Cancels;
    AsksLess(x, x');
    AnswersSame(y, x, x', s.xSeen, s.lossy);
    LearnedSettled(x, x', y, s.xSeen, s.lossy, id, outcome);
    Moved(s, x', s.xSeen);
  }

  lemma LearnedSettled(x: Session, x': Session, y: Session, xSeen: nat, lossy: bool, id: string, outcome: Outcome)
    requires TableOk(x) && id in x.pending && Learned(x, y, xSeen, lossy) && Justified(outcome, id, y)
    requires x'.pending == x.pending - {id} && x'.promises == Give(x.promises, x.pending[id].promise, outcome)
    ensures Learned(x', y, xSeen, lossy)
  {
    hide Replies, Cancels, Digits, Give;
    GiveEffect(x.promises, x.pending[id].promise, outcome);
  }

  function OutcomeOf(m: Message): Outcome {
    if m.error.Some? then Failed(RemoteError(m.error.value))
    else Result(if m.result.Some? then m.result.value else "")
  }

  lemma ResponseEffect(x: Session, m: Message)
    requires PromisesKnown(x) && m.id.Text? && m.id.text != ""
    ensures DispatchResponse(x, m) == if m.id.text in x.pending then Settle(x, m.id.text, OutcomeOf(m)) else x
  {
    hide Settle;
  }

  lemma AnswerJustified(x: Session, y: Session, ySeen: nat, lossy: bool, m: Message)
    requires Answers(x, y, ySeen, lossy) && m in y.sent && m.name.None? && (m.result.Some? <==> m.error.None?)
    ensures m.id.Text? && Justified(OutcomeOf(m), m.id.text, y)
  {
    hide Requests, Replies, Cancels;
  }

  lemma ResponseKeeps(s: System)
    requires Inv(s) && s.xSeen < |s.y.sent| && s.y.sent[s.xSeen].name.None?
    ensures PromisesKnown(s.x)
    ensures Inv(s.(x := DispatchResponse(s.x, s.y.sent[s.xSeen]), xSeen := s.xSeen + 1))
  {
    hide *;
    InvParts(s);
    var x, y, m := s.x, s.y, s.y.sent[s.xSeen];
    AsksTable(x);
    Known(x);
    SentFacts(y, s.xSeen);
    var id := m.id.text;
    ResponseEffect(x, m);
    if id in x.pending {
      var outcome := OutcomeOf(m);
      AnswerJustified(x, y, s.ySeen, s.lossy, m);
      SettleKeeps(s, id, outcome);
      SettleEffect(x, id, outcome);
      AnswerSeen(s.(x := Settle(x, id, outcome)), id);
    } else {
      AnswerSeen(s, id);
    }
  }

  /** An answer is no longer in the queue once its request is off the table. */
  lemma AnswerSeen(s: System, id: string)
    requires Inv(s) && s.xSeen < |s.y.sent| && IsReplyTo(s.y.sent[s.xSeen], id) && id !in s.x.pending
    ensures Inv(s.(xSeen := s.xSeen + 1))
  {
    InvParts(s);
    SeenMore(s.y, s.x, s.xSeen, s.lossy);
    hide Inv, Asks, Answers, Replies;
    forall other | other in s.x.pending
      ensures Replies(s.y.sent[..s.xSeen + 1], other) == Replies(s.y.sent[..s.xSeen], other)
    {
      CountNext(s.y.sent, s.xSeen, other);
    }
    GrowsSame(s.x, s.x);
    Moved(s, s.x, s.xSeen + 1);
  }

  // ---- every step ----------------------------------------------------------------------------------------------

  lemma DeliverEffect(s: System, threw: Option<Error>)
    requires PromisesKnown(s.x)
    ensures StepX(s, Deliver(threw))
         == if s.xSeen < |s.y.sent| && s.x.open
            then s.(x := Receive(s.x, s.y.sent[s.xSeen], threw), xSeen := s.xSeen + 1) else s
  {
    hide Receive;
  }

  lemma ReceiveEffect(x: Session, m: Message, threw: Option<Error>)
    requires PromisesKnown(x) && WellFormed(m)
    ensures Receive(x, m, threw)
         == if m.name.None? then DispatchResponse(x, m)
            else if m.id == NoId then DispatchNotification(x, m)
            else DispatchRequest(x, m, threw)
  {
    hide DispatchResponse, DispatchNotification, DispatchRequest;
  }

  lemma DeliverKeeps(s: System, threw: Option<Error>)
    requires Inv(s)
    ensures PromisesKnown(s.x) && Inv(StepX(s, Deliver(threw)))
  {
    hide *;
    InvParts(s);
    AsksTable(s.x);
    Known(s.x);
    DeliverEffect(s, threw);
    if s.xSeen < |s.y.sent| && s.x.open {
      SentFacts(s.y, s.xSeen);
      ReceiveEffect(s.x, s.y.sent[s.xSeen], threw);
      if s.y.sent[s.xSeen].name.None? {
        ResponseKeeps(s);
      } else if s.y.sent[s.xSeen].id == NoId {
        CancelKeeps(s);
      } else {
        DispatchKeeps(s, threw);
      }
    }
  }

  lemma LostAnswers(y: Session, x: Session, xSeen: nat, lossy: bool)
    requires Answers(y, x, xSeen, lossy) && xSeen < |y.sent|
    ensures Answers(y, x, xSeen + 1, true)
  {
    hide Requests, Replies, Cancels, Fits;
    forall id ensures Requests(y.sent[..xSeen], id) <= Requests(y.sent[..xSeen + 1], id) {
      CountNext(y.sent, xSeen, id);
    }
  }

  lemma LossyAnswers(x: Session, y: Session, ySeen: nat, lossy: bool)
    requires Answers(x, y, ySeen, lossy)
    ensures Answers(x, y, ySeen, true)
  {
    hide Requests, Replies, Cancels, Fits;
  }

  lemma LossyLearned(x: Session, y: Session, seen: nat, seen': nat, lossy: bool)
    requires Learned(x, y, seen, lossy) && seen' <= |y.sent|
    ensures Learned(x, y, seen', true)
  {
    hide Replies, Justified;
  }

  lemma LoseEffect(s: System)
    requires PromisesKnown(s.x)
    ensures StepX(s, Lose) == if s.xSeen < |s.y.sent| then s.(xSeen := s.xSeen + 1, lossy := true) else s
  {
  }

  lemma LearnedSeen(x: Session, y: Session, xSeen: nat, lossy: bool)
    requires Learned(x, y, xSeen, lossy)
    ensures xSeen <= |y.sent|
  {
  }

  lemma LoseKeeps(s: System)
    requires Inv(s)
    ensures PromisesKnown(s.x) && Inv(StepX(s, Lose))
  {
    hide *;
    InvParts(s);
    AsksTable(s.x);
    Known(s.x);
    LoseEffect(s);
    if s.xSeen < |s.y.sent| {
      LostAnswers(s.y, s.x, s.xSeen, s.lossy);
      LossyAnswers(s.x, s.y, s.ySeen, s.lossy);
      LearnedSeen(s.x, s.y, s.xSeen, s.lossy);
      LearnedSeen(s.y, s.x, s.ySeen, s.lossy);
      LossyLearned(s.x, s.y, s.xSeen, s.xSeen + 1, s.lossy);
      LossyLearned(s.y, s.x, s.ySeen, s.ySeen, s.lossy);
      InvOf(s.(xSeen := s.xSeen + 1, lossy := true));
    }
  }

  lemma StepXKeeps(s: System, input: Input)
    requires Inv(s)
    ensures PromisesKnown(s.x) && Inv(StepX(s, input))
  {
    LoseKeeps(s);
    hide Inv, Handle, Receive;
    match input
    case Deliver(threw) => DeliverKeeps(s, threw);
    case Lose =>
    case Own(e) =>
      if e.Finished? {
        if e.request in s.x.running {
          FinishedKeeps(s, e.request, e.reply);
        }
        FinishedIs(s, e);
      } else if e.Ask? {
        AskKeeps(s, e.name, e.params, e.tracked);
        AskIs(s, e);
      } else if !e.Received? {
        OwnKeeps(s, e);
      }
  }

  lemma FinishedIs(s: System, e: Event)
    requires PromisesKnown(s.x) && e.Finished?
    ensures Handle(s.x, e) == if e.request in s.x.running then HandlerFinished(s.x, e.request, e.reply) else s.x
  {
  }

  lemma AskIs(s: System, e: Event)
    requires PromisesKnown(s.x) && e.Ask?
    ensures Handle(s.x, e) == SendRequest(s.x, e.name, e.params, e.tracked)
  {
  }

  lemma SwapKeeps(s: System)
    requires Inv(s)
    ensures Inv(Swap(s))
  {
    InvParts(s);
    hide Asks, Answers, Learned;
  }

  lemma StepKeeps(s: System, byX: bool, input: Input)
    requires Inv(s)
    ensures PromisesKnown(s.x) && PromisesKnown(s.y) && Inv(Step(s, byX, input))
  {
    hide Inv, StepX;
    SwapKeeps(s);
    StepXKeeps(s, input);
    StepXKeeps(Swap(s), input);
    if !byX {
      SwapKeeps(StepX(Swap(s), input));
    }
  }

  function Run(s: System, steps: seq<(bool, Input)>): System
    requires Inv(s)
    decreases |steps|
  {
    if steps == [] then s
    else
      StepKeeps(s, steps[0].0, steps[0].1);
      Run(Step(s, steps[0].0, steps[0].1), steps[1..])
  }

  lemma StartOk()
    ensures Inv(Start)
  {
  }

  lemma {:induction false} RunKeeps(s: System, steps: seq<(bool, Input)>)
    requires Inv(s)
    ensures Inv(Run(s, steps))
    decreases |steps|
  {
    hide Inv, Step;
    if steps != [] {
      StepKeeps(s, steps[0].0, steps[0].1);
      RunKeeps(Step(s, steps[0].0, steps[0].1), steps[1..]);
    }
  }

  /** Where a run from the start gets to. */
  function Reached(steps: seq<(bool, Input)>): System {
    StartOk();
    Run(Start, steps)
  }

  lemma ReachedKeeps(steps: seq<(bool, Input)>)
    ensures Inv(Reached(steps))
  {
    hide Inv, Run;
    StartOk();
    RunKeeps(Start, steps);
  }

  // ---- what it comes to -------------------------------------------------------------------------------------------

  /**
   After any run a promise of `x` has at most one outcome and none exactly while its request is on
   the table. It holds a value or an error only if the handler of `y` came to just that for the
   request of this very promise, and was cancelled by the peer only if the peer sent such a cancel.
   */
  lemma OutcomesHaveACause(steps: seq<(bool, Input)>, p: nat)
    requires p < |Reached(steps).x.promises|
    ensures Caused(Reached(steps), p)
  {
    hide *;
    ReachedKeeps(steps);
    InvMeansCaused(Reached(steps), p);
  }

  ghost predicate Caused(s: System, p: nat)
    requires p < |s.x.promises|
  {
    var outcomes, id := s.x.promises[p].outcomes, Digits(s.x.promises[p].number);
    && |outcomes| <= 1
    && (outcomes == [] <==> Waits(s.x, p))
    && (forall v :: outcomes == [Result(v)] ==> id in s.y.produced && s.y.produced[id] == Answer(v))
    && (forall e :: outcomes == [Failed(RemoteError(e))] ==> id in s.y.produced && s.y.produced[id] == Refusal(e))
    && (outcomes == [Failed(CancelledByPeer)] ==> Cancels(s.y.sent, id))
  }

  lemma InvMeansCaused(s: System, p: nat)
    requires Inv(s) && p < |s.x.promises|
    ensures Caused(s, p)
  {
    hide *;
    InvParts(s);
    AsksTable(s.x);
    PromiseState(s.x, p);
    FirstJustified(s.x, s.y, s.xSeen, s.lossy, p);
    JustifiedMeansCaused(s, p);
  }

  lemma FirstJustified(x: Session, y: Session, xSeen: nat, lossy: bool, p: nat)
    requires Learned(x, y, xSeen, lossy) && p < |x.promises|
    ensures x.promises[p].outcomes != [] ==> Justified(x.promises[p].outcomes[0], Digits(x.promises[p].number), y)
  {
    hide Justified, Digits, Replies;
  }

  lemma JustifiedMeansCaused(s: System, p: nat)
    requires p < |s.x.promises|
    requires var outcomes := s.x.promises[p].outcomes;
             && |outcomes| <= 1 && (outcomes == [] <==> Waits(s.x, p))
             && (outcomes != [] ==> Justified(outcomes[0], Digits(s.x.promises[p].number), s.y))
    ensures Caused(s, p)
  {
    hide Digits, Waits, Cancels;
  }

  lemma PromiseState(x: Session, p: nat)
    requires TableOk(x) && p < |x.promises|
    ensures |x.promises[p].outcomes| <= 1
    ensures x.promises[p].outcomes == [] <==> Waits(x, p)
  {
    hide Digits;
    if x.promises[p].outcomes == [] {
      assert x.pending[Digits(x.promises[p].number)].promise == p;
    }
  }

  /**
   After any run every request of `x` went out once, and once dispatched at `y` exactly one of
   these holds of it: its handler is running, it was answered once, it was left unanswered because
   `x` had cancelled it, or `y`'s transport was closed when the answer was ready.
   */
  lemma EachRequestAnsweredOnce(steps: seq<(bool, Input)>, id: string)
    ensures var s := Reached(steps);
            var y := s.y;
            && Requests(s.x.sent, id) <= 1
            && y.accepted[id] <= Requests(s.x.sent, id)
            && Replies(y.sent, id) + y.running[Text(id)] + y.suppressed[id] + y.muted[id] == y.accepted[id]
            && Replies(y.sent, id) <= 1
            && (y.suppressed[id] > 0 ==> Cancels(s.x.sent, id))
            && (id in y.inFlight <==> Text(id) in y.running)
            && y.cancelled <= y.inFlight
  {
    ReachedKeeps(steps);
    var s := Reached(steps);
    InvParts(s);
    hide Reached, Inv, Learned, Cancels, Requests, Replies, TableOk, WellFormed, Fits;
    CountPrefix(s.x.sent, s.ySeen, id);
  }

  // ---- answered or not, for ever ------------------------------------------------------------------------------

  /** Messages stay sent, answers held back stay so, and an id marked as cancelled is marked until its answer is held back. */
  ghost predicate Onward(y: Session, y': Session) {
    && y.sent <= y'.sent && y.suppressed <= y'.suppressed && y.muted <= y'.muted
    && forall id :: id in y.cancelled ==> id in y'.cancelled || id in y'.suppressed
  }

  lemma OnwardTransitive(a: Session, b: Session, c: Session)
    requires Onward(a, b) && Onward(b, c)
    ensures Onward(a, c)
  {
  }

  lemma SettleOnward(y: Session, id: string, outcome: Outcome)
    requires id in y.pending && y.pending[id].promise < |y.promises|
    ensures Onward(y, Settle(y, id, outcome))
  {
  }

  /** Nothing but more messages sent. */
  lemma MoreSent(y: Session, y': Session)
    requires y.sent <= y'.sent && y'.suppressed == y.suppressed && y'.muted == y.muted && y'.cancelled == y.cancelled
    ensures Onward(y, y')
  {
  }

  lemma ReplyOnward(y: Session, id: Id, reply: Reply)
    ensures Onward(y, SendReply(y, id, reply))
  {
  }

  lemma DispatchOnward(y: Session, m: Message, threw: Option<Error>)
    requires m.name.Some?
    ensures Onward(y, DispatchRequest(y, m, threw))
  {
    hide IdToString, SendReply, Onward;
    var text := IdToString(m.id);
    var y1 := y.(accepted := y.accepted + multiset{text}, inFlight := if text != "" then y.inFlight + {text} else y.inFlight);
    var error := if m.name.value !in y.handlers then Error(METHOD_NOT_FOUND, m.name.value)
                 else if threw.Some? then threw.value else Error(0, "");
    var y2 := y1.(inFlight := y1.inFlight - {text}, produced := y1.produced[text := Refusal(error)]);
    MoreSent(y, y2);
    ReplyOnward(y2, m.id, Refusal(error));
    OnwardTransitive(y, y2, SendReply(y2, m.id, Refusal(error)));
    MoreSent(y, y1.(running := y1.running + multiset{m.id}));
  }

  lemma FinishedOnward(y: Session, id: Id, reply: Reply)
    requires id in y.running
    ensures Onward(y, HandlerFinished(y, id, reply))
  {
    hide IdToString, SendReply;
    var text := IdToString(id);
    var y1 := y.(running := y.running - multiset{id}, inFlight := y.inFlight - {text},
                 produced := y.produced[text := reply]);
    MoreSent(y, y1);
    ReplyOnward(y1, id, reply);
    OnwardTransitive(y, y1, SendReply(y1, id, reply));
  }

  lemma NotificationOnward(y: Session, m: Message)
    requires PromisesKnown(y)
    ensures Onward(y, DispatchNotification(y, m))
  {
    hide Settle, IdToString;
    var id := IdToString(m.params.requestId);
    var y1 := if id in y.inFlight then y.(cancelled := y.cancelled + {id}) else y;
    if id in y.pending {
      SettleOnward(y1, id, Failed(CancelledByPeer));
      OnwardTransitive(y, y1, Settle(y1, id, Failed(CancelledByPeer)));
    }
  }

  lemma ResponseOnward(y: Session, m: Message)
    requires PromisesKnown(y)
    ensures Onward(y, DispatchResponse(y, m))
  {
    hide Settle, IdToString, Onward;
    MoreSent(y, y);
    var id := IdToString(m.id);
    if id in y.pending {
      SettleOnward(y, id, if m.error.Some? then Failed(RemoteError(m.error.value))
                          else Result(if m.result.Some? then m.result.value else ""));
    }
  }

  lemma ReceiveOnward(y: Session, m: Message, threw: Option<Error>)
    requires PromisesKnown(y)
    ensures Onward(y, Receive(y, m, threw))
  {
    hide DispatchRequest, DispatchNotification, DispatchResponse, Onward;
    MoreSent(y, y);
    MoreSent(y, y.(sent := y.sent + [ReplyMessage(m.id, Refusal(Error(INVALID_REQUEST, "Invalid Request")))]));
    NotificationOnward(y, m);
    ResponseOnward(y, m);
    if m.name.Some? {
      DispatchOnward(y, m, threw);
    }
  }

  lemma GiveUpOnward(y: Session, id: string, reason: string, outcome: Outcome)
    requires id in y.pending && y.pending[id].promise < |y.promises|
    ensures Onward(y, GiveUp(y, id, reason, outcome))
  {
    hide Settle, Onward;
    var y1 := AbandonRequest(y, id, y.pending[id].name, reason);
    MoreSent(y, y1);
    SettleOnward(y1, id, outcome);
    OnwardTransitive(y, y1, Settle(y1, id, outcome));
  }

  lemma HandleOnward(y: Session, e: Event)
    requires PromisesKnown(y)
    ensures Onward(y, Handle(y, e))
  {
    hide Settle, IdToString, Receive, GiveUp, Digits, HandlerFinished, SendRequest, AbortPending, Onward;
    MoreSent(y, y);
    match e
    case Ask(name, params, tracked) => AskOnward(y, name, params, tracked);
    case Notify(name, params) => MoreSent(y, SendNotification(y, name, params));
    case Cancel(id, reason) =>
      if id in y.pending {
        GiveUpOnward(y, id, reason, Failed(CancelledByCaller));
      }
    case Timeout(id) =>
      if id in y.pending {
        GiveUpOnward(y, id, "Request timed out", Failed(TimedOut));
      }
    case Unsent(m) =>
      if IdToString(m.id) in y.pending {
        SettleOnward(y, IdToString(m.id), Failed(TransportError));
      }
    case Received(m, threw) => ReceiveOnward(y, m, threw);
    case Finished(id, reply) =>
      if id in y.running {
        FinishedOnward(y, id, reply);
      }
    case Abort => AbortOnward(y);
    case Closed =>
      MoreSent(y, y.(open := false));
      AbortOnward(y.(open := false));
      OnwardTransitive(y, y.(open := false), AbortPending(y.(open := false)));
    case Opened => MoreSent(y, y.(open := true));
    case SetHandler(name, present) => MoreSent(y, Handle(y, e));
    case SetProgress(token, present) => MoreSent(y, Handle(y, e));
  }

  lemma AskOnward(y: Session, name: string, params: Params, tracked: bool)
    ensures Onward(y, SendRequest(y, name, params, tracked))
  {
    hide Digits, Onward;
    MoreSent(y, SendRequest(y, name, params, tracked));
  }

  lemma AbortOnward(y: Session)
    ensures Onward(y, AbortPending(y))
  {
    hide Waits, Onward;
    MoreSent(y, AbortPending(y));
  }

  lemma StepXOnward(s: System, input: Input)
    requires PromisesKnown(s.x)
    ensures Onward(s.x, StepX(s, input).x) && StepX(s, input).y == s.y
  {
    hide Handle, Receive;
    match input
    case Own(e) => HandleOnward(s.x, e);
    case Deliver(threw) =>
      if s.xSeen < |s.y.sent| {
        ReceiveOnward(s.x, s.y.sent[s.xSeen], threw);
      }
    case Lose =>
  }

  lemma StepOnward(s: System, byX: bool, input: Input)
    requires PromisesKnown(s.x) && PromisesKnown(s.y)
    ensures Onward(s.y, Step(s, byX, input).y)
  {
    hide StepX;
    StepXOnward(s, input);
    StepXOnward(Swap(s), input);
  }

  lemma {:induction false} RunOnward(s: System, steps: seq<(bool, Input)>)
    requires Inv(s)
    ensures Onward(s.y, Run(s, steps).y)
    decreases |steps|
  {
    hide Inv, Step;
    if steps != [] {
      StepKeeps(s, steps[0].0, steps[0].1);
      StepOnward(s, steps[0].0, steps[0].1);
      RunOnward(Step(s, steps[0].0, steps[0].1), steps[1..]);
      OnwardTransitive(s.y, Step(s, steps[0].0, steps[0].1).y, Run(s, steps).y);
    }
  }

  /** One step and what follows it. */
  lemma ReachedThen(before: seq<(bool, Input)>, step: (bool, Input), after: seq<(bool, Input)>) returns (s: System)
    ensures var s0 := Reached(before);
            && Inv(s0) && PromisesKnown(s0.x) && PromisesKnown(s0.y)
            && s == Step(s0, step.0, step.1) && Inv(s) && Onward(s.y, Reached(before + [step] + after).y)
  {
    hide Inv, Step;
    ReachedKeeps(before);
    StartOk();
    var s0 := Reached(before);
    StepKeeps(s0, step.0, step.1);
    s := Step(s0, step.0, step.1);
    RunConcat(Start, before, [step] + after);
    RunConcat(s0, [step], after);
    assert before + ([step] + after) == before + [step] + after;
    assert [step][1..] == [];
    RunOnward(s, after);
  }

  /** The books of one request of `x`: at most one answer, and none if it was held back or is being cancelled. */
  lemma HeldBack(s: System, id: string)
    requires Inv(s)
    ensures Replies(s.y.sent, id) + s.y.suppressed[id] + s.y.muted[id] <= 1
    ensures id in s.y.cancelled || id in s.y.suppressed || id in s.y.muted ==> Replies(s.y.sent, id) == 0
    ensures Text(id) in s.y.running ==> Replies(s.y.sent, id) == s.y.suppressed[id] == s.y.muted[id] == 0 && id != ""
  {
    hide Learned, Cancels, Requests, Replies, TableOk, WellFormed, Fits;
    CountPrefix(s.x.sent, s.ySeen, id);
  }

  lemma StillSent(y: Session, y': Session, id: string)
    requires y.sent <= y'.sent
    ensures Replies(y.sent, id) <= Replies(y'.sent, id)
  {
    hide Replies;
    CountPrefix(y'.sent, |y.sent|, id);
    assert y'.sent[..|y.sent|] == y.sent;
  }

  /** A request that is marked as cancelled is never answered, whatever happens next. */
  lemma CancelledStaysUnanswered(before: seq<(bool, Input)>, after: seq<(bool, Input)>, id: string)
    requires id in Reached(before).y.cancelled
    ensures Replies(Reached(before + after).y.sent, id) == 0
  {
    hide Inv, Run, Replies;
    ReachedKeeps(before);
    StartOk();
    RunConcat(Start, before, after);
    RunOnward(Reached(before), after);
    ReachedKeeps(before + after);
    HeldBack(Reached(before + after), id);
  }

  /** A cancel that arrives while the handler of its request is running: the request is never answered. */
  lemma CancelInFlight(before: seq<(bool, Input)>, threw: Option<Error>, after: seq<(bool, Input)>, id: string)
    requires var s := Reached(before);
             && Text(id) in s.y.running && s.y.open && s.ySeen < |s.x.sent|
             && IsCancelOf(s.x.sent[s.ySeen], id) && s.x.sent[s.ySeen].id == NoId
    ensures Replies(Reached(before + [(false, Deliver(threw))] + after).y.sent, id) == 0
  {
    hide Inv, Run, Replies, Step, Reached;
    var s := ReachedThen(before, (false, Deliver(threw)), after);
    CancelMarks(Reached(before), threw, id);
    ReachedKeeps(before + [(false, Deliver(threw))] + after);
    HeldBack(Reached(before + [(false, Deliver(threw))] + after), id);
  }

  lemma CancelMarks(s: System, threw: Option<Error>, id: string)
    requires Inv(s) && PromisesKnown(s.x) && PromisesKnown(s.y)
    requires Text(id) in s.y.running && s.y.open && s.ySeen < |s.x.sent|
    requires IsCancelOf(s.x.sent[s.ySeen], id) && s.x.sent[s.ySeen].id == NoId
    ensures id in Step(s, false, Deliver(threw)).y.cancelled
  {
    var m := s.x.sent[s.ySeen];
    assert m in s.x.sent && WellFormed(m) && id != "" && id in s.y.inFlight by {
      hide Learned, Cancels, Requests, Replies, TableOk, Fits;
    }
    hide Inv, Settle, IdToString;
  }

  /**
   A handler that finishes: its request is answered with what it came to, once and for ever, if the
   transport was open and the request not cancelled in flight, and otherwise it is never answered.
   */
  lemma FinishedIsAnswered(before: seq<(bool, Input)>, reply: Reply, after: seq<(bool, Input)>, id: string)
    requires Text(id) in Reached(before).y.running
    ensures var y, y' := Reached(before).y, Reached(before + [(false, Own(Finished(Text(id), reply)))] + after).y;
            && Replies(y'.sent, id) == (if y.open && id !in y.cancelled then 1 else 0)
            && (y.open && id !in y.cancelled ==> ReplyMessage(Text(id), reply) in y'.sent)
  {
    hide Inv, Run, Replies, Step, Reached;
    var e := Finished(Text(id), reply);
    var s0 := Reached(before);
    var s := ReachedThen(before, (false, Own(e)), after);
    var s' := Reached(before + [(false, Own(e))] + after);
    ReachedKeeps(before + [(false, Own(e))] + after);
    HeldBack(s0, id);
    HeldBack(s', id);
    FinishEffect(s0, id, reply);
    StillSent(s.y, s'.y, id);
    if s0.y.open && id !in s0.y.cancelled {
      assert s.y.sent[|s.y.sent| - 1] in s'.y.sent;
    }
  }

  lemma FinishEffect(s: System, id: string, reply: Reply)
    requires PromisesKnown(s.x) && PromisesKnown(s.y) && Text(id) in s.y.running && id != ""
    ensures var y := Step(s, false, Own(Finished(Text(id), reply))).y;
            if id in s.y.cancelled then id in y.suppressed
            else if !s.y.open then id in y.muted
            else |y.sent| > 0 && y.sent[|y.sent| - 1] == ReplyMessage(Text(id), reply) && Replies(y.sent, id) > 0
  {
    CountSnoc(s.y.sent, ReplyMessage(Text(id), reply), id);
    hide Replies;
    assert IdToString(Text(id)) == id;
  }

  /**
   With nothing lost, both queues drained and no handler running at `y`, a request still on the
   table of `x` is one that `y` was told to forget or could not answer, its transport being closed.
   */
  lemma NobodyWaitsInVain(steps: seq<(bool, Input)>, id: string)
    requires var s := Reached(steps);
             && !s.lossy && s.xSeen == |s.y.sent| && s.ySeen == |s.x.sent| && s.y.running == multiset{}
             && id in s.x.pending
    ensures var s := Reached(steps);
            s.y.suppressed[id] + s.y.muted[id] == 1 && (s.y.muted[id] == 0 ==> Cancels(s.x.sent, id))
  {
    ReachedKeeps(steps);
    var s := Reached(steps);
    InvParts(s);
    hide Reached, Inv, Cancels, Requests, Replies, TableOk, WellFormed, Fits, Justified;
    assert s.x.sent[..s.ySeen] == s.x.sent && s.y.sent[..s.xSeen] == s.y.sent;
    assert Replies(s.y.sent, id) == 0 && Requests(s.x.sent, id) == 1;
  }

  // ---- cancels in the wrong direction -------------------------------------------------------------------------------

  /**
   Both sessions number their requests from 1, and a peer's cancel is looked up in both tables:
   `y` cancels its own request 1, and `x` gives up its request 1, which `y` is still handling.
   */
  lemma CancelHitsTheWrongRequest() returns (steps: seq<(bool, Input)>)
    ensures var s := Reached(steps);
            && |s.x.promises| == 1 && s.x.promises[0] == Promise(1, [Failed(CancelledByPeer)])
            && Text("1") in s.y.running && "1" in s.y.inFlight && "1" !in s.y.cancelled
  {
    hide *;
    ReachedIs();
    StartOk();
    steps := [(false, Own(SetHandler("tools/call", true))), (true, Asking), (false, Deliver(None))]
             + [(false, Asking), (false, Own(Cancel("1", "")))] + [(true, Deliver(None)), (true, Deliver(None))];
    var s3 := BothAsk();
    var s5 := PeerGivesUp(s3);
    var s7 := WrongOneGoes(s5);
    RunConcat(Start, steps[..3], steps[3..]);
    RunConcat(s3, steps[3..][..2], steps[3..][2..]);
    assert steps[..3] == [(false, Own(SetHandler("tools/call", true))), (true, Asking), (false, Deliver(None))];
    assert steps[3..][..2] == [(false, Asking), (false, Own(Cancel("1", "")))];
    assert steps[3..][2..] == [(true, Deliver(None)), (true, Deliver(None))];
    AfterCancelFacts(s5);
    assert steps == steps[..3] + steps[3..] && steps[3..] == steps[3..][..2] + steps[3..][2..];
  }

  lemma ReachedIs()
    ensures Inv(Start) && forall steps :: Reached(steps) == Run(Start, steps)
  {
    hide Inv, Run;
    StartOk();
  }

  lemma AfterCancelFacts(s: System)
    requires AfterCancel(s)
    ensures Text("1") in s.y.running && "1" in s.y.inFlight && s.y.cancelled == {}
  {
  }

  const Asking: Input := Own(Ask("tools/call", NoParams, false))

  lemma {:induction false} RunConcat(s: System, a: seq<(bool, Input)>, b: seq<(bool, Input)>)
    requires Inv(s)
    ensures Inv(Run(s, a)) && Run(s, a + b) == Run(Run(s, a), b)
    decreases |a|
  {
    hide Inv, Step;
    RunKeeps(s, a);
    if a == [] {
      assert a + b == b;
    } else {
      StepKeeps(s, a[0].0, a[0].1);
      assert (a + b)[1..] == a[1..] + b;
      RunConcat(Step(s, a[0].0, a[0].1), a[1..], b);
    }
  }

  lemma RunFirst(s: System, first: (bool, Input), rest: seq<(bool, Input)>)
    requires Inv(s)
    ensures PromisesKnown(s.x) && PromisesKnown(s.y)
    ensures Inv(Step(s, first.0, first.1))
    ensures Run(s, [first] + rest) == Run(Step(s, first.0, first.1), rest)
    ensures Run(s, [first]) == Step(s, first.0, first.1)
  {
    hide Inv, Step;
    StepKeeps(s, first.0, first.1);
    assert ([first] + rest)[1..] == rest && [first][1..] == [];
  }

  lemma BothAsk() returns (r: System)
    requires Inv(Start)
    ensures r == Run(Start, [(false, Own(SetHandler("tools/call", true))), (true, Asking), (false, Deliver(None))])
    ensures Inv(r) && AfterAsking(r)
  {
    hide Run, Inv;
    var a, b, c := (false, Own(SetHandler("tools/call", true))), (true, Asking), (false, Deliver(None));
    assert [a, b, c] == [a] + [b, c] && [b, c] == [b] + [c];
    RunFirst(Start, a, [b, c]);
    var s1 := Start.(y := Fresh.(handlers := {"tools/call"}));
    assert Step(Start, a.0, a.1) == s1;
    RunFirst(s1, b, [c]);
    var s2 := s1.(x := AskedFirst(Fresh));
    AsksFirst(s1, true);
    RunFirst(s2, c, []);
    r := Step(s2, c.0, c.1);
    FirstDispatched(s2);
  }

  /** A session's first request. */
  function AskedFirst(x: Session): Session {
    x.(nextId := 2, promises := [Promise(1, [])], pending := map["1" := Pending(0, "", "tools/call")],
       sent := [RequestMessage("1", "tools/call", NoParams)])
  }

  lemma AsksFirst(s: System, byX: bool)
    requires PromisesKnown(s.x) && PromisesKnown(s.y)
    requires var x := if byX then s.x else s.y;
             x.open && x.nextId == 1 && x.promises == [] && x.pending == map[] && x.sent == []
    ensures Step(s, byX, Asking) == if byX then s.(x := AskedFirst(s.x)) else s.(y := AskedFirst(s.y))
  {
    assert Digits(1) == "1";
    hide Digits;
  }

  lemma FirstDispatched(s: System)
    requires PromisesKnown(s.x) && PromisesKnown(s.y)
    requires s == System(AskedFirst(Fresh), Fresh.(handlers := {"tools/call"}), 0, 0, false)
    ensures AfterAsking(Step(s, false, Deliver(None)))
  {
    hide Digits;
    var y := Receive(s.y, s.x.sent[0], None);
    assert y == DispatchRequest(s.y, s.x.sent[0], None);
    assert StepX(Swap(s), Deliver(None)) == System(y, s.x, 1, 0, false);
  }

  /** Request 1 of `x` is being handled by `y`, which has asked nothing yet. */
  predicate AfterAsking(s: System) {
    && s.x.open && s.y.open && s.xSeen == 0 && s.x.handlers == {} && s.x.inFlight == {}
    && s.x.promises == [Promise(1, [])] && s.x.pending == map["1" := Pending(0, "", "tools/call")]
    && s.y.sent == [] && s.y.promises == [] && s.y.pending == map[] && s.y.nextId == 1
    && Text("1") in s.y.running && "1" in s.y.inFlight && s.y.cancelled == {}
  }

  /** `y` has asked in turn and cancelled its own request 1. */
  predicate AfterCancel(s: System) {
    && s.x.open && s.xSeen == 0 && s.x.handlers == {} && s.x.inFlight == {}
    && s.x.promises == [Promise(1, [])] && s.x.pending == map["1" := Pending(0, "", "tools/call")]
    && s.y.sent == [RequestMessage("1", "tools/call", NoParams),
                    NotificationMessage(CANCELLED, NoParams.(requestId := Text("1")))]
    && Text("1") in s.y.running && "1" in s.y.inFlight && s.y.cancelled == {}
  }

  lemma PeerGivesUp(s: System) returns (r: System)
    requires Inv(s) && AfterAsking(s)
    ensures r == Run(s, [(false, Asking), (false, Own(Cancel("1", "")))])
    ensures Inv(r) && AfterCancel(r)
  {
    hide Run, Inv, Step;
    var a, b := (false, Asking), (false, Own(Cancel("1", "")));
    assert [a, b] == [a] + [b];
    RunFirst(s, a, [b]);
    AsksFirst(s, false);
    var s1 := s.(y := AskedFirst(s.y));
    RunFirst(s1, b, []);
    r := Step(s1, b.0, b.1);
    GivenUp(s1);
  }

  lemma GivenUp(s: System)
    requires PromisesKnown(s.x) && PromisesKnown(s.y) && s.y.open
    requires s.y.promises == [Promise(1, [])] && s.y.pending == map["1" := Pending(0, "", "tools/call")]
    requires s.y.sent == [RequestMessage("1", "tools/call", NoParams)]
    ensures var r := Step(s, false, Own(Cancel("1", "")));
            && r == s.(y := r.y) && r.y.running == s.y.running && r.y.inFlight == s.y.inFlight
            && r.y.cancelled == s.y.cancelled
            && r.y.sent == [RequestMessage("1", "tools/call", NoParams),
                            NotificationMessage(CANCELLED, NoParams.(requestId := Text("1")))]
  {
    var y := GiveUp(s.y, "1", "", Failed(CancelledByCaller));
    assert Handle(s.y, Cancel("1", "")) == y;
    assert y.sent == s.y.sent + [NotificationMessage(CANCELLED, NoParams.(requestId := Text("1")))];
  }

  lemma WrongOneGoes(s: System) returns (r: System)
    requires Inv(s) && AfterCancel(s)
    ensures r == Run(s, [(true, Deliver(None)), (true, Deliver(None))]) && r.y == s.y
    ensures r.x.promises == [Promise(1, [Failed(CancelledByPeer)])]
  {
    hide Run, Inv, Step;
    var a := (true, Deliver(None));
    assert [a, a] == [a] + [a];
    RunFirst(s, a, [a]);
    RequestRefused(s);
    var s1 := Step(s, a.0, a.1);
    RunFirst(s1, a, []);
    r := Step(s1, a.0, a.1);
    OwnRequestCancelled(s1);
  }

  lemma RequestRefused(s: System)
    requires PromisesKnown(s.x) && PromisesKnown(s.y) && AfterCancel(s)
    ensures var r := Step(s, true, Deliver(None));
            && r.y == s.y && r.xSeen == 1 && r.x.open && r.x.inFlight == {} && r.x.promises == s.x.promises
            && r.x.pending == s.x.pending
  {
    var x := Receive(s.x, s.y.sent[0], None);
    assert x == DispatchRequest(s.x, s.y.sent[0], None);
  }

  lemma OwnRequestCancelled(s: System)
    requires PromisesKnown(s.x) && PromisesKnown(s.y) && s.xSeen == 1 && s.x.open && s.x.inFlight == {}
    requires s.x.promises == [Promise(1, [])] && s.x.pending == map["1" := Pending(0, "", "tools/call")]
    requires s.y.sent == [RequestMessage("1", "tools/call", NoParams),
                          NotificationMessage(CANCELLED, NoParams.(requestId := Text("1")))]
    ensures var r := Step(s, true, Deliver(None));
            r.y == s.y && r.x.promises == [Promise(1, [Failed(CancelledByPeer)])]
  {
    var m := s.y.sent[1];
    assert Receive(s.x, m, None) == PeerCancels(s.x, m.params);
    assert PeerCancels(s.x, m.params) == Settle(s.x, "1", Failed(CancelledByPeer));
    assert s.x.promises[0].outcomes + [Failed(CancelledByPeer)] == [Failed(CancelledByPeer)];
    assert Give(s.x.promises, 0, Failed(CancelledByPeer)) == [Promise(1, [Failed(CancelledByPeer)])];
  }
}
