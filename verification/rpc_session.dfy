/**
 One JSON-RPC session (source/rpc/JsonRpcSession.cpp): the table of requests it waits for, the
 table of incoming requests it is answering, and the six ways a promise can be settled.

 Events may come in any order and with any content. A promise records every outcome it is given,
 so that settling it once is a property to prove and not a limitation of the model.
 */
module RpcSession {
  import opened Options

  // ---- messages ------------------------------------------------------------------------

  /** A JSON value, as text. */
  type Value = string

  /** The `id` of a message; a number is what the program's cast to a 64-bit integer leaves. */
  datatype Id = NoId | NullId | Text(text: string) | Number(value: int) | OtherId

  datatype Error = Error(code: int, message: string)

  /** What sessions look at in `params`; `token` is the progress token. */
  datatype Params = Params(requestId: Id, reason: string, token: Id, rest: Value)

  const NoParams: Params := Params(NoId, "", NoId, "")

  datatype Message = Message(version: string, id: Id, name: Option<string>, params: Params,
                             result: Option<Value>, error: Option<Error>)

  datatype Kind = Request | Notification | Response | Invalid

  function Classify(m: Message): Kind {
    var hasId := m.id != NoId && m.id != NullId;
    if m.name.Some? && hasId then Request
    else if m.name.Some? then Notification
    else if m.result.Some? || m.error.Some? then Response
    else Invalid
  }

  function Digit(d: nat): char
    requires d < 10
  {
    (d + '0' as int) as char
  }

  /** The decimal digits that `QString::number` writes. */
  function Digits(n: nat): (text: string)
    ensures text != ""
    ensures forall i :: 0 <= i < |text| ==> '0' <= text[i] <= '9'
  {
    if n < 10 then [Digit(n)] else Digits(n / 10) + [Digit(n % 10)]
  }

  function Decimal(v: int): string { if v < 0 then "-" + Digits(-v) else Digits(v) }

  function IdToString(id: Id): string {
    match id
    case Text(text) => text
    case Number(value) => Decimal(value)
    case _ => ""
  }

  lemma DigitsSplit(n: nat)
    ensures |Digits(n)| == 1 <==> n < 10
    ensures n >= 10 ==> Digits(n)[..|Digits(n)| - 1] == Digits(n / 10)
    ensures Digits(n)[|Digits(n)| - 1] == Digit(n % 10)
  {
  }

  lemma {:induction false} DigitsInjective(a: nat, b: nat)
    requires Digits(a) == Digits(b)
    ensures a == b
  {
    hide Digits;
    DigitsSplit(a);
    DigitsSplit(b);
    if a >= 10 {
      DigitsInjective(a / 10, b / 10);
    }
  }

  lemma DecimalInjective(a: int, b: int)
    requires Decimal(a) == Decimal(b)
    ensures a == b
  {
    hide Digits;
    assert Decimal(a)[0] == '-' <==> a < 0;
    assert Decimal(b)[0] == '-' <==> b < 0;
    if a < 0 {
      assert Digits(-a) == Decimal(a)[1..] && Digits(-b) == Decimal(b)[1..];
      DigitsInjective(-a, -b);
    } else {
      DigitsInjective(a, b);
    }
  }

  /** A number and a string spell the same id exactly when the string is the number in decimal. */
  lemma NumberSpellsText(value: int, text: string)
    ensures IdToString(Number(value)) == IdToString(Text(text)) <==> text == Decimal(value)
    ensures IdToString(Number(value)) != ""
    ensures forall other :: IdToString(Number(value)) == IdToString(Number(other)) ==> value == other
  {
    hide Decimal;
    forall other | Decimal(value) == Decimal(other) ensures value == other {
      DecimalInjective(value, other);
    }
    DecimalNonEmpty(value);
  }

  lemma DecimalNonEmpty(v: int)
    ensures Decimal(v) != ""
  {
    hide Digits;
  }

  // ---- state --------------------------------------------------------------------------------

  datatype Failure =
    | RemoteError(error: Error)
    | TimedOut
    | CancelledByCaller
    | CancelledByPeer
    | TransportError

  datatype Outcome = Result(value: Value) | Failed(failure: Failure)

  /** `number` is the one its id spells, 0 when the request was never sent. */
  datatype Promise = Promise(number: nat, outcomes: seq<Outcome>)

  /** An entry of `m_pending`; its timer is armed as long as it is there. */
  datatype Pending = Pending(promise: nat, token: string, name: string)

  /** What a handler of an incoming request came to. */
  datatype Reply = Answer(value: Value) | Refusal(error: Error)

  /**
   `running` are the futures handlers returned, by the id they will be answered under. The last
   six fields record what happened: messages sent, ids handed to `Transport::abandon`, requests
   dispatched and what their handlers came to, and the answers that were not sent, because the
   request was cancelled or because the transport was closed.
   */
  datatype Session = Session(open: bool, nextId: nat, promises: seq<Promise>, pending: map<string, Pending>,
                             handlers: set<string>, progress: set<string>,
                             inFlight: set<string>, cancelled: set<string>, running: multiset<Id>,
                             sent: seq<Message>, abandoned: seq<string>, accepted: multiset<string>,
                             produced: map<string, Reply>, suppressed: multiset<string>, muted: multiset<string>)

  const Fresh: Session :=
    Session(true, 1, [], map[], {}, {}, {}, {}, multiset{}, [], [], multiset{}, map[], multiset{}, multiset{})

  const JSONRPC := "2.0"
  const CANCELLED := "notifications/cancelled"
  const INVALID_REQUEST := -32600
  const METHOD_NOT_FOUND := -32601

  // ---- sending requests ------------------------------------------------------------------------

  function RequestMessage(id: string, name: string, params: Params): Message {
    Message(JSONRPC, Text(id), Some(name), params, None, None)
  }

  function NotificationMessage(name: string, params: Params): Message {
    Message(JSONRPC, NoId, Some(name), params, None, None)
  }

  function ReplyMessage(id: Id, reply: Reply): Message {
    match reply
    case Answer(value) => Message(JSONRPC, id, None, NoParams, Some(value), None)
    case Refusal(error) => Message(JSONRPC, id, None, NoParams, None, Some(error))
  }

  function SendRequest(s: Session, name: string, params: Params, tracked: bool): Session {
    if !s.open then s.(promises := s.promises + [Promise(0, [Failed(TransportError)])])
    else
      var id := Digits(s.nextId);
      var m := RequestMessage(id, name, if tracked then params.(token := Text(id)) else params);
      s.(nextId := s.nextId + 1,
         promises := s.promises + [Promise(s.nextId, [])],
         pending := s.pending[id := Pending(|s.promises|, if tracked then id else "", name)],
         sent := s.sent + [m])
  }

  function SendNotification(s: Session, name: string, params: Params): Session {
    if s.open then s.(sent := s.sent + [NotificationMessage(name, params)]) else s
  }

  function Give(promises: seq<Promise>, p: nat, outcome: Outcome): seq<Promise>
    requires p < |promises|
  {
    promises[p := promises[p].(outcomes := promises[p].outcomes + [outcome])]
  }

  /** Takes a request off the table and settles its promise. */
  function Settle(s: Session, id: string, outcome: Outcome): Session
    requires id in s.pending && s.pending[id].promise < |s.promises|
  {
    var entry := s.pending[id];
    s.(pending := s.pending - {id},
       progress := if entry.token != "" then s.progress - {entry.token} else s.progress,
       promises := Give(s.promises, entry.promise, outcome))
  }

  function AbandonRequest(s: Session, id: string, name: string, reason: string): Session {
    if !s.open then s
    else
      var s1 := if name != "initialize"
                then SendNotification(s, CANCELLED, NoParams.(requestId := Text(id), reason := reason)) else s;
      s1.(abandoned := s1.abandoned + [id])
  }

  /** Timing out and cancelling: the peer is told, then the promise is settled. */
  function GiveUp(s: Session, id: string, reason: string, outcome: Outcome): Session
    requires id in s.pending && s.pending[id].promise < |s.promises|
  {
    var name := s.pending[id].name;
    Settle(AbandonRequest(s, id, name, reason), id, outcome)
  }

  predicate Waits(s: Session, p: nat) { exists id :: id in s.pending && s.pending[id].promise == p }

  /** Every pending promise is settled; the order in which the loop meets them does not matter. */
  function AbortPending(s: Session): Session {
    s.(pending := map[],
       progress := s.progress - (set id | id in s.pending && s.pending[id].token != "" :: s.pending[id].token),
       promises := seq(|s.promises|, p requires 0 <= p < |s.promises| =>
         if Waits(s, p) then s.promises[p].(outcomes := s.promises[p].outcomes + [Failed(TransportError)])
         else s.promises[p]))
  }

  // ---- receiving ----------------------------------------------------------------------------------

  function SendReply(s: Session, id: Id, reply: Reply): Session {
    if s.open then s.(sent := s.sent + [ReplyMessage(id, reply)])
    else s.(muted := s.muted + multiset{IdToString(id)})
  }

  /** A request that gets no future: no handler, or one that threw. */
  function Refuse(s: Session, id: Id, error: Error): Session {
    var text := IdToString(id);
    SendReply(s.(inFlight := s.inFlight - {text}, produced := s.produced[text := Refusal(error)]), id, Refusal(error))
  }

  /** `threw` is what the handler throws, if it is called at all. */
  function DispatchRequest(s: Session, m: Message, threw: Option<Error>): Session
    requires m.name.Some?
  {
    var text := IdToString(m.id);
    var s1 := s.(accepted := s.accepted + multiset{text},
                 inFlight := if text != "" then s.inFlight + {text} else s.inFlight);
    if m.name.value !in s.handlers then Refuse(s1, m.id, Error(METHOD_NOT_FOUND, m.name.value))
    else if threw.Some? then Refuse(s1, m.id, threw.value)
    else s1.(running := s1.running + multiset{m.id})
  }

  function HandlerFinished(s: Session, id: Id, reply: Reply): Session
    requires id in s.running
  {
    var text := IdToString(id);
    var s1 := s.(running := s.running - multiset{id},
                 inFlight := s.inFlight - {text},
                 produced := s.produced[text := reply]);
    if text != "" && text in s.cancelled
    then s1.(cancelled := s.cancelled - {text}, suppressed := s.suppressed + multiset{text})
    else SendReply(s1, id, reply)
  }

  function DispatchResponse(s: Session, m: Message): Session
    requires PromisesKnown(s)
  {
    var id := IdToString(m.id);
    if id == "" || id !in s.pending then s
    else Settle(s, id, if m.error.Some? then Failed(RemoteError(m.error.value))
                       else Result(if m.result.Some? then m.result.value else ""))
  }

  function PeerCancels(s: Session, params: Params): Session
    requires PromisesKnown(s)
  {
    var id := IdToString(params.requestId);
    if id == "" then s
    else
      var s1 := if id in s.inFlight then s.(cancelled := s.cancelled + {id}) else s;
      if id in s1.pending then Settle(s1, id, Failed(CancelledByPeer)) else s1
  }

  function DispatchNotification(s: Session, m: Message): Session
    requires PromisesKnown(s)
  {
    if m.name == Some(CANCELLED) then PeerCancels(s, m.params) else s
  }

  function Receive(s: Session, m: Message, threw: Option<Error>): Session
    requires PromisesKnown(s)
  {
    if m.version != JSONRPC then s
    else
      match Classify(m)
      case Request => DispatchRequest(s, m, threw)
      case Notification => DispatchNotification(s, m)
      case Response => DispatchResponse(s, m)
      case Invalid =>
        if s.open
        then s.(sent := s.sent + [ReplyMessage(m.id, Refusal(Error(INVALID_REQUEST, "Invalid Request")))])
        else s
  }

  function SendFailed(s: Session, m: Message): Session
    requires PromisesKnown(s)
  {
    var id := IdToString(m.id);
    if m.name.None? || id !in s.pending then s else Settle(s, id, Failed(TransportError))
  }

  // ---- every event ---------------------------------------------------------------------------------

  datatype Event =
    | Ask(name: string, params: Params, tracked: bool)
    | Notify(name: string, params: Params)
    | Cancel(id: string, reason: string)
    | Timeout(id: string)
    | Unsent(message: Message)
    | Received(message: Message, threw: Option<Error>)
    | Finished(request: Id, reply: Reply)
    | Abort
    | Closed
    | Opened
    | SetHandler(name: string, present: bool)
    | SetProgress(token: string, present: bool)

  /** The promises that entries of the table point at exist. */
  predicate PromisesKnown(s: Session) { forall id :: id in s.pending ==> s.pending[id].promise < |s.promises| }

  function Handle(s: Session, e: Event): (r: Session)
    requires PromisesKnown(s)
  {
    match e
    case Ask(name, params, tracked) => SendRequest(s, name, params, tracked)
    case Notify(name, params) => SendNotification(s, name, params)
    case Cancel(id, reason) => if id in s.pending then GiveUp(s, id, reason, Failed(CancelledByCaller)) else s
    case Timeout(id) => if id in s.pending then GiveUp(s, id, "Request timed out", Failed(TimedOut)) else s
    case Unsent(m) => SendFailed(s, m)
    case Received(m, threw) => Receive(s, m, threw)
    case Finished(id, reply) => if id in s.running then HandlerFinished(s, id, reply) else s
    case Abort => AbortPending(s)
    case Closed => AbortPending(s.(open := false))
    case Opened => s.(open := true)
    case SetHandler(name, present) =>
      s.(handlers := if present then s.handlers + {name} else s.handlers - {name})
    case SetProgress(token, present) =>
      s.(progress := if present then s.progress + {token} else s.progress - {token})
  }

  // ---- promises and the table ------------------------------------------------------------------------

  /** The unsettled promises are exactly those of the table, each under its own id. */
  ghost predicate TableOk(s: Session) {
    && s.nextId >= 1
    && (forall id :: id in s.pending ==>
          && s.pending[id].promise < |s.promises|
          && s.promises[s.pending[id].promise].outcomes == []
          && s.promises[s.pending[id].promise].number >= 1
          && id == Digits(s.promises[s.pending[id].promise].number))
    && (forall p :: 0 <= p < |s.promises| ==>
          && s.promises[p].number < s.nextId
          && |s.promises[p].outcomes| <= 1
          && (s.promises[p].outcomes == [] ==>
                && Digits(s.promises[p].number) in s.pending
                && s.pending[Digits(s.promises[p].number)].promise == p))
    && (forall p, q :: 0 <= p < q < |s.promises| && s.promises[p].number != 0 ==>
          s.promises[p].number != s.promises[q].number)
  }

  /** Settled promises keep their outcome, and none is forgotten. */
  ghost predicate Later(s: Session, r: Session) {
    && |s.promises| <= |r.promises|
    && forall p :: 0 <= p < |s.promises| ==>
         && r.promises[p].number == s.promises[p].number
         && (s.promises[p].outcomes != [] ==> r.promises[p] == s.promises[p])
  }

  lemma LaterTransitive(a: Session, b: Session, c: Session)
    requires Later(a, b) && Later(b, c)
    ensures Later(a, c)
  {
  }

  lemma SettleOk(s: Session, id: string, outcome: Outcome)
    requires TableOk(s) && id in s.pending
    ensures TableOk(Settle(s, id, outcome)) && Later(s, Settle(s, id, outcome))
    ensures s.promises[s.pending[id].promise].outcomes == []
    ensures Settle(s, id, outcome).promises[s.pending[id].promise].outcomes == [outcome]
  {
    hide Digits, Give;
    var p, r := s.pending[id].promise, Settle(s, id, outcome);
    GiveEffect(s.promises, p, outcome);
    assert r.promises == Give(s.promises, p, outcome) && r.pending == s.pending - {id} && r.nextId == s.nextId;
    hide Settle;
    forall other | other in r.pending ensures r.pending[other].promise != p {
      assert other in s.pending && other != id;
    }
  }

  lemma GiveEffect(promises: seq<Promise>, p: nat, outcome: Outcome)
    requires p < |promises|
    ensures var r := Give(promises, p, outcome);
            && |r| == |promises|
            && r[p].outcomes == promises[p].outcomes + [outcome]
            && (forall q :: 0 <= q < |r| ==> r[q].number == promises[q].number)
            && (forall q :: 0 <= q < |r| && q != p ==> r[q] == promises[q])
  {
  }

  lemma SendRequestOk(s: Session, name: string, params: Params, tracked: bool)
    requires TableOk(s)
    ensures TableOk(SendRequest(s, name, params, tracked)) && Later(s, SendRequest(s, name, params, tracked))
  {
    hide Digits, TableOk;
    var r := SendRequest(s, name, params, tracked);
    if s.open {
      var id := Digits(s.nextId);
      assert r.nextId == s.nextId + 1 && r.promises == s.promises + [Promise(s.nextId, [])];
      assert r.pending == s.pending[id := Pending(|s.promises|, if tracked then id else "", name)];
      hide SendRequest;
      Registered(s, r);
    } else {
      assert r == s.(promises := s.promises + [Promise(0, [Failed(TransportError)])]);
      hide SendRequest;
      NeverSent(s, r);
    }
  }

  lemma NeverSent(s: Session, r: Session)
    requires TableOk(s) && r == s.(promises := s.promises + [Promise(0, [Failed(TransportError)])])
    ensures TableOk(r)
  {
    hide Digits;
  }

  /** A promise under a fresh id. */
  lemma Registered(s: Session, r: Session)
    requires TableOk(s) && r.nextId == s.nextId + 1 && r.promises == s.promises + [Promise(s.nextId, [])]
    requires Digits(s.nextId) in r.pending && r.pending[Digits(s.nextId)].promise == |s.promises|
    requires forall id :: id != Digits(s.nextId) ==> (id in r.pending <==> id in s.pending)
    requires forall id :: id in s.pending && id != Digits(s.nextId) ==> r.pending[id] == s.pending[id]
    ensures TableOk(r)
  {
    hide Digits;
    forall p | 0 <= p < |s.promises| ensures Digits(s.promises[p].number) != Digits(s.nextId) {
      if Digits(s.promises[p].number) == Digits(s.nextId) {
        DigitsInjective(s.promises[p].number, s.nextId);
      }
    }
    assert Digits(s.nextId) !in s.pending;
  }

  lemma AbortPendingOk(s: Session)
    requires TableOk(s)
    ensures TableOk(AbortPending(s)) && Later(s, AbortPending(s))
    ensures forall p :: 0 <= p < |s.promises| ==> |AbortPending(s).promises[p].outcomes| == 1
  {
    hide Digits;
    forall p | 0 <= p < |s.promises| ensures Waits(s, p) <==> s.promises[p].outcomes == [] {
      if s.promises[p].outcomes == [] {
        assert s.pending[Digits(s.promises[p].number)].promise == p;
      }
    }
  }

  lemma HandleOk(s: Session, e: Event)
    requires TableOk(s)
    ensures TableOk(Handle(s, e)) && Later(s, Handle(s, e))
  {
    hide TableOk, Settle, AbortPending, SendRequest, Later, Digits, AbandonRequest;
    TableSame(s, s);
    match e
    case Ask(name, params, tracked) => SendRequestOk(s, name, params, tracked);
    case Cancel(id, reason) =>
      if id in s.pending {
        GiveUpOk(s, id, reason, Failed(CancelledByCaller));
      }
    case Timeout(id) =>
      if id in s.pending {
        GiveUpOk(s, id, "Request timed out", Failed(TimedOut));
      }
    case Unsent(m) =>
      if IdToString(m.id) in s.pending {
        SettleOk(s, IdToString(m.id), Failed(TransportError));
      }
    case Received(m, threw) => ReceiveOk(s, m, threw);
    case Abort => AbortPendingOk(s);
    case Closed =>
      TableSame(s, s.(open := false));
      AbortPendingOk(s.(open := false));
      LaterSame(s, s.(open := false), Handle(s, e));
    case _ => TableSame(s, Handle(s, e));
  }

  lemma TableSame(s: Session, r: Session)
    requires TableOk(s) && r.promises == s.promises && r.pending == s.pending && r.nextId == s.nextId
    ensures TableOk(r) && Later(s, r)
  {
  }

  lemma LaterSame(s: Session, s1: Session, r: Session)
    requires s1.promises == s.promises && Later(s1, r)
    ensures Later(s, r)
  {
  }

  lemma GiveUpOk(s: Session, id: string, reason: string, outcome: Outcome)
    requires TableOk(s) && id in s.pending
    ensures TableOk(GiveUp(s, id, reason, outcome)) && Later(s, GiveUp(s, id, reason, outcome))
  {
    hide TableOk, Settle, Later, Digits;
    var s1 := AbandonRequest(s, id, s.pending[id].name, reason);
    TableSame(s, s1);
    SettleOk(s1, id, outcome);
    LaterSame(s, s1, Settle(s1, id, outcome));
  }

  lemma ReceiveOk(s: Session, m: Message, threw: Option<Error>)
    requires TableOk(s)
    ensures TableOk(Receive(s, m, threw)) && Later(s, Receive(s, m, threw))
  {
    hide TableOk, Settle, Later, Digits, IdToString;
    TableSame(s, s);
    match Classify(m)
    case Request =>
      if m.version == JSONRPC {
        TableSame(s, DispatchRequest(s, m, threw));
      }
    case Notification => PeerCancelsOk(s, m.params);
    case Response =>
      var id := IdToString(m.id);
      if id in s.pending {
        SettleOk(s, id, if m.error.Some? then Failed(RemoteError(m.error.value))
                        else Result(if m.result.Some? then m.result.value else ""));
      }
    case Invalid => TableSame(s, Receive(s, m, threw));
  }

  lemma PeerCancelsOk(s: Session, params: Params)
    requires TableOk(s)
    ensures TableOk(PeerCancels(s, params)) && Later(s, PeerCancels(s, params))
  {
    hide TableOk, Settle, Later, Digits, IdToString;
    var id := IdToString(params.requestId);
    var s1 := if id in s.inFlight then s.(cancelled := s.cancelled + {id}) else s;
    TableSame(s, s);
    TableSame(s, s1);
    if id in s1.pending {
      SettleOk(s1, id, Failed(CancelledByPeer));
      LaterSame(s, s1, Settle(s1, id, Failed(CancelledByPeer)));
    }
  }

  function HandleAll(s: Session, events: seq<Event>): Session
    requires TableOk(s)
    decreases |events|
  {
    if events == [] then s
    else
      HandleOk(s, events[0]);
      HandleAll(Handle(s, events[0]), events[1..])
  }

  lemma {:induction false} HandleAllOk(s: Session, events: seq<Event>)
    requires TableOk(s)
    ensures TableOk(HandleAll(s, events)) && Later(s, HandleAll(s, events))
    decreases |events|
  {
    hide TableOk, Handle, Later;
    if events == [] {
      TableSame(s, s);
    } else {
      Known(s);
      HandleOk(s, events[0]);
      HandleAllOk(Handle(s, events[0]), events[1..]);
      LaterTransitive(s, Handle(s, events[0]), HandleAll(s, events));
    }
  }

  lemma Known(s: Session)
    requires TableOk(s)
    ensures PromisesKnown(s)
  {
  }

  /**
   Whatever happens in whatever order, a promise is settled at most once, it is unsettled exactly
   while its request is on the table, and an outcome once given stays.
   */
  lemma PromisesSettleOnce(before: seq<Event>, after: seq<Event>)
    ensures var s := HandleAll(Fresh, before);
            && TableOk(s)
            && (forall p :: 0 <= p < |s.promises| ==>
                  && |s.promises[p].outcomes| <= 1
                  && (s.promises[p].outcomes == [] <==> Waits(s, p)))
            && Later(s, HandleAll(s, after))
  {
    HandleAllOk(Fresh, before);
    var s := HandleAll(Fresh, before);
    HandleAllOk(s, after);
    hide HandleAll, Digits, Fresh;
    forall p | 0 <= p < |s.promises| ensures s.promises[p].outcomes == [] <==> Waits(s, p) {
      if s.promises[p].outcomes == [] {
        assert s.pending[Digits(s.promises[p].number)].promise == p;
      }
    }
  }

  /** Once the transport has closed, every promise made before has exactly one outcome. */
  lemma ClosingSettlesAll(s: Session, after: seq<Event>)
    requires TableOk(s)
    ensures TableOk(Handle(s, Closed))
    ensures var r := HandleAll(Handle(s, Closed), after);
            |r.promises| >= |s.promises|
            && forall p :: 0 <= p < |s.promises| ==> |r.promises[p].outcomes| == 1
  {
    Known(s);
    HandleOk(s, Closed);
    var s1, r := s.(open := false), Handle(s, Closed);
    TableSame(s, s1);
    AbortPendingOk(s1);
    assert r == AbortPending(s1);
    hide TableOk, HandleAll, AbortPending, Handle;
    HandleAllOk(r, after);
    assert |r.promises| == |s.promises| by {
      AbortKeepsCount(s1);
    }
  }

  lemma AbortKeepsCount(s: Session)
    ensures |AbortPending(s).promises| == |s.promises|
  {
  }

  // ---- cancelling in the wrong direction ------------------------------------------------------------

  /** A peer's cancel leaves this session's own requests alone exactly when none has the same id. */
  lemma PeerCancelScope(s: Session, params: Params)
    requires TableOk(s) && IdToString(params.requestId) != ""
    ensures PeerCancels(s, params).pending == s.pending && PeerCancels(s, params).promises == s.promises
       <==> IdToString(params.requestId) !in s.pending
  {
    var id := IdToString(params.requestId);
    if id in s.pending {
      assert id !in PeerCancels(s, params).pending;
    }
  }
}
