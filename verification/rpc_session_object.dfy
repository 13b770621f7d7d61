/**
 The session as the program has it, an object whose slots and calls update its tables in place.
 Every method is proved to compute the function of the same event in `RpcSession`.
 */
module RpcSessionObject {
  import opened Options
  import R = RpcSession
  import opened RpcSession

  /** The fields that are ghost only record what happened. */
  class JsonRpcSession {
    var transportOpen: bool
    var nextId: nat
    var promises: seq<Promise>
    var pending: map<string, Pending>
    var requestHandlers: set<string>
    var progressHandlers: set<string>
    var inFlightIncomingIds: set<string>
    var cancelledIncomingIds: set<string>
    var running: multiset<Id>
    ghost var sent: seq<Message>
    ghost var abandoned: seq<string>
    ghost var accepted: multiset<string>
    ghost var produced: map<string, Reply>
    ghost var suppressed: multiset<string>
    ghost var muted: multiset<string>

    ghost function Model(): Session
      reads this
    {
      Session(transportOpen, nextId, promises, pending, requestHandlers, progressHandlers, inFlightIncomingIds,
              cancelledIncomingIds, running, sent, abandoned, accepted, produced, suppressed, muted)
    }

    constructor ()
      ensures Model() == Fresh && TableOk(Model())
    {
      transportOpen, nextId, promises, pending := true, 1, [], map[];
      requestHandlers, progressHandlers, inFlightIncomingIds, cancelledIncomingIds := {}, {}, {}, {};
      running, sent, abandoned, accepted := multiset{}, [], [], multiset{};
      produced, suppressed, muted := map[], multiset{}, multiset{};
    }

    method Transmit(ghost m: Message)
      modifies `sent
      ensures sent == old(sent) + [m]
    {
      sent := sent + [m];
    }

    // ---- sending ----------------------------------------------------------------------------

    method SendRequest(name: string, params: Params, tracked: bool) returns (id: string)
      requires TableOk(Model())
      modifies this
      ensures Model() == R.SendRequest(old(Model()), name, params, tracked) && TableOk(Model())
      ensures id != "" ==> id in pending && id !in old(pending)
    {
      ghost var before := Model();
      SendRequestOk(before, name, params, tracked);
      IdIsFresh(before);
      SendRequestCases(before, name, params, tracked);
      hide R.SendRequest, TableOk, Digits, RequestMessage;
      if !transportOpen {
        promises := promises + [Promise(0, [Failed(TransportError)])];
        id := "";
      } else {
        id := Register(name, tracked);
        ghost var s1 := Model();
        Transmit(RequestMessage(id, name, if tracked then params.(token := Text(id)) else params));
        assert Model() == s1.(sent := sent);
      }
    }

    /** Allocates an id and puts the request on the table, its timer armed. */
    method Register(name: string, tracked: bool) returns (id: string)
      modifies `nextId, `promises, `pending
      ensures id == Digits(old(nextId))
      ensures var s := old(Model());
              Model() == s.(nextId := s.nextId + 1, promises := s.promises + [Promise(s.nextId, [])],
                            pending := s.pending[id := Pending(|s.promises|, if tracked then id else "", name)])
    {
      hide Digits;
      ghost var s := Model();
      id := Digits(nextId);
      promises := promises + [Promise(nextId, [])];
      nextId := nextId + 1;
      assert Model() == s.(nextId := s.nextId + 1, promises := s.promises + [Promise(s.nextId, [])]);
      pending := pending[id := Pending(|promises| - 1, if tracked then id else "", name)];
    }

    method SendNotification(name: string, params: Params)
      modifies `sent
      ensures Model() == R.SendNotification(old(Model()), name, params)
    {
      if transportOpen {
        Transmit(NotificationMessage(name, params));
      }
    }

    // ---- settling -----------------------------------------------------------------------------

    /** What the six ways of settling have in common. */
    method Settle(id: string, outcome: Outcome)
      requires TableOk(Model()) && id in pending
      modifies `pending, `progressHandlers, `promises
      ensures Model() == R.Settle(old(Model()), id, outcome) && TableOk(Model())
    {
      SettleOk(Model(), id, outcome);
      hide TableOk;
      var entry := pending[id];
      if entry.token != "" {
        progressHandlers := progressHandlers - {entry.token};
      }
      pending := pending - {id};
      promises := Give(promises, entry.promise, outcome);
    }

    method AbandonRequest(id: string, name: string, reason: string)
      modifies `sent, `abandoned
      ensures Model() == R.AbandonRequest(old(Model()), id, name, reason)
    {
      if !transportOpen {
        return;
      }
      if name != "initialize" {
        SendNotification(CANCELLED, NoParams.(requestId := Text(id), reason := reason));
      }
      abandoned := abandoned + [id];
    }

    method GiveUp(id: string, reason: string, outcome: Outcome)
      requires TableOk(Model()) && id in pending
      modifies this
      ensures Model() == R.GiveUp(old(Model()), id, reason, outcome) && TableOk(Model())
    {
      ghost var before := Model();
      AbandonRequest(id, pending[id].name, reason);
      TableSame(before, Model());
      hide TableOk, R.Settle, R.AbandonRequest;
      Settle(id, outcome);
    }

    method OnTimeout(id: string)
      requires TableOk(Model())
      modifies this
      ensures Model() == Handle(old(Model()), Timeout(id)) && TableOk(Model())
    {
      hide R.GiveUp;
      if id in pending {
        GiveUp(id, "Request timed out", Failed(TimedOut));
      }
    }

    method CancelRequest(id: string, reason: string)
      requires TableOk(Model())
      modifies this
      ensures Model() == Handle(old(Model()), Cancel(id, reason)) && TableOk(Model())
    {
      hide R.GiveUp;
      if id in pending {
        GiveUp(id, reason, Failed(CancelledByCaller));
      }
    }

    method OnSendFailed(m: Message)
      requires TableOk(Model())
      modifies this
      ensures Model() == R.SendFailed(old(Model()), m) && TableOk(Model())
    {
      hide R.Settle;
      var id := IdToString(m.id);
      if m.name.Some? && id in pending {
        Settle(id, Failed(TransportError));
      }
    }

    /** The loop that empties the table, in whatever order the hash yields. */
    method AbortPending()
      requires TableOk(Model())
      modifies this
      ensures Model() == R.AbortPending(old(Model())) && TableOk(Model())
    {
      ghost var before := Model();
      AbortPendingOk(before);
      while pending != map[]
        invariant TableOk(Model()) && Aborting(before, Model())
        decreases |pending|
      {
        var id :| id in pending;
        ghost var s1 := Model();
        Settle(id, Failed(TransportError));
        AbortStep(before, s1, id);
        SmallerTable(s1.pending, id);
      }
      AbortDone(before, Model());
    }

    method OnTransportClosed()
      requires TableOk(Model())
      modifies this
      ensures Model() == Handle(old(Model()), Closed) && TableOk(Model())
    {
      hide R.AbortPending;
      ghost var before := Model();
      transportOpen := false;
      TableSame(before, Model());
      hide TableOk;
      AbortPending();
    }

    // ---- receiving ------------------------------------------------------------------------------

    method SendReply(id: Id, reply: Reply)
      modifies `sent, `muted
      ensures Model() == R.SendReply(old(Model()), id, reply)
    {
      if transportOpen {
        Transmit(ReplyMessage(id, reply));
      } else {
        muted := muted + multiset{IdToString(id)};
      }
    }

    method Refuse(id: Id, error: Error)
      modifies this
      ensures Model() == R.Refuse(old(Model()), id, error)
    {
      hide R.SendReply;
      inFlightIncomingIds := inFlightIncomingIds - {IdToString(id)};
      produced := produced[IdToString(id) := Refusal(error)];
      SendReply(id, Refusal(error));
    }

    method DispatchRequest(m: Message, threw: Option<Error>)
      requires m.name.Some?
      modifies this
      ensures Model() == R.DispatchRequest(old(Model()), m, threw)
    {
      hide R.Refuse;
      var text := IdToString(m.id);
      accepted := accepted + multiset{text};
      if text != "" {
        inFlightIncomingIds := inFlightIncomingIds + {text};
      }
      if m.name.value !in requestHandlers {
        Refuse(m.id, Error(METHOD_NOT_FOUND, m.name.value));
        return;
      }
      if threw.Some? {
        Refuse(m.id, threw.value);
        return;
      }
      running := running + multiset{m.id};
    }

    /** The future of a handler has finished. */
    method OnHandlerFinished(id: Id, reply: Reply)
      requires id in running
      modifies this
      ensures Model() == HandlerFinished(old(Model()), id, reply)
    {
      hide R.SendReply, IdToString;
      FinishedCases(Model(), id, reply);
      hide HandlerFinished;
      var text := IdToString(id);
      NoLongerRuns(id, reply);
      if text != "" && text in cancelledIncomingIds {
        ForgetCancelled(text);
      } else {
        SendReply(id, reply);
      }
    }

    method NoLongerRuns(id: Id, ghost reply: Reply)
      requires id in running
      modifies `running, `inFlightIncomingIds, `produced
      ensures var s := old(Model());
              Model() == s.(running := s.running - multiset{id}, inFlight := s.inFlight - {IdToString(id)},
                            produced := s.produced[IdToString(id) := reply])
    {
      hide IdToString;
      ghost var s := Model();
      running := running - multiset{id};
      assert Model() == s.(running := s.running - multiset{id});
      inFlightIncomingIds := inFlightIncomingIds - {IdToString(id)};
      produced := produced[IdToString(id) := reply];
    }

    method ForgetCancelled(text: string)
      modifies `cancelledIncomingIds, `suppressed
      ensures var s := old(Model());
              Model() == s.(cancelled := s.cancelled - {text}, suppressed := s.suppressed + multiset{text})
    {
      cancelledIncomingIds := cancelledIncomingIds - {text};
      suppressed := suppressed + multiset{text};
    }

    method DispatchResponse(m: Message)
      requires TableOk(Model())
      modifies this
      ensures Model() == R.DispatchResponse(old(Model()), m) && TableOk(Model())
    {
      hide R.Settle;
      var id := IdToString(m.id);
      if id == "" || id !in pending {
        return;
      }
      if m.error.Some? {
        Settle(id, Failed(RemoteError(m.error.value)));
      } else {
        Settle(id, Result(if m.result.Some? then m.result.value else ""));
      }
    }

    /** The handler the session installs for cancel notifications. */
    method OnPeerCancels(params: Params)
      requires TableOk(Model())
      modifies this
      ensures Model() == PeerCancels(old(Model()), params) && TableOk(Model())
    {
      hide R.Settle;
      ghost var before := Model();
      var id := IdToString(params.requestId);
      if id == "" {
        return;
      }
      if id in inFlightIncomingIds {
        cancelledIncomingIds := cancelledIncomingIds + {id};
      }
      TableSame(before, Model());
      hide TableOk;
      if id in pending {
        Settle(id, Failed(CancelledByPeer));
      }
    }

    method OnMessageReceived(m: Message, threw: Option<Error>)
      requires TableOk(Model())
      modifies this
      ensures Model() == Receive(old(Model()), m, threw) && TableOk(Model())
    {
      ReceiveOk(Model(), m, threw);
      hide R.DispatchRequest, R.DispatchResponse, PeerCancels, TableOk;
      if m.version != JSONRPC {
        return;
      }
      match Classify(m)
      case Request => DispatchRequest(m, threw);
      case Notification =>
        if m.name == Some(CANCELLED) {
          OnPeerCancels(m.params);
        }
      case Response => DispatchResponse(m);
      case Invalid =>
        if transportOpen {
          Transmit(ReplyMessage(m.id, Refusal(Error(INVALID_REQUEST, "Invalid Request"))));
        }
    }
  }

  // ---- the loop over the table --------------------------------------------------------------------

  /** Part of the table has been settled, the rest is as it was. */
  ghost predicate Aborting(before: Session, s: Session) {
    && TableOk(before)
    && s == before.(pending := s.pending, progress := s.progress, promises := s.promises)
    && (forall id :: id in s.pending ==> id in before.pending && s.pending[id] == before.pending[id])
    && (forall t :: t in s.progress <==>
          t in before.progress
          && forall id :: id in before.pending && id !in s.pending ==> before.pending[id].token != t || t == "")
    && |s.promises| == |before.promises|
    && (forall p :: 0 <= p < |s.promises| ==>
          s.promises[p] == if Waits(before, p) && !Waits(s, p)
                           then before.promises[p].(outcomes := before.promises[p].outcomes + [Failed(TransportError)])
                           else before.promises[p])
  }

  lemma AbortStep(before: Session, s: Session, id: string)
    requires TableOk(s) && Aborting(before, s) && id in s.pending
    ensures Aborting(before, Settle(s, id, Failed(TransportError)))
  {
    hide Digits, Give, Waits;
    var r := Settle(s, id, Failed(TransportError));
    var p0 := s.pending[id].promise;
    GiveEffect(s.promises, p0, Failed(TransportError));
    assert r.promises == Give(s.promises, p0, Failed(TransportError)) && r.pending == s.pending - {id};
    assert r == before.(pending := r.pending, progress := r.progress, promises := r.promises);
    AbortedTokens(before, s, r, id);
    hide Settle;
    WaitsLess(s, r, id);
    WaitsIs(before, id);
    WaitsIs(s, id);
    hide TableOk;
  }

  lemma AbortedTokens(before: Session, s: Session, r: Session, id: string)
    requires Aborting(before, s) && id in s.pending && s.pending[id].promise < |s.promises|
    requires r == Settle(s, id, Failed(TransportError))
    ensures forall t :: t in r.progress <==>
              t in before.progress
              && forall k :: k in before.pending && k !in r.pending ==> before.pending[k].token != t || t == ""
  {
    hide TableOk, Waits, Give;
    assert forall k :: k in r.pending <==> k in s.pending && k != id;
    assert forall t :: t in r.progress <==> t in s.progress && (s.pending[id].token != t || t == "");
    hide Settle;
  }

  lemma WaitsIs(s: Session, id: string)
    requires id in s.pending
    ensures Waits(s, s.pending[id].promise)
  {
  }

  lemma WaitsLess(s: Session, r: Session, id: string)
    requires TableOk(s) && id in s.pending && r.pending == s.pending - {id}
    ensures forall p :: 0 <= p < |s.promises| ==> (Waits(r, p) <==> Waits(s, p) && p != s.pending[id].promise)
  {
    hide Digits;
    forall p | 0 <= p < |s.promises| ensures Waits(r, p) <==> Waits(s, p) && p != s.pending[id].promise {
      if Waits(s, p) && p != s.pending[id].promise {
        var other :| other in s.pending && s.pending[other].promise == p;
        assert other in r.pending;
      }
      if Waits(r, p) {
        var other :| other in r.pending && r.pending[other].promise == p;
        assert other in s.pending && other != id;
      }
    }
  }

  lemma SmallerTable(pending: map<string, Pending>, id: string)
    requires id in pending
    ensures |pending - {id}| < |pending|
  {
    assert (pending - {id}).Keys == pending.Keys - {id};
  }

  lemma AbortDone(before: Session, s: Session)
    requires Aborting(before, s) && s.pending == map[]
    ensures s == AbortPending(before)
  {
    hide TableOk;
    var r := AbortPending(before);
    assert s.promises == r.promises by {
      forall p | 0 <= p < |s.promises| ensures s.promises[p] == r.promises[p] {
        assert !Waits(s, p);
      }
    }
    assert s.progress == r.progress;
  }

  lemma SendRequestCases(s: Session, name: string, params: Params, tracked: bool)
    ensures var r, id := R.SendRequest(s, name, params, tracked), Digits(s.nextId);
            && id != ""
            && (!s.open ==> r == s.(promises := s.promises + [Promise(0, [Failed(TransportError)])]))
            && (s.open ==>
                  r == s.(nextId := s.nextId + 1,
                          promises := s.promises + [Promise(s.nextId, [])],
                          pending := s.pending[id := Pending(|s.promises|, if tracked then id else "", name)],
                          sent := s.sent + [RequestMessage(id, name, if tracked then params.(token := Text(id)) else params)]))
  {
    hide Digits;
  }

  lemma FinishedCases(s: Session, id: Id, reply: Reply)
    requires id in s.running
    ensures var text := IdToString(id);
            var s1 := s.(running := s.running - multiset{id}, inFlight := s.inFlight - {text},
                         produced := s.produced[text := reply]);
            HandlerFinished(s, id, reply)
            == if text != "" && text in s.cancelled
               then s1.(cancelled := s.cancelled - {text}, suppressed := s.suppressed + multiset{text})
               else R.SendReply(s1, id, reply)
  {
    hide IdToString, R.SendReply;
  }

  /** The id about to be given out names no entry of the table. */
  lemma IdIsFresh(s: Session)
    requires TableOk(s)
    ensures Digits(s.nextId) !in s.pending
  {
    hide Digits;
    if Digits(s.nextId) in s.pending {
      DigitsInjective(s.promises[s.pending[Digits(s.nextId)].promise].number, s.nextId);
    }
  }
}
