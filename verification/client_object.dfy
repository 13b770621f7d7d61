/**
 The client as the program has it, an object that keeps the table of its requests in place while
 handlers of its signals call back into it. Every method is proved to compute the function of its name
 in `Client`.
 */
module ClientObject {
  import opened Options
  import C = Client
  import opened Client

  /** The fields that are ghost only record what happened. */
  class BaseClient {
    var requests: map<nat, Request>
    var nextId: nat
    var oneShots: map<nat, nat>
    var promises: seq<Future>
    var openRounds: set<nat>
    var awaited: multiset<nat>
    var maxToolRounds: nat
    var handles: map<nat, nat>
    var nextStream: nat
    var streams: seq<bool>
    var rounds: seq<Tools>
    var script: seq<seq<Call>>
    ghost var sends: map<nat, nat>
    ghost var trace: seq<Signal>

    ghost function Model(): Client
      reads this
    {
      Client(requests, nextId, oneShots, promises, openRounds, awaited, maxToolRounds, handles, nextStream, sends,
             streams, rounds, script, trace)
    }

    constructor (limit: nat, streams: seq<bool>, rounds: seq<Tools>, script: seq<seq<Call>>)
      ensures Model() == Initial(limit, streams, rounds, script)
    {
      requests, nextId, oneShots, promises, openRounds, awaited := map[], 0, map[], [], {}, multiset{};
      maxToolRounds, handles, nextStream := limit, map[], 0;
      this.streams, this.rounds, this.script := streams, rounds, script;
      sends, trace := map[], [];
    }

    method Put(id: nat, r: Request)
      modifies `requests
      ensures Model() == C.Put(old(Model()), id, r)
    {
      requests := requests[id := r];
    }

    // ---- signals and the application's calls ----------------------------------------------------

    method Emit(ghost g: Signal)
      modifies this
      ensures Model() == C.Emit(old(Model()), g)
      decreases |script|, 0
    {
      hide C.RunCalls;
      trace := trace + [g];
      if script != [] {
        var calls := script[0];
        script := script[1..];
        RunCalls(calls);
      }
    }

    method RunCalls(calls: seq<Call>)
      modifies this
      ensures Model() == C.RunCalls(old(Model()), calls)
      decreases |script|, 9
    {
      hide C.Do;
      ghost var before := Model();
      var i := 0;
      while i < |calls|
        invariant 0 <= i <= |calls| && |script| <= |old(script)|
        invariant C.RunCalls(before, calls) == C.RunCalls(Model(), calls[i..])
      {
        Do(calls[i]);
        assert calls[i..][1..] == calls[i + 1..];
        i := i + 1;
      }
    }

    method Do(call: Call)
      modifies this
      ensures Model() == C.Do(old(Model()), call)
      decreases |script|, 8
    {
      hide C.Dispatch, C.DoAskOnce, C.FailRequest;
      match call
      case Ask(mode) => Dispatch(mode, None);
      case AskOnce(mode, creates) => AskOnce(mode, creates);
      case Cancel(id) => FailRequest(id);
    }

    method AskOnce(mode: Mode, creates: bool)
      modifies this
      ensures Model() == C.DoAskOnce(old(Model()), mode, creates)
      decreases |script|, 7
    {
      hide C.Dispatch;
      if creates {
        promises := promises + [Future(Some(nextId), [])];
        Dispatch(mode, Some(|promises| - 1));
      } else {
        promises := promises + [Future(None, [Untracked])];
      }
    }

    method Dispatch(mode: Mode, oneShot: Option<nat>)
      modifies this
      ensures Model() == C.Dispatch(old(Model()), mode, oneShot)
      decreases |script|, 6
    {
      hide C.CreateRequest, C.SendRequest;
      var id := CreateRequest(oneShot);
      SendRequest(id, mode);
    }

    method CreateRequest(oneShot: Option<nat>) returns (id: nat)
      modifies this
      ensures id == old(nextId) && Model() == C.CreateRequest(old(Model()), oneShot)
    {
      id := nextId;
      nextId := nextId + 1;
      requests := requests[id := FreshRequest];
      sends := sends[id := 0];
      if oneShot.Some? {
        oneShots := oneShots[id := oneShot.value];
      }
    }

    method SendRequest(id: nat, mode: Mode)
      modifies this
      ensures Model() == C.SendRequest(old(Model()), id, mode)
      decreases |script|, 5
    {
      hide C.FailRequest, C.OpenStream;
      if id !in requests {
        return;
      }
      Put(id, requests[id].(hasUrl := true, mode := mode));
      Count(id);
      hide C.Put, Counted;
      if mode == Buffered {
        awaited := awaited + multiset{id};
      } else if streams == [] || !streams[0] {
        streams := if streams == [] then [] else streams[1..];
        FailRequest(id);
      } else {
        OpenStream(id);
      }
    }

    method Count(id: nat)
      modifies `sends
      ensures Model() == Counted(old(Model()), id)
    {
      sends := sends[id := (if id in sends then sends[id] else 0) + 1];
    }

    method OpenStream(id: nat)
      requires id in requests && streams != []
      modifies `requests, `streams, `handles, `nextStream
      ensures Model() == C.OpenStream(old(Model()), id)
    {
      requests := requests[id := requests[id].(stream := Some(nextStream), errorMode := false)];
      streams := streams[1..];
      handles := handles[nextStream := id];
      nextStream := nextStream + 1;
    }

    method Remove(id: nat)
      modifies `requests, `openRounds
      ensures Model() == Removed(old(Model()), id)
    {
      openRounds := openRounds - {id};
      requests := requests - {id};
    }

    method FailRequest(id: nat)
      modifies this
      ensures Model() == C.FailRequest(old(Model()), id)
      decreases |script|, 4
    {
      hide C.Emit, C.SettleOneShot, Removed;
      if id !in requests {
        return;
      }
      Remove(id);
      Emit(Failed(id));
      SettleOneShot(id, Rejected(id));
    }

    method SettleOneShot(id: nat, outcome: Outcome)
      modifies `oneShots, `promises
      ensures Model() == C.SettleOneShot(old(Model()), id, outcome)
    {
      if id !in oneShots {
        return;
      }
      var p := oneShots[id];
      oneShots := oneShots - {id};
      if p < |promises| {
        promises := promises[p := promises[p].(outcomes := promises[p].outcomes + [outcome])];
      }
    }

    // ---- the text and the usage of a request -------------------------------------------------------

    method AddChunk(id: nat, chunk: string)
      modifies this
      ensures Model() == C.AddChunk(old(Model()), id, chunk)
    {
      hide C.Emit;
      if id !in requests {
        return;
      }
      var content := requests[id].content + chunk;
      Put(id, requests[id].(content := content));
      Emit(Chunk(id, chunk));
      if id in requests {
        Emit(Accumulated(id, content));
      }
    }

    method ReplaceRoundText(id: nat, text: string)
      modifies this
      ensures Model() == C.ReplaceRoundText(old(Model()), id, text)
    {
      hide C.Emit;
      if id !in requests {
        return;
      }
      var r := requests[id];
      var replaced := r.content[..Clamp(r.offset, |r.content|)] + text;
      if replaced == r.content {
        return;
      }
      Put(id, r.(content := replaced));
      Emit(Accumulated(id, replaced));
    }

    method ApplyUsage(id: nat, d: UsageDelta)
      modifies `requests
      ensures Model() == C.ApplyUsage(old(Model()), id, d)
    {
      if id in requests && !IsEmpty(d) {
        var r := requests[id];
        var base := if r.turnUsage.Some? then r.turnUsage.value else NoUsage;
        Put(id, r.(turnUsage := Some(ApplyTo(d, base)), segment := r.segment + [d]));
      }
    }

    method FinalizeTurn(id: nat)
      requires id in requests
      modifies `requests
      ensures Model() == C.Put(old(Model()), id, C.FinalizeTurn(old(requests)[id]))
    {
      var r := requests[id];
      if r.turnUsage.None? {
        assert requests[id := r] == requests;
        return;
      }
      var usage := if r.usage.Some? then Add(r.usage.value, r.turnUsage.value) else r.turnUsage.value;
      Put(id, r.(usage := Some(usage), turnUsage := None, segments := r.segments + [r.segment], segment := []));
    }

    // ---- one event of a provider -----------------------------------------------------------------------

    method NotifyPendingThinkingBlocks(id: nat, n: nat)
      modifies this
      ensures Model() == NotifyThoughts(old(Model()), id, n)
    {
      hide C.Emit;
      ghost var before := Model();
      var left := n;
      while left > 0 && id in requests
        invariant 0 <= left <= n && NotifyThoughts(before, id, n) == NotifyThoughts(Model(), id, left)
        decreases left
      {
        Emit(Thought(id));
        left := left - 1;
      }
    }

    method ApplyEffects(id: nat, item: Item)
      modifies this
      ensures Model() == ApplyItem(old(Model()), id, item)
    {
      hide C.ReplaceRoundText, C.AddChunk, C.ApplyUsage, NotifyThoughts, C.FailRequest, C.ExecuteTools;
      ghost var s := Model();
      if id in requests {
        Put(id, requests[id].(turn := Some(item.turn)));
      }
      assert Model() == SetTurn(s, id, item.turn);
      ApplyText(id, item);
      hide ApplyTexts;
      NotifyPendingThinkingBlocks(id, item.thoughts);
      if item.chunk != "" {
        AddChunk(id, item.chunk);
      }
      if item.usage.Some? {
        ApplyUsage(id, item.usage.value);
      }
      assert Model() == ApplyProgress(s, id, item);
      hide ApplyProgress;
      if item.error {
        FailRequest(id);
      } else if item.toolsReady {
        ExecuteTools(id);
      }
    }

    method ApplyText(id: nat, item: Item)
      modifies this
      ensures Model() == ApplyTexts(old(Model()), id, item)
    {
      hide C.ReplaceRoundText;
      if item.fullText != "" {
        ReplaceRoundText(id, item.fullText);
      } else if item.fallbackText != "" && id in requests && RoundText(requests[id]) == "" {
        ReplaceRoundText(id, item.fallbackText);
      }
    }

    /** The loop over the events of a chunk, left when the request has ended. */
    method DispatchEvents(id: nat, items: seq<Item>)
      modifies this
      ensures Model() == ApplyItems(old(Model()), id, items)
    {
      hide ApplyItem;
      ghost var before := Model();
      var i := 0;
      while i < |items| && id in requests
        invariant 0 <= i <= |items| && ApplyItems(before, id, items) == ApplyItems(Model(), id, items[i..])
      {
        assert items[i..][1..] == items[i + 1..];
        ApplyEffects(id, items[i]);
        i := i + 1;
      }
    }

    // ---- rounds of tools ----------------------------------------------------------------------------------

    method ExecuteTools(id: nat)
      modifies this
      ensures Model() == C.ExecuteTools(old(Model()), id)
    {
      hide C.Emit, C.ToolsCompleted;
      if id !in requests || requests[id].turn.None? || !requests[id].turn.value.needsTools
         || !requests[id].turn.value.hasCalls {
        return;
      }
      var tools := if rounds == [] then Later else rounds[0];
      rounds := if rounds == [] then [] else rounds[1..];
      openRounds := openRounds + {id};
      Emit(ToolSignal(id));
      if tools.Now? && id in openRounds {
        openRounds := openRounds - {id};
        HandleToolsCompleted(id, tools.payload);
      }
    }

    method HandleToolsCompleted(id: nat, payload: bool)
      modifies this
      ensures Model() == C.ToolsCompleted(old(Model()), id, payload)
    {
      hide C.FailRequest, C.ContinueRequest;
      if id !in requests {
        return;
      }
      var r := requests[id].(toolRounds := requests[id].toolRounds + 1);
      Put(id, r);
      if r.toolRounds > maxToolRounds || r.turn.None? || !payload {
        FailRequest(id);
      } else {
        ContinueRequest(id);
      }
    }

    method ContinueRequest(id: nat)
      modifies this
      ensures Model() == C.ContinueRequest(old(Model()), id)
    {
      hide C.FailRequest, C.SendRequest, C.FinalizeTurn;
      if id !in requests || !requests[id].hasUrl {
        FailRequest(id);
        return;
      }
      ghost var s := Model();
      FinalizeTurn(id);
      var r := requests[id];
      Put(id, r.(offset := |r.content|, earlier := r.content));
      assert r == C.FinalizeTurn(s.requests[id]);
      assert requests == s.requests[id := r.(offset := |r.content|, earlier := r.content)];
      SendRequest(id, r.mode);
    }

    // ---- the end of a stream ---------------------------------------------------------------------------------

    method OnStreamFinished(id: nat, error: bool, trailing: seq<Item>, drained: seq<Item>)
      modifies this
      ensures Model() == C.OnStreamFinished(old(Model()), id, error, trailing, drained)
    {
      hide C.FailRequest, C.CompleteRequest, ApplyItems;
      if error {
        FailRequest(id);
        return;
      }
      DispatchEvents(id, trailing);
      DispatchEvents(id, drained);
      if id !in requests || (requests[id].turn.Some? && requests[id].turn.value.needsTools) {
        return;
      }
      CompleteRequest(id);
    }

    method CompleteRequest(id: nat)
      requires id in requests
      modifies this
      ensures Model() == C.CompleteRequest(old(Model()), id)
    {
      hide C.Emit, C.FinalizeTurn, C.SettleOneShot, Removed;
      FinalizeTurn(id);
      var r := requests[id];
      Remove(id);
      Emit(Finalized(id, r.usage, r.segments));
      Emit(Completed(id, r.content));
      SettleOneShot(id, Resolved(id));
    }

    // ---- what the network and the tools report ---------------------------------------------------------------

    method OnHeaders(stream: nat, success: bool)
      modifies `requests
      ensures Model() == Step(old(Model()), Headers(stream, success))
    {
      if stream !in handles || handles[stream] !in requests || requests[handles[stream]].stream != Some(stream) {
        return;
      }
      if !success {
        Put(handles[stream], requests[handles[stream]].(errorMode := true));
      }
    }

    method OnChunk(stream: nat, items: seq<Item>)
      modifies this
      ensures Model() == Step(old(Model()), Received(stream, items))
    {
      hide ApplyItems;
      if stream !in handles || handles[stream] !in requests || requests[handles[stream]].stream != Some(stream)
         || requests[handles[stream]].errorMode {
        return;
      }
      DispatchEvents(handles[stream], items);
    }

    method OnFinished(stream: nat, failed: bool, trailing: seq<Item>, drained: seq<Item>)
      modifies this
      ensures Model() == Step(old(Model()), Finished(stream, failed, trailing, drained))
    {
      hide C.OnStreamFinished;
      if stream !in handles || handles[stream] !in requests || requests[handles[stream]].stream != Some(stream) {
        return;
      }
      var id := handles[stream];
      var error := requests[id].errorMode || failed;
      Put(id, requests[id].(stream := None, errorMode := false));
      OnStreamFinished(id, error, trailing, drained);
    }

    method OnErrorOccurred(stream: nat)
      modifies this
      ensures Model() == Step(old(Model()), Errored(stream))
    {
      hide C.OnStreamFinished;
      if stream !in handles || handles[stream] !in requests || requests[handles[stream]].stream != Some(stream) {
        return;
      }
      var id := handles[stream];
      Put(id, requests[id].(stream := None, errorMode := false));
      OnStreamFinished(id, true, [], []);
    }

    method OnReply(id: nat, failed: bool, items: seq<Item>, drained: seq<Item>)
      modifies this
      ensures Model() == Step(old(Model()), Replied(id, failed, items, drained))
    {
      hide C.OnStreamFinished;
      if id !in awaited {
        return;
      }
      awaited := awaited - multiset{id};
      if id in requests {
        OnStreamFinished(id, failed, items, drained);
      }
    }

    method OnToolsDone(id: nat, payload: bool)
      modifies this
      ensures Model() == Step(old(Model()), ToolsDone(id, payload))
    {
      hide C.ToolsCompleted;
      if id !in openRounds {
        return;
      }
      openRounds := openRounds - {id};
      HandleToolsCompleted(id, payload);
    }

    method Handle(e: Event)
      modifies this
      ensures Model() == Step(old(Model()), e)
    {
      hide C.Do, C.OnStreamFinished, ApplyItems, C.ToolsCompleted, C.Put;
      match e
      case FromApplication(call) => Do(call);
      case Headers(stream, success) => OnHeaders(stream, success);
      case Received(stream, items) => OnChunk(stream, items);
      case Finished(stream, failed, trailing, drained) => OnFinished(stream, failed, trailing, drained);
      case Errored(stream) => OnErrorOccurred(stream);
      case Replied(id, failed, items, drained) => OnReply(id, failed, items, drained);
      case ToolsDone(id, payload) => OnToolsDone(id, payload);
    }
  }
}
