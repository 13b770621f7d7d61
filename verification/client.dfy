/**
 The request table of a provider client (source/core/BaseClient.cpp): requests that stream, run rounds
 of tools, continue and end, while handlers of the client's signals call back into it.

 What a stream event means to the message of a request is an `Item`. `script` holds, signal by signal,
 the calls the application makes from inside it; `streams` tells which calls of `openStream` return a
 stream, `rounds` which rounds of tools are over before `beginRound` returns.
 */
module Client {
  import opened Options

  // ---- token usage ----------------------------------------------------------------------------

  datatype Usage = Usage(prompt: int, completion: int, cached: int, reasoning: int)

  const NoUsage: Usage := Usage(0, 0, 0, 0)

  datatype UsageDelta = UsageDelta(prompt: Option<int>, completion: Option<int>, cached: Option<int>, reasoning: Option<int>)

  predicate IsEmpty(d: UsageDelta) { d.prompt.None? && d.completion.None? && d.cached.None? && d.reasoning.None? }

  function Said(o: Option<int>, otherwise: int): int { if o.Some? then o.value else otherwise }

  function ApplyTo(d: UsageDelta, base: Usage): Usage {
    Usage(Said(d.prompt, base.prompt), Said(d.completion, base.completion), Said(d.cached, base.cached),
          Said(d.reasoning, base.reasoning))
  }

  function Add(a: Usage, b: Usage): Usage {
    Usage(a.prompt + b.prompt, a.completion + b.completion, a.cached + b.cached, a.reasoning + b.reasoning)
  }

  // ---- state --------------------------------------------------------------------------------------

  datatype Mode = Streaming | Buffered

  /** Of the message of a request, whether it asks for tools and names any. */
  datatype Turn = Turn(needsTools: bool, hasCalls: bool)

  /** What one event of a provider comes to; `turn` is the message afterwards. */
  datatype Item = Item(turn: Turn, fullText: string, fallbackText: string, thoughts: nat, chunk: string,
                       usage: Option<UsageDelta>, error: bool, toolsReady: bool)

  /**
   `segment` are the usage deltas since the last continuation and `segments` those of the turns before;
   they record history, like `earlier`, the text when the request was last continued.
   */
  datatype Request = Request(stream: Option<nat>, errorMode: bool, content: string, mode: Mode, hasUrl: bool,
                             usage: Option<Usage>, turnUsage: Option<Usage>, toolRounds: nat, offset: nat,
                             turn: Option<Turn>,
                             earlier: string, segment: seq<UsageDelta>, segments: seq<seq<UsageDelta>>)

  const FreshRequest: Request := Request(None, false, "", Streaming, false, None, None, 0, 0, None, "", [], [])

  datatype Signal =
    | Chunk(id: nat, text: string)
    | Accumulated(id: nat, text: string)
    | Thought(id: nat)
    | ToolSignal(id: nat)
    | Finalized(id: nat, usage: Option<Usage>, segments: seq<seq<UsageDelta>>)
    | Completed(id: nat, text: string)
    | Failed(id: nat)

  datatype Outcome = Resolved(id: nat) | Rejected(id: nat) | Untracked

  /** What `askOnce` returns; `request` is the request that the promise is handed to. */
  datatype Future = Future(request: Option<nat>, outcomes: seq<Outcome>)

  datatype Call = Ask(mode: Mode) | AskOnce(mode: Mode, creates: bool) | Cancel(id: nat)

  /** When the tools of a round are done, and whether a payload to continue with can be built. */
  datatype Tools = Later | Now(payload: bool)

  /**
   `open` are the requests with a round of tools under way, `awaited` those with a buffered response to
   come, `sends` how many HTTP requests each has made. Streams know the request they were opened for.
   */
  datatype Client = Client(requests: map<nat, Request>, nextId: nat, oneShots: map<nat, nat>,
                           promises: seq<Future>, open: set<nat>, awaited: multiset<nat>, limit: nat,
                           handles: map<nat, nat>, nextStream: nat, sends: map<nat, nat>,
                           streams: seq<bool>, rounds: seq<Tools>, script: seq<seq<Call>>, trace: seq<Signal>)

  function Initial(limit: nat, streams: seq<bool>, rounds: seq<Tools>, script: seq<seq<Call>>): Client {
    Client(map[], 0, map[], [], {}, multiset{}, limit, map[], 0, map[], streams, rounds, script, [])
  }

  function Put(c: Client, id: nat, r: Request): Client { c.(requests := c.requests[id := r]) }

  // ---- signals, new requests, failures ---------------------------------------------------------------

  /** Handlers use up the script and leave the other oracles to the events. */
  predicate NoLonger(t: Client, c: Client) { |t.script| <= |c.script| }

  function Emit(c: Client, g: Signal): (t: Client)
    ensures NoLonger(t, c)
    decreases |c.script|, 0
  {
    var c1 := c.(trace := c.trace + [g]);
    if c1.script == [] then c1 else RunCalls(c1.(script := c1.script[1..]), c1.script[0])
  }

  function RunCalls(c: Client, calls: seq<Call>): (t: Client)
    ensures NoLonger(t, c)
    decreases |c.script|, 9, |calls|
  {
    if calls == [] then c else RunCalls(Do(c, calls[0]), calls[1..])
  }

  function Do(c: Client, call: Call): (t: Client)
    ensures NoLonger(t, c)
    decreases |c.script|, 8
  {
    match call
    case Ask(mode) => Dispatch(c, mode, None)
    case AskOnce(mode, creates) => DoAskOnce(c, mode, creates)
    case Cancel(id) => FailRequest(c, id)
  }

  /** `trackOneShot`: the promise is handed to the request that the dispatch creates. */
  function DoAskOnce(c: Client, mode: Mode, creates: bool): (t: Client)
    ensures NoLonger(t, c)
    decreases |c.script|, 7
  {
    if !creates then c.(promises := c.promises + [Future(None, [Untracked])])
    else Dispatch(c.(promises := c.promises + [Future(Some(c.nextId), [])]), mode, Some(|c.promises|))
  }

  function Dispatch(c: Client, mode: Mode, oneShot: Option<nat>): (t: Client)
    ensures NoLonger(t, c)
    decreases |c.script|, 6
  {
    SendRequest(CreateRequest(c, oneShot), c.nextId, mode)
  }

  function CreateRequest(c: Client, oneShot: Option<nat>): (t: Client)
    ensures t.script == c.script
  {
    var c1 := Put(c, c.nextId, FreshRequest).(nextId := c.nextId + 1, sends := c.sends[c.nextId := 0]);
    if oneShot.Some? then c1.(oneShots := c1.oneShots[c.nextId := oneShot.value]) else c1
  }

  function Counted(c: Client, id: nat): Client {
    c.(sends := c.sends[id := (if id in c.sends then c.sends[id] else 0) + 1])
  }

  function SendRequest(c: Client, id: nat, mode: Mode): (t: Client)
    ensures NoLonger(t, c)
    decreases |c.script|, 5
  {
    if id !in c.requests then c
    else
      var c1 := Counted(Put(c, id, c.requests[id].(hasUrl := true, mode := mode)), id);
      if mode == Buffered then c1.(awaited := c1.awaited + multiset{id})
      else if c1.streams == [] || !c1.streams[0]
      then FailRequest(if c1.streams == [] then c1 else c1.(streams := c1.streams[1..]), id)
      else OpenStream(c1, id)
  }

  function OpenStream(c: Client, id: nat): (t: Client)
    requires id in c.requests && c.streams != []
    ensures t.script == c.script
  {
    var r := c.requests[id].(stream := Some(c.nextStream), errorMode := false);
    Put(c, id, r).(streams := c.streams[1..], handles := c.handles[c.nextStream := id], nextStream := c.nextStream + 1)
  }

  /** Off the table, its round of tools and its stream given up, before anything is said. */
  function Removed(c: Client, id: nat): Client {
    c.(requests := c.requests - {id}, open := c.open - {id})
  }

  function FailRequest(c: Client, id: nat): (t: Client)
    ensures NoLonger(t, c)
    decreases |c.script|, 4
  {
    if id !in c.requests then c
    else SettleOneShot(Emit(Removed(c, id), Failed(id)), id, Rejected(id))
  }

  function SettleOneShot(c: Client, id: nat, outcome: Outcome): Client {
    if id !in c.oneShots then c
    else
      var p := c.oneShots[id];
      var c1 := c.(oneShots := c.oneShots - {id});
      if p < |c.promises| then c1.(promises := c.promises[p := c.promises[p].(outcomes := c.promises[p].outcomes + [outcome])]) else c1
  }

  // ---- the text and the usage of a request ---------------------------------------------------------------

  function AddChunk(c: Client, id: nat, chunk: string): Client {
    if id !in c.requests then c
    else
      var content := c.requests[id].content + chunk;
      var c1 := Emit(Put(c, id, c.requests[id].(content := content)), Chunk(id, chunk));
      if id !in c1.requests then c1 else Emit(c1, Accumulated(id, content))
  }

  function Clamp(offset: nat, size: nat): (r: nat)
    ensures r <= size
  {
    if offset <= size then offset else size
  }

  function RoundText(r: Request): string { r.content[Clamp(r.offset, |r.content|)..] }

  function ReplaceRoundText(c: Client, id: nat, text: string): Client {
    if id !in c.requests then c
    else
      var r := c.requests[id];
      var replaced := r.content[..Clamp(r.offset, |r.content|)] + text;
      if replaced == r.content then c
      else Emit(Put(c, id, r.(content := replaced)), Accumulated(id, replaced))
  }

  function ApplyUsage(c: Client, id: nat, d: UsageDelta): Client {
    if id !in c.requests || IsEmpty(d) then c
    else
      var r := c.requests[id];
      var base := if r.turnUsage.Some? then r.turnUsage.value else NoUsage;
      Put(c, id, r.(turnUsage := Some(ApplyTo(d, base)), segment := r.segment + [d]))
  }

  function FinalizeTurn(r: Request): Request {
    if r.turnUsage.None? then r
    else
      r.(usage := Some(if r.usage.Some? then Add(r.usage.value, r.turnUsage.value) else r.turnUsage.value),
         turnUsage := None, segments := r.segments + [r.segment], segment := [])
  }

  // ---- one event of a provider -----------------------------------------------------------------------------

  /** The notifications of the thinking blocks, one signal each. */
  function NotifyThoughts(c: Client, id: nat, n: nat): Client
    decreases n
  {
    if n == 0 || id !in c.requests then c else NotifyThoughts(Emit(c, Thought(id)), id, n - 1)
  }

  function SetTurn(c: Client, id: nat, turn: Turn): Client {
    if id in c.requests then Put(c, id, c.requests[id].(turn := Some(turn))) else c
  }

  function ApplyTexts(c: Client, id: nat, item: Item): Client {
    if item.fullText != "" then ReplaceRoundText(c, id, item.fullText)
    else if item.fallbackText != "" && id in c.requests && RoundText(c.requests[id]) == ""
    then ReplaceRoundText(c, id, item.fallbackText)
    else c
  }

  /** `applyEffects` up to what may end the request. */
  function ApplyProgress(c: Client, id: nat, item: Item): Client {
    var c1 := ApplyTexts(SetTurn(c, id, item.turn), id, item);
    var c2 := NotifyThoughts(c1, id, item.thoughts);
    var c3 := if item.chunk != "" then AddChunk(c2, id, item.chunk) else c2;
    if item.usage.Some? then ApplyUsage(c3, id, item.usage.value) else c3
  }

  function ApplyItem(c: Client, id: nat, item: Item): Client {
    var c1 := ApplyProgress(c, id, item);
    if item.error then FailRequest(c1, id)
    else if item.toolsReady then ExecuteTools(c1, id)
    else c1
  }

  /** The loop over parsed events, left as soon as the request has ended. */
  function ApplyItems(c: Client, id: nat, items: seq<Item>): Client
    decreases |items|
  {
    if items == [] || id !in c.requests then c else ApplyItems(ApplyItem(c, id, items[0]), id, items[1..])
  }

  // ---- rounds of tools ----------------------------------------------------------------------------------------

  function ExecuteTools(c: Client, id: nat): Client {
    if id !in c.requests || c.requests[id].turn.None? || !c.requests[id].turn.value.needsTools
       || !c.requests[id].turn.value.hasCalls
    then c
    else
      var tools := if c.rounds == [] then Later else c.rounds[0];
      var c1 := Emit(c.(open := c.open + {id}, rounds := if c.rounds == [] then [] else c.rounds[1..]), ToolSignal(id));
      if tools.Now? && id in c1.open then ToolsCompleted(c1.(open := c1.open - {id}), id, tools.payload) else c1
  }

  /** `handleToolsCompleted`. */
  function ToolsCompleted(c: Client, id: nat, payload: bool): Client {
    if id !in c.requests then c
    else
      var r := c.requests[id].(toolRounds := c.requests[id].toolRounds + 1);
      var c1 := Put(c, id, r);
      if r.toolRounds > c.limit || r.turn.None? || !payload then FailRequest(c1, id) else ContinueRequest(c1, id)
  }

  function ContinueRequest(c: Client, id: nat): Client {
    if id !in c.requests || !c.requests[id].hasUrl then FailRequest(c, id)
    else
      var r := FinalizeTurn(c.requests[id]);
      SendRequest(Put(c, id, r.(offset := |r.content|, earlier := r.content)), id, r.mode)
  }

  // ---- the end of a stream -----------------------------------------------------------------------------------------

  function OnStreamFinished(c: Client, id: nat, error: bool, trailing: seq<Item>, drained: seq<Item>): Client {
    if error then FailRequest(c, id)
    else
      var c1 := ApplyItems(ApplyItems(c, id, trailing), id, drained);
      if id !in c1.requests || (c1.requests[id].turn.Some? && c1.requests[id].turn.value.needsTools) then c1
      else CompleteRequest(c1, id)
  }

  function CompleteRequest(c: Client, id: nat): Client
    requires id in c.requests
  {
    var r := FinalizeTurn(c.requests[id]);
    var c1 := Emit(Removed(Put(c, id, r), id), Finalized(id, r.usage, r.segments));
    SettleOneShot(Emit(c1, Completed(id, r.content)), id, Resolved(id))
  }

  // ---- all events -------------------------------------------------------------------------------------------------------

  /**
   Chunks carry the items they are parsed into. `failed` says that the provider found a stream error of
   its own, `trailing` and `drained` are the items that flushing and draining the stream yield.
   */
  datatype Event =
    | FromApplication(call: Call)
    | Headers(stream: nat, success: bool)
    | Received(stream: nat, items: seq<Item>)
    | Finished(stream: nat, failed: bool, trailing: seq<Item>, drained: seq<Item>)
    | Errored(stream: nat)
    | Replied(id: nat, failed: bool, items: seq<Item>, drained: seq<Item>)
    | ToolsDone(id: nat, payload: bool)

  /** A stream reaches its request only as long as it is the request's current one. */
  predicate IsCurrent(c: Client, stream: nat) {
    stream in c.handles && c.handles[stream] in c.requests && c.requests[c.handles[stream]].stream == Some(stream)
  }

  function Step(c: Client, e: Event): Client {
    match e
    case FromApplication(call) => Do(c, call)
    case Headers(stream, success) =>
      if !IsCurrent(c, stream) || success then c
      else Put(c, c.handles[stream], c.requests[c.handles[stream]].(errorMode := true))
    case Received(stream, items) =>
      if !IsCurrent(c, stream) || c.requests[c.handles[stream]].errorMode then c
      else ApplyItems(c, c.handles[stream], items)
    case Finished(stream, failed, trailing, drained) =>
      if !IsCurrent(c, stream) then c
      else
        var id := c.handles[stream];
        var r := c.requests[id];
        OnStreamFinished(Put(c, id, r.(stream := None, errorMode := false)), id, r.errorMode || failed, trailing, drained)
    case Errored(stream) =>
      if !IsCurrent(c, stream) then c
      else
        var id := c.handles[stream];
        OnStreamFinished(Put(c, id, c.requests[id].(stream := None, errorMode := false)), id, true, [], [])
    case Replied(id, failed, items, drained) =>
      if id !in c.awaited then c
      else
        var c1 := c.(awaited := c.awaited - multiset{id});
        if id !in c1.requests then c1 else OnStreamFinished(c1, id, failed, items, drained)
    case ToolsDone(id, payload) =>
      if id !in c.open then c else ToolsCompleted(c.(open := c.open - {id}), id, payload)
  }

  function Run(c: Client, events: seq<Event>): Client
    decreases |events|
  {
    if events == [] then c else Run(Step(c, events[0]), events[1..])
  }
}
