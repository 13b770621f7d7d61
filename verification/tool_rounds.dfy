/**
 The tool dispatcher (source/tools/ToolsManager.cpp): one round of calls per request, dispatched one
 after the other while handlers of its signals call back into it.

 As in `McpTransport`, `script` holds, signal by signal, the calls the application makes from inside
 it. A gate that was asked and a tool that was started answer later, as events of their own.
 */
module ToolRounds {
  import opened Options

  // ---- state ------------------------------------------------------------------------------

  datatype ToolResult = ToolResult(text: string, isError: bool)

  datatype Request = Request(id: string, name: string)

  /** `result` is set once the call is settled. */
  datatype PendingTool = PendingTool(id: string, name: string, result: Option<ToolResult>)

  /** The last two fields record history: the ids ever queued, and those dispatched. */
  datatype Round = Round(request: string, pending: seq<PendingTool>, next: nat, advancing: bool, closed: bool,
                         queued: seq<string>, dispatched: seq<string>)

  /**
   The signals of the manager, and notes on what happens around them. `Begun`: `beginRound` has
   reached a round, which was being advanced (`nested`), or had been begun before and nothing left to
   dispatch (`refill`). `Settled`: a call of the round got its result, `early` if it was not dispatched
   yet. `Returned`: the handlers of `Reported` have returned, and `under` is the open round that they
   have left under the request whose round `of` was reported on. `Idled`: the round was driven and had
   nothing left to dispatch, while calls of it were in flight. `Skipped`: a call of the round came up
   that had its result already, and its tool was gone.
   */
  datatype Signal =
    | Started(request: string, id: string)
    | Reported(request: string, id: string, name: string, text: string)
    | Complete(round: nat, results: map<string, ToolResult>)
    | Begun(round: nat, nested: bool, refill: bool)
    | Settled(round: nat, early: bool)
    | Returned(of: nat, under: Option<nat>)
    | Idled(round: nat)
    | Skipped(round: nat)

  datatype Call =
    | Begin(request: string, calls: seq<Request>)
    | Cleanup(request: string)
    | AddTool(name: string, mutating: bool)
    | RemoveTool(name: string)
    | SetGate(present: bool)

  /** A call of a request, by its id. */
  datatype Key = Key(request: string, id: string)

  /**
   `rounds` are all rounds ever made, `current` those in the map of the manager. `gates` and
   `running` are answers still to come, `starting` tools whose start is just being announced.
   */
  datatype Manager = Manager(tools: map<string, bool>, gate: bool, rounds: seq<Round>, current: map<string, nat>,
                             gates: multiset<Key>, starting: multiset<Key>, running: set<Key>,
                             script: seq<seq<Call>>, trace: seq<Signal>)

  function Initial(tools: map<string, bool>, script: seq<seq<Call>>): Manager {
    Manager(tools, false, [], map[], multiset{}, multiset{}, {}, script, [])
  }

  // ---- one round -------------------------------------------------------------------------------

  /** The position of a call, or the end. */
  function Find(pending: seq<PendingTool>, id: string): (i: nat)
    ensures i <= |pending| && (i < |pending| ==> pending[i].id == id)
    ensures forall j :: 0 <= j < i ==> pending[j].id != id
  {
    if pending == [] || pending[0].id == id then 0 else 1 + Find(pending[1..], id)
  }

  function AddCalls(r: Round, calls: seq<Request>): Round
    decreases |calls|
  {
    if calls == [] then r
    else
      var c := calls[0];
      var r1 := if Find(r.pending, c.id) < |r.pending| then r
                else r.(pending := r.pending + [PendingTool(c.id, c.name, None)], queued := r.queued + [c.id]);
      AddCalls(r1, calls[1..])
  }

  predicate IsSettled(r: Round) { r.pending != [] && forall i :: 0 <= i < |r.pending| ==> r.pending[i].result.Some? }

  predicate Unsettled(r: Round, id: string) {
    Find(r.pending, id) < |r.pending| && r.pending[Find(r.pending, id)].result.None?
  }

  function Settle(r: Round, id: string, result: ToolResult): Round
    requires Unsettled(r, id)
  {
    var i := Find(r.pending, id);
    r.(pending := r.pending[i := r.pending[i].(result := Some(result))])
  }

  function Results(r: Round): map<string, ToolResult> {
    map i | 0 <= i < |r.pending| && r.pending[i].result.Some? && Find(r.pending, r.pending[i].id) == i
          :: r.pending[i].id := r.pending[i].result.value
  }

  function Abandoned(r: Round): Round { r.(closed := true, pending := [], next := 0) }

  function StartsWith(s: string, prefix: string): bool { prefix <= s }

  function ResultText(result: ToolResult, success: bool): string {
    if success || StartsWith(result.text, "Error:") then result.text else "Error: " + result.text
  }

  // ---- termination ----------------------------------------------------------------------------------

  /** The calls not dispatched yet, over all rounds. */
  function Remaining(rounds: seq<Round>): nat
    decreases |rounds|
  {
    if rounds == [] then 0
    else
      var r := rounds[|rounds| - 1];
      Remaining(rounds[..|rounds| - 1]) + (if r.next <= |r.pending| then |r.pending| - r.next else 0)
  }

  function Left(r: Round): nat { if r.next <= |r.pending| then |r.pending| - r.next else 0 }

  lemma {:induction false} RemainingUpdate(rounds: seq<Round>, k: nat, r: Round)
    requires k < |rounds|
    ensures Remaining(rounds[k := r]) == Remaining(rounds) - Left(rounds[k]) + Left(r)
    decreases |rounds|
  {
    var n := |rounds| - 1;
    if k == n {
      assert rounds[k := r][..n] == rounds[..n];
    } else {
      assert rounds[k := r][..n] == rounds[..n][k := r];
      RemainingUpdate(rounds[..n], k, r);
    }
  }

  /** What every operation may do: use up reactions, or dispatch calls. */
  predicate NoLonger(t: Manager, s: Manager) {
    |t.script| < |s.script| || (|t.script| == |s.script| && Remaining(t.rounds) <= Remaining(s.rounds))
  }

  // ---- the operations ---------------------------------------------------------------------------------

  function Put(s: Manager, k: nat, r: Round): Manager
    requires k < |s.rounds|
  {
    s.(rounds := s.rounds[k := r])
  }

  function Emit(s: Manager, g: Signal): (t: Manager)
    ensures NoLonger(t, s) && (s.script == [] ==> t == s.(trace := s.trace + [g]))
    ensures |t.rounds| >= |s.rounds|
    decreases |s.script|, 0
  {
    var s1 := s.(trace := s.trace + [g]);
    if s1.script == [] then s1 else RunCalls(s1.(script := s1.script[1..]), s1.script[0])
  }

  function RunCalls(s: Manager, calls: seq<Call>): (t: Manager)
    ensures |t.script| <= |s.script| && |t.rounds| >= |s.rounds|
    decreases |s.script|, 9, |calls|
  {
    if calls == [] then s else RunCalls(Do(s, calls[0]), calls[1..])
  }

  function Do(s: Manager, call: Call): (t: Manager)
    ensures |t.script| <= |s.script| && |t.rounds| >= |s.rounds|
    decreases |s.script|, 8
  {
    match call
    case Begin(request, calls) => if calls == [] then s else BeginRound(s, request, calls)
    case Cleanup(request) => CleanupRequest(s, request)
    case AddTool(name, mutating) => s.(tools := s.tools[name := mutating])
    case RemoveTool(name) => s.(tools := s.tools - {name})
    case SetGate(present) => s.(gate := present)
  }

  function CleanupRequest(s: Manager, request: string): (t: Manager)
    ensures t == s.(rounds := t.rounds, current := t.current, running := t.running) && |t.rounds| == |s.rounds|
  {
    if request !in s.current || s.current[request] >= |s.rounds| then s
    else
      var k := s.current[request];
      Put(s, k, Abandoned(s.rounds[k])).(current := s.current - {request}, running := Others(s.running, request))
  }

  /** The executions of other requests. */
  function Others(running: set<Key>, request: string): set<Key> {
    set key | key in running && key.request != request
  }

  function Outstanding(s: Manager, key: Key): nat {
    s.gates[key] + s.starting[key] + (if key in s.running then 1 else 0)
  }

  function BeginRound(s: Manager, request: string, calls: seq<Request>): (t: Manager)
    requires calls != []
    ensures |t.script| <= |s.script| && |t.rounds| >= |s.rounds|
    decreases |s.script|, 7
  {
    Drive(Queue(s, request, calls), request)
  }

  predicate HasRound(s: Manager, request: string) {
    request in s.current && s.current[request] < |s.rounds| && !s.rounds[s.current[request]].closed
  }

  /** `beginRound` up to driving the round. */
  function Queue(s: Manager, request: string, calls: seq<Request>): (t: Manager)
    ensures t.script == s.script && |t.rounds| >= |s.rounds|
  {
    var k := if HasRound(s, request) then s.current[request] else |s.rounds|;
    var s1 := if HasRound(s, request) then s
              else s.(rounds := s.rounds + [Round(request, [], 0, false, false, [], [])],
                      current := s.current[request := k]);
    var r := s1.rounds[k];
    Note(Put(s1, k, AddCalls(r, calls)), Begun(k, r.advancing, HasRound(s, request) && r.next >= |r.pending|))
  }

  function Note(s: Manager, g: Signal): Manager { s.(trace := s.trace + [g]) }

  /** The open round under a request. */
  function Under(s: Manager, request: string): Option<nat> {
    if HasRound(s, request) then Some(s.current[request]) else None
  }

  function Drive(s: Manager, request: string): (t: Manager)
    ensures NoLonger(t, s) && |t.rounds| >= |s.rounds|
    decreases |s.script|, 6, Remaining(s.rounds), 3
  {
    if !HasRound(s, request) || s.rounds[s.current[request]].advancing then s
    else
      var k := s.current[request];
      var r := s.rounds[k];
      RemainingUpdate(s.rounds, k, r.(advancing := true));
      var s1 := Put(s, k, r.(advancing := true));
      var s2 := Advance(s1, k);
      RemainingUpdate(s2.rounds, k, s2.rounds[k].(advancing := false));
      Finish(Put(s2, k, s2.rounds[k].(advancing := false)), k)
  }

  /** The end of `driveRound`: a settled round is closed and its results are handed on. */
  function Finish(s: Manager, k: nat): (t: Manager)
    requires k < |s.rounds|
    ensures NoLonger(t, s) && |t.rounds| >= |s.rounds|
    decreases |s.script|, 1
  {
    var r := s.rounds[k];
    if r.closed || !IsSettled(r) then s
    else
      RemainingUpdate(s.rounds, k, r.(closed := true));
      Emit(Put(s, k, r.(closed := true)), Complete(k, Results(r)))
  }

  function Taken(r: Round): Round
    requires r.next < |r.pending|
  {
    r.(next := r.next + 1, dispatched := r.dispatched + [r.pending[r.next].id])
  }

  function Advance(s: Manager, k: nat): (t: Manager)
    requires k < |s.rounds|
    ensures NoLonger(t, s) && |t.rounds| >= |s.rounds|
    decreases |s.script|, 6, Remaining(s.rounds), 2
  {
    var r := s.rounds[k];
    if r.next >= |r.pending| then (if r.closed || IsSettled(r) then s else Note(s, Idled(k)))
    else
      RemainingUpdate(s.rounds, k, Taken(r));
      var (s1, stop) := Dispatch(Take(s, k), r.request, r.pending[r.next]);
      if stop then s1 else Advance(s1, k)
  }

  /** The next call of a round is about to be dispatched. */
  function Take(s: Manager, k: nat): (t: Manager)
    requires k < |s.rounds| && s.rounds[k].next < |s.rounds[k].pending|
    ensures t == Put(s, k, Taken(s.rounds[k])).(trace := t.trace)
  {
    var r := s.rounds[k];
    var t := Put(s, k, Taken(r));
    if r.pending[r.next].name !in s.tools && r.pending[r.next].result.Some? then Note(t, Skipped(k)) else t
  }

  /** Whether the round has to wait now. */
  function Dispatch(s: Manager, request: string, call: PendingTool): (t: (Manager, bool))
    ensures NoLonger(t.0, s) && |t.0.rounds| >= |s.rounds|
    decreases |s.script|, 6, Remaining(s.rounds), 6
  {
    if call.name !in s.tools
    then (Finalize(s, request, call.id, ToolResult("Error: Tool not found: " + call.name, true), false), false)
    else if s.gate && s.tools[call.name]
    then (s.(gates := s.gates + multiset{Key(request, call.id)}), true)
    else (StartExecution(s, request, call.id, call.name), true)
  }

  function StartExecution(s: Manager, request: string, id: string, name: string): (t: Manager)
    ensures NoLonger(t, s) && |t.rounds| >= |s.rounds|
    decreases |s.script|, 6, Remaining(s.rounds), 5
  {
    var key := Key(request, id);
    if name !in s.tools then Finalize(s, request, id, ToolResult("Tool not found: " + name, true), false)
    else
      var s1 := Emit(s.(starting := s.starting + multiset{key}), Started(request, id));
      s1.(starting := s1.starting - multiset{key}, running := s1.running + {key})
  }

  function Finalize(s: Manager, request: string, id: string, result: ToolResult, success: bool): (t: Manager)
    ensures NoLonger(t, s) && |t.rounds| >= |s.rounds|
    decreases |s.script|, 6, Remaining(s.rounds), 4
  {
    if request !in s.current || s.current[request] >= |s.rounds| || !Unsettled(s.rounds[s.current[request]], id) then s
    else
      var k := s.current[request];
      var r := s.rounds[k];
      var i := Find(r.pending, id);
      RemainingUpdate(s.rounds, k, Settle(r, id, result));
      var g := Reported(request, id, r.pending[i].name, ResultText(result, success));
      var s1 := Emit(Note(Put(s, k, Settle(r, id, result)), Settled(k, i >= r.next)), g);
      Drive(Note(s1, Returned(k, Under(s1, request))), request)
  }

  // ---- all events ------------------------------------------------------------------------------------------

  /** `name` is the tool that the question was about. */
  datatype Event =
    | FromApplication(call: Call)
    | GateResolved(key: Key, name: string, allowed: bool)
    | ToolFinished(key: Key, result: ToolResult, success: bool)

  function Step(s: Manager, e: Event): Manager {
    match e
    case FromApplication(call) => Do(s, call)
    case GateResolved(key, name, allowed) =>
      if key !in s.gates then s
      else
        var s1 := s.(gates := s.gates - multiset{key});
        if allowed then StartExecution(s1, key.request, key.id, name)
        else Finalize(s1, key.request, key.id, ToolResult("The user declined to run " + name, true), false)
    case ToolFinished(key, result, success) =>
      if key !in s.running then s
      else Finalize(s.(running := s.running - {key}), key.request, key.id, result, success)
  }

  function Run(s: Manager, events: seq<Event>): Manager
    decreases |events|
  {
    if events == [] then s else Run(Step(s, events[0]), events[1..])
  }
}
