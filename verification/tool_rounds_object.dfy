/**
 The tools manager as the program has it, an object whose rounds are filled and emptied in place while
 handlers call back into it. Every method is proved to compute the function of its name in `ToolRounds`.
 */
module ToolRoundsObject {
  import opened Options
  import R = ToolRounds
  import opened ToolRounds

  class ToolsManager {
    var tools: map<string, bool>
    var executionGate: bool
    var rounds: seq<Round>
    var toolRounds: map<string, nat>
    var gates: multiset<Key>
    var running: set<Key>
    var script: seq<seq<Call>>
    ghost var starting: multiset<Key>
    ghost var trace: seq<Signal>

    ghost function Model(): Manager
      reads this
    {
      Manager(tools, executionGate, rounds, toolRounds, gates, starting, running, script, trace)
    }

    constructor (tools: map<string, bool>, script: seq<seq<Call>>)
      ensures Model() == Initial(tools, script)
    {
      this.tools, executionGate, rounds, toolRounds := tools, false, [], map[];
      gates, running, this.script := multiset{}, {}, script;
      starting, trace := multiset{}, [];
    }

    // ---- signals and the application's calls ---------------------------------------------------

    method Emit(ghost g: Signal)
      modifies this
      ensures Model() == R.Emit(old(Model()), g)
      decreases |script|, 0
    {
      hide R.RunCalls;
      trace := trace + [g];
      if script != [] {
        var calls := script[0];
        script := script[1..];
        RunCalls(calls);
      }
    }

    method RunCalls(calls: seq<Call>)
      modifies this
      ensures Model() == R.RunCalls(old(Model()), calls)
      decreases |script|, 9
    {
      hide R.Do;
      ghost var before := Model();
      var i := 0;
      while i < |calls|
        invariant 0 <= i <= |calls| && |script| <= |old(script)|
        invariant R.RunCalls(before, calls) == R.RunCalls(Model(), calls[i..])
      {
        Do(calls[i]);
        assert calls[i..][1..] == calls[i + 1..];
        i := i + 1;
      }
    }

    method Do(call: Call)
      modifies this
      ensures Model() == R.Do(old(Model()), call)
      decreases |script|, 8
    {
      hide R.BeginRound, R.CleanupRequest;
      match call
      case Begin(request, calls) =>
        if calls != [] {
          BeginRound(request, calls);
        }
      case Cleanup(request) => CleanupRequest(request);
      case AddTool(name, mutating) => tools := tools[name := mutating];
      case RemoveTool(name) => tools := tools - {name};
      case SetGate(present) => executionGate := present;
    }

    method CleanupRequest(request: string)
      modifies `rounds, `toolRounds, `running
      ensures Model() == R.CleanupRequest(old(Model()), request)
    {
      if request !in toolRounds || toolRounds[request] >= |rounds| {
        return;
      }
      var k := toolRounds[request];
      toolRounds := toolRounds - {request};
      rounds := rounds[k := Abandoned(rounds[k])];
      running := set key | key in running && key.request != request;
    }

    // ---- rounds ----------------------------------------------------------------------------------

    method BeginRound(request: string, calls: seq<Request>)
      requires calls != []
      modifies this
      ensures Model() == R.BeginRound(old(Model()), request, calls)
      decreases |script|, 7
    {
      hide R.AddCalls, R.Drive;
      ghost var before := Model();
      var k := OpenRound(request);
      ghost var r, queued := rounds[k], rounds;
      AddCalls(k, calls);
      assert rounds == queued[k := R.AddCalls(r, calls)];
      trace := trace + [Begun(k, r.advancing, HasRound(before, request) && r.next >= |r.pending|)];
      assert Model() == Queue(before, request, calls);
      DriveRound(request);
    }

    /** The open round of a request, made if there is none. */
    method OpenRound(request: string) returns (k: nat)
      modifies `rounds, `toolRounds
      ensures k == if HasRound(old(Model()), request) then old(toolRounds)[request] else |old(rounds)|
      ensures HasRound(old(Model()), request) ==> rounds == old(rounds) && toolRounds == old(toolRounds)
      ensures !HasRound(old(Model()), request) ==>
                && rounds == old(rounds) + [Round(request, [], 0, false, false, [], [])]
                && toolRounds == old(toolRounds)[request := k]
    {
      if request in toolRounds && toolRounds[request] < |rounds| && !rounds[toolRounds[request]].closed {
        return toolRounds[request];
      }
      k := |rounds|;
      rounds := rounds + [Round(request, [], 0, false, false, [], [])];
      toolRounds := toolRounds[request := k];
    }

    method AddCalls(k: nat, calls: seq<Request>)
      requires k < |rounds|
      modifies `rounds
      ensures rounds == old(rounds)[k := R.AddCalls(old(rounds)[k], calls)]
    {
      ghost var before := rounds;
      var r := rounds[k];
      var i := 0;
      while i < |calls|
        invariant 0 <= i <= |calls| && rounds == before
        invariant R.AddCalls(before[k], calls) == R.AddCalls(r, calls[i..])
      {
        assert calls[i..][1..] == calls[i + 1..];
        var c := calls[i];
        if Find(r.pending, c.id) == |r.pending| {
          r := r.(pending := r.pending + [PendingTool(c.id, c.name, None)], queued := r.queued + [c.id]);
        }
        i := i + 1;
      }
      rounds := rounds[k := r];
    }

    method DriveRound(request: string)
      modifies this
      ensures Model() == R.Drive(old(Model()), request)
      decreases |script|, 6, Remaining(rounds), 3
    {
      if request !in toolRounds || toolRounds[request] >= |rounds| || rounds[toolRounds[request]].closed
         || rounds[toolRounds[request]].advancing {
        return;
      }
      var k := toolRounds[request];
      RemainingUpdate(rounds, k, rounds[k].(advancing := true));
      hide R.Advance, R.Finish, Remaining;
      SetRound(k, rounds[k].(advancing := true));
      Advance(k);
      SetRound(k, rounds[k].(advancing := false));
      Finish(k);
    }

    method SetRound(k: nat, r: Round)
      requires k < |rounds|
      modifies `rounds
      ensures Model() == Put(old(Model()), k, r)
    {
      rounds := rounds[k := r];
    }

    method Finish(k: nat)
      requires k < |rounds|
      modifies this
      ensures Model() == R.Finish(old(Model()), k)
      decreases |script|, 1
    {
      hide R.Emit, R.Results;
      var r := rounds[k];
      var settled := AllSettled(r.pending);
      if r.closed || !settled {
        return;
      }
      rounds := rounds[k := r.(closed := true)];
      Emit(Complete(k, Results(r)));
    }

    method AllSettled(pending: seq<PendingTool>) returns (settled: bool)
      ensures settled <==> pending != [] && forall i :: 0 <= i < |pending| ==> pending[i].result.Some?
    {
      if pending == [] {
        return false;
      }
      var i := 0;
      while i < |pending|
        invariant 0 <= i <= |pending| && forall j :: 0 <= j < i ==> pending[j].result.Some?
      {
        if pending[i].result.None? {
          return false;
        }
        i := i + 1;
      }
      return true;
    }

    /** Calls are dispatched until one has to be waited for. */
    method Advance(k: nat)
      requires k < |rounds|
      modifies this
      ensures Model() == R.Advance(old(Model()), k)
      decreases |script|, 6, Remaining(rounds), 2
    {
      ghost var before := Model();
      var stop := false;
      while !stop && rounds[k].next < |rounds[k].pending|
        invariant k < |rounds| && NoLonger(Model(), before)
        invariant R.Advance(before, k) == if stop then Model() else R.Advance(Model(), k)
        decreases |script|, Remaining(rounds), !stop
      {
        ghost var now := Model();
        var r := rounds[k];
        RemainingUpdate(rounds, k, Taken(r));
        AdvanceUnfolds(now, k);
        rounds := rounds[k := Taken(r)];
        NoteSkipped(k, r.pending[r.next]);
        assert Model() == Take(now, k);
        hide R.Advance, R.Dispatch, Remaining, Take;
        stop := Dispatch(r.request, r.pending[r.next]);
      }
      if !stop {
        NoteIdled(k);
      }
    }

    ghost method NoteSkipped(k: nat, call: PendingTool)
      modifies `trace
      ensures trace == if call.name !in tools && call.result.Some? then old(trace) + [Skipped(k)] else old(trace)
    {
      if call.name !in tools && call.result.Some? {
        trace := trace + [Skipped(k)];
      }
    }

    ghost method NoteIdled(k: nat)
      requires k < |rounds|
      modifies `trace
      ensures trace == if rounds[k].closed || IsSettled(rounds[k]) then old(trace) else old(trace) + [Idled(k)]
    {
      if !rounds[k].closed && !IsSettled(rounds[k]) {
        trace := trace + [Idled(k)];
      }
    }

    method Dispatch(request: string, call: PendingTool) returns (wait: bool)
      modifies this
      ensures (Model(), wait) == R.Dispatch(old(Model()), request, call)
      decreases |script|, 6, Remaining(rounds), 6
    {
      hide R.Finalize, R.StartExecution, Remaining;
      if call.name !in tools {
        Finalize(request, call.id, ToolResult("Error: Tool not found: " + call.name, true), false);
        return false;
      }
      if executionGate && tools[call.name] {
        gates := gates + multiset{Key(request, call.id)};
        return true;
      }
      StartExecution(request, call.id, call.name);
      return true;
    }

    method StartExecution(request: string, id: string, name: string)
      modifies this
      ensures Model() == R.StartExecution(old(Model()), request, id, name)
      decreases |script|, 6, Remaining(rounds), 5
    {
      hide R.Finalize, R.Emit, Remaining;
      if name !in tools {
        Finalize(request, id, ToolResult("Tool not found: " + name, true), false);
        return;
      }
      var key := Key(request, id);
      starting := starting + multiset{key};
      Emit(Started(request, id));
      starting := starting - multiset{key};
      running := running + {key};
    }

    method Finalize(request: string, id: string, result: ToolResult, success: bool)
      modifies this
      ensures Model() == R.Finalize(old(Model()), request, id, result, success)
      decreases |script|, 6, Remaining(rounds), 4
    {
      ghost var before := Model();
      var settled, k := Settle(request, id, result);
      if !settled {
        return;
      }
      ghost var r := before.rounds[k];
      RemainingUpdate(before.rounds, k, R.Settle(r, id, result));
      var name := rounds[k].pending[Find(rounds[k].pending, id)].name;
      hide R.Emit, R.Drive, R.Settle, Remaining, ResultText, Under, Unsettled;
      assert Model() == Put(before, k, R.Settle(r, id, result));
      AddNote(Settled(k, Find(r.pending, id) >= r.next));
      hide Put, R.Note;
      Emit(Reported(request, id, name, ResultText(result, success)));
      AddNote(Returned(k, Under(Model(), request)));
      DriveRound(request);
    }

    ghost method AddNote(g: Signal)
      modifies `trace
      ensures Model() == R.Note(old(Model()), g)
    {
      trace := trace + [g];
    }

    /** `settle` of the request's round: false for a call that is unknown or settled already. */
    method Settle(request: string, id: string, result: ToolResult) returns (settled: bool, k: nat)
      modifies `rounds
      ensures settled <==> request in toolRounds && toolRounds[request] < |old(rounds)|
                           && Unsettled(old(rounds)[toolRounds[request]], id)
      ensures !settled ==> rounds == old(rounds)
      ensures settled ==>
                && k == toolRounds[request] && rounds == old(rounds)[k := R.Settle(old(rounds)[k], id, result)]
                && Find(rounds[k].pending, id) == Find(old(rounds)[k].pending, id) < |rounds[k].pending|
                && rounds[k].pending[Find(rounds[k].pending, id)].name
                   == old(rounds)[k].pending[Find(rounds[k].pending, id)].name
    {
      settled, k := false, 0;
      if request !in toolRounds || toolRounds[request] >= |rounds| {
        return;
      }
      k := toolRounds[request];
      var r := rounds[k];
      var i := Find(r.pending, id);
      if i == |r.pending| || r.pending[i].result.Some? {
        return;
      }
      var pending := r.pending[i := r.pending[i].(result := Some(result))];
      FindAgain(r.pending, pending, id);
      rounds := rounds[k := r.(pending := pending)];
      settled := true;
    }

    // ---- events -----------------------------------------------------------------------------------

    method Handle(e: Event)
      modifies this
      ensures Model() == Step(old(Model()), e)
    {
      hide R.Do, R.Finalize, R.StartExecution;
      match e
      case FromApplication(call) => Do(call);
      case GateResolved(key, name, allowed) =>
        if key in gates {
          gates := gates - multiset{key};
          if allowed {
            StartExecution(key.request, key.id, name);
          } else {
            Finalize(key.request, key.id, ToolResult("The user declined to run " + name, true), false);
          }
        }
      case ToolFinished(key, result, success) =>
        if key in running {
          running := running - {key};
          Finalize(key.request, key.id, result, success);
        }
    }
  }

  lemma AdvanceUnfolds(s: Manager, k: nat)
    requires k < |s.rounds| && s.rounds[k].next < |s.rounds[k].pending|
    ensures var r := s.rounds[k];
            var d := R.Dispatch(Take(s, k), r.request, r.pending[r.next]);
            && k < |d.0.rounds| && NoLonger(d.0, Put(s, k, Taken(r)))
            && R.Advance(s, k) == if d.1 then d.0 else R.Advance(d.0, k)
  {
    hide R.Dispatch;
    RemainingUpdate(s.rounds, k, Taken(s.rounds[k]));
  }

  lemma {:induction false} FindAgain(a: seq<PendingTool>, b: seq<PendingTool>, id: string)
    requires |a| == |b| && forall i :: 0 <= i < |a| ==> a[i].id == b[i].id
    ensures Find(a, id) == Find(b, id)
  {
    var i, j := Find(a, id), Find(b, id);
    hide Find;
  }
}
