/**
 Each request of a client ends once and is silent afterwards, whatever the handlers of its signals do;
 what is told of its text and usage adds up, and the futures of `askOnce` follow the outcome.
 */
module ClientProofs {
  import opened Options
  import opened Client

  // ---- what a request has told -----------------------------------------------------------------

  /** Signals of tools are not counted: they may come late. */
  predicate About(g: Signal, id: nat) { !g.ToolSignal? && g.id == id }

  function Of(trace: seq<Signal>, id: nat): seq<Signal> {
    if trace == [] then []
    else
      var g := trace[|trace| - 1];
      Of(trace[..|trace| - 1], id) + (if About(g, id) then [g] else [])
  }

  /** The text that a listener has: chunks are appended, an accumulated text replaces it. */
  function Shown(w: seq<Signal>): string {
    if w == [] then ""
    else
      match w[|w| - 1]
      case Chunk(_, text) => Shown(w[..|w| - 1]) + text
      case Accumulated(_, text) => text
      case _ => Shown(w[..|w| - 1])
  }

  /** Progress only: a chunk is followed by the accumulated text, which is the text shown so far. */
  ghost predicate Running(w: seq<Signal>) {
    forall i :: 0 <= i < |w| ==>
      && (w[i].Chunk? || w[i].Accumulated? || w[i].Thought?)
      && (w[i].Chunk? && i + 1 < |w| ==> w[i + 1].Accumulated? && w[i + 1].text == Shown(w[..i + 1]))
  }

  /** No accumulated text is due. */
  predicate Whole(w: seq<Signal>) { w != [] ==> !w[|w| - 1].Chunk? }

  /** The last value said, or 0. */
  function Latest(said: seq<Option<int>>): int {
    if said == [] then 0
    else if said[|said| - 1].Some? then said[|said| - 1].value
    else Latest(said[..|said| - 1])
  }

  /** Field by field, what the deltas of one turn said last. */
  function Merge(segment: seq<UsageDelta>): Usage {
    Usage(Latest(seq(|segment|, i requires 0 <= i < |segment| => segment[i].prompt)),
          Latest(seq(|segment|, i requires 0 <= i < |segment| => segment[i].completion)),
          Latest(seq(|segment|, i requires 0 <= i < |segment| => segment[i].cached)),
          Latest(seq(|segment|, i requires 0 <= i < |segment| => segment[i].reasoning)))
  }

  function Sum(segments: seq<seq<UsageDelta>>): Usage {
    if segments == [] then NoUsage else Add(Sum(segments[..|segments| - 1]), Merge(segments[|segments| - 1]))
  }

  function Total(segments: seq<seq<UsageDelta>>): Option<Usage> {
    if segments == [] then None else Some(Sum(segments))
  }

  ghost predicate EndsFailed(w: seq<Signal>) {
    |w| > 0 && w[|w| - 1].Failed? && Running(w[..|w| - 1])
  }

  ghost predicate EndsCompleted(w: seq<Signal>) {
    && |w| > 1 && w[|w| - 1].Completed? && w[|w| - 2].Finalized?
    && Running(w[..|w| - 2]) && Whole(w[..|w| - 2])
    && w[|w| - 1].text == Shown(w[..|w| - 2])
    && w[|w| - 2].usage == Total(w[|w| - 2].segments)
  }

  /** Progress only, and then one ending: a failure, or a final report and the completion with the text shown. */
  ghost predicate EndedOnce(w: seq<Signal>) { EndsFailed(w) || EndsCompleted(w) }

  // ---- the invariant ------------------------------------------------------------------------------

  ghost predicate RequestOk(r: Request, w: seq<Signal>) {
    && Running(w) && r.content == Shown(w)
    && r.earlier <= r.content && r.offset == |r.earlier|
    && r.turnUsage == (if r.segment == [] then None else Some(Merge(r.segment)))
    && r.usage == Total(r.segments)
  }

  /** `busy` are the requests whose ending is being told. */
  ghost predicate IdOk(c: Client, id: nat, busy: set<nat>) {
    var w := Of(c.trace, id);
    && (id in c.oneShots ==> c.oneShots[id] < |c.promises| && c.promises[c.oneShots[id]] == Future(Some(id), []))
    && (id in c.sends <==> id < c.nextId) && (id in c.sends ==> c.sends[id] <= 1 + c.limit)
    && (id in c.requests ==> id < c.nextId && id !in busy && RequestOk(c.requests[id], w)
                             && c.sends[id] <= 1 + c.requests[id].toolRounds)
    && (id in busy ==> id < c.nextId)
    && (id !in c.requests && id !in busy && id < c.nextId ==> EndedOnce(w) && id !in c.oneShots)
    && (id >= c.nextId ==> w == [] && id !in c.oneShots)
  }

  ghost predicate FutureOk(c: Client, f: Future, p: nat) {
    match f.request
    case None => f.outcomes == [Untracked]
    case Some(id) =>
      var w := Of(c.trace, id);
      id < c.nextId
      && if f.outcomes == [] then id in c.oneShots && c.oneShots[id] == p
         else id !in c.requests && EndedOnce(w)
              && f.outcomes == [if w[|w| - 1].Completed? then Resolved(id) else Rejected(id)]
  }

  ghost predicate Inv(c: Client, busy: set<nat>) {
    && (forall id: nat :: IdOk(c, id, busy))
    && (forall p: nat :: p < |c.promises| ==> FutureOk(c, c.promises[p], p))
  }

  // ---- what handlers can do ----------------------------------------------------------------------------

  /** Handlers leave the text of a request alone or make it fail. */
  ghost predicate QuietAt(c: Client, t: Client, id: nat) {
    var w, v := Of(c.trace, id), Of(t.trace, id);
    if id !in c.requests then id !in t.requests && v == w
    else if id in t.requests then
      t.requests[id].content == c.requests[id].content && t.requests[id].earlier == c.requests[id].earlier && v == w
    else v == w + [Failed(id)]
  }

  ghost predicate Quiet(c: Client, t: Client) {
    && c.nextId <= t.nextId && t.limit == c.limit
    && (forall id: nat :: id < c.nextId ==> QuietAt(c, t, id))
    && (forall id: nat :: c.nextId <= id && id in t.requests ==> Of(t.trace, id) == [])
  }

  /** Any step: an ended request stays so, and the text of its earlier turns is final. */
  ghost predicate MovesAt(c: Client, t: Client, id: nat) {
    var w, v := Of(c.trace, id), Of(t.trace, id);
    && w <= v
    && (id !in c.requests ==> id !in t.requests && v == w)
    && (id in c.requests && id in t.requests ==> c.requests[id].earlier <= t.requests[id].earlier)
    && (id in c.requests && id !in t.requests && v != [] && v[|v| - 1].Completed? ==>
          c.requests[id].earlier <= v[|v| - 1].text)
  }

  ghost predicate Moves(c: Client, t: Client) {
    && c.nextId <= t.nextId && t.limit == c.limit
    && (forall id: nat :: id < c.nextId ==> MovesAt(c, t, id))
  }

  lemma OfTold(trace: seq<Signal>, g: Signal, id: nat)
    ensures Of(trace + [g], id) == Of(trace, id) + (if About(g, id) then [g] else [])
  {
    assert (trace + [g])[..|trace|] == trace;
  }

  lemma QuietChain(c: Client, m: Client, t: Client)
    requires Quiet(c, m) && Quiet(m, t)
    ensures Quiet(c, t)
  {
    hide Of;
    forall id: nat | id < c.nextId ensures QuietAt(c, t, id) {
      assert QuietAt(c, m, id) && QuietAt(m, t, id);
    }
    forall id: nat | c.nextId <= id && id in t.requests ensures Of(t.trace, id) == [] {
      if id < m.nextId {
        assert QuietAt(m, t, id);
      }
    }
  }

  lemma MovesChain(c: Client, m: Client, t: Client)
    requires Moves(c, m) && Moves(m, t) && Inv(m, {})
    ensures Moves(c, t)
  {
    hide Of, Inv, RequestOk, EndedOnce;
    forall id: nat | id < c.nextId ensures MovesAt(c, t, id) {
      assert MovesAt(c, m, id) && MovesAt(m, t, id);
    }
  }

  lemma QuietMoves(c: Client, t: Client)
    requires Quiet(c, t)
    ensures Moves(c, t)
  {
    hide Of;
    forall id: nat | id < c.nextId ensures MovesAt(c, t, id) {
      assert QuietAt(c, t, id);
    }
  }

  // ---- changing one request -----------------------------------------------------------------------------

  ghost predicate SameAt(c: Client, t: Client, id: nat) {
    && (id in t.requests <==> id in c.requests) && (id in c.requests ==> t.requests[id] == c.requests[id])
    && (id in t.sends <==> id in c.sends) && (id in c.sends ==> t.sends[id] == c.sends[id])
    && Of(t.trace, id) == Of(c.trace, id)
  }

  /** Only the request `id` changes, and its future, if any, is open. */
  lemma Elsewhere(c: Client, t: Client, busy: set<nat>, busy': set<nat>, id: nat)
    requires Inv(c, busy) && IdOk(t, id, busy')
    requires t.nextId == c.nextId && t.limit == c.limit && t.promises == c.promises && t.oneShots == c.oneShots
    requires forall k: nat :: k != id ==> SameAt(c, t, k)
    requires forall k: nat :: k != id ==> (k in busy <==> k in busy')
    requires id in c.requests || !EndedOnce(Of(c.trace, id))
    ensures Inv(t, busy')
  {
    hide Of, RequestOk, EndedOnce;
    forall k: nat ensures IdOk(t, k, busy') {
      assert IdOk(c, k, busy);
      assert k != id ==> SameAt(c, t, k);
    }
    forall p: nat | p < |t.promises| ensures FutureOk(t, t.promises[p], p) {
      assert FutureOk(c, c.promises[p], p);
      var f := c.promises[p];
      assert f.request.Some? && f.request.value != id ==> SameAt(c, t, f.request.value);
    }
  }

  lemma Unborn(c: Client, busy: set<nat>)
    requires Inv(c, busy)
    ensures forall id: nat :: c.nextId <= id ==> id !in c.requests && Of(c.trace, id) == []
  {
    hide Of, RequestOk, EndedOnce;
    forall id: nat | c.nextId <= id ensures id !in c.requests && Of(c.trace, id) == [] {
      assert IdOk(c, id, busy);
    }
  }

  /** What the invariant does not speak of. */
  lemma Inert(c: Client, t: Client, busy: set<nat>)
    requires Inv(c, busy)
    requires t.requests == c.requests && t.nextId == c.nextId && t.oneShots == c.oneShots && t.promises == c.promises
    requires t.limit == c.limit && t.sends == c.sends && t.trace == c.trace
    ensures Inv(t, busy) && Quiet(c, t)
  {
    hide Of, RequestOk, EndedOnce;
    Unborn(c, busy);
    forall k: nat ensures IdOk(t, k, busy) {
      assert IdOk(c, k, busy);
    }
    forall p: nat | p < |t.promises| ensures FutureOk(t, t.promises[p], p) {
      assert FutureOk(c, c.promises[p], p);
    }
    forall k: nat | k < c.nextId ensures QuietAt(c, t, k) {
      assert IdOk(c, k, busy);
    }
  }

  lemma PutOk(c: Client, id: nat, r: Request, busy: set<nat>)
    requires Inv(c, busy) && id in c.requests && RequestOk(r, Of(c.trace, id))
    requires id in c.sends && c.sends[id] <= 1 + r.toolRounds
    ensures Inv(Put(c, id, r), busy)
    ensures c.requests[id].earlier <= r.earlier ==> Moves(c, Put(c, id, r))
    ensures c.requests[id].content == r.content && c.requests[id].earlier == r.earlier ==> Quiet(c, Put(c, id, r))
  {
    hide Of, RequestOk, EndedOnce;
    Unborn(c, busy);
    var t := Put(c, id, r);
    assert IdOk(c, id, busy);
    assert IdOk(t, id, busy);
    Elsewhere(c, t, busy, busy, id);
    forall k: nat | k < c.nextId ensures c.requests[id].earlier <= r.earlier ==> MovesAt(c, t, k) {
      assert IdOk(c, k, busy);
    }
  }

  /** Telling what is due of a request in the table. */
  lemma ToldOk(c: Client, id: nat, r: Request, g: Signal, busy: set<nat>)
    requires Inv(c, busy) && id in c.requests && About(g, id)
    requires RequestOk(r, Of(c.trace, id) + [g]) && r.toolRounds == c.requests[id].toolRounds
    requires c.requests[id].earlier <= r.earlier
    ensures var t := Put(c, id, r).(trace := c.trace + [g]); Inv(t, busy) && Moves(c, t)
  {
    hide Of, RequestOk, EndedOnce;
    var t := Put(c, id, r).(trace := c.trace + [g]);
    forall k: nat ensures Of(t.trace, k) == Of(c.trace, k) + (if About(g, k) then [g] else []) {
      OfTold(c.trace, g, k);
    }
    assert IdOk(c, id, busy);
    assert IdOk(t, id, busy);
    Elsewhere(c, t, busy, busy, id);
    forall k: nat | k < c.nextId ensures MovesAt(c, t, k) {
      assert IdOk(c, k, busy);
    }
  }

  lemma UnToldOk(c: Client, g: Signal, busy: set<nat>)
    requires Inv(c, busy) && g.ToolSignal?
    ensures var t := c.(trace := c.trace + [g]); Inv(t, busy) && Quiet(c, t)
  {
    hide Of, RequestOk, EndedOnce;
    Unborn(c, busy);
    var t := c.(trace := c.trace + [g]);
    forall k: nat ensures Of(t.trace, k) == Of(c.trace, k) {
      OfTold(c.trace, g, k);
    }
    forall k: nat ensures IdOk(t, k, busy) {
      assert IdOk(c, k, busy);
    }
    forall p: nat | p < |t.promises| ensures FutureOk(t, t.promises[p], p) {
      assert FutureOk(c, c.promises[p], p);
    }
    forall k: nat | k < c.nextId ensures QuietAt(c, t, k) {
      assert IdOk(c, k, busy);
    }
  }

  lemma EndingOk(c: Client, id: nat, g: Signal, busy: set<nat>)
    requires Inv(c, busy) && id in c.requests && About(g, id)
    ensures var t := Removed(c, id).(trace := c.trace + [g]);
            Inv(t, busy + {id}) && Of(t.trace, id) == Of(c.trace, id) + [g]
            && forall k: nat :: k != id ==> SameAt(c, t, k)
  {
    hide Of, RequestOk, EndedOnce;
    var t := Removed(c, id).(trace := c.trace + [g]);
    forall k: nat ensures Of(t.trace, k) == Of(c.trace, k) + (if About(g, k) then [g] else []) {
      OfTold(c.trace, g, k);
    }
    assert IdOk(c, id, busy);
    assert IdOk(t, id, busy + {id});
    Elsewhere(c, t, busy, busy + {id}, id);
  }

  /** The ending has been told, so the future can be settled. */
  lemma SettleOk(c: Client, id: nat, busy: set<nat>)
    requires Inv(c, busy + {id}) && id !in busy && EndedOnce(Of(c.trace, id))
    ensures var w := Of(c.trace, id);
            var t := SettleOneShot(c, id, if w[|w| - 1].Completed? then Resolved(id) else Rejected(id));
            Inv(t, busy) && t == c.(oneShots := t.oneShots, promises := t.promises)
  {
    hide Of, RequestOk;
    var w := Of(c.trace, id);
    var outcome := if w[|w| - 1].Completed? then Resolved(id) else Rejected(id);
    hide EndedOnce;
    var t := SettleOneShot(c, id, outcome);
    assert IdOk(c, id, busy + {id});
    forall k: nat ensures IdOk(t, k, busy) {
      assert IdOk(c, k, busy + {id});
    }
    forall p: nat | p < |t.promises| ensures FutureOk(t, t.promises[p], p) {
      assert FutureOk(c, c.promises[p], p);
    }
  }

  function Promised(c: Client, tracked: bool): Client {
    if tracked then c.(promises := c.promises + [Future(Some(c.nextId), [])]) else c
  }

  lemma CreateIs(c: Client, tracked: bool)
    ensures var id := c.nextId;
            var t := CreateRequest(Promised(c, tracked), if tracked then Some(|c.promises|) else None);
            && t == c.(requests := t.requests, nextId := id + 1, sends := t.sends, promises := t.promises,
                       oneShots := t.oneShots)
            && t.requests == c.requests[id := FreshRequest] && t.sends == c.sends[id := 0]
            && t.promises == c.promises + (if tracked then [Future(Some(id), [])] else [])
            && t.oneShots == if tracked then c.oneShots[id := |c.promises|] else c.oneShots
  {
  }

  lemma CreateOk(c: Client, tracked: bool, busy: set<nat>)
    requires Inv(c, busy)
    ensures var id := c.nextId;
            var t := CreateRequest(Promised(c, tracked), if tracked then Some(|c.promises|) else None);
            Inv(t, busy) && Quiet(c, t) && id in t.requests && t.sends == c.sends[id := 0]
            && t.requests[id].toolRounds == 0 && id < t.nextId && Of(t.trace, id) == []
  {
    hide Of, EndedOnce, CreateRequest, Promised;
    var id := c.nextId;
    var t := CreateRequest(Promised(c, tracked), if tracked then Some(|c.promises|) else None);
    CreateIs(c, tracked);
    assert RequestOk(FreshRequest, []);
    hide RequestOk;
    Unborn(c, busy);
    forall k: nat ensures IdOk(t, k, busy) {
      assert IdOk(c, k, busy);
    }
    forall p: nat | p < |t.promises| ensures FutureOk(t, t.promises[p], p) {
      if p < |c.promises| {
        assert FutureOk(c, c.promises[p], p);
      }
    }
    hide Inv, FutureOk;
    forall k: nat | k < c.nextId ensures QuietAt(c, t, k) {
    }
  }

  // ---- handlers -------------------------------------------------------------------------------------------

  lemma {:induction false} EmitOk(c: Client, g: Signal, busy: set<nat>)
    requires Inv(c.(trace := c.trace + [g]), busy)
    ensures Inv(Emit(c, g), busy) && Quiet(c.(trace := c.trace + [g]), Emit(c, g))
    decreases |c.script|, 0, 0
  {
    hide Inv, Quiet;
    var c1 := c.(trace := c.trace + [g]);
    Inert(c1, c1, busy);
    if c1.script != [] {
      var c2 := c1.(script := c1.script[1..]);
      Inert(c1, c2, busy);
      RunCallsOk(c2, c1.script[0], busy);
      QuietChain(c1, c2, Emit(c, g));
    }
  }

  lemma {:induction false} RunCallsOk(c: Client, calls: seq<Call>, busy: set<nat>)
    requires Inv(c, busy)
    ensures Inv(RunCalls(c, calls), busy) && Quiet(c, RunCalls(c, calls))
    decreases |c.script|, 9, |calls|
  {
    hide Inv, Quiet;
    Inert(c, c, busy);
    if calls != [] {
      DoOk(c, calls[0], busy);
      RunCallsOk(Do(c, calls[0]), calls[1..], busy);
      QuietChain(c, Do(c, calls[0]), RunCalls(c, calls));
    }
  }

  lemma {:induction false} DoOk(c: Client, call: Call, busy: set<nat>)
    requires Inv(c, busy)
    ensures Inv(Do(c, call), busy) && Quiet(c, Do(c, call))
    decreases |c.script|, 8, 0
  {
    hide Inv, Quiet;
    match call
    case Ask(mode) => DispatchOk(c, mode, false, busy);
    case AskOnce(mode, creates) =>
      if creates {
        DispatchOk(c, mode, true, busy);
      } else {
        NeverTracked(c, busy);
      }
    case Cancel(id) => FailOk(c, id, busy);
  }

  lemma NeverTracked(c: Client, busy: set<nat>)
    requires Inv(c, busy)
    ensures var t := c.(promises := c.promises + [Future(None, [Untracked])]); Inv(t, busy) && Quiet(c, t)
  {
    hide Of, RequestOk, EndedOnce;
    Unborn(c, busy);
    var t := c.(promises := c.promises + [Future(None, [Untracked])]);
    forall k: nat ensures IdOk(t, k, busy) {
      assert IdOk(c, k, busy);
    }
    forall p: nat | p < |t.promises| ensures FutureOk(t, t.promises[p], p) {
      if p < |c.promises| {
        assert FutureOk(c, c.promises[p], p);
      }
    }
    forall k: nat | k < c.nextId ensures QuietAt(c, t, k) {
      assert IdOk(c, k, busy);
    }
  }

  lemma {:induction false} DispatchOk(c: Client, mode: Mode, tracked: bool, busy: set<nat>)
    requires Inv(c, busy)
    ensures var t := Dispatch(Promised(c, tracked), mode, if tracked then Some(|c.promises|) else None);
            Inv(t, busy) && Quiet(c, t)
    decreases |c.script|, 6, 0
  {
    hide Inv, Quiet, Of;
    var c1 := CreateRequest(Promised(c, tracked), if tracked then Some(|c.promises|) else None);
    CreateOk(c, tracked, busy);
    SendOk(c1, c.nextId, mode, busy);
    QuietChain(c, c1, SendRequest(c1, c.nextId, mode));
  }

  lemma {:induction false} SendOk(c: Client, id: nat, mode: Mode, busy: set<nat>)
    requires Inv(c, busy) && id in c.requests && id in c.sends
    requires c.sends[id] <= c.limit && c.sends[id] <= c.requests[id].toolRounds
    ensures Inv(SendRequest(c, id, mode), busy) && Quiet(c, SendRequest(c, id, mode))
    decreases |c.script|, 5, 0
  {
    hide Inv, Quiet, Of;
    var t := SendRequest(c, id, mode);
    var c1 := Counted(Put(c, id, c.requests[id].(hasUrl := true, mode := mode)), id);
    CountedOk(c, id, mode, busy);
    if mode == Buffered {
      Inert(c1, t, busy);
      QuietChain(c, c1, t);
    } else if c1.streams == [] || !c1.streams[0] {
      var c2 := if c1.streams == [] then c1 else c1.(streams := c1.streams[1..]);
      Inert(c1, c2, busy);
      QuietChain(c, c1, c2);
      FailOk(c2, id, busy);
      QuietChain(c, c2, t);
    } else {
      OpenStreamOk(c1, id, busy);
      QuietChain(c, c1, t);
    }
  }

  lemma CountedOk(c: Client, id: nat, mode: Mode, busy: set<nat>)
    requires Inv(c, busy) && id in c.requests && id in c.sends
    requires c.sends[id] <= c.limit && c.sends[id] <= c.requests[id].toolRounds
    ensures var t := Counted(Put(c, id, c.requests[id].(hasUrl := true, mode := mode)), id); Inv(t, busy) && Quiet(c, t)
  {
    hide Of, EndedOnce;
    Unborn(c, busy);
    var t := Counted(Put(c, id, c.requests[id].(hasUrl := true, mode := mode)), id);
    assert IdOk(c, id, busy);
    assert RequestOk(t.requests[id], Of(c.trace, id));
    hide RequestOk;
    assert IdOk(t, id, busy);
    Elsewhere(c, t, busy, busy, id);
    forall k: nat | k < c.nextId ensures QuietAt(c, t, k) {
      assert IdOk(c, k, busy);
    }
  }

  lemma OpenStreamOk(c: Client, id: nat, busy: set<nat>)
    requires Inv(c, busy) && id in c.requests && c.streams != []
    ensures Inv(OpenStream(c, id), busy) && Quiet(c, OpenStream(c, id))
  {
    hide Of, EndedOnce;
    var r := c.requests[id].(stream := Some(c.nextStream), errorMode := false);
    assert IdOk(c, id, busy);
    assert RequestOk(r, Of(c.trace, id));
    hide RequestOk;
    hide IdOk, FutureOk;
    PutOk(c, id, r, busy);
    Inert(Put(c, id, r), OpenStream(c, id), busy);
    QuietChain(c, Put(c, id, r), OpenStream(c, id));
  }

  lemma {:induction false} FailOk(c: Client, id: nat, busy: set<nat>)
    requires Inv(c, busy)
    ensures Inv(FailRequest(c, id), busy) && Quiet(c, FailRequest(c, id))
    decreases |c.script|, 4, 0
  {
    hide Inv, Quiet;
    Inert(c, c, busy);
    if id in c.requests {
      EndingOk(c, id, Failed(id), busy);
      EmitOk(Removed(c, id), Failed(id), busy + {id});
      FailTail(c, id, Emit(Removed(c, id), Failed(id)), busy);
    }
  }

  lemma FailTail(c: Client, id: nat, m: Client, busy: set<nat>)
    requires Inv(c, busy) && id in c.requests
    requires var c1 := Removed(c, id).(trace := c.trace + [Failed(id)]);
             && Of(c1.trace, id) == Of(c.trace, id) + [Failed(id)]
             && (forall k: nat :: k != id ==> SameAt(c, c1, k))
             && Inv(m, busy + {id}) && Quiet(c1, m)
    ensures var t := SettleOneShot(m, id, Rejected(id)); Inv(t, busy) && Quiet(c, t)
  {
    hide Of;
    Unborn(c, busy);
    var c1 := Removed(c, id).(trace := c.trace + [Failed(id)]);
    assert IdOk(c, id, busy);
    assert QuietAt(c1, m, id);
    var w := Of(m.trace, id);
    assert w[..|w| - 1] == Of(c.trace, id);
    assert EndsFailed(w);
    hide RequestOk;
    SettleOk(m, id, busy);
    var t := SettleOneShot(m, id, Rejected(id));
    forall k: nat | k < c.nextId ensures QuietAt(c, t, k) {
      assert QuietAt(c1, m, k);
      assert k != id ==> SameAt(c, c1, k);
    }
  }

  // ---- text and usage -----------------------------------------------------------------------------------------

  lemma RequestTells(r: Request, w: seq<Signal>, g: Signal)
    requires RequestOk(r, w)
    ensures Whole(w) ==> forall id, text :: g == Chunk(id, text) ==> RequestOk(r.(content := r.content + text), w + [g])
    ensures forall id, text :: g == Accumulated(id, text) && r.earlier <= text && (Whole(w) || text == r.content)
              ==> RequestOk(r.(content := text), w + [g])
    ensures g.Thought? && Whole(w) ==> RequestOk(r, w + [g])
    ensures Whole(w + [g]) <==> !g.Chunk?
  {
    hide Merge, Total;
    assert (w + [g])[..|w|] == w;
    if (g.Chunk? || g.Accumulated? || g.Thought?) && (Whole(w) || (g.Accumulated? && g.text == Shown(w))) {
      RunningMore(w, g);
    }
    hide Running;
  }

  lemma RunningMore(w: seq<Signal>, g: Signal)
    requires Running(w) && (g.Chunk? || g.Accumulated? || g.Thought?)
    requires Whole(w) || (g.Accumulated? && g.text == Shown(w))
    ensures Running(w + [g])
  {
    hide Shown;
    forall i | 0 <= i < |w| && w[i].Chunk?
      ensures (w + [g])[i + 1].Accumulated? && (w + [g])[i + 1].text == Shown((w + [g])[..i + 1])
    {
      assert (w + [g])[..i + 1] == w[..i + 1];
      assert w[..|w|] == w;
    }
  }

  /** Each delta overwrites what it says and leaves the rest. */
  lemma MergeOne(segment: seq<UsageDelta>, d: UsageDelta)
    ensures Merge(segment + [d]) == ApplyTo(d, Merge(segment)) && Merge([]) == NoUsage
  {
    var n, s := |segment|, segment + [d];
    assert seq(n + 1, i requires 0 <= i < n + 1 => s[i].prompt)[..n] == seq(n, i requires 0 <= i < n => segment[i].prompt);
    assert seq(n + 1, i requires 0 <= i < n + 1 => s[i].completion)[..n]
        == seq(n, i requires 0 <= i < n => segment[i].completion);
    assert seq(n + 1, i requires 0 <= i < n + 1 => s[i].cached)[..n] == seq(n, i requires 0 <= i < n => segment[i].cached);
    assert seq(n + 1, i requires 0 <= i < n + 1 => s[i].reasoning)[..n]
        == seq(n, i requires 0 <= i < n => segment[i].reasoning);
  }

  lemma FinalizeTurnOk(r: Request, w: seq<Signal>)
    requires RequestOk(r, w)
    ensures var f := FinalizeTurn(r);
            RequestOk(f, w) && f.segment == [] && f.turnUsage.None?
            && f == r.(usage := f.usage, turnUsage := None, segments := f.segments, segment := [])
  {
    hide Merge, Running, Shown;
    if r.turnUsage.Some? {
      var s := r.segments + [r.segment];
      assert s[..|s| - 1] == r.segments;
      assert Sum(s) == Add(Sum(r.segments), Merge(r.segment));
      assert Add(NoUsage, Merge(r.segment)) == Merge(r.segment);
      assert FinalizeTurn(r).usage == Total(s);
    }
  }

  // ---- the steps of a request ------------------------------------------------------------------------------------

  /** Of the requests in the table, other than those in `due`, every chunk was followed by the accumulated text. */
  ghost predicate Rested(c: Client, due: set<nat>) {
    forall id: nat :: id in c.requests && id !in due ==> Whole(Of(c.trace, id))
  }

  /** What holds between events. */
  ghost predicate Rest(c: Client) { Inv(c, {}) && Rested(c, {}) }

  ghost predicate Kept(c: Client, t: Client) { Rest(t) && Moves(c, t) }

  lemma RestedOver(c: Client, t: Client, due: set<nat>)
    requires Quiet(c, t) && Rested(c, due)
    ensures Rested(t, due)
  {
    hide Of;
    forall id: nat | id in t.requests && id !in due ensures Whole(Of(t.trace, id)) {
      assert id < c.nextId ==> QuietAt(c, t, id);
    }
  }

  lemma QuietKept(c: Client, t: Client)
    requires Rest(c) && Inv(t, {}) && Quiet(c, t)
    ensures Kept(c, t)
  {
    hide Inv, Quiet, Moves, Rested;
    QuietMoves(c, t);
    RestedOver(c, t, {});
  }

  lemma KeptChain(c: Client, m: Client, t: Client)
    requires Kept(c, m) && Kept(m, t)
    ensures Kept(c, t)
  {
    hide Inv, Rested, Moves;
    MovesChain(c, m, t);
  }

  lemma KeptSelf(c: Client)
    requires Rest(c)
    ensures Kept(c, c)
  {
    hide Inv, Rested, Moves, Quiet;
    Inert(c, c, {});
    QuietKept(c, c);
  }

  lemma AtRest(c: Client, id: nat)
    requires Inv(c, {}) && id in c.requests
    ensures id < c.nextId && RequestOk(c.requests[id], Of(c.trace, id)) && id in c.sends && c.sends[id] <= 1 + c.limit
            && c.sends[id] <= 1 + c.requests[id].toolRounds
  {
    hide Of, RequestOk, EndedOnce;
    assert IdOk(c, id, {});
  }

  /** Telling of a request in the table, handlers included. */
  lemma TellOk(c: Client, id: nat, r: Request, g: Signal)
    requires Inv(c, {}) && Rested(c, {id}) && id in c.requests && About(g, id)
    requires RequestOk(r, Of(c.trace, id) + [g]) && r.toolRounds == c.requests[id].toolRounds
    requires c.requests[id].earlier <= r.earlier
    ensures var t := Emit(Put(c, id, r), g);
            && Inv(t, {}) && Moves(c, t) && Rested(t, if g.Chunk? then {id} else {})
            && (id in t.requests ==> t.requests[id].content == r.content && t.requests[id].earlier == r.earlier)
  {
    hide Inv, Rested, RequestOk, Of, Moves, QuietAt;
    var c1 := Put(c, id, r);
    var c2 := c1.(trace := c.trace + [g]);
    AtRest(c, id);
    ToldOk(c, id, r, g, {});
    ToldRests(c, id, r, g);
    EmitOk(c1, g, {});
    QuietMoves(c2, Emit(c1, g));
    RestedOver(c2, Emit(c1, g), if g.Chunk? then {id} else {});
    MovesChain(c, c2, Emit(c1, g));
    assert QuietAt(c2, Emit(c1, g), id);
    if id in Emit(c1, g).requests {
      QuietText(c2, Emit(c1, g), id);
    }
  }

  lemma ToldRests(c: Client, id: nat, r: Request, g: Signal)
    requires Rested(c, {id}) && About(g, id)
    ensures Rested(Put(c, id, r).(trace := c.trace + [g]), if g.Chunk? then {id} else {})
  {
    hide Of;
    forall k: nat ensures Of(c.trace + [g], k) == Of(c.trace, k) + (if About(g, k) then [g] else []) {
      OfTold(c.trace, g, k);
    }
  }

  lemma QuietText(c: Client, t: Client, id: nat)
    requires QuietAt(c, t, id) && id in t.requests
    ensures id in c.requests && t.requests[id].content == c.requests[id].content
            && t.requests[id].earlier == c.requests[id].earlier
  {
    hide Of;
  }

  lemma AddChunkOk(c: Client, id: nat, chunk: string)
    requires Rest(c)
    ensures Kept(c, AddChunk(c, id, chunk))
  {
    hide Kept, Inv, Rested, RequestOk, Of, Emit, Whole;
    KeptSelf(c);
    if id in c.requests {
      var content := c.requests[id].content + chunk;
      var r := c.requests[id].(content := content);
      AtRest(c, id);
      RestedAt(c, id);
      RequestTells(c.requests[id], Of(c.trace, id), Chunk(id, chunk));
      TellOk(c, id, r, Chunk(id, chunk));
      var c1 := Emit(Put(c, id, r), Chunk(id, chunk));
      if id in c1.requests {
        EarlierIs(c.requests[id], Of(c.trace, id));
        assert c.requests[id].content <= content;
        AtRest(c1, id);
        RequestTells(c1.requests[id], Of(c1.trace, id), Accumulated(id, content));
        TellOk(c1, id, c1.requests[id].(content := content), Accumulated(id, content));
        assert Put(c1, id, c1.requests[id].(content := content)) == c1;
        AddedKept(c, c1, Emit(c1, Accumulated(id, content)));
      } else {
        RestedWithout(c1, id);
        AddedKept(c, c1, c1);
      }
    }
  }

  lemma RestedAt(c: Client, id: nat)
    requires Rested(c, {}) && id in c.requests
    ensures Whole(Of(c.trace, id)) && Rested(c, {id})
  {
  }

  lemma RestedWithout(c: Client, id: nat)
    requires Rested(c, {id}) && id !in c.requests
    ensures Rested(c, {})
  {
  }

  lemma AddedKept(c: Client, m: Client, t: Client)
    requires Moves(c, m) && Inv(m, {}) && (t == m || Moves(m, t)) && Inv(t, {}) && Rested(t, {})
    ensures Kept(c, t)
  {
    hide Inv, Moves, Rested;
    if t != m {
      MovesChain(c, m, t);
    }
  }

  lemma KeptInv(c: Client, t: Client)
    requires Kept(c, t)
    ensures Rest(t)
  {
  }

  lemma AccumulatedOk(c: Client, id: nat, text: string)
    requires Rest(c) && id in c.requests && c.requests[id].earlier <= text
    ensures Kept(c, Emit(Put(c, id, c.requests[id].(content := text)), Accumulated(id, text)))
  {
    hide Inv, Rested, Moves, RequestOk, Of, Emit, Whole;
    AtRest(c, id);
    RestedAt(c, id);
    RequestTells(c.requests[id], Of(c.trace, id), Accumulated(id, text));
    TellOk(c, id, c.requests[id].(content := text), Accumulated(id, text));
  }

  lemma EarlierIs(r: Request, w: seq<Signal>)
    requires RequestOk(r, w)
    ensures r.earlier <= r.content && r.content[..Clamp(r.offset, |r.content|)] == r.earlier
  {
    hide Merge, Total, Shown, Running;
  }

  lemma ReplaceRoundTextOk(c: Client, id: nat, text: string)
    requires Rest(c)
    ensures Kept(c, ReplaceRoundText(c, id, text))
  {
    hide Kept, Inv, Rested, RequestOk, Of, Emit;
    KeptSelf(c);
    if id in c.requests {
      AtRest(c, id);
      EarlierIs(c.requests[id], Of(c.trace, id));
      AccumulatedOk(c, id, c.requests[id].earlier + text);
    }
  }

  lemma ApplyUsageOk(c: Client, id: nat, d: UsageDelta)
    requires Rest(c)
    ensures Kept(c, ApplyUsage(c, id, d))
  {
    hide Kept, Inv, Rested, Of, Moves;
    KeptSelf(c);
    if id in c.requests && !IsEmpty(d) {
      var r := c.requests[id];
      AtRest(c, id);
      var base := if r.turnUsage.Some? then r.turnUsage.value else NoUsage;
      var r1 := r.(turnUsage := Some(ApplyTo(d, base)), segment := r.segment + [d]);
      MergeOne(r.segment, d);
      hide Merge, Total, Shown, Running, ApplyTo;
      assert RequestOk(r1, Of(c.trace, id));
      PutKept(c, id, r1);
    }
  }

  lemma PutKept(c: Client, id: nat, r: Request)
    requires Rest(c) && id in c.requests && RequestOk(r, Of(c.trace, id))
    requires c.requests[id].toolRounds <= r.toolRounds && c.requests[id].earlier <= r.earlier
    ensures Kept(c, Put(c, id, r))
  {
    hide Inv, Rested, RequestOk, Of, Moves, Quiet;
    AtRest(c, id);
    PutOk(c, id, r, {});
    RestedPut(c, id, r);
  }

  lemma RestedPut(c: Client, id: nat, r: Request)
    requires Rested(c, {}) && id in c.requests
    ensures Rested(Put(c, id, r), {})
  {
  }

  lemma SetTurnOk(c: Client, id: nat, turn: Turn)
    requires Rest(c)
    ensures Kept(c, SetTurn(c, id, turn))
  {
    hide Kept, Inv, Rested, Of, Merge, Total, Shown, Running;
    KeptSelf(c);
    if id in c.requests {
      AtRest(c, id);
      PutKept(c, id, c.requests[id].(turn := Some(turn)));
    }
  }

  lemma {:induction false} NotifyThoughtsOk(c: Client, id: nat, n: nat)
    requires Rest(c)
    ensures Kept(c, NotifyThoughts(c, id, n))
    decreases n
  {
    hide Kept, Inv, Rested, RequestOk, Of, Emit;
    KeptSelf(c);
    if n > 0 && id in c.requests {
      ThoughtOk(c, id);
      var c1 := Emit(c, Thought(id));
      KeptInv(c, c1);
      NotifyThoughtsOk(c1, id, n - 1);
      KeptChain(c, c1, NotifyThoughts(c1, id, n - 1));
    }
  }

  lemma ThoughtOk(c: Client, id: nat)
    requires Rest(c) && id in c.requests
    ensures Kept(c, Emit(c, Thought(id)))
  {
    hide Inv, Rested, Moves, RequestOk, Of, Emit, Whole;
    AtRest(c, id);
    RestedAt(c, id);
    RequestTells(c.requests[id], Of(c.trace, id), Thought(id));
    TellOk(c, id, c.requests[id], Thought(id));
    assert Put(c, id, c.requests[id]) == c;
  }

  lemma ApplyProgressOk(c: Client, id: nat, item: Item)
    requires Rest(c)
    ensures Kept(c, ApplyProgress(c, id, item))
  {
    hide Kept, Inv, Rested, SetTurn, ReplaceRoundText, NotifyThoughts, AddChunk, ApplyUsage, RoundText;
    var c0 := SetTurn(c, id, item.turn);
    SetTurnOk(c, id, item.turn);
    KeptInv(c, c0);
    var c1 := ApplyTexts(c0, id, item);
    KeptSelf(c0);
    ReplaceRoundTextOk(c0, id, item.fullText);
    ReplaceRoundTextOk(c0, id, item.fallbackText);
    KeptChain(c, c0, c1);
    KeptInv(c, c1);
    var c2 := NotifyThoughts(c1, id, item.thoughts);
    NotifyThoughtsOk(c1, id, item.thoughts);
    KeptChain(c, c1, c2);
    KeptInv(c, c2);
    var c3 := if item.chunk != "" then AddChunk(c2, id, item.chunk) else c2;
    KeptSelf(c2);
    AddChunkOk(c2, id, item.chunk);
    KeptChain(c, c2, c3);
    KeptInv(c, c3);
    if item.usage.Some? {
      ApplyUsageOk(c3, id, item.usage.value);
      KeptChain(c, c3, ApplyUsage(c3, id, item.usage.value));
    }
  }

  // ---- tools and endings ----------------------------------------------------------------------------------------

  lemma FailKept(c: Client, id: nat)
    requires Rest(c)
    ensures Kept(c, FailRequest(c, id))
  {
    hide Inv, Rested, Quiet, Moves, FailRequest;
    FailOk(c, id, {});
    QuietKept(c, FailRequest(c, id));
  }

  /** The turn is closed, and the text so far is not touched again. */
  lemma ContinueOk(c: Client, id: nat)
    requires Rest(c)
    requires id in c.requests ==> id in c.sends && c.sends[id] <= c.limit && c.sends[id] <= c.requests[id].toolRounds
    ensures Kept(c, ContinueRequest(c, id))
  {
    hide Inv, Rested, Moves, Of, Quiet, FailRequest, SendRequest;
    FailKept(c, id);
    if id in c.requests && c.requests[id].hasUrl {
      AtRest(c, id);
      FinalizeTurnOk(c.requests[id], Of(c.trace, id));
      EarlierIs(c.requests[id], Of(c.trace, id));
      var r := FinalizeTurn(c.requests[id]);
      var r1 := r.(offset := |r.content|, earlier := r.content);
      hide FinalizeTurn, Running, Shown, Total, Merge;
      assert RequestOk(r1, Of(c.trace, id));
      PutKept(c, id, r1);
      var c1 := Put(c, id, r1);
      SendOk(c1, id, r.mode, {});
      QuietKept(c1, SendRequest(c1, id, r.mode));
      KeptChain(c, c1, SendRequest(c1, id, r.mode));
    }
  }

  lemma ToolsCompletedOk(c: Client, id: nat, payload: bool)
    requires Rest(c)
    ensures Kept(c, ToolsCompleted(c, id, payload))
  {
    hide Kept, Inv, Rested, Of, FailRequest, ContinueRequest, Running, Shown, Total, Merge;
    KeptSelf(c);
    if id in c.requests {
      AtRest(c, id);
      var r := c.requests[id].(toolRounds := c.requests[id].toolRounds + 1);
      var c1 := Put(c, id, r);
      PutKept(c, id, r);
      KeptInv(c, c1);
      if r.toolRounds > c.limit || r.turn.None? || !payload {
        FailKept(c1, id);
        KeptChain(c, c1, FailRequest(c1, id));
      } else {
        ContinueOk(c1, id);
        KeptChain(c, c1, ContinueRequest(c1, id));
      }
    }
  }

  lemma ExecuteToolsOk(c: Client, id: nat)
    requires Rest(c)
    ensures Kept(c, ExecuteTools(c, id))
  {
    hide Inv, Rested, Emit, Moves, Quiet, ToolsCompleted;
    KeptSelf(c);
    if id in c.requests && c.requests[id].turn.Some? && c.requests[id].turn.value.needsTools
       && c.requests[id].turn.value.hasCalls {
      var tools := if c.rounds == [] then Later else c.rounds[0];
      var c1 := c.(open := c.open + {id}, rounds := if c.rounds == [] then [] else c.rounds[1..]);
      Inert(c, c1, {});
      UnToldOk(c1, ToolSignal(id), {});
      EmitOk(c1, ToolSignal(id), {});
      var c2 := c1.(trace := c1.trace + [ToolSignal(id)]);
      var c3 := Emit(c1, ToolSignal(id));
      QuietChain(c, c1, c2);
      QuietChain(c, c2, c3);
      QuietKept(c, c3);
      if tools.Now? && id in c3.open {
        var c4 := c3.(open := c3.open - {id});
        Inert(c3, c4, {});
        QuietKept(c3, c4);
        ToolsCompletedOk(c4, id, tools.payload);
        KeptChain(c, c3, c4);
        KeptChain(c, c4, ToolsCompleted(c4, id, tools.payload));
      }
    }
  }

  lemma ApplyItemOk(c: Client, id: nat, item: Item)
    requires Rest(c)
    ensures Kept(c, ApplyItem(c, id, item))
  {
    hide Kept, Inv, Rested, ApplyProgress, FailRequest, ExecuteTools;
    var c1 := ApplyProgress(c, id, item);
    ApplyProgressOk(c, id, item);
    KeptInv(c, c1);
    if item.error {
      FailKept(c1, id);
      KeptChain(c, c1, FailRequest(c1, id));
    } else if item.toolsReady {
      ExecuteToolsOk(c1, id);
      KeptChain(c, c1, ExecuteTools(c1, id));
    }
  }

  lemma {:induction false} ApplyItemsOk(c: Client, id: nat, items: seq<Item>)
    requires Rest(c)
    ensures Kept(c, ApplyItems(c, id, items))
    decreases |items|
  {
    hide Kept, Inv, Rested, ApplyItem;
    KeptSelf(c);
    if items != [] && id in c.requests {
      var c1 := ApplyItem(c, id, items[0]);
      ApplyItemOk(c, id, items[0]);
      KeptInv(c, c1);
      ApplyItemsOk(c1, id, items[1..]);
      KeptChain(c, c1, ApplyItems(c1, id, items[1..]));
    }
  }

  lemma {:induction false} CompleteOk(c: Client, id: nat)
    requires Rest(c) && id in c.requests
    ensures Kept(c, CompleteRequest(c, id))
  {
    hide Inv, Rested, Quiet, Moves, Of, RequestOk, SettleOneShot, Emit, FinalizeTurn;
    AtRest(c, id);
    RestedAt(c, id);
    var w := Of(c.trace, id);
    var r := FinalizeTurn(c.requests[id]);
    FinalizeTurnOk(c.requests[id], w);
    var c0 := Put(c, id, r);
    PutKept(c, id, r);
    var fin := Finalized(id, r.usage, r.segments);
    var c1 := Removed(c0, id).(trace := c0.trace + [fin]);
    EndingOk(c0, id, fin, {});
    assert {} + {id} == {id};
    EmitOk(Removed(c0, id), fin, {id});
    var c2 := Emit(Removed(c0, id), fin);
    StaysSaid(c1, c2, id);
    var done := Completed(id, r.content);
    var c3 := c2.(trace := c2.trace + [done]);
    CompletedOk(c2, id, r, w);
    EmitOk(c2, done, {id});
    var c4 := Emit(c2, done);
    StaysSaid(c3, c4, id);
    assert CompleteRequest(c, id) == SettleOneShot(c4, id, Resolved(id));
    SettleOk(c4, id, {});
    CompleteTail(c0, c1, c2, c3, c4, id);
    RestedElse(c0, c1, id);
    RestedOver(c1, c2, {});
    RestedElse(c2, c3, id);
    RestedOver(c3, c4, {});
    RestedElse(c4, CompleteRequest(c, id), id);
    KeptChain(c, c0, CompleteRequest(c, id));
  }

  lemma RestedElse(c: Client, t: Client, id: nat)
    requires Rested(c, {}) && id !in t.requests && forall k: nat :: k != id ==> SameAt(c, t, k)
    ensures Rested(t, {})
  {
    hide Of;
    forall k: nat | k in t.requests ensures Whole(Of(t.trace, k)) {
      assert SameAt(c, t, k);
    }
  }

  lemma StaysSaid(c: Client, t: Client, id: nat)
    requires Quiet(c, t) && id < c.nextId && id !in c.requests
    ensures id !in t.requests && Of(t.trace, id) == Of(c.trace, id) && id < t.nextId
  {
    hide Of;
    assert QuietAt(c, t, id);
  }

  lemma CompletedOk(c: Client, id: nat, r: Request, w: seq<Signal>)
    requires Inv(c, {id}) && id !in c.requests && id < c.nextId && RequestOk(r, w) && Whole(w)
    requires Of(c.trace, id) == w + [Finalized(id, r.usage, r.segments)]
    ensures var v := w + [Finalized(id, r.usage, r.segments), Completed(id, r.content)];
            var t := c.(trace := c.trace + [Completed(id, r.content)]);
            EndedOnce(v) && Of(t.trace, id) == v && Inv(t, {id}) && (forall k: nat :: k != id ==> SameAt(c, t, k))
  {
    hide Of, Merge, Total, Shown;
    var v := w + [Finalized(id, r.usage, r.segments), Completed(id, r.content)];
    var t := c.(trace := c.trace + [Completed(id, r.content)]);
    forall k: nat ensures Of(t.trace, k) == Of(c.trace, k) + (if k == id then [Completed(id, r.content)] else []) {
      OfTold(c.trace, Completed(id, r.content), k);
    }
    assert v[..|v| - 2] == w;
    assert v == (w + [Finalized(id, r.usage, r.segments)]) + [Completed(id, r.content)];
    assert EndsCompleted(v);
    assert !EndedOnce(Of(c.trace, id));
    hide RequestOk, EndedOnce;
    assert IdOk(c, id, {id});
    assert IdOk(t, id, {id});
    Elsewhere(c, t, {id}, {id}, id);
  }

  lemma CompleteTail(c: Client, c1: Client, c2: Client, c3: Client, c4: Client, id: nat)
    requires id in c.requests && id < c.nextId && c1.nextId == c.nextId && c3.nextId == c2.nextId
    requires Quiet(c1, c2) && Quiet(c3, c4) && c1.limit == c.limit && c3.limit == c2.limit
    requires forall k: nat :: k != id ==> SameAt(c, c1, k)
    requires forall k: nat :: k != id ==> SameAt(c2, c3, k)
    requires id !in c4.requests && Of(c.trace, id) <= Of(c4.trace, id) && RequestOk(c.requests[id], Of(c.trace, id))
    requires var w, v := Of(c.trace, id), Of(c4.trace, id); |v| > 0 && v[|v| - 1] == Completed(id, c.requests[id].content)
    ensures var t := SettleOneShot(c4, id, Resolved(id)); Moves(c, t)
  {
    hide Of, Merge, Total, Shown, Running;
    var t := SettleOneShot(c4, id, Resolved(id));
    forall k: nat | k < c.nextId ensures MovesAt(c, t, k) {
      if k != id {
        assert SameAt(c, c1, k) && SameAt(c2, c3, k);
        assert QuietAt(c1, c2, k);
        assert QuietAt(c3, c4, k);
        hide Quiet, SettleOneShot;
        Elsewise(c, c1, c2, c3, c4, t, k);
      }
    }
  }

  lemma Elsewise(c: Client, c1: Client, c2: Client, c3: Client, c4: Client, t: Client, k: nat)
    requires SameAt(c, c1, k) && QuietAt(c1, c2, k) && SameAt(c2, c3, k) && QuietAt(c3, c4, k)
    requires t.requests == c4.requests && t.trace == c4.trace
    ensures MovesAt(c, t, k)
  {
    hide Of;
  }

  lemma StreamFinishedOk(c: Client, id: nat, error: bool, trailing: seq<Item>, drained: seq<Item>)
    requires Rest(c)
    ensures Kept(c, OnStreamFinished(c, id, error, trailing, drained))
  {
    hide Kept, Inv, Rested, FailRequest, ApplyItems, CompleteRequest;
    if error {
      FailKept(c, id);
    } else {
      var c0 := ApplyItems(c, id, trailing);
      ApplyItemsOk(c, id, trailing);
      KeptInv(c, c0);
      var c1 := ApplyItems(c0, id, drained);
      ApplyItemsOk(c0, id, drained);
      KeptChain(c, c0, c1);
      KeptInv(c, c1);
      if id in c1.requests && !(c1.requests[id].turn.Some? && c1.requests[id].turn.value.needsTools) {
        CompleteOk(c1, id);
        KeptChain(c, c1, CompleteRequest(c1, id));
      }
    }
  }

  lemma StepOk(c: Client, e: Event)
    requires Rest(c)
    ensures Kept(c, Step(c, e))
  {
    hide Kept, Inv, Rested, Of, OnStreamFinished, ApplyItems, Do, ToolsCompleted;
    KeptSelf(c);
    match e
    case FromApplication(call) => DoKept(c, call);
    case Headers(stream, success) =>
      if IsCurrent(c, stream) && !success {
        var id := c.handles[stream];
        StreamOnly(c, id, c.requests[id].(errorMode := true));
      }
    case Received(stream, items) =>
      if IsCurrent(c, stream) && !c.requests[c.handles[stream]].errorMode {
        ApplyItemsOk(c, c.handles[stream], items);
      }
    case Finished(stream, failed, trailing, drained) =>
      if IsCurrent(c, stream) {
        var id := c.handles[stream];
        EndOfStreamOk(c, id, c.requests[id].errorMode || failed, trailing, drained);
      }
    case Errored(stream) =>
      if IsCurrent(c, stream) {
        EndOfStreamOk(c, c.handles[stream], true, [], []);
      }
    case Replied(id, failed, items, drained) =>
      if id in c.awaited {
        var c1 := c.(awaited := c.awaited - multiset{id});
        InertKept(c, c1);
        if id in c1.requests {
          StreamFinishedOk(c1, id, failed, items, drained);
          KeptChain(c, c1, OnStreamFinished(c1, id, failed, items, drained));
        }
      }
    case ToolsDone(id, payload) =>
      if id in c.open {
        var c1 := c.(open := c.open - {id});
        InertKept(c, c1);
        ToolsCompletedOk(c1, id, payload);
        KeptChain(c, c1, ToolsCompleted(c1, id, payload));
      }
  }

  lemma DoKept(c: Client, call: Call)
    requires Rest(c)
    ensures Kept(c, Do(c, call))
  {
    hide Inv, Rested, Quiet, Moves, Do;
    DoOk(c, call, {});
    QuietKept(c, Do(c, call));
  }

  lemma InertKept(c: Client, t: Client)
    requires Rest(c)
    requires t.requests == c.requests && t.nextId == c.nextId && t.oneShots == c.oneShots && t.promises == c.promises
    requires t.limit == c.limit && t.sends == c.sends && t.trace == c.trace
    ensures Kept(c, t) && Rest(t)
  {
    hide Inv, Rested, Quiet, Moves;
    Inert(c, t, {});
    QuietKept(c, t);
  }

  lemma StreamOnly(c: Client, id: nat, r: Request)
    requires Rest(c) && id in c.requests
    requires r == c.requests[id].(stream := r.stream, errorMode := r.errorMode)
    ensures Kept(c, Put(c, id, r)) && Rest(Put(c, id, r))
  {
    hide Inv, Rested, Of, Moves, Merge, Total, Shown, Running;
    AtRest(c, id);
    PutKept(c, id, r);
  }

  lemma EndOfStreamOk(c: Client, id: nat, error: bool, trailing: seq<Item>, drained: seq<Item>)
    requires Rest(c) && id in c.requests
    ensures Kept(c, OnStreamFinished(Put(c, id, c.requests[id].(stream := None, errorMode := false)), id, error, trailing,
                                     drained))
  {
    hide Kept, Inv, Rested, OnStreamFinished;
    var r := c.requests[id].(stream := None, errorMode := false);
    StreamOnly(c, id, r);
    StreamFinishedOk(Put(c, id, r), id, error, trailing, drained);
    KeptChain(c, Put(c, id, r), OnStreamFinished(Put(c, id, r), id, error, trailing, drained));
  }

  lemma {:induction false} RunOk(c: Client, events: seq<Event>)
    requires Rest(c)
    ensures Kept(c, Run(c, events))
    decreases |events|
  {
    hide Kept, Inv, Rested, Step;
    KeptSelf(c);
    if events != [] {
      StepOk(c, events[0]);
      KeptInv(c, Step(c, events[0]));
      RunOk(Step(c, events[0]), events[1..]);
      KeptChain(c, Step(c, events[0]), Run(c, events));
    }
  }

  lemma InitialOk(limit: nat, streams: seq<bool>, rounds: seq<Tools>, script: seq<seq<Call>>)
    ensures Rest(Initial(limit, streams, rounds, script))
  {
  }

  /** The states that any run leads to. */
  ghost predicate Reached(c: Client) {
    exists limit, streams, rounds, script, events :: c == Run(Initial(limit, streams, rounds, script), events)
  }

  lemma ReachedOk(c: Client)
    requires Reached(c)
    ensures Rest(c)
  {
    hide Inv, Rested, Run, Initial, Kept;
    var limit, streams, rounds, script, events :| c == Run(Initial(limit, streams, rounds, script), events);
    InitialOk(limit, streams, rounds, script);
    RunOk(Initial(limit, streams, rounds, script), events);
    KeptInv(Initial(limit, streams, rounds, script), c);
  }

  // ---- the theorems -------------------------------------------------------------------------------------------------

  /**
   A request in the table has told progress only, each chunk followed by the accumulated text, and its text
   is what has been shown; any other has told one ending, after its progress, and nothing since. Completion
   comes with the text shown and the usage summed over the turns.
   */
  lemma RequestsEndOnce(c: Client, id: nat)
    requires Reached(c) && id < c.nextId
    ensures var w := Of(c.trace, id);
            if id in c.requests then Running(w) && Whole(w) && c.requests[id].content == Shown(w) else EndedOnce(w)
  {
    hide Inv, Rested, Of, EndedOnce, Running, Shown;
    ReachedOk(c);
    IdOf(c, id);
  }

  lemma IdOf(c: Client, id: nat)
    requires Rest(c) && id < c.nextId
    ensures var w := Of(c.trace, id);
            if id in c.requests then Running(w) && Whole(w) && c.requests[id].content == Shown(w)
            else EndedOnce(w) && id !in c.oneShots
    ensures id in c.sends && c.sends[id] <= 1 + c.limit
  {
    hide Of, EndedOnce, Running, Shown, Merge, Total;
    assert IdOk(c, id, {});
  }

  /** The future of `askOnce` is open as long as its request runs and then has the outcome of the request. */
  lemma FuturesFollow(c: Client, p: nat)
    requires Reached(c) && p < |c.promises|
    ensures var f := c.promises[p];
            if f.request.None? then f.outcomes == [Untracked]
            else
              var id := f.request.value;
              var w := Of(c.trace, id);
              && id < c.nextId
              && (f.outcomes == [] <==> id in c.requests)
              && (f.outcomes == [Resolved(id)] <==> id !in c.requests && EndsCompleted(w))
              && (f.outcomes == [Rejected(id)] <==> id !in c.requests && EndsFailed(w))
              && |f.outcomes| <= 1
  {
    hide Of, Inv, RequestOk;
    ReachedOk(c);
    FutureOf(c, p);
    var f := c.promises[p];
    if f.request.Some? {
      IdOf(c, f.request.value);
    }
  }

  lemma FutureOf(c: Client, p: nat)
    requires Rest(c) && p < |c.promises|
    ensures FutureOk(c, c.promises[p], p)
    ensures var f := c.promises[p]; f.request.Some? && f.outcomes == [] ==> f.request.value in c.requests
  {
    hide Of, EndedOnce, RequestOk;
    assert FutureOk(c, c.promises[p], p);
    if c.promises[p].request.Some? {
      assert IdOk(c, c.promises[p].request.value, {});
    }
  }

  /** One request makes at most one HTTP request more than the limit of tool rounds. */
  lemma ToolLoopIsBounded(c: Client, id: nat)
    requires Reached(c)
    ensures id in c.sends <==> id < c.nextId
    ensures id in c.sends ==> c.sends[id] <= 1 + c.limit
    ensures id in c.requests ==> id in c.sends && c.sends[id] <= 1 + c.requests[id].toolRounds
  {
    hide Inv, Rested, Of, EndedOnce, RequestOk;
    ReachedOk(c);
    IdOkOf(c, id);
  }

  lemma IdOkOf(c: Client, id: nat)
    requires Rest(c)
    ensures IdOk(c, id, {})
  {
  }

  /**
   Whatever happens next: an ended request tells nothing more, and the text of the turns that a running
   one has behind it remains a prefix of its text, also of the one it completes with.
   */
  lemma EarlierTextIsFinal(c: Client, id: nat, events: seq<Event>)
    requires Reached(c) && id < c.nextId
    ensures var t := Run(c, events);
            var v := Of(t.trace, id);
            if id !in c.requests then id !in t.requests && v == Of(c.trace, id)
            else
              var r := c.requests[id];
              && r.earlier <= r.content && Of(c.trace, id) <= v
              && (id in t.requests ==> r.earlier <= t.requests[id].earlier <= t.requests[id].content)
              && (id !in t.requests && EndsCompleted(v) ==> r.earlier <= v[|v| - 1].text)
  {
    hide Inv, Rested, Of, EndedOnce, Run, Kept, RequestOk;
    ReachedOk(c);
    var t := Run(c, events);
    RunOk(c, events);
    KeptAt(c, t, id);
    if id in c.requests {
      AtRest(c, id);
      EarlierIs(c.requests[id], Of(c.trace, id));
    }
    if id in t.requests {
      KeptInv(c, t);
      AtRest(t, id);
      EarlierIs(t.requests[id], Of(t.trace, id));
    }
  }

  lemma KeptAt(c: Client, t: Client, id: nat)
    requires Kept(c, t) && id < c.nextId
    ensures MovesAt(c, t, id)
  {
  }

  /** The usage of a running request: what its finished turns add up to, and what its current turn said last. */
  lemma UsageAddsUp(c: Client, id: nat)
    requires Reached(c) && id in c.requests
    ensures var r := c.requests[id];
            && r.usage == Total(r.segments)
            && r.turnUsage == (if r.segment == [] then None else Some(Merge(r.segment)))
  {
    hide Inv, Rested, Of, Merge, Total, Running, Shown;
    ReachedOk(c);
    AtRest(c, id);
  }
}
