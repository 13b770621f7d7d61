/**
 Every posted JSON-RPC request ends in exactly one way, over all orders of inputs and all calls
 the application makes from inside the transport's signals.
 */
module McpExchanges {
  import opened ByteStrings
  import opened Options
  import opened Sse
  import opened SseResume
  import opened McpTransport

  // ---- what happened to one exchange ------------------------------------------------

  function About(g: Signal): Option<nat> {
    match g
    case Reply(x, _, _, _) => Some(x)
    case Relayed(x, _) => Some(x)
    case SendFailed(x) => Some(x)
    case Unsent(_) => None
    case ListenMessage(_) => None
    case ErrorOccurred(about) => about
    case Closed => None
    case Abandoned(x) => Some(x)
    case Arrived(x, _) => Some(x)
    case Reconnected(x) => Some(x)
    case Started(_) => None
    case Posted(_, _) => None
    case Negotiated(_, _) => None
    case RetryPlanned(_, _) => None
    case RetryArmed(_) => None
    case ListenConnected(_) => None
    case ListenArrived(_) => None
    case ListenSettled => None
    case ListeningStopped => None
  }

  /** The part of a trace that is about exchange `x`. */
  function History(t: seq<Signal>, x: nat): seq<Signal>
    decreases |t|
  {
    if t == [] then []
    else
      var h := History(t[..|t| - 1], x);
      if About(t[|t| - 1]) == Some(x) then h + [t[|t| - 1]] else h
  }

  lemma HistorySnoc(t: seq<Signal>, g: Signal, x: nat)
    ensures History(t + [g], x) == if About(g) == Some(x) then History(t, x) + [g] else History(t, x)
  {
    assert (t + [g])[..|t|] == t;
  }

  predicate IsFailure(g: Signal) { g.SendFailed? || g.Relayed? }

  predicate IsAnswer(g: Signal) { g.Reply? && g.answering }

  function Failures(h: seq<Signal>): nat
    decreases |h|
  {
    if h == [] then 0
    else Failures(h[..|h| - 1]) + (if IsFailure(h[|h| - 1]) then 1 else 0)
  }

  ghost predicate Answered(h: seq<Signal>) { exists g :: g in h && IsAnswer(g) }

  ghost predicate WasAbandoned(h: seq<Signal>) { exists g :: g in h && g.Abandoned? }

  /** Neither reported as failed nor dropped by the caller. */
  ghost predicate Unended(h: seq<Signal>) { Failures(h) == 0 && !WasAbandoned(h) }

  function NextReader(r: Reader, g: Signal): Reader {
    match g
    case Arrived(_, chunk) => ReadChunk(DEFAULT_MAX_BUFFER_BYTES, r, chunk).0
    case Reconnected(_) => Resume(r)
    case _ => r
  }

  /** The reader that the chunks and reconnections of a history lead to. */
  function ReaderOf(h: seq<Signal>): Reader
    decreases |h|
  {
    if h == [] then FreshReader else NextReader(ReaderOf(h[..|h| - 1]), h[|h| - 1])
  }

  /** Every reconnection of a history had a cursor to resume from. */
  predicate ResumesKnown(h: seq<Signal>)
    decreases |h|
  {
    h == []
    || (ResumesKnown(h[..|h| - 1]) && (h[|h| - 1].Reconnected? ==> ReaderOf(h[..|h| - 1]).cursor != []))
  }

  lemma ReaderSnoc(h: seq<Signal>, g: Signal)
    ensures ReaderOf(h + [g]) == NextReader(ReaderOf(h), g)
    ensures ResumesKnown(h + [g]) <==> ResumesKnown(h) && (g.Reconnected? ==> ReaderOf(h).cursor != [])
  {
    assert (h + [g])[..|h|] == h;
  }

  lemma FailuresSnoc(h: seq<Signal>, g: Signal)
    ensures Failures(h + [g]) == Failures(h) + (if IsFailure(g) then 1 else 0)
    ensures Answered(h + [g]) <==> Answered(h) || IsAnswer(g)
    ensures WasAbandoned(h + [g]) <==> WasAbandoned(h) || g.Abandoned?
    ensures !g.Arrived? && !g.Reconnected? ==> ReaderOf(h + [g]) == ReaderOf(h)
    ensures !g.Reconnected? ==> (ResumesKnown(h + [g]) <==> ResumesKnown(h))
  {
    ReaderSnoc(h, g);
    assert (h + [g])[..|h|] == h;
    assert forall k :: k in h + [g] <==> k in h || k == g;
    if Answered(h) {
      var k :| k in h && IsAnswer(k);
      assert k in h + [g];
    }
    if IsAnswer(g) {
      assert g in h + [g];
    }
    if WasAbandoned(h) {
      var k :| k in h && k.Abandoned?;
      assert k in h + [g];
    }
    if g.Abandoned? {
      assert g in h + [g];
    }
  }

  // ---- the invariant ------------------------------------------------------------------

  /** Replies count as answers exactly when they answer the request, and a relayed error carries its id. */
  ghost predicate Fitting(m: Message, h: seq<Signal>) {
    forall i :: 0 <= i < |h| ==>
      && (h[i].Reply? ==> (h[i].answering <==> Answers(h[i].message, m)))
      && (h[i].Relayed? ==> h[i].message.id == m.id)
  }

  lemma FittingMore(m: Message, h: seq<Signal>, g: Signal)
    requires Fitting(m, h) && (g.Reply? ==> (g.answering <==> Answers(g.message, m))) && (g.Relayed? ==> g.message.id == m.id)
    ensures Fitting(m, h + [g])
  {
    hide Answers;
  }

  /** How an exchange's record fits what happened to it. */
  ghost predicate Consistent(e: Exchange, h: seq<Signal>) {
    && Failures(h) <= 1
    && (Failures(h) == 1 ==> e.done && !e.answered && IsRequest(e.message) && !WasAbandoned(h))
    && (Answered(h) ==> e.answered)
    && (WasAbandoned(h) ==> e.done)
    && (e.done ==> e.resumeTimer.None?)
    && INITIAL_BACKOFF_MS <= e.backoffMs <= MAX_BACKOFF_MS
    && (e.resumeTimer.Some? ==> e.stream.None? && !e.answered && e.resumeTimer.value >= INITIAL_BACKOFF_MS)
    && (!e.done && e.answered ==> IsSuccess(e.response))
    && ResumesKnown(h) && e.reader == ReaderOf(h) && (e.resumeTimer.Some? ==> e.reader.cursor != [])
    && Fitting(e.message, h)
  }

  /** A finished request was answered, or its failure was reported, or the caller dropped it. */
  ghost predicate Ended(e: Exchange, h: seq<Signal>) {
    e.done && IsRequest(e.message) ==> e.answered || Failures(h) == 1 || WasAbandoned(h)
  }

  /** An unfinished exchange still listens to its stream, or waits for its resume timer. */
  ghost predicate Live(s: State, x: nat)
    requires x in s.records
  {
    var e := s.records[x];
    !e.done ==>
      if e.stream.None? then e.resumeTimer.Some?
      else
        && e.stream.value in s.slots && s.slots[e.stream.value] == ForExchange(x)
        && (e.stream.value !in s.headed ==> !IsSuccess(e.response))
  }

  /**
   `open` are finished exchanges whose ending is still to be reported by the running handler,
   `late` those whose answering reply is recorded but not emitted yet.
   */
  ghost predicate Ok(s: State, x: nat, open: set<nat>, late: set<nat>)
    requires x in s.records
  {
    var e, h := s.records[x], History(s.trace, x);
    && Consistent(e, h)
    && (x !in open ==> Ended(e, h))
    && (x !in late ==> (e.answered ==> Answered(h)))
    && (x in s.table <==> !e.done)
    && Live(s, x)
  }

  ghost predicate NoRepeats(xs: seq<nat>) { forall i, j :: 0 <= i < j < |xs| ==> xs[i] != xs[j] }

  ghost predicate SlotsOk(s: State) {
    && (forall st :: st in s.slots ==> st < s.nextStream)
    && (forall st :: st in s.headed ==> st < s.nextStream)
    && (forall st :: st in s.slots && s.slots[st].ForExchange? ==>
          && s.slots[st].x in s.records && !s.records[s.slots[st].x].done
          && s.records[s.slots[st].x].stream == Some(st))
    && (forall st :: st in s.slots && s.slots[st].ForListen? ==> s.listen.stream == Some(st))
    && (s.listen.stream.Some? ==> s.listen.stream.value in s.slots && s.slots[s.listen.stream.value].ForListen?)
  }

  ghost predicate TableOk(s: State) {
    && (forall x :: x in s.records <==> 0 <= x < |s.records|)
    && NoRepeats(s.table)
    && (forall x :: x in s.table ==> x in s.records)
    && (forall x: nat :: x >= |s.records| ==> History(s.trace, x) == [])
  }

  ghost predicate Inv(s: State, open: set<nat>, late: set<nat>) {
    && TableOk(s) && SlotsOk(s)
    && forall x :: x in s.records ==> Ok(s, x, open, late)
  }

  /** What may happen to the exchanges outside `busy`: they may be dropped, and the finished ones rest. */
  ghost predicate Evolved(e: Exchange, e': Exchange) { e' == e || (!e.done && e' == Dropped(e)) }

  ghost predicate Keeps(s: State, r: State, busy: set<nat>) {
    && |s.records| <= |r.records| && s.nextStream <= r.nextStream && s.headed <= r.headed
    && forall x :: x in s.records ==>
         && x in r.records && r.records[x].message == s.records[x].message
         && (x !in busy ==>
               && Evolved(s.records[x], r.records[x])
               && (s.records[x].done ==> History(r.trace, x) == History(s.trace, x)))
  }

  lemma KeepsTransitive(a: State, b: State, c: State, busy: set<nat>)
    requires Keeps(a, b, busy) && Keeps(b, c, busy)
    ensures Keeps(a, c, busy)
  {
    hide History;
  }

  // ---- elementary updates ---------------------------------------------------------------

  lemma NoteOther(s: State, g: Signal, open: set<nat>, late: set<nat>)
    requires Inv(s, open, late) && About(g).None?
    ensures Inv(Note(s, g), open, late) && Keeps(s, Note(s, g), {})
  {
    hide Consistent, Ended, Live, History, Answered, SlotsOk;
    SlotsSame(s, Note(s, g));
    forall x ensures History(Note(s, g).trace, x) == History(s.trace, x) {
      HistorySnoc(s.trace, g, x);
    }
    forall x | x in s.records ensures Ok(Note(s, g), x, open, late) {
      assert Ok(s, x, open, late);
      LiveSame(s, Note(s, g), x);
    }
  }

  lemma LiveSame(s: State, r: State, x: nat)
    requires x in s.records && x in r.records && Live(s, x)
    requires s.records[x] == r.records[x] && s.headed == r.headed
    requires !s.records[x].done && s.records[x].stream.Some? && s.records[x].stream.value in s.slots ==>
               s.records[x].stream.value in r.slots
               && r.slots[s.records[x].stream.value] == s.slots[s.records[x].stream.value]
    ensures Live(r, x)
  {
  }

  lemma SlotsSame(s: State, r: State)
    requires SlotsOk(s)
    requires s.records == r.records && s.headed == r.headed && s.slots == r.slots
    requires s.nextStream == r.nextStream && s.listen.stream == r.listen.stream
    ensures SlotsOk(r)
  {
  }

  /** A signal about `x`: only its own consistency has to be looked at again. */
  lemma NoteAbout(s: State, g: Signal, x: nat, open: set<nat>, late: set<nat>, open': set<nat>, late': set<nat>)
    requires Inv(s, open, late) && About(g) == Some(x) && x in s.records
    requires open <= open' + {x} && late <= late' + {x}
    requires var e, h := s.records[x], History(s.trace, x) + [g];
             Consistent(e, h) && (x !in open' ==> Ended(e, h)) && (x !in late' ==> (e.answered ==> Answered(h)))
    ensures Inv(Note(s, g), open', late') && Keeps(s, Note(s, g), {x})
    ensures History(Note(s, g).trace, x) == History(s.trace, x) + [g]
  {
    hide Consistent, Ended, Live, History, Answered, SlotsOk;
    SlotsSame(s, Note(s, g));
    forall y ensures History(Note(s, g).trace, y)
                  == if y == x then History(s.trace, x) + [g] else History(s.trace, y) {
      HistorySnoc(s.trace, g, y);
    }
    forall y | y in s.records ensures Ok(Note(s, g), y, open', late') {
      assert Ok(s, y, open, late);
      LiveSame(s, Note(s, g), y);
    }
  }

  /** Fields the exchanges do not depend on. */
  lemma OtherFields(s: State, r: State, open: set<nat>, late: set<nat>)
    requires Inv(s, open, late)
    requires s.records == r.records && s.table == r.table && s.slots == r.slots && s.headed == r.headed
    requires s.nextStream <= r.nextStream && s.listen.stream == r.listen.stream && s.trace == r.trace
    ensures Inv(r, open, late) && Keeps(s, r, {})
  {
    hide Consistent, Ended, History, Answered;
    forall x | x in s.records ensures Ok(r, x, open, late) {
      assert Ok(s, x, open, late);
      LiveSame(s, r, x);
    }
  }

  lemma Widen(s: State, open: set<nat>, late: set<nat>, open': set<nat>, late': set<nat>)
    requires Inv(s, open, late) && open <= open' && late <= late'
    ensures Inv(s, open', late')
  {
    hide Consistent, Ended, History, Answered, Live;
    forall x | x in s.records ensures Ok(s, x, open', late') {
      assert Ok(s, x, open, late);
    }
  }

  lemma {:induction false} RemoveFrom(table: seq<nat>, x: nat)
    requires NoRepeats(table)
    ensures NoRepeats(Remove(table, x))
    ensures forall y :: y in Remove(table, x) <==> y in table && y != x
  {
    if table != [] {
      assert NoRepeats(table[1..]);
      RemoveFrom(table[1..], x);
      if table[0] != x {
        var rest := Remove(table[1..], x);
        assert forall j :: 0 <= j < |rest| ==> rest[j] in rest;
      }
      assert forall y :: y in table <==> y == table[0] || y in table[1..];
      assert forall j :: 1 <= j < |table| ==> table[j] != table[0];
    }
  }

  /** Replacing the record of `x`, perhaps together with its stream's connection. */
  lemma UpdateExchange(s: State, r: State, x: nat, open: set<nat>, late: set<nat>, open': set<nat>, late': set<nat>)
    requires Inv(s, open, late) && x in s.records
    requires open <= open' + {x} && late <= late' + {x}
    requires r.records.Keys == s.records.Keys && NoRepeats(r.table)
    requires r.trace == s.trace && s.headed <= r.headed && s.nextStream <= r.nextStream
    requires r.records[x].message == s.records[x].message
    requires forall y :: y in s.records && y != x ==> r.records[y] == s.records[y] && (y in r.table <==> y in s.table)
    requires forall y :: y in r.table ==> y in s.table || y == x
    requires forall st :: st in s.slots && s.slots[st] != ForExchange(x)
               ==> st in r.slots && r.slots[st] == s.slots[st] && (st in r.headed <==> st in s.headed)
    requires SlotsOk(r) && Ok(r, x, open', late')
    ensures Inv(r, open', late') && Keeps(s, r, {x})
  {
    hide Consistent, Ended, History, Answered, SlotsOk;
    assert |r.records.Keys| == |s.records.Keys|;
    forall y | y in r.records ensures Ok(r, y, open', late') {
      if y != x {
        assert Ok(s, y, open, late);
      }
    }
  }

  /** The same for an update that is noted in the history of `x`. */
  lemma UpdateNoting(s: State, r: State, x: nat, g: Signal)
    requires Inv(s, {}, {}) && x in s.records && About(g) == Some(x) && !g.Abandoned?
    requires x in r.records && r == s.(records := s.records[x := r.records[x]], slots := r.slots, trace := s.trace + [g])
    requires r.records[x].message == s.records[x].message && r.records[x].done == s.records[x].done
    requires forall st :: st in s.slots && s.slots[st] != ForExchange(x) ==> st in r.slots && r.slots[st] == s.slots[st]
    requires SlotsOk(r) && Live(r, x)
    requires var h := History(s.trace, x) + [g];
             && Consistent(r.records[x], h) && Ended(r.records[x], h)
             && (r.records[x].answered ==> Answered(h))
    ensures Inv(r, {}, {}) && Keeps(s, r, {x})
    ensures History(r.trace, x) == History(s.trace, x) + [g]
  {
    hide Consistent, Ended, History, Answered, SlotsOk, Live;
    assert r.records.Keys == s.records.Keys;
    assert |r.records.Keys| == |s.records.Keys|;
    forall y ensures History(r.trace, y) == if y == x then History(s.trace, x) + [g] else History(s.trace, y) {
      HistorySnoc(s.trace, g, y);
    }
    hide About;
    forall y | y in r.records ensures Ok(r, y, {}, {}) {
      assert Ok(s, y, {}, {});
      if y != x {
        OtherSlotSame(s, y, x);
        LiveSame(s, r, y);
      }
    }
  }

  lemma OtherSlotSame(s: State, y: nat, x: nat)
    requires y in s.records && Live(s, y) && y != x
    ensures !s.records[y].done && s.records[y].stream.Some? ==>
              s.records[y].stream.value in s.slots && s.slots[s.records[y].stream.value] != ForExchange(x)
  {
  }

  lemma ReleaseOk(s: State, x: nat, open: set<nat>, late: set<nat>)
    requires Inv(s, open, late) && x in s.records && !s.records[x].done
    ensures Inv(Release(s, x), open + {x}, late) && Keeps(s, Release(s, x), {})
    ensures x in Release(s, x).records && Release(s, x).records[x] == Dropped(s.records[x]) && Release(s, x).trace == s.trace
    ensures Unended(History(s.trace, x))
  {
    hide History, Failures, ReaderOf, Answered, WasAbandoned, SlotsOk, Live;
    assert Ok(s, x, open, late);
    var r := Release(s, x);
    RemoveFrom(s.table, x);
    ReleaseSlots(s, x);
    DroppedConsistent(s.records[x], History(s.trace, x));
    DoneIsLive(r, x);
    hide Consistent, Ended, Unended;
    UpdateExchange(s, r, x, open, late, open + {x}, late);
  }

  lemma DoneIsLive(s: State, x: nat)
    requires x in s.records && s.records[x].done
    ensures Live(s, x)
  {
  }

  lemma DroppedConsistent(e: Exchange, h: seq<Signal>)
    requires Consistent(e, h) && !e.done
    ensures Consistent(Dropped(e), h) && Unended(h)
  {
  }

  lemma ReleaseSlots(s: State, x: nat)
    requires SlotsOk(s) && x in s.records && !s.records[x].done && Live(s, x)
    ensures SlotsOk(Release(s, x))
    ensures forall st :: st in s.slots && s.slots[st] != ForExchange(x)
              ==> st in Release(s, x).slots && Release(s, x).slots[st] == s.slots[st]
  {
    hide Remove;
  }

  // ---- dropping all of them --------------------------------------------------------------

  lemma {:induction false} DropAllEffect(s: State, xs: seq<nat>)
    ensures var r := DropAll(s, xs);
      && r.records.Keys == s.records.Keys
      && (forall x :: x in s.records ==> r.records[x] == if x in xs then Dropped(s.records[x]) else s.records[x])
      && (forall st :: st in r.slots ==> st in s.slots && r.slots[st] == s.slots[st])
      && (forall st :: st in s.slots && st !in r.slots ==>
            exists x :: x in xs && x in s.records && s.records[x].stream == Some(st))
      && (forall x :: x in xs && x in s.records && s.records[x].stream.Some? ==> s.records[x].stream.value !in r.slots)
    decreases |xs|
  {
    if xs != [] {
      var x, rest := xs[0], xs[1..];
      var s1 := if x in s.records then Drop(s, x) else s;
      DropEffect(s, x);
      DropAllEffect(s1, rest);
      assert forall y :: y in xs <==> y == x || y in rest;
      var r := DropAll(s, xs);
      assert r == DropAll(s1, rest);
      hide *;
      forall st | st in s.slots && st !in r.slots
        ensures exists y :: y in xs && y in s.records && s.records[y].stream == Some(st)
      {
        if st in s1.slots {
          var y :| y in rest && y in s1.records && s1.records[y].stream == Some(st);
          assert y in xs && s.records[y].stream == Some(st);
        } else {
          assert x in xs && s.records[x].stream == Some(st);
        }
      }
    }
  }

  lemma DropEffect(s: State, x: nat)
    ensures var r := if x in s.records then Drop(s, x) else s;
      && r.records.Keys == s.records.Keys
      && (forall y :: y in s.records ==> r.records[y].stream == s.records[y].stream
                                         && r.records[y] == if y == x then Dropped(s.records[y]) else s.records[y])
      && (forall st :: st in s.slots ==> (st in r.slots <==> !(x in s.records && s.records[x].stream == Some(st))))
      && (forall st :: st in r.slots ==> st in s.slots && r.slots[st] == s.slots[st])
    ensures forall e: Exchange :: Dropped(e).stream == e.stream && Dropped(Dropped(e)) == Dropped(e)
  {
  }

  lemma AbandonExchangesOk(s: State, open: set<nat>, late: set<nat>)
    requires Inv(s, open, late)
    ensures Inv(AbandonExchanges(s), open + (set x | x in s.table), late)
    ensures Keeps(s, AbandonExchanges(s), {}) && NoRepeats(s.table)
    ensures forall x :: x in s.table ==>
              && x in s.records && Unended(History(s.trace, x))
              && AbandonExchanges(s).records[x] == Dropped(s.records[x])
  {
    hide History, Failures, Answered, WasAbandoned, DropAll, Consistent, Ended, Live, SlotsOk;
    var r := AbandonExchanges(s);
    DropAllEffect(s.(table := []), s.table);
    assert |r.records.Keys| == |s.records.Keys|;
    AbandonSlots(s, r, open, late);
    forall x | x in s.records
      ensures Ok(r, x, open + (set y | y in s.table), late) && (x in s.table ==> Unended(History(s.trace, x)))
    {
      assert Ok(s, x, open, late);
      AbandonedOk(s, r, x, open, late);
    }
  }

  lemma AbandonedOk(s: State, r: State, x: nat, open: set<nat>, late: set<nat>)
    requires x in s.records && x in r.records && Ok(s, x, open, late)
    requires r.records[x] == if x in s.table then Dropped(s.records[x]) else s.records[x]
    requires r.table == [] && r.trace == s.trace
    ensures Ok(r, x, open + (set y | y in s.table), late)
    ensures x in s.table ==> Unended(History(s.trace, x))
  {
    hide History, Answered, WasAbandoned, ReaderOf;
  }

  lemma AbandonSlots(s: State, r: State, open: set<nat>, late: set<nat>)
    requires Inv(s, open, late) && r == AbandonExchanges(s)
    ensures SlotsOk(r)
  {
    DropAllEffect(s.(table := []), s.table);
    hide History, Failures, Answered, WasAbandoned, DropAll, Consistent, Ended;
    forall st | st in s.slots && s.slots[st].ForExchange? ensures st !in r.slots {
      assert Ok(s, s.slots[st].x, open, late);
    }
    if s.listen.stream.Some? {
      var st := s.listen.stream.value;
      forall x | x in s.table && x in s.records ensures s.records[x].stream != Some(st) {
        assert Ok(s, x, open, late);
      }
    }
  }

  lemma NewExchangeOk(s: State, m: Message, stream: nat, open: set<nat>, late: set<nat>)
    requires Inv(s, open, late) && stream < s.nextStream && stream !in s.slots && stream !in s.headed
    requires s.listen.stream != Some(stream)
    ensures var r := Attach(AddExchange(s, m), |s.records|, stream);
            Inv(r, open, late) && Keeps(s, r, {})
  {
    hide Inv, Keeps, History;
    var x := |s.records|;
    var r := Attach(AddExchange(s, m), x, stream);
    var e := r.records[x];
    var r0 := s.(records := s.records[x := e], table := s.table + [x], slots := s.slots[stream := ForExchange(x)]);
    assert r == Note(r0, Posted(x, s.open));
    NewIsConsistent(e);
    hide Attach, AddExchange, Consistent;
    NewRecordOk(s, r0, x, e, stream, open, late);
    NoteOther(r0, Posted(x, s.open), open, late);
    KeepsTransitive(s, r0, r, {});
  }

  lemma NewRecordOk(s: State, r: State, x: nat, e: Exchange, stream: nat, open: set<nat>, late: set<nat>)
    requires Inv(s, open, late) && stream < s.nextStream && stream !in s.slots && stream !in s.headed
    requires s.listen.stream != Some(stream) && x == |s.records|
    requires r == s.(records := s.records[x := e], table := s.table + [x], slots := s.slots[stream := ForExchange(x)])
    requires !e.done && !e.answered && e.stream == Some(stream) && !IsSuccess(e.response) && Consistent(e, [])
    ensures Inv(r, open, late) && Keeps(s, r, {})
  {
    hide Consistent, Ended, Live, History, Answered, SlotsOk, IsSuccess;
    NewTable(s, r, x, e, stream);
    NewSlots(s, r, x, e, stream);
    NewIsOk(r, x, open, late);
    forall y | y in s.records ensures Ok(r, y, open, late) {
      OldIsOk(s, r, y, open, late);
    }
    hide Ok, TableOk;
  }

  lemma OldIsOk(s: State, r: State, y: nat, open: set<nat>, late: set<nat>)
    requires y in s.records && y in r.records && Ok(s, y, open, late)
    requires s.records[y] == r.records[y] && s.headed == r.headed && s.trace == r.trace
    requires y in s.table <==> y in r.table
    requires forall st :: st in s.slots ==> st in r.slots && r.slots[st] == s.slots[st]
    ensures Ok(r, y, open, late)
  {
    hide Consistent, Ended, History, Answered;
    LiveSame(s, r, y);
  }

  lemma NewTable(s: State, r: State, x: nat, e: Exchange, stream: nat)
    requires TableOk(s) && stream !in s.slots && x == |s.records|
    requires r == s.(records := s.records[x := e], table := s.table + [x], slots := s.slots[stream := ForExchange(x)])
    ensures TableOk(r) && r.records.Keys == s.records.Keys + {x} && |r.records| == |s.records| + 1
    ensures forall y :: y in s.records ==> r.records[y] == s.records[y] && (y in s.table <==> y in r.table)
    ensures x in r.table && History(r.trace, x) == []
    ensures forall st :: st in s.slots ==> st in r.slots && r.slots[st] == s.slots[st]
  {
    hide History, NoRepeats;
    NewKeys(s.records, x, e);
    NewEntry(s.table, x);
  }

  lemma NewKeys(records: map<nat, Exchange>, x: nat, e: Exchange)
    requires x == |records| && forall y :: y in records <==> 0 <= y < |records|
    ensures var r := records[x := e];
            && r.Keys == records.Keys + {x} && |r| == |records| + 1
            && (forall y :: y in r <==> 0 <= y < |r|)
            && (forall y :: y in records ==> r[y] == records[y])
  {
    assert |records.Keys + {x}| == |records.Keys| + 1;
    assert records[x := e].Keys == records.Keys + {x};
  }

  lemma NewEntry(table: seq<nat>, x: nat)
    requires NoRepeats(table) && x !in table
    ensures NoRepeats(table + [x]) && x in table + [x]
    ensures forall y :: y in table + [x] <==> y in table || y == x
  {
  }

  lemma NewIsOk(r: State, x: nat, open: set<nat>, late: set<nat>)
    requires x in r.records && x in r.table && Live(r, x)
    requires !r.records[x].done && !r.records[x].answered && Consistent(r.records[x], [])
    requires History(r.trace, x) == []
    ensures Ok(r, x, open, late)
  {
  }

  lemma NewIsConsistent(e: Exchange)
    requires !e.done && !e.answered && e.resumeTimer.None? && e.backoffMs == INITIAL_BACKOFF_MS
    requires e.reader == FreshReader
    ensures Consistent(e, [])
  {
  }

  lemma NewSlots(s: State, r: State, x: nat, e: Exchange, stream: nat)
    requires TableOk(s) && SlotsOk(s) && x == |s.records|
    requires stream < s.nextStream && stream !in s.slots && s.listen.stream != Some(stream) && stream !in s.headed
    requires r == s.(records := s.records[x := e], table := s.table + [x], slots := s.slots[stream := ForExchange(x)])
    requires !e.done && e.stream == Some(stream) && !IsSuccess(e.response)
    ensures SlotsOk(r) && Live(r, x)
  {
    hide NoRepeats, History, IsSuccess;
  }

  // ---- whatever the application calls from inside a signal --------------------------------

  lemma {:induction false} EmitOk(s: State, g: Signal, open: set<nat>, late: set<nat>)
    requires Inv(Note(s, g), open, late)
    ensures Inv(Emit(s, g), open, late) && Keeps(Note(s, g), Emit(s, g), {})
    decreases |s.script|, 0
  {
    hide Inv, Keeps, RunCalls;
    var s1 := Note(s, g);
    if s1.script == [] {
      KeepsSelf(s1);
    } else {
      var s2 := s1.(script := s1.script[1..]);
      OtherFieldsOf(s1, s2, open, late);
      RunCallsOk(s2, s1.script[0], open, late);
      KeepsTransitive(s1, s2, Emit(s, g), {});
    }
  }

  lemma KeepsSelf(s: State)
    ensures Keeps(s, s, {})
  {
  }

  /** `OtherFields` for callers that keep the invariant folded. */
  lemma OtherFieldsOf(s: State, r: State, open: set<nat>, late: set<nat>)
    requires Inv(s, open, late)
    requires r == s.(open := r.open, http := r.http, sessionId := r.sessionId, protocolVersion := r.protocolVersion,
                     listen := r.listen, outcomes := r.outcomes, script := r.script)
    requires r.listen.stream == s.listen.stream
    ensures Inv(r, open, late) && Keeps(s, r, {})
  {
    OtherFields(s, r, open, late);
  }

  lemma {:induction false} RunCallsOk(s: State, calls: seq<Call>, open: set<nat>, late: set<nat>)
    requires Inv(s, open, late)
    ensures Inv(RunCalls(s, calls), open, late) && Keeps(s, RunCalls(s, calls), {})
    decreases |s.script|, 9, |calls|
  {
    hide Inv, Keeps, Do;
    if calls == [] {
      KeepsSelf(s);
    } else {
      DoOk(s, calls[0], open, late);
      RunCallsOk(Do(s, calls[0]), calls[1..], open, late);
      KeepsTransitive(s, Do(s, calls[0]), RunCalls(s, calls), {});
    }
  }

  lemma {:induction false} DoOk(s: State, call: Call, open: set<nat>, late: set<nat>)
    requires Inv(s, open, late)
    ensures Inv(Do(s, call), open, late) && Keeps(s, Do(s, call), {})
    decreases |s.script|, 8
  {
    hide Inv, Keeps, Post, DoStop, AbandonExchange;
    match call
    case Start =>
      if s.open {
        KeepsSelf(s);
      } else {
        OtherFieldsOf(s, s.(open := true), open, late);
        NoteOther(s.(open := true), Started(s.protocolVersion != ""), open, late);
        KeepsTransitive(s, s.(open := true), Do(s, call), {});
      }
    case Stop => DoStopOk(s, open, late);
    case Send(m) =>
      if s.open {
        PostOk(s, m, open, late);
      } else {
        SignalOk(s, ErrorOccurred(None), open, late);
      }
    case Abandon(id) => AbandonExchangeOk(s, id, open, late);
  }

  lemma {:induction false} SignalOk(s: State, g: Signal, open: set<nat>, late: set<nat>)
    requires Inv(s, open, late) && About(g).None?
    ensures Inv(Emit(s, g), open, late) && Keeps(s, Emit(s, g), {})
    decreases |s.script|, 1
  {
    NoteOther(s, g, open, late);
    EmitOk(s, g, open, late);
    hide Inv, Keeps, Emit;
    KeepsTransitive(s, Note(s, g), Emit(s, g), {});
  }

  lemma {:induction false} FindRequestFinds(s: State, xs: seq<nat>, id: string)
    ensures var x := FindRequest(s, xs, id); x.Some? ==> x.value in xs && x.value in s.records
    decreases |xs|
  {
    if xs != [] {
      FindRequestFinds(s, xs[1..], id);
    }
  }

  lemma AbandonExchangeOk(s: State, id: string, open: set<nat>, late: set<nat>)
    requires Inv(s, open, late)
    ensures Inv(AbandonExchange(s, id), open, late) && Keeps(s, AbandonExchange(s, id), {})
  {
    FindRequestFinds(s, s.table, id);
    var found := FindRequest(s, s.table, id);
    if found.Some? {
      var x := found.value;
      assert Ok(s, x, open, late);
      ReleaseOk(s, x, open, late);
      NoteAbandonedOk(Release(s, x), x, open, late);
    }
  }

  lemma NoteAbandonedOk(s: State, x: nat, open: set<nat>, late: set<nat>)
    requires Inv(s, open + {x}, late) && x in s.records && s.records[x].done
    requires Failures(History(s.trace, x)) == 0
    ensures Inv(Note(s, Abandoned(x)), open, late)
    ensures forall y :: y != x ==> History(Note(s, Abandoned(x)).trace, y) == History(s.trace, y)
  {
    hide Inv, Failures, History, Consistent, Ended, Answered;
    forall y | y != x ensures History(Note(s, Abandoned(x)).trace, y) == History(s.trace, y) {
      HistorySnoc(s.trace, Abandoned(x), y);
    }
    AbandonedConsistent(s, x, open, late);
    hide *;
    AboutAbandoned(x);
    NoteAbout(s, Abandoned(x), x, open + {x}, late, open, late);
  }

  lemma AboutAbandoned(x: nat)
    ensures About(Abandoned(x)) == Some(x)
  {
  }

  lemma AbandonedConsistent(s: State, x: nat, open: set<nat>, late: set<nat>)
    requires Inv(s, open + {x}, late) && x in s.records && s.records[x].done
    requires Failures(History(s.trace, x)) == 0
    ensures var e, h := s.records[x], History(s.trace, x) + [Abandoned(x)];
            Consistent(e, h) && Ended(e, h) && (x !in late ==> (e.answered ==> Answered(h)))
  {
    FailuresSnoc(History(s.trace, x), Abandoned(x));
    assert Ok(s, x, open + {x}, late);
    FittingMore(s.records[x].message, History(s.trace, x), Abandoned(x));
    hide Inv, Fitting, History, Failures, Answered, WasAbandoned, Live, ReaderOf, ResumesKnown;
  }

  lemma {:induction false} NoteAllAbandonedOk(s: State, xs: seq<nat>, open: set<nat>, late: set<nat>)
    requires Inv(s, open + (set x | x in xs), late) && NoRepeats(xs)
    requires forall x :: x in xs ==> x in s.records && s.records[x].done && Unended(History(s.trace, x))
    ensures Inv(NoteAbandoned(s, xs), open, late)
    ensures forall y :: y !in xs ==> History(NoteAbandoned(s, xs).trace, y) == History(s.trace, y)
    decreases |xs|
  {
    hide Inv, Failures, WasAbandoned, History, Note;
    if xs == [] {
      assert (set x | x in xs) == {};
      Widen(s, open + (set x | x in xs), late, open, late);
    } else {
      var x, rest := xs[0], set x | x in xs[1..];
      assert forall y :: y in xs <==> y == x || y in xs[1..];
      assert forall i :: 0 <= i < |xs[1..]| ==> xs[1..][i] == xs[i + 1];
      Widen(s, open + (set x | x in xs), late, open + rest + {x}, late);
      NoteAbandonedOk(s, x, open + rest, late);
      NoteRecords(s, Abandoned(x));
      NoteAllAbandonedOk(Note(s, Abandoned(x)), xs[1..], open, late);
    }
  }

  lemma NoteRecords(s: State, g: Signal)
    ensures Note(s, g).records == s.records
  {
  }

  /** Changes to the connections of the listen stream only. */
  lemma ListenSlots(s: State, r: State, open: set<nat>, late: set<nat>)
    requires Inv(s, open, late) && SlotsOk(r)
    requires r.records == s.records && r.table == s.table && r.headed == s.headed && r.trace == s.trace
    requires s.nextStream <= r.nextStream
    requires forall st :: st in s.slots && s.slots[st].ForExchange? ==> st in r.slots && r.slots[st] == s.slots[st]
    ensures Inv(r, open, late) && Keeps(s, r, {})
  {
    hide History, Consistent, Ended, Answered, SlotsOk;
    forall x | x in s.records ensures Ok(r, x, open, late) {
      assert Ok(s, x, open, late);
      LiveSame(s, r, x);
    }
  }

  lemma StopListeningOk(s: State, open: set<nat>, late: set<nat>)
    requires Inv(s, open, late)
    ensures Inv(StopListening(s), open, late) && Keeps(s, StopListening(s), {})
  {
    var r := Disconnect(s, s.listen.stream).(listen := IdleListen);
    StopListeningSlots(s);
    hide SlotsOk;
    ListenSlots(s, r, open, late);
    hide Inv, Keeps;
    NoteOther(r, ListeningStopped, open, late);
    KeepsTransitive(s, r, StopListening(s), {});
  }

  lemma StopListeningSlots(s: State)
    requires SlotsOk(s)
    ensures var r := Disconnect(s, s.listen.stream).(listen := IdleListen);
            && SlotsOk(r)
            && forall st :: st in s.slots && s.slots[st].ForExchange? ==> st in r.slots && r.slots[st] == s.slots[st]
  {
  }

  lemma StoppedOk(s: State, open: set<nat>, late: set<nat>)
    requires Inv(s, open, late)
    ensures Inv(Stopped(s), open, late) && Keeps(s, Stopped(s), {})
  {
    hide Inv, Keeps, AbandonExchanges, NoteAbandoned, StopListening;
    var s0 := s.(open := false, sessionId := "", protocolVersion := "");
    OtherFieldsOf(s, s0, open, late);
    AbandonExchangesOk(s0, open, late);
    var s1 := AbandonExchanges(s0);
    AbandonKeepsTable(s0);
    NoteAllAbandonedOk(s1, s.table, open, late);
    var s2 := NoteAbandoned(s1, s.table);
    StopListeningOk(s2, open, late);
    StoppedKeeps(s, s0, s1, s2, open, late);
    KeepsTransitive(s, s2, Stopped(s), {});
  }

  lemma AbandonKeepsTable(s: State)
    ensures forall x :: x in s.records ==> x in AbandonExchanges(s).records
    ensures AbandonExchanges(s).trace == s.trace
  {
    DropAllEffect(s.(table := []), s.table);
  }

  lemma StoppedKeeps(s: State, s0: State, s1: State, s2: State, open: set<nat>, late: set<nat>)
    requires Inv(s, open, late)
    requires s0.records == s.records && s0.trace == s.trace && s0.table == s.table
    requires s0.headed == s.headed && s0.nextStream == s.nextStream
    requires s1 == AbandonExchanges(s0) && Keeps(s0, s1, {}) && s1.trace == s.trace
    requires s2 == s1.(trace := s2.trace)
    requires forall y :: y !in s.table ==> History(s2.trace, y) == History(s1.trace, y)
    ensures Keeps(s, s2, {})
  {
    hide History, Consistent, Ended, Answered, Live, AbandonExchanges;
    forall x | x in s.records && s.records[x].done ensures x !in s.table {
      assert Ok(s, x, open, late);
    }
  }

  lemma {:induction false} DoStopOk(s: State, open: set<nat>, late: set<nat>)
    requires Inv(s, open, late)
    ensures Inv(DoStop(s), open, late) && Keeps(s, DoStop(s), {})
    decreases |s.script|, 7
  {
    hide Inv, Keeps, Stopped;
    if s.open {
      StoppedOk(s, open, late);
      SignalOk(Stopped(s), Closed, open, late);
      KeepsTransitive(s, Stopped(s), DoStop(s), {});
    } else {
      KeepsSelf(s);
    }
  }

  lemma {:induction false} FailUnsentOk(s: State, m: Message, open: set<nat>, late: set<nat>)
    requires Inv(s, open, late)
    ensures Inv(FailUnsent(s, m), open, late) && Keeps(s, FailUnsent(s, m), {})
    decreases |s.script|, 3
  {
    hide Inv, Keeps, Emit;
    var s1 := Emit(s, ErrorOccurred(None));
    SignalOk(s, ErrorOccurred(None), open, late);
    if IsRequest(m) {
      SignalOk(s1, Unsent(m), open, late);
      KeepsTransitive(s, s1, FailUnsent(s, m), {});
    }
  }

  lemma NewStream(s: State)
    requires SlotsOk(s)
    ensures var (r, stream) := OpenStream(s);
            && r == s.(outcomes := r.outcomes, nextStream := r.nextStream) && s.nextStream <= r.nextStream
            && (stream.Some? ==> stream.value < r.nextStream && stream.value !in r.slots
                                 && stream.value !in r.headed && r.listen.stream != stream)
  {
  }

  lemma OpenStreamOk(s: State, open: set<nat>, late: set<nat>)
    requires Inv(s, open, late)
    ensures var (r, stream) := OpenStream(s);
            && Inv(r, open, late) && Keeps(s, r, {})
            && r == s.(outcomes := r.outcomes, nextStream := r.nextStream)
            && (stream.Some? ==> stream.value < r.nextStream && stream.value !in r.slots
                                 && stream.value !in r.headed && r.listen.stream != stream)
  {
    assert SlotsOk(s);
    NewStream(s);
    hide Inv, Keeps, SlotsOk, OpenStream;
    OtherFields(s, OpenStream(s).0, open, late);
  }

  lemma {:induction false} PostOk(s: State, m: Message, open: set<nat>, late: set<nat>)
    requires Inv(s, open, late)
    ensures Inv(Post(s, m), open, late) && Keeps(s, Post(s, m), {})
    decreases |s.script|, 7
  {
    hide Inv, Keeps, StartNewSession, OpenStream, FailUnsent, Attach, AddExchange;
    if !s.http {
      FailUnsentOk(s, m, open, late);
    } else {
      var s1 := if IsInitialize(m) then StartNewSession(s) else s;
      if IsInitialize(m) {
        StartNewSessionOk(s, open, late);
      } else {
        KeepsSelf(s);
      }
      OpenStreamOk(s1, open, late);
      var (s2, stream) := OpenStream(s1);
      KeepsTransitive(s, s1, s2, {});
      if stream.None? {
        FailUnsentOk(s2, m, open, late);
      } else {
        NewExchangeOk(s2, m, stream.value, open, late);
      }
      KeepsTransitive(s, s2, Post(s, m), {});
    }
  }

  lemma {:induction false} StartNewSessionOk(s: State, open: set<nat>, late: set<nat>)
    requires Inv(s, open, late)
    ensures Inv(StartNewSession(s), open, late) && Keeps(s, StartNewSession(s), {})
    decreases |s.script|, 6
  {
    var s1 := AbandonExchanges(s);
    var s2 := FailSuperseded(s1, s.table);
    var s3 := s2.(sessionId := "", protocolVersion := "");
    AbandonExchangesOk(s, open, late);
    AbandonKeepsTable(s);
    assert NoRepeats(s.table);
    FailSupersededOk(s1, s.table, open, late);
    NewSessionKeeps(s, s1, s2, open, late);
    hide Inv, Keeps, AbandonExchanges, FailSuperseded, StopListening;
    OtherFieldsOf(s2, s3, open, late);
    StopListeningOk(s3, open, late);
    KeepsTransitive(s, s2, s3, {});
    KeepsTransitive(s, s3, StartNewSession(s), {});
  }

  lemma NewSessionKeeps(s: State, s1: State, s2: State, open: set<nat>, late: set<nat>)
    requires Inv(s, open, late)
    requires Keeps(s, s1, {}) && Keeps(s1, s2, set x | x in s.table)
    requires forall x :: x in s.table ==> x in s1.records && x in s2.records && s2.records[x] == s1.records[x]
    ensures Keeps(s, s2, {})
  {
    hide History, Consistent, Ended, Answered, Live;
    forall x | x in s.records && s.records[x].done ensures x !in s.table {
      assert Ok(s, x, open, late);
    }
  }

  /** The loop that reports the superseded requests; all of `xs` are finished and still open. */
  lemma {:induction false} FailSupersededOk(s: State, xs: seq<nat>, open: set<nat>, late: set<nat>)
    requires Inv(s, open + (set x | x in xs), late) && NoRepeats(xs)
    requires forall x :: x in xs ==> x in s.records && s.records[x].done && Unended(History(s.trace, x))
    ensures Inv(FailSuperseded(s, xs), open, late)
    ensures Keeps(s, FailSuperseded(s, xs), set x | x in xs)
    ensures forall x :: x in xs ==>
              x in FailSuperseded(s, xs).records && FailSuperseded(s, xs).records[x] == s.records[x]
    decreases |s.script|, 5, |xs|
  {
    hide *;
    if xs == [] {
      assert (set x | x in xs) == {};
      NoneSuperseded(s);
      Widen(s, open + (set x | x in xs), late, open, late);
    } else {
      var x, rest := xs[0], set y | y in xs[1..];
      assert (set y | y in xs) == rest + {x};
      var s1 := SupersededStep(s, xs);
      Widen(s, open + (set y | y in xs), late, open + rest + {x}, late);
      FailOneOk(s, x, open + rest, late);
      KeepsDone(s, s1, x, xs[1..]);
      FailSupersededOk(s1, xs[1..], open, late);
      SupersededKeeps(s, s1, FailSuperseded(s, xs), x, xs);
    }
  }

  lemma NoneSuperseded(s: State)
    ensures FailSuperseded(s, []) == s && Keeps(s, s, set x | x in [])
  {
  }

  lemma SupersededStep(s: State, xs: seq<nat>) returns (s1: State)
    requires xs != [] && NoRepeats(xs) && xs[0] in s.records
    ensures s1 == if IsRequest(s.records[xs[0]].message) && !s.records[xs[0]].answered
                  then Emit(s, SendFailed(xs[0])) else s
    ensures FailSuperseded(s, xs) == FailSuperseded(s1, xs[1..]) && |s1.script| <= |s.script|
    ensures NoRepeats(xs[1..]) && xs[0] !in xs[1..]
  {
    hide Emit;
    s1 := if IsRequest(s.records[xs[0]].message) && !s.records[xs[0]].answered
          then Emit(s, SendFailed(xs[0])) else s;
    assert forall i :: 0 <= i < |xs[1..]| ==> xs[1..][i] == xs[i + 1];
  }

  lemma KeepsDone(s: State, r: State, x: nat, xs: seq<nat>)
    requires Keeps(s, r, {x}) && x !in xs
    requires forall y :: y in xs ==> y in s.records && s.records[y].done
    ensures forall y :: y in xs ==>
              y in r.records && r.records[y] == s.records[y] && History(r.trace, y) == History(s.trace, y)
  {
  }

  lemma SupersededKeeps(s: State, s1: State, r: State, x: nat, xs: seq<nat>)
    requires xs != [] && x == xs[0] && x !in xs[1..]
    requires Keeps(s, s1, {x}) && Keeps(s1, r, set y | y in xs[1..])
    requires x in s.records && x in s1.records && s.records[x].done && s1.records[x] == s.records[x]
    ensures Keeps(s, r, set y | y in xs)
    ensures x in r.records && r.records[x] == s.records[x]
  {
    hide History;
    assert forall y :: y in xs <==> y == x || y in xs[1..];
  }

  /** Reporting the failure of a finished request that was neither answered nor failed so far. */
  lemma {:induction false} FailOneOk(s: State, x: nat, open: set<nat>, late: set<nat>)
    requires Inv(s, open + {x}, late) && x in s.records && s.records[x].done
    requires Unended(History(s.trace, x))
    ensures var fails := IsRequest(s.records[x].message) && !s.records[x].answered;
            var r := if fails then Emit(s, SendFailed(x)) else s;
            Inv(r, open, late) && Keeps(s, r, {x}) && x in r.records && r.records[x] == s.records[x]
    decreases |s.script|, 2
  {
    if IsRequest(s.records[x].message) && !s.records[x].answered {
      FailureOk(s, x, SendFailed(x), open, late);
    } else {
      NothingToReport(s, x, open, late);
    }
  }

  lemma NothingToReport(s: State, x: nat, open: set<nat>, late: set<nat>)
    requires Inv(s, open + {x}, late) && x in s.records
    requires !IsRequest(s.records[x].message) || s.records[x].answered
    ensures Inv(s, open, late) && Keeps(s, s, {x})
  {
    hide History, Consistent, Answered, Live, Failures;
    forall y | y in s.records ensures Ok(s, y, open, late) {
      assert Ok(s, y, open + {x}, late);
    }
  }

  lemma {:induction false} FailureOk(s: State, x: nat, g: Signal, open: set<nat>, late: set<nat>)
    requires Inv(s, open + {x}, late) && x in s.records && s.records[x].done
    requires Unended(History(s.trace, x))
    requires IsRequest(s.records[x].message) && !s.records[x].answered
    requires IsFailure(g) && About(g) == Some(x) && (g.Relayed? ==> g.message.id == s.records[x].message.id)
    ensures Inv(Emit(s, g), open, late) && Keeps(s, Emit(s, g), {x})
    ensures x in Emit(s, g).records && Emit(s, g).records[x] == s.records[x]
    decreases |s.script|, 1
  {
    NoteFailure(s, x, g, open, late);
    EmitOk(s, g, open, late);
    EmittedKeeps(s, g, x, Emit(s, g));
  }

  lemma NoteFailure(s: State, x: nat, g: Signal, open: set<nat>, late: set<nat>)
    requires Inv(s, open + {x}, late) && x in s.records && s.records[x].done
    requires Unended(History(s.trace, x))
    requires IsRequest(s.records[x].message) && !s.records[x].answered
    requires IsFailure(g) && About(g) == Some(x) && (g.Relayed? ==> g.message.id == s.records[x].message.id)
    ensures Inv(Note(s, g), open, late) && Keeps(s, Note(s, g), {x})
  {
    var h := History(s.trace, x);
    FailuresSnoc(h, g);
    assert Ok(s, x, open + {x}, late);
    FittingMore(s.records[x].message, h, g);
    hide Inv, Fitting, History, Failures, Answered, WasAbandoned, Live;
    NoteAbout(s, g, x, open + {x}, late, open, late);
  }

  /** A signal about the finished exchange `x`, and whatever the application does in it. */
  lemma EmittedKeeps(s: State, g: Signal, x: nat, r: State)
    requires x in s.records && s.records[x].done
    requires Keeps(s, Note(s, g), {x}) && Keeps(Note(s, g), r, {})
    ensures Keeps(s, r, {x}) && x in r.records && r.records[x] == s.records[x]
    ensures History(r.trace, x) == History(Note(s, g).trace, x)
  {
    hide History;
  }

  // ---- the listen stream leaves the exchanges alone -----------------------------------------

  lemma ScheduleListenRetryOk(s: State, open: set<nat>, late: set<nat>)
    requires Inv(s, open, late)
    ensures Inv(ScheduleListenRetry(s), open, late) && Keeps(s, ScheduleListenRetry(s), {})
  {
    hide Inv, Keeps, ReportOutage;
    KeepsSelf(s);
    if s.open && s.http && !s.listen.refused {
      var delayMs := DelayMs(s.listen.serverRetryMs, s.listen.backoffMs);
      var g := RetryPlanned(delayMs, s.listen.serverRetryMs);
      var s1 := Note(s, g);
      var s2 := ReportOutage(s1);
      var s3 := s2.(listen := s2.listen.(retryTimer := Some(delayMs), backoffMs := Min(s2.listen.backoffMs * 2, MAX_BACKOFF_MS)));
      NoteOther(s, g, open, late);
      ReportOutageOk(s1, open, late);
      OtherFieldsOf(s2, s3, open, late);
      NoteOther(s3, RetryArmed(delayMs), open, late);
      KeepsTransitive(s, s1, s2, {});
      KeepsTransitive(s, s2, s3, {});
      KeepsTransitive(s, s3, ScheduleListenRetry(s), {});
    }
  }

  lemma ReportOutageOk(s: State, open: set<nat>, late: set<nat>)
    requires Inv(s, open, late)
    ensures Inv(ReportOutage(s), open, late) && Keeps(s, ReportOutage(s), {})
  {
    hide Inv, Keeps, Emit;
    KeepsSelf(s);
    var s0 := s.(listen := s.listen.(outageReported := true));
    OtherFieldsOf(s, s0, open, late);
    SignalOk(s0, ErrorOccurred(None), open, late);
    KeepsTransitive(s, s0, Emit(s0, ErrorOccurred(None)), {});
  }

  lemma ListenStreamOpened(s: State, stream: nat, open: set<nat>, late: set<nat>)
    requires Inv(s, open, late) && s.listen.stream.None?
    requires stream < s.nextStream && stream !in s.slots
    ensures var r := s.(listen := s.listen.(stream := Some(stream)), slots := s.slots[stream := ForListen]);
            Inv(r, open, late) && Keeps(s, r, {})
  {
    var r := s.(listen := s.listen.(stream := Some(stream)), slots := s.slots[stream := ForListen]);
    assert SlotsOk(r);
    hide SlotsOk;
    ListenSlots(s, r, open, late);
  }

  lemma OpenListenStreamOk(s: State, open: set<nat>, late: set<nat>)
    requires Inv(s, open, late)
    ensures Inv(OpenListenStream(s), open, late) && Keeps(s, OpenListenStream(s), {})
  {
    hide Inv, Keeps, ScheduleListenRetry, OpenStream;
    KeepsSelf(s);
    if s.open && s.http && s.listen.stream.None? && !s.listen.refused {
      var l := s.listen;
      var seeded := Parser([], false, Cleared.(idBuffer := l.lastEventId, lastEventId := l.lastEventId));
      var s1 := s.(listen := l.(events := seeded, resumed := l.lastEventId != [], heard := false));
      var (s2, stream) := OpenStream(s1);
      OtherFieldsOf(s, s1, open, late);
      OpenStreamOk(s1, open, late);
      KeepsTransitive(s, s1, s2, {});
      if stream.None? {
        ScheduleListenRetryOk(s2, open, late);
      } else {
        ListenStreamOpened(s2, stream.value, open, late);
        var s3 := s2.(listen := s2.listen.(stream := stream), slots := s2.slots[stream.value := ForListen]);
        NoteOther(s3, ListenConnected(l.lastEventId), open, late);
        KeepsTransitive(s2, s3, OpenListenStream(s), {});
      }
      KeepsTransitive(s, s2, OpenListenStream(s), {});
    }
  }

  lemma ForgetListenStreamOk(s: State, open: set<nat>, late: set<nat>)
    requires Inv(s, open, late)
    ensures Inv(ForgetListenStream(s), open, late) && Keeps(s, ForgetListenStream(s), {})
  {
    StopListeningSlots(s);
    var r := ForgetListenStream(s);
    assert r.slots == StopListening(s).slots && SlotsOk(r);
    hide SlotsOk;
    ListenSlots(s, r, open, late);
  }

  lemma OnListenHeadersOk(s: State, head: Head)
    requires Inv(s, {}, {})
    ensures Inv(OnListenHeaders(s, head), {}, {}) && Keeps(s, OnListenHeaders(s, head), {})
  {
    hide Inv, Keeps, ForgetListenStream, OnListenRefused;
    if IsEventStream(Response(head.status, head.eventStream, head.json, [])) {
      OtherFieldsOf(s, OnListenHeaders(s, head), {}, {});
    } else {
      var s1 := ForgetListenStream(s);
      ForgetListenStreamOk(s, {}, {});
      OnListenRefusedOk(s1, head.status);
      KeepsTransitive(s, s1, OnListenHeaders(s, head), {});
    }
  }

  lemma OnListenRefusedOk(s: State, status: int)
    requires Inv(s, {}, {})
    ensures Inv(OnListenRefused(s, status), {}, {}) && Keeps(s, OnListenRefused(s, status), {})
  {
    hide *;
    var s1 := s.(listen := s.listen.(lastEventId := []));
    var s2 := s.(listen := s.listen.(refused := true));
    RefusedCases(s, status);
    SessionLostOk(s);
    OtherFieldsOf(s, s1, {}, {});
    ScheduleListenRetryOk(s1, {}, {});
    KeepsTransitive(s, s1, ScheduleListenRetry(s1), {});
    ScheduleListenRetryOk(s, {}, {});
    OtherFieldsOf(s, s2, {}, {});
  }

  lemma RefusedCases(s: State, status: int)
    ensures var r := OnListenRefused(s, status);
            || r == DoStop(Emit(s, ErrorOccurred(None)).(sessionId := ""))
            || r == ScheduleListenRetry(s.(listen := s.listen.(lastEventId := [])))
            || r == ScheduleListenRetry(s)
            || r == s.(listen := s.listen.(refused := true))
  {
    hide DoStop, Emit, ScheduleListenRetry;
  }

  lemma SessionLostOk(s: State)
    requires Inv(s, {}, {})
    ensures var r := DoStop(Emit(s, ErrorOccurred(None)).(sessionId := "")); Inv(r, {}, {}) && Keeps(s, r, {})
  {
    hide Inv, Keeps, DoStop, Emit;
    var s1 := Emit(s, ErrorOccurred(None));
    var s2 := s1.(sessionId := "");
    SignalOk(s, ErrorOccurred(None), {}, {});
    OtherFieldsOf(s1, s2, {}, {});
    DoStopOk(s2, {}, {});
    KeepsTransitive(s, s1, s2, {});
    KeepsTransitive(s, s2, DoStop(s2), {});
  }

  lemma {:induction false} DrainBacklogOk(env: Env, s: State)
    requires Inv(s, {}, {})
    ensures Inv(DrainBacklog(env, s), {}, {}) && Keeps(s, DrainBacklog(env, s), {})
    decreases |s.listen.backlog|
  {
    hide Inv, Keeps, Emit;
    KeepsSelf(s);
    if s.listen.backlog != [] {
      var event := s.listen.backlog[0];
      var s1 := s.(listen := s.listen.(backlog := s.listen.backlog[1..]));
      OtherFieldsOf(s, s1, {}, {});
      var message := if event.kind == MESSAGE then env.decode(event.data) else None;
      if message.None? || message.value.isEmpty {
        DrainBacklogOk(env, s1);
        KeepsTransitive(s, s1, DrainBacklog(env, s), {});
      } else {
        var s2 := RestartListenBackoff(s1);
        var s3 := Emit(s2, ListenMessage(message.value));
        OtherFieldsOf(s, s2, {}, {});
        SignalOk(s2, ListenMessage(message.value), {}, {});
        KeepsTransitive(s, s2, s3, {});
        DrainBacklogOk(env, s3);
        KeepsTransitive(s, s3, DrainBacklog(env, s), {});
      }
    }
  }

  lemma OnListenEndedOk(s: State, settled: bool)
    requires Inv(s, {}, {})
    ensures Inv(OnListenEnded(s, settled), {}, {}) && Keeps(s, OnListenEnded(s, settled), {})
  {
    hide Inv, Keeps, ScheduleListenRetry, ForgetListenStream;
    var s0 := s.(listen := EndedListen(s.listen, settled));
    OtherFieldsOf(s, s0, {}, {});
    hide EndedListen;
    NoteOther(s0, ListenSettled, {}, {});
    KeepsSelf(s0);
    var s1 := if s.listen.uptimeValid && settled then Note(s0, ListenSettled) else s0;
    var s2 := ForgetListenStream(s1);
    ForgetListenStreamOk(s1, {}, {});
    ScheduleListenRetryOk(s2, {}, {});
    KeepsTransitive(s, s0, s1, {});
    KeepsTransitive(s, s1, s2, {});
    KeepsTransitive(s, s2, OnListenEnded(s, settled), {});
  }

  lemma OnListenChunkOk(env: Env, s: State, chunk: Bytes)
    requires Inv(s, {}, {})
    ensures Inv(OnListenChunk(env, s, chunk), {}, {}) && Keeps(s, OnListenChunk(env, s, chunk), {})
  {
    hide Inv, Keeps, DrainBacklog, AppendSpec, TakeListenChunk;
    var (p, events) := AppendSpec(DEFAULT_MAX_BUFFER_BYTES, s.listen.events, chunk);
    var s0 := s.(listen := TakeListenChunk(s.listen, p, events));
    TakeListenKeeps(s.listen, p, events);
    OtherFieldsOf(s, s0, {}, {});
    var s1 := Note(s0, ListenArrived(chunk));
    NoteOther(s0, ListenArrived(chunk), {}, {});
    KeepsTransitive(s, s0, s1, {});
    DrainBacklogOk(env, s1);
    KeepsTransitive(s, s1, DrainBacklog(env, s1), {});
  }

  lemma TakeListenKeeps(l: Listen, p: Parser, events: seq<Event>)
    ensures TakeListenChunk(l, p, events).stream == l.stream
  {
  }

  // ---- the handlers of an exchange ------------------------------------------------------------

  lemma KeepsBusy(s: State, r: State, x: nat)
    requires Keeps(s, r, {})
    ensures Keeps(s, r, {x})
  {
  }

  lemma RecordSlots(s: State, x: nat, e: Exchange)
    requires SlotsOk(s) && x in s.records && Live(s, x)
    requires e.done == s.records[x].done && e.stream == s.records[x].stream
    requires !e.done ==>
               && (e.stream.None? ==> e.resumeTimer.Some?)
               && (e.stream.Some? && e.stream.value !in s.headed ==> !IsSuccess(e.response))
    ensures SlotsOk(SetExchange(s, x, e)) && Live(SetExchange(s, x, e), x)
  {
  }

  /** A record change that leaves connections, list and trace alone. */
  lemma RecordOk(s: State, x: nat, e: Exchange, open: set<nat>, late: set<nat>, late': set<nat>)
    requires Inv(s, open, late) && x in s.records && late <= late' + {x}
    requires e.message == s.records[x].message && e.done == s.records[x].done && e.stream == s.records[x].stream
    requires Consistent(e, History(s.trace, x)) && (x !in open ==> Ended(e, History(s.trace, x)))
    requires x !in late' ==> (e.answered ==> Answered(History(s.trace, x)))
    requires !e.done ==>
               && (e.stream.None? ==> e.resumeTimer.Some?)
               && (e.stream.Some? && e.stream.value !in s.headed ==> !IsSuccess(e.response))
    ensures Inv(SetExchange(s, x, e), open, late') && Keeps(s, SetExchange(s, x, e), {x})
  {
    hide History, Consistent, Ended, Answered;
    assert Ok(s, x, open, late);
    var r := SetExchange(s, x, e);
    RecordSlots(s, x, e);
    hide SlotsOk, Live;
    UpdateExchange(s, r, x, open, late, open, late');
  }

  lemma OnHeadersOk(s: State, x: nat, st: nat, head: Head)
    requires Inv(s, {}, {}) && x in s.records
    requires st in s.slots && s.slots[st] == ForExchange(x) && st !in s.headed
    ensures var r := OnHeaders(s.(headed := s.headed + {st}), x, head);
            Inv(r, {}, {}) && Keeps(s, r, {x})
  {
    hide History, Ended, Answered, SlotsOk, Live, OnHeaders, Consistent;
    assert Ok(s, x, {}, {});
    var r := OnHeaders(s.(headed := s.headed + {st}), x, head);
    HeadersSlots(s, x, st, head);
    NotAnsweredBeforeHead(s, x);
    HeadersEffect(s.(headed := s.headed + {st}), x, head);
    NewHeadConsistent(s.records[x], r.records[x], History(s.trace, x));
    UpdateExchange(s, r, x, {}, {}, {}, {});
  }

  lemma HeadersEffect(s: State, x: nat, head: Head)
    requires x in s.records
    ensures var r := OnHeaders(s, x, head);
            r == s.(records := s.records[x := s.records[x].(response := r.records[x].response)], sessionId := r.sessionId)
  {
  }

  lemma HeadersSlots(s: State, x: nat, st: nat, head: Head)
    requires SlotsOk(s) && x in s.records && Live(s, x)
    requires st in s.slots && s.slots[st] == ForExchange(x) && st !in s.headed
    ensures !s.records[x].done && s.records[x].stream == Some(st)
    ensures var r := OnHeaders(s.(headed := s.headed + {st}), x, head);
            SlotsOk(r) && Live(r, x)
  {
  }

  lemma NotAnsweredBeforeHead(s: State, x: nat)
    requires x in s.records && Ok(s, x, {}, {}) && !s.records[x].done
    requires s.records[x].stream.Some? && s.records[x].stream.value !in s.headed
    ensures !s.records[x].answered
  {
  }

  lemma NewHeadConsistent(e: Exchange, e': Exchange, h: seq<Signal>)
    requires Consistent(e, h) && !e.answered && !e.done && e' == e.(response := e'.response)
    ensures Consistent(e', h) && Ended(e', h) && !e'.answered && !e'.done
  {
  }

  lemma NoteOwn(s: State, g: Signal, x: nat, open: set<nat>, late: set<nat>)
    requires Inv(s, open, late) && x in s.records && About(g) == Some(x)
    requires !IsFailure(g) && !g.Reply? && !g.Abandoned? && !g.Arrived? && !g.Reconnected?
    ensures Inv(Note(s, g), open, late) && Keeps(s, Note(s, g), {x})
    ensures History(Note(s, g).trace, x) == History(s.trace, x) + [g]
  {
    FailuresSnoc(History(s.trace, x), g);
    assert Ok(s, x, open, late);
    hide History, Failures, Answered, WasAbandoned, Live, ReaderOf, ResumesKnown;
    NoteAbout(s, g, x, open, late, open, late);
  }

  /** An error signal about a finished exchange: nothing else changes for it. */
  lemma {:induction false} ErrorSignalOk(s: State, x: nat, open: set<nat>, late: set<nat>)
    requires Inv(s, open, late) && x in s.records && s.records[x].done && Unended(History(s.trace, x))
    ensures var r := Emit(s, ErrorOccurred(Some(x)));
            && Inv(r, open, late) && Keeps(s, r, {x})
            && x in r.records && r.records[x] == s.records[x] && Unended(History(r.trace, x))
            && History(r.trace, x) == History(s.trace, x) + [ErrorOccurred(Some(x))]
  {
    var g := ErrorOccurred(Some(x));
    FailuresSnoc(History(s.trace, x), g);
    hide Inv, Keeps, Emit, Failures, WasAbandoned, History;
    NoteOwn(s, g, x, open, late);
    EmitOk(s, g, open, late);
    EmittedKeeps(s, g, x, Emit(s, g));
  }

  lemma FailOk(s: State, x: nat)
    requires Inv(s, {x}, {}) && x in s.records && s.records[x].done && Unended(History(s.trace, x))
    ensures Inv(Fail(s, x), {}, {}) && Keeps(s, Fail(s, x), {x})
  {
    hide Inv, Keeps, Emit, Unended, History;
    ErrorSignalOk(s, x, {x}, {});
    var s1 := Emit(s, ErrorOccurred(Some(x)));
    assert {} + {x} == {x};
    FailOneOk(s1, x, {}, {});
    KeepsTransitive(s, s1, Fail(s, x), {x});
  }

  lemma OnErrorOk(s: State, x: nat)
    requires Inv(s, {}, {}) && x in s.records && !s.records[x].done && s.records[x].stream.Some?
    ensures Inv(OnError(s, x), {}, {}) && Keeps(s, OnError(s, x), {x})
  {
    hide Inv, Keeps, ScheduleResume, Fail, Release;
    if CanResume(s.records[x]) {
      ScheduleResumeOk(s, x);
    } else {
      ReleaseAndFailOk(s, x);
    }
  }

  lemma OnDestroyedOk(s: State, x: nat)
    requires Inv(s, {}, {}) && x in s.records && !s.records[x].done
    ensures Inv(OnDestroyed(s, x), {}, {}) && Keeps(s, OnDestroyed(s, x), {x})
  {
    var e := s.records[x];
    var s1 := Release(Disconnect(SetExchange(s, x, e.(stream := None)), e.stream), x);
    DestroyedOk(s, x, s1);
    hide Inv, Keeps, Fail, Release, Unended, History;
    FailOk(s1, x);
    KeepsTransitive(s, s1, OnDestroyed(s, x), {x});
  }

  lemma DestroyedOk(s: State, x: nat, r: State)
    requires Inv(s, {}, {}) && x in s.records && !s.records[x].done
    requires r == Release(Disconnect(SetExchange(s, x, s.records[x].(stream := None)), s.records[x].stream), x)
    ensures Inv(r, {x}, {}) && Keeps(s, r, {x})
    ensures r.records[x].done && Unended(History(r.trace, x))
  {
    assert Ok(s, x, {}, {});
    RemoveFrom(s.table, x);
    DroppedConsistent(s.records[x], History(s.trace, x));
    DroppedWithoutStream(s.records[x], History(s.trace, x));
    DestroyedSlots(s, x, r);
    hide History, Consistent, Ended, Answered, Unended, SlotsOk;
    UpdateExchange(s, r, x, {}, {}, {x}, {});
  }

  lemma DroppedWithoutStream(e: Exchange, h: seq<Signal>)
    requires Consistent(e, h) && !e.done
    ensures Consistent(Dropped(e.(stream := None)), h)
  {
  }

  lemma DestroyedSlots(s: State, x: nat, r: State)
    requires SlotsOk(s) && x in s.records && !s.records[x].done && Live(s, x)
    requires r == Release(Disconnect(SetExchange(s, x, s.records[x].(stream := None)), s.records[x].stream), x)
    ensures SlotsOk(r)
    ensures forall st :: st in s.slots && s.slots[st] != ForExchange(x) ==> st in r.slots && r.slots[st] == s.slots[st]
  {
    var stream := s.records[x].stream;
    assert r == s.(slots := r.slots, records := r.records, table := r.table);
    assert r.slots == if stream.Some? then s.slots - {stream.value} else s.slots;
    assert forall y :: y in s.records && y != x ==> y in r.records && r.records[y] == s.records[y];
    FewerSlots(s, x, r);
  }

  lemma FewerSlots(s: State, x: nat, r: State)
    requires SlotsOk(s) && x in s.records && !s.records[x].done && Live(s, x)
    requires r == s.(slots := r.slots, records := r.records, table := r.table)
    requires var stream := s.records[x].stream;
             r.slots == if stream.Some? then s.slots - {stream.value} else s.slots
    requires forall y :: y in s.records && y != x ==> y in r.records && r.records[y] == s.records[y]
    ensures SlotsOk(r)
    ensures forall st :: st in s.slots && s.slots[st] != ForExchange(x) ==> st in r.slots && r.slots[st] == s.slots[st]
  {
  }

  lemma ScheduleResumeOk(s: State, x: nat)
    requires Inv(s, {}, {}) && x in s.records && !s.records[x].done && s.records[x].stream.Some?
    requires CanResume(s.records[x])
    ensures Inv(ScheduleResume(s, x), {}, {}) && Keeps(s, ScheduleResume(s, x), {x})
  {
    assert Ok(s, x, {}, {});
    var r := ScheduleResume(s, x);
    ScheduledSlots(s, x);
    ScheduledConsistent(s.records[x], r.records[x], History(s.trace, x));
    hide History, Consistent, Ended, Answered, SlotsOk;
    UpdateExchange(s, r, x, {}, {}, {}, {});
  }

  lemma ScheduledConsistent(e: Exchange, e': Exchange, h: seq<Signal>)
    requires Consistent(e, h) && CanResume(e)
    requires e' == e.(stream := None, resumeTimer := Some(DelayMs(e.retryMs, e.backoffMs)),
                      backoffMs := Min(e.backoffMs * 2, MAX_BACKOFF_MS))
    ensures Consistent(e', h) && Ended(e', h)
  {
  }

  lemma ScheduledSlots(s: State, x: nat)
    requires SlotsOk(s) && x in s.records && !s.records[x].done && Live(s, x)
    ensures SlotsOk(ScheduleResume(s, x)) && Live(ScheduleResume(s, x), x)
    ensures forall st :: st in s.slots && s.slots[st] != ForExchange(x)
              ==> st in ScheduleResume(s, x).slots && ScheduleResume(s, x).slots[st] == s.slots[st]
  {
  }

  lemma OnResumeTimeoutOk(s: State, x: nat)
    requires Inv(s, {}, {}) && x in s.records && s.records[x].resumeTimer.Some?
    ensures Inv(OnResumeTimeout(s, x), {}, {}) && Keeps(s, OnResumeTimeout(s, x), {x}) && !s.records[x].done
  {
    NotDoneWhileWaiting(s, x);
    hide Inv, Keeps, Fail, Release, Reconnect, OpenStream;
    if !s.http {
      ReleaseAndFailOk(s, x);
    } else {
      OpenStreamOk(s, {}, {});
      var (s1, stream) := OpenStream(s);
      KeepsBusy(s, s1, x);
      if stream.None? {
        ReleaseAndFailOk(s1, x);
        KeepsTransitive(s, s1, Fail(Release(s1, x), x), {x});
      } else {
        ReconnectOk(s1, x, stream.value);
        KeepsTransitive(s, s1, Reconnect(s1, x, stream.value), {x});
      }
    }
  }

  lemma NotDoneWhileWaiting(s: State, x: nat)
    requires Inv(s, {}, {}) && x in s.records && s.records[x].resumeTimer.Some?
    ensures !s.records[x].done
  {
    assert Ok(s, x, {}, {});
  }

  lemma ReleaseAndFailOk(s: State, x: nat)
    requires Inv(s, {}, {}) && x in s.records && !s.records[x].done
    ensures x in Release(s, x).records
    ensures Inv(Fail(Release(s, x), x), {}, {}) && Keeps(s, Fail(Release(s, x), x), {x})
  {
    hide Inv, Keeps, Fail, Release, Unended, History;
    ReleaseOk(s, x, {}, {});
    assert {} + {x} == {x};
    FailOk(Release(s, x), x);
    KeepsBusy(s, Release(s, x), x);
    KeepsTransitive(s, Release(s, x), Fail(Release(s, x), x), {x});
  }

  lemma ReconnectOk(s: State, x: nat, stream: nat)
    requires Inv(s, {}, {}) && x in s.records && s.records[x].resumeTimer.Some?
    requires stream < s.nextStream && stream !in s.slots && stream !in s.headed && s.listen.stream != Some(stream)
    ensures Inv(Reconnect(s, x, stream), {}, {}) && Keeps(s, Reconnect(s, x, stream), {x})
  {
    NotDoneWhileWaiting(s, x);
    assert Ok(s, x, {}, {});
    var r := Reconnect(s, x, stream);
    var r0 := SetExchange(s, x, OnNewStream(s.records[x], stream)).(slots := s.slots[stream := ForExchange(x)]);
    ReconnectedSlots(s, x, stream, r0);
    TraceSlots(r0, r, x);
    ReconnectedConsistent(s.records[x], stream, x, History(s.trace, x));
    hide History, Consistent, Ended, Answered, SlotsOk, OnNewStream, Live;
    UpdateNoting(s, r, x, Reconnected(x));
  }

  lemma ReconnectedConsistent(e: Exchange, stream: nat, x: nat, h: seq<Signal>)
    requires Consistent(e, h) && Ended(e, h) && e.resumeTimer.Some? && !e.done
    ensures var e', h' := OnNewStream(e, stream), h + [Reconnected(x)];
            && Consistent(e', h') && Ended(e', h')
            && !e'.done && !e'.answered && e'.message == e.message && e'.stream == Some(stream)
  {
    FailuresSnoc(h, Reconnected(x));
    ReaderSnoc(h, Reconnected(x));
    hide Failures, Answered, WasAbandoned, ReaderOf, ResumesKnown;
  }

  lemma ReconnectedSlots(s: State, x: nat, stream: nat, r: State)
    requires SlotsOk(s) && x in s.records && !s.records[x].done && s.records[x].stream.None?
    requires stream < s.nextStream && stream !in s.slots && stream !in s.headed && s.listen.stream != Some(stream)
    requires r == SetExchange(s, x, OnNewStream(s.records[x], stream)).(slots := s.slots[stream := ForExchange(x)])
    ensures SlotsOk(r) && Live(r, x)
  {
  }

  // ---- replies ----------------------------------------------------------------------------------

  /** The part of `Receive` before its signal. */
  function Receiving(s: State, x: nat, reply: Message): State
    requires x in s.records
  {
    var e := s.records[x];
    var answering := Answers(reply, e.message);
    var s1 := if answering then SetExchange(s, x, e.(answered := true)) else s;
    if answering && IsInitialize(e.message) && reply.version != ""
    then OpenListenStream(Note(s1.(protocolVersion := reply.version), Negotiated(x, s.open))) else s1
  }

  lemma ReceivingOk(s: State, x: nat, reply: Message, open: set<nat>)
    requires Inv(s, open, {}) && x in s.records && Unended(History(s.trace, x))
    requires if s.records[x].done then x in open else IsSuccess(s.records[x].response) && s.records[x].stream.Some?
    ensures var r := Receiving(s, x, reply);
            var answering := Answers(reply, s.records[x].message);
            && Inv(r, open, if answering then {x} else {}) && Keeps(s, r, {x}) && x in r.records
            && Evolved(s.records[x].(answered := s.records[x].answered || answering), r.records[x])
            && (answering ==> r.records[x].answered)
            && (s.records[x].done ==> History(r.trace, x) == History(s.trace, x))
  {
    hide Inv, OpenListenStream, History, Unended, Keeps;
    var e := s.records[x];
    KeepsSelf(s);
    KeepsBusy(s, s, x);
    if Answers(reply, e.message) {
      var s1 := SetExchange(s, x, e.(answered := true));
      MarkAnsweredOk(s, x, open);
      if IsInitialize(e.message) && reply.version != "" {
        var s0 := s1.(protocolVersion := reply.version);
        var s2 := Note(s0, Negotiated(x, s.open));
        OtherFieldsOf(s1, s0, open, {x});
        NoteOther(s0, Negotiated(x, s.open), open, {x});
        KeepsTransitive(s1, s0, s2, {});
        OpenListenStreamOk(s2, open, {x});
        KeepsTransitive(s1, s2, OpenListenStream(s2), {});
        AnsweredEvolves(s1, OpenListenStream(s2), x);
        KeepsBusy(s1, OpenListenStream(s2), x);
        KeepsTransitive(s, s1, OpenListenStream(s2), {x});
      }
    }
  }

  lemma MarkAnsweredOk(s: State, x: nat, open: set<nat>)
    requires Inv(s, open, {}) && x in s.records && Unended(History(s.trace, x))
    requires if s.records[x].done then x in open else IsSuccess(s.records[x].response) && s.records[x].stream.Some?
    ensures var s1 := SetExchange(s, x, s.records[x].(answered := true));
            Inv(s1, open, {x}) && Keeps(s, s1, {x})
  {
    assert Ok(s, x, open, {});
    NowAnswered(s.records[x], History(s.trace, x));
    hide History, Consistent, Ended;
    RecordOk(s, x, s.records[x].(answered := true), open, {}, {x});
  }

  lemma AnsweredEvolves(s: State, r: State, x: nat)
    requires Keeps(s, r, {}) && x in s.records && s.records[x].answered
    ensures x in r.records && Evolved(s.records[x], r.records[x]) && r.records[x].answered
    ensures s.records[x].done ==> History(r.trace, x) == History(s.trace, x)
  {
  }

  lemma NowAnswered(e: Exchange, h: seq<Signal>)
    requires Consistent(e, h) && Unended(h) && (!e.done ==> IsSuccess(e.response) && e.stream.Some?)
    ensures Consistent(e.(answered := true), h) && Ended(e.(answered := true), h)
  {
  }

  lemma NoteReply(s: State, x: nat, reply: Message, answering: bool, fromBody: bool, open: set<nat>)
    requires Inv(s, open, if answering then {x} else {}) && x in s.records
    requires answering ==> s.records[x].answered
    requires answering <==> Answers(reply, s.records[x].message)
    ensures Inv(Note(s, Reply(x, reply, answering, fromBody)), open, {})
    ensures Keeps(s, Note(s, Reply(x, reply, answering, fromBody)), {x})
    ensures History(Note(s, Reply(x, reply, answering, fromBody)).trace, x)
         == History(s.trace, x) + [Reply(x, reply, answering, fromBody)]
  {
    var g, late := Reply(x, reply, answering, fromBody), if answering then {x} else {};
    ReplyConsistent(s, x, g, open, late);
    hide Inv, Consistent, Ended, Keeps, History, Answered;
    NoteAbout(s, g, x, open, late, open, {});
  }

  lemma ReplyConsistent(s: State, x: nat, g: Signal, open: set<nat>, late: set<nat>)
    requires Inv(s, open, late) && x in s.records && g.Reply? && late <= {x}
    requires g.answering ==> s.records[x].answered
    requires !g.answering ==> late == {}
    requires g.answering <==> Answers(g.message, s.records[x].message)
    ensures var e, h := s.records[x], History(s.trace, x) + [g];
            Consistent(e, h) && (x !in open ==> Ended(e, h)) && (e.answered ==> Answered(h))
  {
    FailuresSnoc(History(s.trace, x), g);
    assert Ok(s, x, open, late);
    FittingMore(s.records[x].message, History(s.trace, x), g);
    hide Inv, Fitting, Answers, History, Failures, Answered, WasAbandoned, Live, ReaderOf, ResumesKnown;
  }

  /** One reply, for an exchange on its stream (`open` empty) or just released (`open` holds it). */
  lemma ReceiveOk(s: State, x: nat, reply: Message, fromBody: bool, open: set<nat>)
    requires Inv(s, open, {}) && x in s.records && Unended(History(s.trace, x))
    requires if s.records[x].done then x in open else IsSuccess(s.records[x].response) && s.records[x].stream.Some?
    ensures var r := Receive(s, x, reply, fromBody);
            && Inv(r, open, {}) && Keeps(s, r, {x}) && x in r.records
            && Evolved(s.records[x].(answered := s.records[x].answered || Answers(reply, s.records[x].message)),
                       r.records[x])
            && (s.records[x].done ==> Unended(History(r.trace, x)))
  {
    hide *;
    var answering := Answers(reply, s.records[x].message);
    var s1 := Receiving(s, x, reply);
    var g := Reply(x, reply, answering, fromBody);
    ReceivingOk(s, x, reply, open);
    ReceivingThenEmit(s, x, reply, fromBody);
    ReplyNotFailure(s, g, x);
    KeepsMessage(s, s1, x);
    NoteReply(s1, x, reply, answering, fromBody, open);
    EmitOk(s1, g, open, {});
    KeepsBusy(Note(s1, g), Emit(s1, g), x);
    KeepsTransitive(s1, Note(s1, g), Emit(s1, g), {x});
    KeepsTransitive(s, s1, Emit(s1, g), {x});
    ReplyEvolves(s, s1, g, x, Emit(s1, g));
  }

  lemma ReceivingThenEmit(s: State, x: nat, reply: Message, fromBody: bool)
    requires x in s.records
    ensures Receive(s, x, reply, fromBody)
         == Emit(Receiving(s, x, reply), Reply(x, reply, Answers(reply, s.records[x].message), fromBody))
    ensures About(Reply(x, reply, Answers(reply, s.records[x].message), fromBody)) == Some(x)
  {
  }

  lemma ReplyNotFailure(s: State, g: Signal, x: nat)
    requires g.Reply? && Unended(History(s.trace, x))
    ensures Unended(History(s.trace, x) + [g])
  {
    FailuresSnoc(History(s.trace, x), g);
  }

  lemma ReplyEvolves(s: State, s1: State, g: Signal, x: nat, r: State)
    requires x in s.records && x in s1.records && g.Reply? && g.x == x
    requires Evolved(s.records[x].(answered := s.records[x].answered || g.answering), s1.records[x])
    requires s.records[x].done ==> History(s1.trace, x) == History(s.trace, x)
    requires Unended(History(s.trace, x) + [g])
    requires Keeps(Note(s1, g), r, {}) && History(Note(s1, g).trace, x) == History(s1.trace, x) + [g]
    ensures x in r.records
    ensures Evolved(s.records[x].(answered := s.records[x].answered || g.answering), r.records[x])
    ensures s.records[x].done ==> Unended(History(r.trace, x))
  {
    hide History, Unended;
  }

  lemma {:induction false} ReceiveEventsOk(env: Env, s: State, x: nat, events: seq<Event>)
    requires Inv(s, {}, {}) && x in s.records
    requires !s.records[x].done ==> IsSuccess(s.records[x].response) && s.records[x].stream.Some?
    ensures var r := ReceiveEvents(env, s, x, events);
            && Inv(r, {}, {}) && Keeps(s, r, {x}) && x in r.records
            && (s.records[x].done ==> r == s)
    decreases |events|
  {
    hide *;
    KeepsSelf(s);
    KeepsBusy(s, s, x);
    if events == [] || s.records[x].done {
      NothingReceived(env, s, x, events);
    } else {
      var s1 := EventReceived(env, s, x, events);
      ReceiveEventsOk(env, s1, x, events[1..]);
      KeepsTransitive(s, s1, ReceiveEvents(env, s, x, events), {x});
    }
  }

  lemma NothingReceived(env: Env, s: State, x: nat, events: seq<Event>)
    requires x in s.records && (events == [] || s.records[x].done)
    ensures ReceiveEvents(env, s, x, events) == s
  {
  }

  lemma EventReceived(env: Env, s: State, x: nat, events: seq<Event>) returns (s1: State)
    requires Inv(s, {}, {}) && x in s.records && events != [] && !s.records[x].done
    requires IsSuccess(s.records[x].response) && s.records[x].stream.Some?
    ensures ReceiveEvents(env, s, x, events) == ReceiveEvents(env, s1, x, events[1..])
    ensures Inv(s1, {}, {}) && Keeps(s, s1, {x}) && x in s1.records
    ensures !s1.records[x].done ==> IsSuccess(s1.records[x].response) && s1.records[x].stream.Some?
  {
    hide Inv, Receive, Keeps, Unended, History, Answers;
    var reply := if events[0].kind == MESSAGE then env.decode(events[0].data) else None;
    s1 := if reply.None? || reply.value.isEmpty then s else Receive(s, x, reply.value, false);
    KeepsSelf(s);
    KeepsBusy(s, s, x);
    UnendedWhileOpen(s, x);
    if reply.Some? && !reply.value.isEmpty {
      ReceiveOk(s, x, reply.value, false, {});
    }
  }

  lemma UnendedWhileOpen(s: State, x: nat)
    requires Inv(s, {}, {}) && x in s.records && !s.records[x].done
    ensures Unended(History(s.trace, x))
  {
    assert Ok(s, x, {}, {});
  }

  lemma OnChunkOk(env: Env, s: State, x: nat, chunk: Bytes)
    requires Inv(s, {}, {}) && x in s.records && !s.records[x].done && s.records[x].stream.Some?
    ensures Inv(OnChunk(env, s, x, chunk), {}, {}) && Keeps(s, OnChunk(env, s, x, chunk), {x})
  {
    var e := s.records[x];
    assert Ok(s, x, {}, {});
    if !IsEventStream(e.response) {
      var e' := e.(response := e.response.(body := e.response.body + chunk));
      BodyConsistent(e, e', History(s.trace, x));
      hide History, Consistent, Ended, Inv, Keeps;
      RecordOk(s, x, e', {}, {}, {});
    } else {
      var events := ReadChunk(DEFAULT_MAX_BUFFER_BYTES, e.reader, chunk).1;
      var s1 := ChunkTaken(s, x, chunk);
      hide ReadChunk, ReceiveEvents, Inv, Keeps, History, Consistent, Ended, Live;
      ChunkTakenOk(s, x, chunk);
      var s2 := ReceiveEvents(env, s1, x, events);
      ReceiveEventsOk(env, s1, x, events);
      KeepsTransitive(s, s1, s2, {x});
      if s2.records[x].resuming && s2.records[x].answered && !s2.records[x].done {
        AnsweredReleaseOk(s2, x);
        KeepsBusy(s2, Release(s2, x), x);
        KeepsTransitive(s, s2, Release(s2, x), {x});
      }
    }
  }

  /** The state of `OnChunk` when the replies start. */
  function ChunkTaken(s: State, x: nat, chunk: Bytes): State
    requires x in s.records
  {
    var (reader, events) := ReadChunk(DEFAULT_MAX_BUFFER_BYTES, s.records[x].reader, chunk);
    Note(SetExchange(s, x, TakeChunk(s.records[x], reader, events)), Arrived(x, chunk))
  }

  lemma ChunkTakenOk(s: State, x: nat, chunk: Bytes)
    requires Inv(s, {}, {}) && x in s.records && !s.records[x].done && s.records[x].stream.Some?
    requires IsEventStream(s.records[x].response)
    ensures var s1 := ChunkTaken(s, x, chunk);
            && Inv(s1, {}, {}) && Keeps(s, s1, {x}) && x in s1.records
            && IsSuccess(s1.records[x].response) && s1.records[x].stream.Some?
            && History(s1.trace, x) == History(s.trace, x) + [Arrived(x, chunk)]
  {
    hide ReadChunk, TakeChunk, History, Consistent, Ended, SlotsOk, Live, Answered;
    var (reader, events) := ReadChunk(DEFAULT_MAX_BUFFER_BYTES, s.records[x].reader, chunk);
    var e' := TakeChunk(s.records[x], reader, events);
    var r := ChunkTaken(s, x, chunk);
    assert r == SetExchange(s, x, e').(trace := s.trace + [Arrived(x, chunk)]);
    hide ChunkTaken;
    assert Ok(s, x, {}, {});
    TakenConsistent(s.records[x], e', x, chunk, History(s.trace, x));
    LiveHead(s, x);
    RecordSlots(s, x, e');
    TraceSlots(SetExchange(s, x, e'), r, x);
    UpdateNoting(s, r, x, Arrived(x, chunk));
  }

  lemma AnsweredReleaseOk(s: State, x: nat)
    requires Inv(s, {}, {}) && x in s.records && !s.records[x].done && s.records[x].answered
    ensures Inv(Release(s, x), {}, {}) && Keeps(s, Release(s, x), {})
  {
    hide Inv, Keeps, Release, Unended, History;
    ReleaseOk(s, x, {}, {});
    assert {} + {x} == {x};
    NothingToReport(Release(s, x), x, {}, {});
  }

  lemma BodyConsistent(e: Exchange, e': Exchange, h: seq<Signal>)
    requires Consistent(e, h) && Ended(e, h) && e' == e.(response := e.response.(body := e'.response.body))
    ensures Consistent(e', h) && Ended(e', h)
  {
  }

  lemma LiveHead(s: State, x: nat)
    requires x in s.records && Live(s, x) && !s.records[x].done
    ensures s.records[x].stream.None? ==> s.records[x].resumeTimer.Some?
    ensures s.records[x].stream.Some? && s.records[x].stream.value !in s.headed ==> !IsSuccess(s.records[x].response)
  {
  }

  lemma TraceSlots(s: State, r: State, x: nat)
    requires x in s.records && SlotsOk(s) && Live(s, x) && r == s.(trace := r.trace)
    ensures SlotsOk(r) && Live(r, x)
  {
  }

  lemma TakenConsistent(e: Exchange, e': Exchange, x: nat, chunk: Bytes, h: seq<Signal>)
    requires Consistent(e, h) && Ended(e, h) && !e.done && e.stream.Some?
    requires var (reader, events) := ReadChunk(DEFAULT_MAX_BUFFER_BYTES, e.reader, chunk);
             e' == TakeChunk(e, reader, events)
    ensures Consistent(e', h + [Arrived(x, chunk)]) && Ended(e', h + [Arrived(x, chunk)])
    ensures Answered(h) ==> Answered(h + [Arrived(x, chunk)])
    ensures e' == e.(reader := e'.reader, retryMs := e'.retryMs, backoffMs := e'.backoffMs)
  {
    hide ReadChunk;
    FailuresSnoc(h, Arrived(x, chunk));
    ReaderSnoc(h, Arrived(x, chunk));
    hide Failures, Answered, WasAbandoned, ReaderOf;
  }

  // ---- the end of a stream -----------------------------------------------------------------------

  lemma FinishFailureOk(env: Env, s: State, x: nat)
    requires Inv(s, {x}, {}) && x in s.records && s.records[x].done && Unended(History(s.trace, x))
    requires !s.records[x].answered
    ensures Inv(FinishFailure(env, s, x), {}, {}) && Keeps(s, FinishFailure(env, s, x), {x})
  {
    hide Inv, Keeps, Emit, DoStop, Unended, History;
    var e := s.records[x];
    assert {} + {x} == {x};
    ErrorSignalOk(s, x, {x}, {});
    var s1 := Emit(s, ErrorOccurred(Some(x)));
    var error := env.decode(e.response.body);
    var g := if error.Some? && error.value.hasError then Relayed(x, error.value.(id := e.message.id))
             else SendFailed(x);
    var s2 := if IsRequest(e.message) then Emit(s1, g) else s1;
    if IsRequest(e.message) {
      NoFailureYet(History(s1.trace, x));
      FailureOk(s1, x, g, {}, {});
    } else {
      NothingToReport(s1, x, {}, {});
    }
    KeepsTransitive(s, s1, s2, {x});
    if e.response.status == 404 && s2.sessionId != "" {
      var s3 := s2.(sessionId := "");
      OtherFieldsOf(s2, s3, {}, {});
      DoStopOk(s3, {}, {});
      KeepsTransitive(s2, s3, DoStop(s3), {});
      KeepsBusy(s2, DoStop(s3), x);
      KeepsTransitive(s, s2, DoStop(s3), {x});
    }
  }

  lemma NoFailureYet(h: seq<Signal>)
    requires Unended(h)
    ensures Failures(h) == 0
  {
  }

  lemma DeliverBodyOk(env: Env, s: State, x: nat)
    requires Inv(s, {x}, {}) && x in s.records && s.records[x].done && Unended(History(s.trace, x))
    ensures var r := DeliverBody(env, s, x);
            && Inv(r, {x}, {}) && Keeps(s, r, {x})
            && x in r.records && r.records[x].done && Unended(History(r.trace, x))
  {
    hide Inv, Keeps, Emit, Receive, Unended, History;
    KeepsSelf(s);
    KeepsBusy(s, s, x);
    var response := s.records[x].response;
    if response.status != 202 && response.body != [] && response.json {
      var reply := env.decode(response.body);
      if reply.Some? {
        ReceiveOk(s, x, reply.value, true, {x});
      } else {
        ErrorSignalOk(s, x, {x}, {});
      }
    }
  }

  lemma FinishSuccessOk(env: Env, s: State, x: nat)
    requires Inv(s, {x}, {}) && x in s.records && s.records[x].done && Unended(History(s.trace, x))
    ensures Inv(FinishSuccess(env, s, x), {}, {}) && Keeps(s, FinishSuccess(env, s, x), {x})
  {
    hide Inv, Keeps, Emit, DeliverBody, Unended, History;
    KeepsSelf(s);
    KeepsBusy(s, s, x);
    var s1 := if IsEventStream(s.records[x].response) then s else DeliverBody(env, s, x);
    if !IsEventStream(s.records[x].response) {
      DeliverBodyOk(env, s, x);
    }
    assert {} + {x} == {x};
    NoFailureYet(History(s1.trace, x));
    FailOneOk(s1, x, {}, {});
    KeepsMessage(s, s1, x);
    KeepsTransitive(s, s1, FinishSuccess(env, s, x), {x});
  }

  lemma KeepsMessage(s: State, r: State, x: nat)
    requires Keeps(s, r, {x}) && x in s.records
    ensures x in r.records && r.records[x].message == s.records[x].message
  {
  }

  lemma EndedOk(env: Env, s: State, s1: State, x: nat)
    requires Inv(s1, {x}, {}) && Keeps(s, s1, {}) && x in s1.records
    requires s1.records[x].done && Unended(History(s1.trace, x))
    requires s1.records[x].answered ==> IsSuccess(s1.records[x].response)
    ensures var r := if IsSuccess(s1.records[x].response) then FinishSuccess(env, s1, x) else FinishFailure(env, s1, x);
            Inv(r, {}, {}) && Keeps(s, r, {x})
  {
    hide *;
    KeepsBusy(s, s1, x);
    if IsSuccess(s1.records[x].response) {
      FinishSuccessOk(env, s1, x);
      KeepsTransitive(s, s1, FinishSuccess(env, s1, x), {x});
    } else {
      FinishFailureOk(env, s1, x);
      KeepsTransitive(s, s1, FinishFailure(env, s1, x), {x});
    }
  }

  lemma OnFinishedOk(env: Env, s: State, x: nat)
    requires Inv(s, {}, {}) && x in s.records && !s.records[x].done && s.records[x].stream.Some?
    ensures Inv(OnFinished(env, s, x), {}, {}) && Keeps(s, OnFinished(env, s, x), {x})
  {
    hide Inv, Keeps, ScheduleResume, FinishSuccess, FinishFailure, Release, Unended, History, CanResume;
    var e := s.records[x];
    var resumable := IsEventStream(e.response) || (e.resuming && IsTransientRefusal(e.response.status));
    if resumable && CanResume(e) {
      ScheduleResumeOk(s, x);
    } else {
      SuccessOnceAnswered(s, x);
      ReleaseOk(s, x, {}, {});
      assert {} + {x} == {x};
      EndedOk(env, s, Release(s, x), x);
    }
  }

  lemma SuccessOnceAnswered(s: State, x: nat)
    requires Inv(s, {}, {}) && x in s.records && !s.records[x].done
    ensures s.records[x].answered ==> IsSuccess(s.records[x].response)
  {
    assert Ok(s, x, {}, {});
  }

  // ---- every input ---------------------------------------------------------------------------------

  /** A connected stream belongs to an unfinished exchange. */
  lemma SlotTarget(s: State, st: nat)
    requires Inv(s, {}, {}) && st in s.slots && s.slots[st].ForExchange?
    ensures var x := s.slots[st].x; x in s.records && !s.records[x].done && s.records[x].stream.Some?
  {
  }

  lemma OtherStream(s: State, st: nat, x: nat)
    requires x in s.records && Live(s, x) && st in s.slots && s.slots[st].ForListen?
    ensures !s.records[x].done ==> s.records[x].stream != Some(st)
  {
  }

  lemma HeadedOk(s: State, st: nat)
    requires Inv(s, {}, {}) && st in s.slots && s.slots[st].ForListen?
    ensures Inv(s.(headed := s.headed + {st}), {}, {}) && Keeps(s, s.(headed := s.headed + {st}), {})
  {
    var r := s.(headed := s.headed + {st});
    assert SlotsOk(r);
    hide History, Consistent, Ended, Answered, SlotsOk;
    forall x | x in s.records ensures Ok(r, x, {}, {}) {
      assert Ok(s, x, {}, {});
      OtherStream(s, st, x);
    }
  }

  /** The exchange a step works on, if any; it is not finished yet. */
  function Target(s: State, input: Input): set<nat> {
    if input.ResumeTimeout? then {input.x}
    else if (input.Headers? || input.Chunk? || input.Finished? || input.Failed? || input.Destroyed?)
            && input.stream in s.slots && s.slots[input.stream].ForExchange?
    then {s.slots[input.stream].x}
    else {}
  }

  lemma StepOk(env: Env, s: State, input: Input)
    requires Inv(s, {}, {})
    ensures Inv(Step(env, s, input), {}, {}) && Keeps(s, Step(env, s, input), Target(s, input))
    ensures forall x :: x in Target(s, input) && x in s.records && s.records[x].done
              ==> Step(env, s, input) == s
  {
    hide Inv, Keeps, Do, OnListenHeaders, OnHeaders, OnListenChunk, OnChunk, OnListenEnded,
      OnFinished, OnError, OnDestroyed, OnResumeTimeout, OpenListenStream;
    KeepsSelf(s);
    match input
    case Command(call) => DoOk(s, call, {}, {});
    case ResumeTimeout(x) =>
      KeepsBusy(s, s, x);
      if x in s.records && s.records[x].resumeTimer.Some? {
        OnResumeTimeoutOk(s, x);
      }
    case ListenTimeout =>
      if s.listen.retryTimer.Some? {
        var s1 := s.(listen := s.listen.(retryTimer := None));
        OtherFieldsOf(s, s1, {}, {});
        OpenListenStreamOk(s1, {}, {});
        KeepsTransitive(s, s1, OpenListenStream(s1), {});
      }
    case HttpDestroyed => OtherFieldsOf(s, Step(env, s, input), {}, {});
    case _ => StreamStepOk(env, s, input);
  }

  lemma StreamStepOk(env: Env, s: State, input: Input)
    requires Inv(s, {}, {})
    requires input.Headers? || input.Chunk? || input.Finished? || input.Failed? || input.Destroyed?
    ensures Inv(Step(env, s, input), {}, {}) && Keeps(s, Step(env, s, input), Target(s, input))
    ensures forall x :: x in Target(s, input) ==> x in s.records && !s.records[x].done
  {
    hide Inv, Keeps, Do, OnListenHeaders, OnHeaders, OnListenChunk, OnChunk, OnListenEnded,
      OnFinished, OnError, OnDestroyed, OnResumeTimeout, OpenListenStream;
    KeepsSelf(s);
    var st := input.stream;
    if st in s.slots {
      if s.slots[st].ForListen? {
        match input
        case Headers(_, head) =>
          if st !in s.headed {
            var s1 := s.(headed := s.headed + {st});
            HeadedOk(s, st);
            OnListenHeadersOk(s1, head);
            KeepsTransitive(s, s1, OnListenHeaders(s1, head), {});
          }
        case Chunk(_, bytes) => OnListenChunkOk(env, s, bytes);
        case Finished(_, settled) => OnListenEndedOk(s, settled);
        case Failed(_, settled) => OnListenEndedOk(s, settled);
        case Destroyed(_, settled) => OnListenEndedOk(s, settled);
        case _ =>
      } else {
        SlotTarget(s, st);
        var x := s.slots[st].x;
        KeepsBusy(s, s, x);
        match input
        case Headers(_, head) =>
          if st !in s.headed {
            OnHeadersOk(s, x, st, head);
          }
        case Chunk(_, bytes) => OnChunkOk(env, s, x, bytes);
        case Finished(_, _) => OnFinishedOk(env, s, x);
        case Failed(_, _) => OnErrorOk(s, x);
        case Destroyed(_, _) => OnDestroyedOk(s, x);
        case _ =>
      }
    }
  }

  lemma InitialOk(outcomes: seq<bool>, script: seq<seq<Call>>)
    ensures Inv(Initial(outcomes, script), {}, {})
  {
  }

  lemma {:induction false} RunOk(env: Env, s: State, inputs: seq<Input>)
    requires Inv(s, {}, {})
    ensures Inv(Run(env, s, inputs), {}, {})
    decreases |inputs|
  {
    hide Inv, Step;
    if inputs != [] {
      StepOk(env, s, inputs[0]);
      RunOk(env, Step(env, s, inputs[0]), inputs[1..]);
    }
  }

  // ---- what it comes to --------------------------------------------------------------------------

  /**
   After any run: while a request is in the list nothing final has been said about it and its
   stream or its resume timer is still there; once it has left, exactly one of these holds: it was
   answered, its failure was reported once, or the caller dropped it unanswered. What counts as its
   answer answers it, and an error body relayed for it has its id.
   */
  lemma EndsExactlyOnce(env: Env, outcomes: seq<bool>, script: seq<seq<Call>>, inputs: seq<Input>, x: nat)
    requires x in Run(env, Initial(outcomes, script), inputs).records
    ensures var s := Run(env, Initial(outcomes, script), inputs);
            var e, h := s.records[x], History(s.trace, x);
            && Failures(h) <= 1
            && (x in s.table ==> Failures(h) == 0 && !WasAbandoned(h))
            && (x in s.table && e.resumeTimer.None? ==>
                  e.stream.Some? && e.stream.value in s.slots && s.slots[e.stream.value] == ForExchange(x))
            && (x !in s.table && IsRequest(e.message) ==>
                  || (Answered(h) && Failures(h) == 0)
                  || (!Answered(h) && Failures(h) == 1 && !WasAbandoned(h))
                  || (!Answered(h) && Failures(h) == 0 && WasAbandoned(h)))
            && (!IsRequest(e.message) ==> Failures(h) == 0)
            && Fitting(e.message, h)
  {
    InitialOk(outcomes, script);
    RunOk(env, Initial(outcomes, script), inputs);
    var s := Run(env, Initial(outcomes, script), inputs);
    assert Ok(s, x, {}, {});
    hide History, Failures, Answered, WasAbandoned;
  }

  /** Once an exchange has left the list, no later input or handler says anything about it. */
  lemma {:induction false} FinishedStaysSilent(env: Env, s: State, inputs: seq<Input>, x: nat)
    requires Inv(s, {}, {}) && x in s.records && x !in s.table
    ensures var r := Run(env, s, inputs);
            x in r.records && x !in r.table && r.records[x] == s.records[x]
            && History(r.trace, x) == History(s.trace, x)
    decreases |inputs|
  {
    assert Ok(s, x, {}, {});
    if inputs != [] {
      var s1 := Step(env, s, inputs[0]);
      StepOk(env, s, inputs[0]);
      SilentStep(env, s, inputs[0], x);
      hide Inv, Keeps, Step, History;
      FinishedStaysSilent(env, s1, inputs[1..], x);
    }
  }

  lemma SilentStep(env: Env, s: State, input: Input, x: nat)
    requires Inv(s, {}, {}) && x in s.records && s.records[x].done
    ensures var r := Step(env, s, input);
            && x in r.records && x !in r.table && r.records[x] == s.records[x]
            && History(r.trace, x) == History(s.trace, x)
  {
    var r := Step(env, s, input);
    StepOk(env, s, input);
    hide Step, Target, History;
    assert x in Target(s, input) ==> r == s;
    assert Keeps(s, r, Target(s, input));
    assert Ok(r, x, {}, {});
  }

  /** Why a failing response may be reported without asking whether a reply came before. */
  lemma AnsweredMeansSuccess(env: Env, outcomes: seq<bool>, script: seq<seq<Call>>, inputs: seq<Input>, x: nat)
    requires x in Run(env, Initial(outcomes, script), inputs).table
    ensures var s := Run(env, Initial(outcomes, script), inputs);
            x in s.records && (s.records[x].answered ==> IsSuccess(s.records[x].response))
  {
    hide Run, Initial;
    InitialOk(outcomes, script);
    RunOk(env, Initial(outcomes, script), inputs);
    var s := Run(env, Initial(outcomes, script), inputs);
    assert x in s.records && Ok(s, x, {}, {});
    SuccessOnceAnswered(s, x);
  }

  /**
   `finished` reports a failing response without asking whether the request was answered: were an
   answered exchange ever to hold a failing response, it would be reported as failed all the same,
   whatever the application does. `AnsweredMeansSuccess` shows that no run gets there.
   */
  lemma FailureIgnoresAnswer(env: Env, s: State, x: nat)
    requires x in s.records && s.records[x].answered && IsRequest(s.records[x].message)
    requires !IsSuccess(s.records[x].response)
    ensures var r := OnFinished(env, s, x);
            exists j :: |s.trace| <= j < |r.trace| && IsFailure(r.trace[j]) && About(r.trace[j]) == Some(x)
  {
    hide Emit, DoStop, Remove;
    var e, s1 := s.records[x], Release(s, x);
    var s2 := Emit(s1, ErrorOccurred(Some(x)));
    var error := env.decode(e.response.body);
    var f := if error.Some? && error.value.hasError then Relayed(x, error.value.(id := e.message.id)) else SendFailed(x);
    var s3 := Emit(s2, f);
    var r := OnFinished(env, s, x);
    assert r == if e.response.status == 404 && s3.sessionId != "" then DoStop(s3.(sessionId := "")) else s3;
    assert s2.trace + [f] <= r.trace;
    assert r.trace[|s2.trace|] == f && |s2.trace| >= |s.trace|;
  }
}
