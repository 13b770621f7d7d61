/**
 Resuming a dropped response stream with `Last-Event-ID`, as the exchanges of the Streamable HTTP
 transport do (MCP 2025-03-26, "Resumability and Redelivery"): whatever bytes a connection is cut
 after, the events read over all connections are a prefix of the server's log.
 */
module SseResume {
  import opened ByteStrings
  import opened Options
  import opened Sse
  import opened SseFormat

  /** The part of an exchange that reads its event stream. */
  datatype Reader = Reader(events: Parser, cursor: Bytes)

  const FreshReader: Reader := Reader(Parser([], false, Cleared), [])

  /** A chunk arrives: the cursor follows the parser's last event id. */
  function ReadChunk(limit: int, r: Reader, chunk: Bytes): (Reader, seq<Event>) {
    var (p, events) := AppendSpec(limit, r.events, chunk);
    (Reader(p, p.fields.lastEventId), events)
  }

  /** A new connection: partial state is thrown away and the cursor is seeded again. */
  function Resume(r: Reader): Reader {
    r.(events := Parser([], false, Cleared.(idBuffer := r.cursor, lastEventId := r.cursor)))
  }

  function ReadAll(limit: int, r: Reader, chunks: seq<Bytes>): (Reader, seq<Event>)
    decreases |chunks|
  {
    if chunks == [] then (r, [])
    else
      var (r1, first) := ReadChunk(limit, r, chunks[0]);
      var (r2, more) := ReadAll(limit, r1, chunks[1..]);
      (r2, first + more)
  }

  /** Every connection after the first one resumes. */
  function ReadConnections(limit: int, r: Reader, connections: seq<seq<Bytes>>): (Reader, seq<Event>)
    decreases |connections|
  {
    if connections == [] then (r, [])
    else
      var (r1, first) := ReadAll(limit, Resume(r), connections[0]);
      var (r2, more) := ReadConnections(limit, r1, connections[1..]);
      (r2, first + more)
  }

  // ---- the server -------------------------------------------------------------

  /** One event of the server's log and the bytes the server sends for it. */
  datatype Entry = Entry(bytes: Bytes, event: Event)

  function Stream(log: seq<Entry>): Bytes {
    if log == [] then [] else log[0].bytes + Stream(log[1..])
  }

  function EventsOf(log: seq<Entry>): seq<Event> {
    if log == [] then [] else [log[0].event] + EventsOf(log[1..])
  }

  /** What a GET with this `Last-Event-ID` replays. */
  function Replay(log: seq<Entry>, cursor: Bytes): seq<Entry> {
    if log == [] then []
    else if log[0].event.id == cursor then log[1..]
    else Replay(log[1..], cursor)
  }

  /** Reading the whole entry from an idle parser gives its event and commits its id. */
  predicate Delivers(limit: int, f: Fields, e: Entry) {
    var r := FoldLines(limit, f, Lines(e.bytes));
    r.events == [e.event] && Idle(r.fields) && r.fields.lastEventId == e.event.id
  }

  /** Some lines that are not blank and then one that is; any terminators, any other fields. */
  predicate IsBlock(bytes: Bytes) {
    var lines := Lines(bytes);
    && Rest(bytes) == [] && |lines| >= 2
    && lines[|lines| - 1] == [] && [] !in lines[..|lines| - 1]
  }

  ghost predicate Renders(limit: int, e: Entry) {
    && IsBlock(e.bytes) && LinesFit(limit, e.bytes)
    && forall f :: Idle(f) ==> Delivers(limit, f, e)
  }

  ghost predicate ValidLog(limit: int, log: seq<Entry>) {
    && (forall e :: e in log ==> Renders(limit, e) && e.event.id != [])
    && forall i, j :: 0 <= i < j < |log| ==> log[i].event.id != log[j].event.id
  }

  /** The formatter's own output is one such rendering. */
  lemma FormatRenders(limit: int, e: Event)
    requires Printable(e) && SizesFit(limit, e)
    requires e.kind != [] && e.id != [] && e.data != [] && e.data[0] != LF
    ensures Renders(limit, Entry(FormatSpec(e), e))
  {
    var entry := Entry(FormatSpec(e), e);
    var lines := FormatLines(e);
    PlainEvent(e);
    FormatIsBlock(e);
    forall f | Idle(f) ensures Delivers(limit, f, entry) {
      EventFold(limit, f, e);
      assert Received([e][1..], IdAfter(e, f.idBuffer)) == [];
      assert StripLf(e.data) == e.data;
    }
  }

  lemma FormatIsBlock(e: Event)
    requires Printable(e) && e.data != []
    ensures IsBlock(FormatSpec(e)) && Lines(FormatSpec(e)) == FormatLines(e)
  {
    var lines := FormatLines(e);
    PlainEvent(e);
    NothingToSplit();
    assert Terminated(lines) + [] == Terminated(lines);
    LinesOfTerminated(lines, []);
    assert lines + [] == lines;
    var body := KindLines(e.kind) + (DataLines(e.data) + IdLines(e.id));
    assert lines == body + [[]];
    NotBlank(SplitLf(e.data));
    assert [] !in body;
  }

  lemma {:induction false} NotBlank(parts: seq<Bytes>)
    ensures [] !in DataLinesOf(parts) && |DataLinesOf(parts)| == |parts|
    decreases |parts|
  {
    if parts != [] {
      NotBlank(parts[1..]);
    }
  }

  // ---- one connection ---------------------------------------------------------

  lemma {:induction false} NonBlankLinesCommitNothing(limit: int, f: Fields, lines: seq<Bytes>)
    requires [] !in lines
    ensures var r := FoldLines(limit, f, lines); r.events == [] && r.fields.lastEventId == f.lastEventId
    decreases |lines|
  {
    if lines != [] {
      NonBlankLineCommitsNothing(limit, f, lines[0]);
      hide ProcessLine;
      NonBlankLinesCommitNothing(limit, ProcessLine(limit, f, lines[0]).fields, lines[1..]);
    }
  }

  lemma NonBlankLineCommitsNothing(limit: int, f: Fields, line: Bytes)
    requires line != []
    ensures var r := ProcessLine(limit, f, line); r.events == [] && r.fields.lastEventId == f.lastEventId
  {
  }

  lemma BlockStart(bytes: Bytes)
    requires IsBlock(bytes)
    ensures bytes != [] && bytes[0] != LF
  {
    var body := Lines(bytes)[..|Lines(bytes)| - 1];
    assert body[0] == bytes[..Terminator(bytes)] && body[0] in body;
  }

  /** A block and then more of the stream splits at the block's end. */
  lemma {:induction false} LinesAfterBlock(bytes: Bytes, tail: Bytes)
    requires IsBlock(bytes)
    requires tail == [] || tail[0] != LF
    ensures Lines(bytes + tail) == Lines(bytes) + Lines(tail)
    ensures Rest(bytes + tail) == Rest(tail)
  {
    hide Lines, Rest;
    LinesConcat(bytes, tail);
    assert [] + tail == tail;
  }

  lemma {:induction false} StreamStart(limit: int, log: seq<Entry>)
    requires forall e :: e in log ==> Renders(limit, e)
    ensures Stream(log) == [] || Stream(log)[0] != LF
  {
    if log != [] {
      assert log[0] in log;
      BlockStart(log[0].bytes);
    }
  }

  lemma {:induction false} StreamFits(limit: int, log: seq<Entry>)
    requires forall e :: e in log ==> Renders(limit, e)
    ensures LinesFit(limit, Stream(log))
  {
    if log == [] {
      NothingToSplit();
    } else {
      assert log[0] in log;
      StreamFits(limit, log[1..]);
      StreamStart(limit, log[1..]);
      LinesAfterBlock(log[0].bytes, Stream(log[1..]));
    }
  }

  lemma {:induction false} FoldFirstBlock(limit: int, f: Fields, e: Entry, tail: Bytes)
    requires Idle(f) && Renders(limit, e)
    requires tail == [] || tail[0] != LF
    ensures var after := FoldLines(limit, f, Lines(e.bytes)).fields;
            var r := FoldLines(limit, after, Lines(tail));
            && Idle(after) && after.lastEventId == e.event.id
            && FoldLines(limit, f, Lines(e.bytes + tail)) == Parsed(r.fields, [e.event] + r.events)
  {
    LinesAfterBlock(e.bytes, tail);
    assert Delivers(limit, f, e);
    hide FoldLines, Lines, Rest;
    FoldConcat(limit, f, Lines(e.bytes), Lines(tail));
  }

  /** A part of a block delivers nothing, or the whole event when only the last LF is missing. */
  lemma {:induction false} PartOfBlock(limit: int, f: Fields, e: Entry, part: Bytes)
    requires Idle(f) && Renders(limit, e)
    requires part <= e.bytes
    ensures var r := FoldLines(limit, f, Lines(part));
            || (r.events == [] && r.fields.lastEventId == f.lastEventId)
            || (r.events == [e.event] && r.fields.lastEventId == e.event.id)
  {
    var whole := Lines(e.bytes);
    var c := e.bytes[|part|..];
    assert e.bytes == part + c;
    assert Delivers(limit, f, e);
    hide FoldLines, Lines, Rest;
    LinesConcat(part, c);
    var lines := Lines(part);
    if |lines| == |whole| {
      assert lines == whole;
    } else {
      assert lines == whole[..|lines|];
      assert forall i :: 0 <= i < |lines| ==> lines[i] == whole[..|whole| - 1][i];
      NonBlankLinesCommitNothing(limit, f, lines);
    }
  }

  /** Where a reader stands after `n` events of `log`. */
  function IdAt(log: seq<Entry>, n: nat, start: Bytes): Bytes
    requires n <= |log|
  {
    if n == 0 then start else log[n - 1].event.id
  }

  /** A connection that is cut anywhere has delivered the first `n` events and points at the last. */
  lemma {:induction false} CutStream(limit: int, f: Fields, log: seq<Entry>, part: Bytes) returns (n: nat)
    requires Idle(f) && forall e :: e in log ==> Renders(limit, e)
    requires part <= Stream(log)
    ensures n <= |log|
    ensures var r := FoldLines(limit, f, Lines(part));
            r.events == EventsOf(log[..n]) && r.fields.lastEventId == IdAt(log, n, f.lastEventId)
    ensures part == Stream(log) ==> n == |log|
    decreases |log|
  {
    hide Lines, Rest, FoldLines, Renders, EventsOf;
    n := 0;
    if log == [] {
      NothingToSplit();
      FoldOne(limit, f, []);
      FirstEvents(log);
    } else {
      var e, tail := log[0], Stream(log[1..]);
      assert e in log;
      FirstEvents(log);
      if |part| < |e.bytes| {
        assert part == e.bytes[..|part|];
        PartOfBlock(limit, f, e, part);
        if FoldLines(limit, f, Lines(part)).events != [] {
          n := 1;
        }
      } else {
        var more := part[|e.bytes|..];
        assert part == e.bytes + more && more == tail[..|more|];
        StreamStart(limit, log[1..]);
        FoldFirstBlock(limit, f, e, more);
        var after := FoldLines(limit, f, Lines(e.bytes)).fields;
        var m := CutStream(limit, after, log[1..], more);
        n := m + 1;
        MoreEvents(log, n);
        assert part == Stream(log) ==> more == tail;
      }
    }
  }

  lemma FirstEvents(log: seq<Entry>)
    ensures EventsOf(log[..0]) == []
    ensures log != [] ==> EventsOf(log[..1]) == [log[0].event]
  {
    if log != [] {
      assert log[..1][1..] == [];
    }
  }

  lemma MoreEvents(log: seq<Entry>, n: nat)
    requires 0 < n <= |log|
    ensures EventsOf(log[..n]) == [log[0].event] + EventsOf(log[1..][..n - 1])
  {
    assert log[..n][1..] == log[1..][..n - 1];
  }

  lemma {:induction false} ReadAllIsAppendAll(limit: int, p: Parser, c: Bytes, chunks: seq<Bytes>)
    requires c == p.fields.lastEventId
    ensures var r := AppendAll(limit, p, chunks);
            ReadAll(limit, Reader(p, c), chunks) == (Reader(r.0, r.0.fields.lastEventId), r.1)
    decreases |chunks|
  {
    hide AppendSpec;
    if chunks != [] {
      var p1 := AppendSpec(limit, p, chunks[0]).0;
      ReadAllIsAppendAll(limit, p1, p1.fields.lastEventId, chunks[1..]);
    }
  }

  /** One connection, from a reader that starts at `cursor`, in any chunking. */
  lemma {:induction false} ReadConnection(limit: int, log: seq<Entry>, cursor: Bytes, chunks: seq<Bytes>)
    returns (n: nat)
    requires forall e :: e in log ==> Renders(limit, e)
    requires Concat(chunks) <= Stream(log)
    ensures n <= |log|
    ensures var r := ReadAll(limit, Resume(Reader(FreshReader.events, cursor)), chunks);
            r.1 == EventsOf(log[..n]) && r.0.cursor == IdAt(log, n, cursor)
    ensures Concat(chunks) == Stream(log) ==> n == |log|
  {
    var f := Cleared.(idBuffer := cursor, lastEventId := cursor);
    var part := Concat(chunks);
    n := CutStream(limit, f, log, part);
    StreamFits(limit, log);
    assert Stream(log) == part + Stream(log)[|part|..];
    PrefixFits(limit, part, Stream(log)[|part|..]);
    ReadAllIsAppendAll(limit, Parser([], false, f), cursor, chunks);
    hide Lines, Rest, FoldLines, LinesFit, AppendAll, ReadAll;
    ChunkingDoesNotMatter(limit, f, chunks);
  }

  // ---- all connections ----------------------------------------------------------

  /** Every connection carries some prefix of the replay after the cursor it resumed with. */
  predicate Served(limit: int, log: seq<Entry>, r: Reader, connections: seq<seq<Bytes>>)
    decreases |connections|
  {
    connections != [] ==>
      && r.cursor != []
      && Concat(connections[0]) <= Stream(Replay(log, r.cursor))
      && Served(limit, log, ReadAll(limit, Resume(r), connections[0]).0, connections[1..])
  }

  lemma {:induction false} ReplayFollows(log: seq<Entry>, n: nat)
    requires 0 < n <= |log|
    requires forall i, j :: 0 <= i < j < |log| ==> log[i].event.id != log[j].event.id
    ensures Replay(log, log[n - 1].event.id) == log[n..]
  {
    if n > 1 {
      ReplayFollows(log[1..], n - 1);
      assert log[1..][n - 2] == log[n - 1] && log[1..][n - 1..] == log[n..];
    }
  }

  lemma {:induction false} EventsConcat(a: seq<Entry>, b: seq<Entry>)
    ensures EventsOf(a + b) == EventsOf(a) + EventsOf(b)
  {
    hide *;
    EventsStep(a);
    EventsStep(a + b);
    if a == [] {
      assert a + b == b;
    } else {
      EventsConcat(a[1..], b);
      assert (a + b)[1..] == a[1..] + b;
      EventsRegroup([a[0].event], EventsOf(a[1..]), EventsOf(b));
    }
  }

  lemma EventsRegroup(a: seq<Event>, b: seq<Event>, c: seq<Event>)
    ensures (a + b) + c == a + (b + c)
  {
  }

  lemma EventsStep(log: seq<Entry>)
    ensures EventsOf(log) == if log == [] then [] else [log[0].event] + EventsOf(log[1..])
  {
  }

  lemma {:induction false} ResumedConnections(limit: int, log: seq<Entry>, r: Reader, k: nat,
                                              connections: seq<seq<Bytes>>) returns (n: nat)
    requires ValidLog(limit, log) && k <= |log|
    requires r.cursor == IdAt(log, k, [])
    requires Served(limit, log, r, connections)
    ensures k <= n <= |log|
    ensures var all := ReadConnections(limit, r, connections);
            all.1 == EventsOf(log[k..n]) && all.0.cursor == IdAt(log, n, [])
    decreases |connections|
  {
    hide Renders, ReadAll, Replay, Stream, EventsOf;
    n := k;
    if connections == [] {
      assert log[k..k] == [];
      FirstEvents(log[k..]);
      assert log[k..][..0] == [];
    } else {
      var rest := log[k..];
      ReplayFollows(log, k);
      assert forall e :: e in rest ==> e in log;
      assert Resume(r) == Resume(Reader(FreshReader.events, r.cursor));
      var m := ReadConnection(limit, rest, r.cursor, connections[0]);
      var r1 := ReadAll(limit, Resume(r), connections[0]).0;
      assert m > 0 ==> rest[m - 1] == log[k + m - 1];
      n := ResumedConnections(limit, log, r1, k + m, connections[1..]);
      assert log[k..n] == rest[..m] + log[k + m..n];
      EventsConcat(rest[..m], log[k + m..n]);
    }
  }

  /**
   The events read over the first connection and all resumed ones are a prefix of the log, none
   lost and none repeated, and the cursor names the last of them.
   */
  lemma {:induction false} ResumptionIsExact(limit: int, log: seq<Entry>, first: seq<Bytes>,
                                             resumed: seq<seq<Bytes>>) returns (n: nat)
    requires ValidLog(limit, log)
    requires Concat(first) <= Stream(log)
    requires Served(limit, log, ReadAll(limit, FreshReader, first).0, resumed)
    ensures n <= |log|
    ensures var (r, before) := ReadAll(limit, FreshReader, first);
            var (last, after) := ReadConnections(limit, r, resumed);
            && before + after == EventsOf(log[..n])
            && before + after <= EventsOf(log)
            && last.cursor == IdAt(log, n, [])
  {
    hide *;
    ValidEntries(limit, log);
    NothingToResume();
    var k := ReadConnection(limit, log, [], first);
    n := ResumedConnections(limit, log, ReadAll(limit, FreshReader, first).0, k, resumed);
    EventsUpTo(log, k, n);
  }

  lemma ValidEntries(limit: int, log: seq<Entry>)
    requires ValidLog(limit, log)
    ensures forall e :: e in log ==> Renders(limit, e)
  {
  }

  lemma NothingToResume()
    ensures Resume(Reader(FreshReader.events, [])) == FreshReader
  {
  }

  lemma {:induction false} EventsUpTo(log: seq<Entry>, k: nat, n: nat)
    requires k <= n <= |log|
    ensures EventsOf(log[..k]) + EventsOf(log[k..n]) == EventsOf(log[..n])
    ensures EventsOf(log[..n]) <= EventsOf(log)
  {
    hide *;
    assert log[..n] == log[..k] + log[k..n];
    EventsConcat(log[..k], log[k..n]);
    assert log == log[..n] + log[n..];
    EventsConcat(log[..n], log[n..]);
  }

  /** A resumed connection that is served to its end leaves nothing out. */
  lemma {:induction false} FullReplayCompletes(limit: int, log: seq<Entry>, r: Reader, k: nat, chunks: seq<Bytes>)
    requires ValidLog(limit, log) && 0 < k <= |log|
    requires r.cursor == IdAt(log, k, [])
    requires Concat(chunks) == Stream(Replay(log, r.cursor))
    ensures EventsOf(log[..k]) + ReadAll(limit, Resume(r), chunks).1 == EventsOf(log)
  {
    ReplayFollows(log, k);
    assert forall e :: e in log[k..] ==> e in log;
    assert Resume(r) == Resume(Reader(FreshReader.events, r.cursor));
    hide Renders, ReadAll, EventsOf, Stream;
    var m := ReadConnection(limit, log[k..], r.cursor, chunks);
    assert log[k..][..m] == log[k..] && log == log[..k] + log[k..];
    EventsConcat(log[..k], log[k..]);
  }
}
