/**
 The incremental event-stream parser (source/network/SSEParser.cpp), following
 sections 9.2.5 and 9.2.6 of the WHATWG HTML Living Standard.

 `Lines` and `Rest` split a whole stream at once; `AppendSpec` is one call of
 `append`, and `SseParser` is the class itself.
 */
module Sse {
  import opened ByteStrings
  import opened Options

  /** A dispatched event; `kind` is the source's `type`. */
  datatype Event = Event(kind: Bytes, data: Bytes, id: Bytes)

  /** Everything the parser remembers between two lines. */
  datatype Fields = Fields(kind: Bytes, data: Bytes, idBuffer: Bytes, lastEventId: Bytes,
                           retryMs: Option<nat>, dropping: bool)

  /** The result of handling some lines: the new fields and the events emitted. */
  datatype Parsed = Parsed(fields: Fields, events: seq<Event>)

  /** The whole parser state; the buffer never holds a line terminator. */
  datatype Parser = Parser(buffer: Bytes, skipLineFeed: bool, fields: Fields)

  const EVENT: Bytes := [101, 118, 101, 110, 116]
  const DATA: Bytes := [100, 97, 116, 97]
  const ID: Bytes := [105, 100]
  const RETRY: Bytes := [114, 101, 116, 114, 121]
  const MESSAGE: Bytes := [109, 101, 115, 115, 97, 103, 101]

  const INT_MAX: nat := 2147483647

  const Cleared: Fields := Fields([], [], [], [], None, false)

  // ---- one line -------------------------------------------------------------

  /** `field:value`, with one space after the colon dropped; no colon means an empty value. */
  function FieldName(line: Bytes): Bytes { line[..IndexOf(line, COLON)] }

  function FieldValue(line: Bytes): Bytes {
    var colon := IndexOf(line, COLON);
    if colon == |line| then []
    else if colon + 1 < |line| && line[colon + 1] == SPACE then line[colon + 2..]
    else line[colon + 1..]
  }

  predicate IsDigits(value: Bytes) {
    value != [] && forall i :: 0 <= i < |value| ==> 48 <= value[i] <= 57
  }

  function Decimal(value: Bytes): nat
    requires forall i :: 0 <= i < |value| ==> 48 <= value[i] <= 57
  {
    if value == [] then 0
    else 10 * Decimal(value[..|value| - 1]) + (value[|value| - 1] as int - 48)
  }

  function Dispatch(f: Fields): Parsed {
    var f' := f.(lastEventId := f.idBuffer, kind := [], data := [], dropping := false);
    if !f.dropping && f.data != []
    then Parsed(f', [Event(if f.kind == [] then MESSAGE else f.kind, f.data, f.idBuffer)])
    else Parsed(f', [])
  }

  /** A limit that is not positive means no limit. */
  function TakeData(limit: int, f: Fields, value: Bytes): Fields {
    if f.dropping then f
    else if limit > 0 && |f.data| + |value| > limit then f.(data := [], dropping := true)
    else if f.data == [] then f.(data := value)
    else f.(data := f.data + [LF] + value)
  }

  function TakeField(limit: int, f: Fields, name: Bytes, value: Bytes): Fields {
    if name == EVENT then f.(kind := value)
    else if name == DATA then TakeData(limit, f, value)
    else if name == ID then if NUL in value then f else f.(idBuffer := value)
    else if name == RETRY && IsDigits(value) then
      f.(retryMs := Some(if Decimal(value) <= INT_MAX then Decimal(value) else INT_MAX))
    else f
  }

  function ProcessLine(limit: int, f: Fields, line: Bytes): Parsed {
    if line == [] then Dispatch(f)
    else if line[0] == COLON then Parsed(f, [])
    else Parsed(TakeField(limit, f, FieldName(line), FieldValue(line)), [])
  }

  /** Handling the lines one after another. */
  function FoldLines(limit: int, f: Fields, lines: seq<Bytes>): Parsed
    decreases |lines|
  {
    if lines == [] then Parsed(f, [])
    else
      var head := ProcessLine(limit, f, lines[0]);
      var tail := FoldLines(limit, head.fields, lines[1..]);
      Parsed(tail.fields, head.events + tail.events)
  }

  lemma {:induction false} FoldConcat(limit: int, f: Fields, a: seq<Bytes>, b: seq<Bytes>)
    ensures FoldLines(limit, f, a + b)
         == var x := FoldLines(limit, f, a);
            var y := FoldLines(limit, x.fields, b);
            Parsed(y.fields, x.events + y.events)
    decreases |a|
  {
    hide ProcessLine;
    if a == [] {
      assert a + b == b;
    } else {
      FoldConcat(limit, ProcessLine(limit, f, a[0]).fields, a[1..], b);
      assert (a + b)[1..] == a[1..] + b;
    }
  }

  // ---- a whole stream -------------------------------------------------------

  predicate IsTerminator(b: byte) { b == LF || b == CR }

  /** The position of the first line terminator, or `|s|`. */
  function Terminator(s: Bytes): (t: nat)
    ensures t <= |s|
    ensures t < |s| ==> IsTerminator(s[t])
    ensures forall j :: 0 <= j < t ==> !IsTerminator(s[j])
  {
    if s == [] || IsTerminator(s[0]) then 0 else 1 + Terminator(s[1..])
  }

  /** Where the next line starts: CR LF, CR and LF each end exactly one line. */
  function After(s: Bytes): (a: nat)
    requires Terminator(s) < |s|
    ensures Terminator(s) < a <= |s|
  {
    var t := Terminator(s);
    if s[t] == CR && t + 1 < |s| && s[t + 1] == LF then t + 2 else t + 1
  }

  /** The terminated lines of a stream, without their terminators. */
  function Lines(s: Bytes): seq<Bytes>
    decreases |s|
  {
    if Terminator(s) == |s| then [] else [s[..Terminator(s)]] + Lines(s[After(s)..])
  }

  /** The bytes after the last terminator. */
  function Rest(s: Bytes): (r: Bytes)
    ensures Terminator(r) == |r|
    decreases |s|
  {
    if Terminator(s) == |s| then s else Rest(s[After(s)..])
  }

  predicate EndsWithCr(s: Bytes) { s != [] && s[|s| - 1] == CR }

  /** `chunk` without the line feed that completes a CR at the end of the bytes before it. */
  function Unskip(skip: bool, chunk: Bytes): Bytes {
    if skip && chunk != [] && chunk[0] == LF then chunk[1..] else chunk
  }

  lemma {:induction false} TerminatorIs(s: Bytes, t: nat)
    requires t <= |s|
    requires forall j :: 0 <= j < t ==> !IsTerminator(s[j])
    requires t < |s| ==> IsTerminator(s[t])
    ensures Terminator(s) == t
  {
  }

  lemma LinesStep(s: Bytes, t: nat, a: nat)
    requires Terminator(s) == t < |s| && After(s) == a
    ensures Lines(s) == [s[..t]] + Lines(s[a..])
    ensures Rest(s) == Rest(s[a..])
    ensures Lines([]) == [] && Rest([]) == []
  {
  }

  /** Splitting a stream that arrives in two pieces. */
  lemma {:induction false} LinesConcat(s: Bytes, c: Bytes)
    ensures Lines(s + c) == Lines(s) + Lines(Rest(s) + Unskip(EndsWithCr(s), c))
    ensures Rest(s + c) == Rest(Rest(s) + Unskip(EndsWithCr(s), c))
    decreases |s|
  {
    var t := Terminator(s);
    if t == |s| {
      assert !EndsWithCr(s);
    } else if c == [] {
      assert s + c == s && Rest(s) + c == Rest(s);
      RestHasNoLines(s);
    } else {
      LinesConcatStep(s, c);
    }
  }

  lemma {:induction false} TerminatorConcat(s: Bytes, c: Bytes)
    requires Terminator(s) < |s|
    ensures Terminator(s + c) == Terminator(s)
    ensures (s + c)[..Terminator(s)] == s[..Terminator(s)]
  {
    TerminatorIs(s + c, Terminator(s));
  }

  lemma {:induction false} AfterConcat(s: Bytes, c: Bytes)
    requires Terminator(s) < |s| && c != []
    ensures if SplitsCrLf(s, c)
            then Terminator(s + c) < |s + c| && After(s + c) == |s| + 1 && (s + c)[After(s + c)..] == c[1..]
            else Terminator(s + c) < |s + c| && After(s + c) == After(s)
                 && (s + c)[After(s + c)..] == s[After(s)..] + c
  {
    TerminatorConcat(s, c);
  }

  predicate SplitsCrLf(s: Bytes, c: Bytes)
    requires Terminator(s) < |s| && c != []
  {
    EndsWithCr(s) && Terminator(s) + 1 == |s| && c[0] == LF
  }

  lemma {:induction false} UnskipStep(s: Bytes, c: Bytes)
    requires Terminator(s) < |s| && c != []
    ensures !SplitsCrLf(s, c) ==> Unskip(EndsWithCr(s[After(s)..]), c) == Unskip(EndsWithCr(s), c)
    ensures SplitsCrLf(s, c) ==> [] + Unskip(EndsWithCr(s), c) == c[1..] && s[After(s)..] == []
  {
    var a := After(s);
    if a < |s| {
      assert s[a..][|s[a..]| - 1] == s[|s| - 1];
    }
  }

  lemma {:induction false} LinesConcatStep(s: Bytes, c: Bytes)
    requires Terminator(s) < |s| && c != []
    ensures Lines(s + c) == Lines(s) + Lines(Rest(s) + Unskip(EndsWithCr(s), c))
    ensures Rest(s + c) == Rest(Rest(s) + Unskip(EndsWithCr(s), c))
    decreases |s|, 0
  {
    hide *;
    LinesStep(s, Terminator(s), After(s));
    TerminatorConcat(s, c);
    AfterConcat(s, c);
    UnskipStep(s, c);
    LinesStep(s + c, Terminator(s), After(s + c));
    if !SplitsCrLf(s, c) {
      LinesConcat(s[After(s)..], c);
      assert [s[..Terminator(s)]] + (Lines(s[After(s)..]) + Lines(Rest(s) + Unskip(EndsWithCr(s), c)))
          == Lines(s) + Lines(Rest(s) + Unskip(EndsWithCr(s), c));
    }
  }

  lemma RestHasNoLines(s: Bytes)
    ensures Lines(Rest(s)) == []
    ensures Rest(Rest(s)) == Rest(s)
  {
  }

  // ---- append ---------------------------------------------------------------

  predicate Overflows(limit: int, rest: Bytes) { limit > 0 && |rest| > limit }

  /** One call of `append`. */
  function AppendSpec(limit: int, p: Parser, chunk: Bytes): (Parser, seq<Event>) {
    var incoming := Unskip(p.skipLineFeed, chunk);
    var whole := p.buffer + incoming;
    var r := FoldLines(limit, p.fields, Lines(whole));
    var skip := if chunk == [] then p.skipLineFeed else EndsWithCr(incoming);
    var p' := if Overflows(limit, Rest(whole))
              then Parser([], skip, r.fields.(kind := [], data := []))
              else Parser(Rest(whole), skip, r.fields);
    (p', r.events)
  }

  function AppendAll(limit: int, p: Parser, chunks: seq<Bytes>): (Parser, seq<Event>)
    decreases |chunks|
  {
    if chunks == [] then (p, [])
    else
      var (p1, first) := AppendSpec(limit, p, chunks[0]);
      var (p2, more) := AppendAll(limit, p1, chunks[1..]);
      (p2, first + more)
  }

  /** The parser after `stream` in one piece, judged by the reference splitting alone. */
  function Whole(limit: int, f: Fields, stream: Bytes): (Parser, seq<Event>) {
    var r := FoldLines(limit, f, Lines(stream));
    (Parser(Rest(stream), EndsWithCr(stream), r.fields), r.events)
  }

  /** Every line, the unfinished last one included, fits the limit. */
  predicate LinesFit(limit: int, stream: Bytes) {
    limit > 0 ==> |Rest(stream)| <= limit && forall l :: l in Lines(stream) ==> |l| <= limit
  }

  lemma {:induction false} FirstLineExtends(s: Bytes, c: Bytes)
    requires Terminator(s) == |s|
    ensures Lines(s + c) == [] ==> s <= Rest(s + c)
    ensures Lines(s + c) != [] ==> s <= Lines(s + c)[0]
  {
    assert forall j :: 0 <= j < |s| ==> (s + c)[j] == s[j];
    assert (s + c)[..|s|] == s;
  }

  lemma {:induction false} PrefixFits(limit: int, s: Bytes, c: Bytes)
    requires LinesFit(limit, s + c)
    ensures LinesFit(limit, s)
  {
    var c' := Unskip(EndsWithCr(s), c);
    LinesConcat(s, c);
    FirstLineExtends(Rest(s), c');
    if limit > 0 {
      if Lines(Rest(s) + c') != [] {
        assert Lines(s + c)[|Lines(s)|] == Lines(Rest(s) + c')[0];
        assert Lines(s + c)[|Lines(s)|] in Lines(s + c);
      }
      forall l | l in Lines(s) ensures |l| <= limit {
        assert l in Lines(s + c);
      }
    }
  }

  lemma {:induction false} EndsWithCrConcat(s: Bytes, chunk: Bytes)
    requires chunk != []
    ensures EndsWithCr(s + chunk) == EndsWithCr(Unskip(EndsWithCr(s), chunk))
  {
    assert (s + chunk)[|s + chunk| - 1] == chunk[|chunk| - 1];
  }

  /** One more chunk on top of any stream already read. */
  lemma {:induction false} AppendWhole(limit: int, f: Fields, s: Bytes, chunk: Bytes)
    requires LinesFit(limit, s + chunk)
    ensures AppendSpec(limit, Whole(limit, f, s).0, chunk).0 == Whole(limit, f, s + chunk).0
    ensures Whole(limit, f, s).1 + AppendSpec(limit, Whole(limit, f, s).0, chunk).1
         == Whole(limit, f, s + chunk).1
  {
    hide FoldLines, Lines, Rest, ProcessLine, Terminator, After, Unskip, EndsWithCr;
    LinesConcat(s, chunk);
    FoldConcat(limit, f, Lines(s), Lines(Rest(s) + Unskip(EndsWithCr(s), chunk)));
    if chunk == [] {
      assert s + chunk == s;
    } else {
      EndsWithCrConcat(s, chunk);
    }
  }

  lemma {:induction false} AppendAllFrom(limit: int, f: Fields, s: Bytes, chunks: seq<Bytes>)
    requires LinesFit(limit, s + Concat(chunks))
    ensures AppendAll(limit, Whole(limit, f, s).0, chunks).0 == Whole(limit, f, s + Concat(chunks)).0
    ensures Whole(limit, f, s).1 + AppendAll(limit, Whole(limit, f, s).0, chunks).1
         == Whole(limit, f, s + Concat(chunks)).1
    decreases |chunks|
  {
    hide AppendSpec, Whole, LinesFit;
    if chunks == [] {
      assert s + Concat(chunks) == s;
    } else {
      var more := Concat(chunks[1..]);
      assert s + Concat(chunks) == (s + chunks[0]) + more;
      PrefixFits(limit, s + chunks[0], more);
      AppendWhole(limit, f, s, chunks[0]);
      AppendAllFrom(limit, f, s + chunks[0], chunks[1..]);
    }
  }

  lemma WholeOfNothing(limit: int, f: Fields)
    ensures Whole(limit, f, []) == (Parser([], false, f), [])
  {
  }

  /** How the stream was cut into chunks does not show: neither in the events nor in the state. */
  lemma {:induction false} ChunkingDoesNotMatter(limit: int, f: Fields, chunks: seq<Bytes>)
    requires LinesFit(limit, Concat(chunks))
    ensures AppendAll(limit, Parser([], false, f), chunks) == Whole(limit, f, Concat(chunks))
  {
    hide *;
    WholeOfNothing(limit, f);
    assert [] + Concat(chunks) == Concat(chunks);
    AppendAllFrom(limit, f, [], chunks);
    var run := AppendAll(limit, Parser([], false, f), chunks);
    assert [] + run.1 == run.1;
  }

  // ---- when the buffer limit shows ------------------------------------------

  /** Some append of the run throws its unfinished line away. */
  predicate DropsBuffer(limit: int, p: Parser, chunks: seq<Bytes>)
    decreases |chunks|
  {
    chunks != []
    && (Overflows(limit, Rest(p.buffer + Unskip(p.skipLineFeed, chunks[0])))
        || DropsBuffer(limit, AppendSpec(limit, p, chunks[0]).0, chunks[1..]))
  }

  lemma {:induction false} FittingNeverDrops(limit: int, f: Fields, s: Bytes, chunks: seq<Bytes>)
    requires LinesFit(limit, s + Concat(chunks))
    ensures !DropsBuffer(limit, Whole(limit, f, s).0, chunks)
    decreases |chunks|
  {
    hide FoldLines, Lines, Rest, ProcessLine, Terminator, After, Unskip, EndsWithCr;
    if chunks != [] {
      var more := Concat(chunks[1..]);
      assert s + Concat(chunks) == (s + chunks[0]) + more;
      PrefixFits(limit, s + chunks[0], more);
      LinesConcat(s, chunks[0]);
      AppendWhole(limit, f, s, chunks[0]);
      FittingNeverDrops(limit, f, s + chunks[0], chunks[1..]);
    }
  }

  /** A stream with an over-long line has a prefix that ends inside that line, past the limit. */
  lemma {:induction false} LongLinePrefix(limit: int, s: Bytes) returns (n: nat)
    requires !LinesFit(limit, s)
    ensures n <= |s| && Overflows(limit, Rest(s[..n]))
    decreases |s|
  {
    var t := Terminator(s);
    if t > limit || t == |s| {
      n := t;
      TerminatorIs(s[..t], t);
    } else {
      var a := After(s);
      LinesStep(s, t, a);
      var m := LongLinePrefix(limit, s[a..]);
      n := a + m;
      RestOfLaterPrefix(s, a, m);
    }
  }

  lemma {:induction false} RestOfLaterPrefix(s: Bytes, a: nat, m: nat)
    requires Terminator(s) < |s| && After(s) == a && a + m <= |s|
    ensures Rest(s[..a + m]) == Rest(s[a..][..m])
  {
    var p := s[..a + m];
    TerminatorIs(p, Terminator(s));
    assert After(p) == a;
    LinesStep(p, Terminator(s), a);
    assert p[a..] == s[a..][..m];
  }

  /** The limit shows in some chunking of a stream exactly when one of its lines is too long. */
  lemma {:induction false} LimitShowsExactly(limit: int, f: Fields, stream: Bytes)
    ensures LinesFit(limit, stream)
       <==> forall chunks :: Concat(chunks) == stream ==> !DropsBuffer(limit, Parser([], false, f), chunks)
  {
    hide FoldLines, Lines, Rest, ProcessLine, Terminator, After, Unskip, EndsWithCr, LinesFit;
    WholeOfNothing(limit, f);
    if LinesFit(limit, stream) {
      forall chunks | Concat(chunks) == stream
        ensures !DropsBuffer(limit, Parser([], false, f), chunks)
      {
        assert [] + Concat(chunks) == stream;
        FittingNeverDrops(limit, f, [], chunks);
      }
    } else {
      var n := LongLinePrefix(limit, stream);
      var chunks := [stream[..n], stream[n..]];
      TwoChunks(stream, n);
      FirstChunkDrops(limit, Parser([], false, f), stream[..n], [stream[n..]]);
      assert chunks == [stream[..n]] + [stream[n..]];
    }
  }

  lemma TwoChunks(stream: Bytes, n: nat)
    requires n <= |stream|
    ensures Concat([stream[..n], stream[n..]]) == stream
  {
    assert [stream[..n], stream[n..]][1..] == [stream[n..]];
    assert Concat([stream[n..]]) == stream[n..] + Concat([]);
    assert stream[..n] + (stream[n..] + []) == stream;
  }

  lemma FirstChunkDrops(limit: int, p: Parser, chunk: Bytes, more: seq<Bytes>)
    requires p.buffer == [] && !p.skipLineFeed
    requires Overflows(limit, Rest(chunk))
    ensures DropsBuffer(limit, p, [chunk] + more)
  {
    assert [] + chunk == chunk;
  }

  // ---- memory ---------------------------------------------------------------

  /** The joining line feed is not counted by the size check, hence the extra byte. */
  predicate Bounded(limit: int, f: Fields) { |f.data| <= limit + 1 }

  lemma {:induction false} FoldKeepsBound(limit: int, f: Fields, lines: seq<Bytes>)
    requires limit > 0 && Bounded(limit, f)
    ensures Bounded(limit, FoldLines(limit, f, lines).fields)
    ensures forall e :: e in FoldLines(limit, f, lines).events ==> 0 < |e.data| <= limit + 1
    decreases |lines|
  {
    if lines != [] {
      LineKeepsBound(limit, f, lines[0]);
      hide ProcessLine;
      FoldKeepsBound(limit, ProcessLine(limit, f, lines[0]).fields, lines[1..]);
    }
  }

  lemma LineKeepsBound(limit: int, f: Fields, line: Bytes)
    requires limit > 0 && Bounded(limit, f)
    ensures Bounded(limit, ProcessLine(limit, f, line).fields)
    ensures forall e :: e in ProcessLine(limit, f, line).events ==> 0 < |e.data| <= limit + 1
  {
  }

  /** After any run of appends under a positive limit, whatever the bytes and the chunking. */
  lemma {:induction false} MemoryIsBounded(limit: int, p: Parser, chunks: seq<Bytes>)
    requires limit > 0 && Bounded(limit, p.fields) && |p.buffer| <= limit
    ensures var run := AppendAll(limit, p, chunks);
            |run.0.buffer| <= limit && Bounded(limit, run.0.fields)
            && forall e :: e in run.1 ==> 0 < |e.data| <= limit + 1
    decreases |chunks|
  {
    hide FoldLines, Lines, Rest, ProcessLine, Terminator, After, Unskip, EndsWithCr;
    if chunks != [] {
      FoldKeepsBound(limit, p.fields, Lines(p.buffer + Unskip(p.skipLineFeed, chunks[0])));
      MemoryIsBounded(limit, AppendSpec(limit, p, chunks[0]).0, chunks[1..]);
    }
  }

  /** An event that failed the size check emits nothing, not even at its blank line. */
  lemma {:induction false} OversizedStaysSuppressed(limit: int, f: Fields, lines: seq<Bytes>)
    requires f.dropping && [] !in lines
    ensures var r := FoldLines(limit, f, lines);
            r.events == [] && r.fields.dropping && r.fields.data == f.data
    ensures var r := FoldLines(limit, f, lines + [[]]);
            r.events == [] && !r.fields.dropping && r.fields.data == []
    decreases |lines|
  {
    if lines == [] {
      assert lines + [[]] == [[]];
    } else {
      OversizedStaysSuppressed(limit, ProcessLine(limit, f, lines[0]).fields, lines[1..]);
      hide ProcessLine;
      assert (lines + [[]])[1..] == lines[1..] + [[]];
    }
  }

  // ---- flush ----------------------------------------------------------------

  /** What `flush` emits; it then clears the parser. */
  function FlushEvents(limit: int, p: Parser): seq<Event> {
    var idle := p.(skipLineFeed := false);
    var (p', ended) := if p.buffer == [] then (idle, []) else AppendSpec(limit, idle, [LF]);
    ended + Dispatch(p'.fields).events
  }

  lemma {:induction false} LineFeedEndsRest(r: Bytes)
    requires Terminator(r) == |r| && r != []
    ensures Lines(r + [LF]) == [r] && Rest(r + [LF]) == []
  {
    TerminatorIs(r + [LF], |r|);
    LinesStep(r + [LF], |r|, After(r + [LF]));
    assert (r + [LF])[..|r|] == r;
  }

  /** Reading a stream and flushing is reading it with its last line and a blank line ended. */
  lemma {:induction false} FlushEndsTheStream(limit: int, f: Fields, stream: Bytes)
    ensures Whole(limit, f, stream).1 + FlushEvents(limit, Whole(limit, f, stream).0)
         == FoldLines(limit, f, Lines(stream) + ((if Rest(stream) == [] then [] else [Rest(stream)]) + [[]])).events
  {
    var p := Whole(limit, f, stream).0;
    var last := if Rest(stream) == [] then [] else [Rest(stream)];
    if Rest(stream) != [] {
      LineFeedEndsRest(Rest(stream));
    }
    FlushOfParser(limit, p, last);
    hide FoldLines, Lines, Rest, ProcessLine, Terminator, EndsWithCr, FlushEvents;
    FoldConcat(limit, f, Lines(stream), last + [[]]);
  }

  lemma {:induction false} FlushOfParser(limit: int, p: Parser, last: seq<Bytes>)
    requires last == if p.buffer == [] then [] else [p.buffer]
    requires p.buffer != [] ==> Lines(p.buffer + [LF]) == [p.buffer] && Rest(p.buffer + [LF]) == []
    ensures FlushEvents(limit, p) == FoldLines(limit, p.fields, last + [[]]).events
  {
    hide ProcessLine, Lines, Rest, Terminator;
    FoldConcat(limit, p.fields, last, [[]]);
    FoldOne(limit, FoldLines(limit, p.fields, last).fields, []);
    BlankLineDispatches(limit, FoldLines(limit, p.fields, last).fields);
  }

  lemma FoldOne(limit: int, f: Fields, line: Bytes)
    ensures FoldLines(limit, f, [line]) == ProcessLine(limit, f, line)
    ensures FoldLines(limit, f, []) == Parsed(f, [])
  {
  }

  lemma BlankLineDispatches(limit: int, f: Fields)
    ensures ProcessLine(limit, f, []) == Dispatch(f)
  {
  }

  // ---- the class ------------------------------------------------------------

  const DEFAULT_MAX_BUFFER_BYTES := 16 * 1024 * 1024

  /** The scan has handled the lines of `whole` before `start`; `f` and `events` are the result. */
  ghost predicate Scanned(limit: int, f0: Fields, whole: Bytes, start: nat, f: Fields, events: seq<Event>)
    requires start <= |whole|
  {
    var todo := FoldLines(limit, f, Lines(whole[start..]));
    && Rest(whole[start..]) == Rest(whole)
    && FoldLines(limit, f0, Lines(whole)) == Parsed(todo.fields, events + todo.events)
  }

  function NextLine(s: Bytes, i: nat): (next: nat)
    requires i < |s|
    ensures i < next <= |s|
  {
    if s[i] == CR && i + 1 < |s| && s[i + 1] == LF then i + 2 else i + 1
  }

  predicate NoTerminator(s: Bytes, lo: nat, hi: nat)
    requires lo <= hi <= |s|
  {
    forall j :: lo <= j < hi ==> !IsTerminator(s[j])
  }

  lemma ScanStarts(limit: int, f0: Fields, whole: Bytes)
    ensures Scanned(limit, f0, whole, 0, f0, [])
  {
    hide FoldLines, Lines, Rest;
    var r := FoldLines(limit, f0, Lines(whole));
    assert whole[0..] == whole && [] + r.events == r.events;
  }

  lemma {:induction false} LineAt(s: Bytes, start: nat, i: nat)
    requires start <= i < |s| && IsTerminator(s[i]) && NoTerminator(s, start, i)
    ensures Lines(s[start..]) == [s[start..i]] + Lines(s[NextLine(s, i)..])
    ensures Rest(s[start..]) == Rest(s[NextLine(s, i)..])
  {
    hide Lines, Rest;
    var suffix := s[start..];
    TerminatorIs(suffix, i - start);
    LinesStep(suffix, i - start, After(suffix));
    assert suffix[..i - start] == s[start..i];
    assert suffix[After(suffix)..] == s[start + After(suffix)..];
  }

  lemma {:induction false} ScanLine(limit: int, f0: Fields, whole: Bytes, start: nat, i: nat, f: Fields,
                                    events: seq<Event>)
    requires start <= i < |whole| && IsTerminator(whole[i]) && NoTerminator(whole, start, i)
    requires Scanned(limit, f0, whole, start, f, events)
    ensures var r := ProcessLine(limit, f, whole[start..i]);
            Scanned(limit, f0, whole, NextLine(whole, i), r.fields, events + r.events)
  {
    hide FoldLines, Lines, Rest, ProcessLine, NextLine, NoTerminator;
    var line, more := whole[start..i], Lines(whole[NextLine(whole, i)..]);
    LineAt(whole, start, i);
    FoldConcat(limit, f, [line], more);
    FoldOne(limit, f, line);
    var r := ProcessLine(limit, f, line);
    var tail := FoldLines(limit, r.fields, more);
    assert events + (r.events + tail.events) == (events + r.events) + tail.events;
  }

  lemma {:induction false} ScanEnds(limit: int, f0: Fields, whole: Bytes, start: nat, f: Fields,
                                    events: seq<Event>)
    requires start <= |whole| && NoTerminator(whole, start, |whole|)
    requires Scanned(limit, f0, whole, start, f, events)
    ensures FoldLines(limit, f0, Lines(whole)) == Parsed(f, events)
    ensures Rest(whole) == whole[start..]
  {
    TerminatorIs(whole[start..], |whole| - start);
    hide ProcessLine;
    assert events + [] == events;
  }

  lemma AppendIs(limit: int, p: Parser, chunk: Bytes, whole: Bytes, r: Parsed)
    requires whole == p.buffer + Unskip(p.skipLineFeed, chunk) && FoldLines(limit, p.fields, Lines(whole)) == r
    ensures var skip := if chunk == [] then p.skipLineFeed else EndsWithCr(Unskip(p.skipLineFeed, chunk));
            AppendSpec(limit, p, chunk)
            == (if Overflows(limit, Rest(whole)) then Parser([], skip, r.fields.(kind := [], data := []))
                else Parser(Rest(whole), skip, r.fields), r.events)
  {
    hide FoldLines, Lines, Rest;
  }

  class SseParser {
    var buffer: Bytes
    var kind: Bytes
    var data: Bytes
    var idBuffer: Bytes
    var lastEventId: Bytes
    var retryMs: Option<nat>
    var maxBufferBytes: int
    var skipLineFeed: bool
    var droppingEvent: bool

    ghost function Remembered(): Fields
      reads this
    {
      Fields(kind, data, idBuffer, lastEventId, retryMs, droppingEvent)
    }

    ghost function State(): Parser
      reads this
    {
      Parser(buffer, skipLineFeed, Remembered())
    }

    /** Why scanning may start at the new bytes: the kept ones hold no terminator. */
    ghost predicate Valid()
      reads this
    {
      forall j :: 0 <= j < |buffer| ==> !IsTerminator(buffer[j])
    }

    constructor ()
      ensures Valid() && State() == Parser([], false, Cleared)
      ensures maxBufferBytes == DEFAULT_MAX_BUFFER_BYTES
    {
      buffer, kind, data, idBuffer, lastEventId := [], [], [], [], [];
      retryMs, skipLineFeed, droppingEvent := None, false, false;
      maxBufferBytes := DEFAULT_MAX_BUFFER_BYTES;
    }

    method Append(chunk: Bytes) returns (events: seq<Event>)
      requires Valid()
      modifies this
      ensures Valid() && maxBufferBytes == old(maxBufferBytes)
      ensures (State(), events) == AppendSpec(maxBufferBytes, old(State()), chunk)
    {
      hide FoldLines, Lines, Rest, ProcessLine, Terminator, After, Scanned, NextLine, AppendSpec;
      var scanFrom := |buffer|;
      ghost var was := State();
      ghost var incoming := Unskip(skipLineFeed, chunk);
      if skipLineFeed && chunk != [] {
        skipLineFeed := false;
        buffer := buffer + if chunk[0] == LF then chunk[1..] else chunk;
      } else {
        buffer := buffer + chunk;
      }
      ghost var whole := buffer;
      events := ScanLines(scanFrom);
      assert incoming != [] ==> whole[|whole| - 1] == incoming[|incoming| - 1];
      AppendIs(maxBufferBytes, was, chunk, whole, Parsed(Remembered(), events));

      if maxBufferBytes > 0 && |buffer| > maxBufferBytes {
        buffer, kind, data := [], [], [];
      }
    }

    /** The loop of `append`: handles the complete lines and keeps what follows them. */
    method ScanLines(scanFrom: nat) returns (events: seq<Event>)
      requires scanFrom <= |buffer| && NoTerminator(buffer, 0, scanFrom)
      requires scanFrom < |buffer| ==> !skipLineFeed
      modifies this
      ensures Valid() && maxBufferBytes == old(maxBufferBytes)
      ensures FoldLines(maxBufferBytes, old(Remembered()), Lines(old(buffer))) == Parsed(Remembered(), events)
      ensures buffer == Rest(old(buffer))
      ensures skipLineFeed == if scanFrom < |old(buffer)| then EndsWithCr(old(buffer)) else old(skipLineFeed)
    {
      hide FoldLines, Lines, Rest, ProcessLine, Terminator, After, Scanned, NextLine;
      ghost var whole := buffer;
      ScanStarts(maxBufferBytes, Remembered(), whole);
      events := [];
      var lineStart, i := 0, scanFrom;
      while i < |buffer|
        invariant 0 <= lineStart <= i <= |buffer| && scanFrom <= i
        invariant buffer == whole && maxBufferBytes == old(maxBufferBytes)
        invariant NoTerminator(whole, lineStart, i)
        invariant skipLineFeed == if scanFrom < |whole| then lineStart == |whole| && EndsWithCr(whole)
                                  else old(skipLineFeed)
        invariant Scanned(maxBufferBytes, old(Remembered()), whole, lineStart, Remembered(), events)
      {
        var c := buffer[i];
        if c == LF || c == CR {
          ScanLine(maxBufferBytes, old(Remembered()), whole, lineStart, i, Remembered(), events);
          NextLineIs(whole, i);
          events := HandleLine(buffer[lineStart..i], events);
          if c == CR {
            if i + 1 == |buffer| {
              skipLineFeed := true;
            } else if buffer[i + 1] == LF {
              i := i + 1;
            }
          }
          lineStart := i + 1;
        }
        i := i + 1;
      }
      ScanEnds(maxBufferBytes, old(Remembered()), whole, lineStart, Remembered(), events);
      buffer := buffer[lineStart..];
    }

    /** The source's `processLine`. */
    method HandleLine(line: Bytes, events: seq<Event>) returns (events': seq<Event>)
      modifies this
      ensures var r := ProcessLine(maxBufferBytes, old(Remembered()), line);
              Remembered() == r.fields && events' == events + r.events
      ensures buffer == old(buffer) && skipLineFeed == old(skipLineFeed)
      ensures maxBufferBytes == old(maxBufferBytes)
    {
      events' := events;
      if line == [] {
        events' := DispatchEvent(events);
        return;
      }
      if line[0] == COLON {
        return;
      }
      var colon := IndexOf(line, COLON);
      var field, value := line, [];
      if colon < |line| {
        field := line[..colon];
        value := line[colon + 1..];
        if value != [] && value[0] == SPACE {
          value := value[1..];
        }
      }
      StoreField(field, value);
    }

    /** The part of `processLine` that stores one field. */
    method StoreField(field: Bytes, value: Bytes)
      modifies this
      ensures Remembered() == TakeField(maxBufferBytes, old(Remembered()), field, value)
      ensures buffer == old(buffer) && skipLineFeed == old(skipLineFeed)
      ensures maxBufferBytes == old(maxBufferBytes)
    {
      if field == EVENT {
        kind := value;
      } else if field == DATA {
        if droppingEvent {
          return;
        }
        if maxBufferBytes > 0 && |data| + |value| > maxBufferBytes {
          data, droppingEvent := [], true;
          return;
        }
        if data != [] {
          data := data + [LF];
        }
        data := data + value;
      } else if field == ID {
        if NUL !in value {
          idBuffer := value;
        }
      } else if field == RETRY {
        if IsDigits(value) {
          var milliseconds := Decimal(value);
          retryMs := Some(if milliseconds <= INT_MAX then milliseconds else INT_MAX);
        }
      }
    }

    /** The source's `dispatch`. */
    method DispatchEvent(events: seq<Event>) returns (events': seq<Event>)
      modifies this
      ensures var r := Dispatch(old(Remembered()));
              Remembered() == r.fields && events' == events + r.events
      ensures buffer == old(buffer) && skipLineFeed == old(skipLineFeed)
      ensures maxBufferBytes == old(maxBufferBytes)
    {
      events' := events;
      lastEventId := idBuffer;
      if !droppingEvent && data != [] {
        if kind == [] {
          kind := MESSAGE;
        }
        events' := events + [Event(kind, data, lastEventId)];
      }
      kind, data := [], [];
      droppingEvent := false;
    }

    method Flush() returns (events: seq<Event>)
      requires Valid()
      modifies this
      ensures Valid() && maxBufferBytes == old(maxBufferBytes)
      ensures State() == Parser([], false, Cleared)
      ensures events == FlushEvents(maxBufferBytes, old(State()))
    {
      skipLineFeed := false;
      events := [];
      if buffer != [] {
        events := Append([LF]);
      }
      events := DispatchEvent(events);
      Clear();
    }

    method Clear()
      modifies this
      ensures Valid() && maxBufferBytes == old(maxBufferBytes)
      ensures State() == Parser([], false, Cleared)
    {
      buffer, kind, data, idBuffer, lastEventId := [], [], [], [], [];
      retryMs, skipLineFeed, droppingEvent := None, false, false;
    }

    method SetLastEventId(id: Bytes)
      modifies this
      ensures buffer == old(buffer) && maxBufferBytes == old(maxBufferBytes)
      ensures State() == old(State()).(fields := old(Remembered()).(idBuffer := id, lastEventId := id))
    {
      idBuffer, lastEventId := id, id;
    }
  }

  lemma NextLineIs(s: Bytes, i: nat)
    requires i < |s|
    ensures NextLine(s, i) == if s[i] == CR && i + 1 < |s| && s[i + 1] == LF then i + 2 else i + 1
  {
  }
}
