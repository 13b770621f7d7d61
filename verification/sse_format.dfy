/**
 Printing events (`SSEParser::format`) and what parsing the printed bytes gives back.
 */
module SseFormat {
  import opened ByteStrings
  import opened Options
  import opened Sse

  const CRLF: Bytes := [CR, LF]

  /** The pieces of `data` between its line feeds; there is always at least one. */
  function SplitLf(data: Bytes): (parts: seq<Bytes>)
    ensures parts != []
    decreases |data|
  {
    var n := IndexOf(data, LF);
    if n == |data| then [data] else [data[..n]] + SplitLf(data[n + 1..])
  }

  function FieldLine(name: Bytes, value: Bytes): Bytes { name + [COLON, SPACE] + value }

  function DataLinesOf(parts: seq<Bytes>): seq<Bytes>
    decreases |parts|
  {
    if parts == [] then [] else [FieldLine(DATA, parts[0])] + DataLinesOf(parts[1..])
  }

  function KindLines(kind: Bytes): seq<Bytes> {
    if kind == [] || kind == MESSAGE then [] else [FieldLine(EVENT, kind)]
  }

  function DataLines(data: Bytes): seq<Bytes> {
    if data == [] then [DATA + [COLON]] else DataLinesOf(SplitLf(data))
  }

  function IdLines(id: Bytes): seq<Bytes> {
    if id == [] then [] else [FieldLine(ID, id)]
  }

  /** The printed lines of an event, the closing blank line included. */
  function FormatLines(e: Event): seq<Bytes> {
    KindLines(e.kind) + (DataLines(e.data) + (IdLines(e.id) + [[]]))
  }

  /** Every line ended by CR LF. */
  function Terminated(lines: seq<Bytes>): Bytes
    decreases |lines|
  {
    if lines == [] then [] else lines[0] + CRLF + Terminated(lines[1..])
  }

  function FormatSpec(e: Event): Bytes { Terminated(FormatLines(e)) }

  function FormatAll(es: seq<Event>): Bytes {
    if es == [] then [] else FormatSpec(es[0]) + FormatAll(es[1..])
  }

  lemma {:induction false} TerminatedConcat(a: seq<Bytes>, b: seq<Bytes>)
    ensures Terminated(a + b) == Terminated(a) + Terminated(b)
    decreases |a|
  {
    if a == [] {
      assert a + b == b;
    } else {
      TerminatedConcat(a[1..], b);
      assert (a + b)[1..] == a[1..] + b;
    }
  }

  lemma TerminatedOne(line: Bytes)
    ensures Terminated([line]) == line + CRLF
  {
    assert Terminated([line]) == line + CRLF + Terminated([]);
  }

  /** The source's loop over `data.indexOf('\n')`. */
  method Format(data: Bytes, kind: Bytes, id: Bytes) returns (out: Bytes)
    ensures out == FormatSpec(Event(kind, data, id))
  {
    hide *;
    PrintedHead(kind);
    PrintedId(id);
    TerminatedOne(DATA + [COLON]);
    PrintedWhole(data);
    FormatParts(Event(kind, data, id));
    out := [];
    if kind != [] && kind != MESSAGE {
      out := out + (EVENT + [COLON, SPACE] + kind + CRLF);
    }
    ghost var head := out;
    if data == [] {
      out := out + (DATA + [COLON] + CRLF);
    } else {
      var start := 0;
      while start <= |data|
        invariant 0 <= start <= |data|
        invariant out + Printed(data, start) == head + Printed(data, 0)
        decreases |data| - start
      {
        var n := IndexOf(data[start..], LF);
        PrintedStep(data, start);
        ghost var done, line := out, DATA + [COLON, SPACE] + data[start..start + n] + CRLF;
        out := out + (DATA + [COLON, SPACE] + data[start..start + n] + CRLF);
        Regroup(done, line, if start + n == |data| then [] else Printed(data, start + n + 1));
        if start + n == |data| {
          break;
        }
        start := start + n + 1;
      }
    }
    assert out == head + Terminated(DataLines(data));

    ghost var body := out;
    if id != [] {
      out := out + (ID + [COLON, SPACE] + id + CRLF);
    }
    assert out == body + Terminated(IdLines(id));
    out := out + CRLF;
  }

  lemma Regroup(a: Bytes, b: Bytes, c: Bytes)
    ensures (a + b) + c == a + (b + c) && b + [] == b
  {
  }

  /** The printed form of the data from `start` on. */
  ghost function Printed(data: Bytes, start: nat): Bytes
    requires start <= |data|
  {
    Terminated(DataLinesOf(SplitLf(data[start..])))
  }

  lemma PrintedHead(kind: Bytes)
    ensures Terminated(KindLines(kind))
         == if kind == [] || kind == MESSAGE then [] else EVENT + [COLON, SPACE] + kind + CRLF
  {
    TerminatedNone();
    TerminatedOne(FieldLine(EVENT, kind));
  }

  lemma PrintedId(id: Bytes)
    ensures Terminated(IdLines(id)) == if id == [] then [] else ID + [COLON, SPACE] + id + CRLF
  {
    TerminatedNone();
    TerminatedOne(FieldLine(ID, id));
  }

  lemma PrintedWhole(data: Bytes)
    ensures data != [] ==> Printed(data, 0) == Terminated(DataLines(data))
    ensures data == [] ==> DataLines(data) == [DATA + [COLON]]
  {
    assert data[0..] == data;
  }

  lemma PrintedStep(data: Bytes, start: nat)
    requires start <= |data|
    ensures var n := IndexOf(data[start..], LF);
            Printed(data, start)
            == DATA + [COLON, SPACE] + data[start..start + n] + CRLF
               + (if start + n == |data| then [] else Printed(data, start + n + 1))
  {
    hide Terminated, SplitLf, DataLinesOf, IndexOf;
    var tail := data[start..];
    var n := IndexOf(tail, LF);
    assert tail[..n] == data[start..start + n];
    SplitStep(tail);
    if n < |tail| {
      assert tail[n + 1..] == data[start + n + 1..];
    }
  }

  lemma TerminatedNone()
    ensures Terminated([]) == []
  {
  }

  lemma FormatParts(e: Event)
    ensures FormatSpec(e)
         == Terminated(KindLines(e.kind)) + (Terminated(DataLines(e.data)) + (Terminated(IdLines(e.id)) + CRLF))
  {
    TerminatedOne([]);
    hide Terminated;
    TerminatedConcat(KindLines(e.kind), DataLines(e.data) + (IdLines(e.id) + [[]]));
    TerminatedConcat(DataLines(e.data), IdLines(e.id) + [[]]);
    TerminatedConcat(IdLines(e.id), [[]]);
    assert [] + CRLF == CRLF;
  }

  lemma SplitStep(tail: Bytes)
    ensures var n := IndexOf(tail, LF);
            Terminated(DataLinesOf(SplitLf(tail)))
            == FieldLine(DATA, tail[..n]) + CRLF
               + (if n == |tail| then [] else Terminated(DataLinesOf(SplitLf(tail[n + 1..]))))
  {
    hide *;
    var n := IndexOf(tail, LF);
    var more := if n == |tail| then [] else SplitLf(tail[n + 1..]);
    SplitUnfolds(tail);
    DataLinesUnfold(tail[..n], more);
    TerminatedConcat([FieldLine(DATA, tail[..n])], DataLinesOf(more));
    TerminatedOne(FieldLine(DATA, tail[..n]));
    TerminatedNone();
  }

  lemma SplitUnfolds(tail: Bytes)
    ensures var n := IndexOf(tail, LF);
            SplitLf(tail) == [tail[..n]] + (if n == |tail| then [] else SplitLf(tail[n + 1..]))
  {
    assert tail[..|tail|] == tail;
  }

  lemma DataLinesUnfold(part: Bytes, more: seq<Bytes>)
    ensures DataLinesOf([part] + more) == [FieldLine(DATA, part)] + DataLinesOf(more)
    ensures DataLinesOf([]) == []
  {
  }

  // ---- parsing the printed bytes ----------------------------------------------

  predicate Plain(line: Bytes) { CR !in line && LF !in line }

  predicate Printable(e: Event) {
    CR !in e.data && Plain(e.kind) && Plain(e.id) && NUL !in e.id
  }

  predicate SizesFit(limit: int, e: Event) {
    limit > 0 ==> |e.data| <= limit && forall l :: l in FormatLines(e) ==> |l| <= limit
  }

  /** Between two events: nothing pending. */
  predicate Idle(f: Fields) {
    f.kind == [] && f.data == [] && !f.dropping && f.idBuffer == f.lastEventId
  }

  function StripLf(data: Bytes): Bytes {
    if data != [] && data[0] == LF then StripLf(data[1..]) else data
  }

  function IdAfter(e: Event, id: Bytes): Bytes { if e.id == [] then id else e.id }

  function IdAfterAll(es: seq<Event>, id: Bytes): Bytes {
    if es == [] then id else IdAfterAll(es[1..], IdAfter(es[0], id))
  }

  /** What a reader with last event id `id` gets from the printed form of `es`. */
  function Received(es: seq<Event>, id: Bytes): seq<Event> {
    if es == [] then []
    else
      var e, now := es[0], IdAfter(es[0], id);
      (if StripLf(e.data) == [] then []
       else [Event(if e.kind == [] then MESSAGE else e.kind, StripLf(e.data), now)])
      + Received(es[1..], now)
  }

  lemma {:induction false} LinesOfTerminated(lines: seq<Bytes>, tail: Bytes)
    requires forall l :: l in lines ==> Plain(l)
    ensures Lines(Terminated(lines) + tail) == lines + Lines(tail)
    ensures Rest(Terminated(lines) + tail) == Rest(tail)
    decreases |lines|
  {
    hide Lines, Rest;
    if lines == [] {
      assert Terminated(lines) + tail == tail;
    } else {
      var l, more := lines[0], Terminated(lines[1..]) + tail;
      LinesOfTerminated(lines[1..], tail);
      var s := l + (CRLF + more);
      assert Terminated(lines) + tail == s;
      forall j | 0 <= j < |l| ensures !IsTerminator(s[j]) {
        assert s[j] == l[j] && l[j] in l && Plain(l);
      }
      assert s[|l|] == CR && s[|l| + 1] == LF;
      TerminatorIs(s, |l|);
      LinesStep(s, |l|, After(s));
      assert s[..|l|] == l && s[|l| + 2..] == more;
      assert lines == [l] + lines[1..];
    }
  }

  lemma {:induction false} FieldLineParses(name: Bytes, value: Bytes)
    requires COLON !in name && name != []
    ensures FieldName(FieldLine(name, value)) == name
    ensures FieldValue(FieldLine(name, value)) == value
    ensures FieldName(name + [COLON]) == name && FieldValue(name + [COLON]) == []
  {
    var line := FieldLine(name, value);
    assert line[..|name|] == name;
    IndexOfIs(line, COLON, |name|);
    assert line[|name| + 2..] == value;
    assert (name + [COLON])[..|name|] == name;
    IndexOfIs(name + [COLON], COLON, |name|);
  }

  /** A line `name: value` with a known name stores its value. */
  lemma FieldLineStores(limit: int, f: Fields, name: Bytes, value: Bytes)
    requires name == EVENT || name == DATA || name == ID
    ensures FoldLines(limit, f, [FieldLine(name, value)]) == Parsed(TakeField(limit, f, name, value), [])
    ensures FoldLines(limit, f, [name + [COLON]]) == Parsed(TakeField(limit, f, name, []), [])
  {
    FieldLineParses(name, value);
    hide TakeField, FoldLines, FieldName, FieldValue;
    FoldOne(limit, f, FieldLine(name, value));
    FoldOne(limit, f, name + [COLON]);
  }

  /** The data a reader holds after the lines of `data`, starting from `held`. */
  function Joined(held: Bytes, data: Bytes): Bytes {
    if held == [] then StripLf(data) else held + [LF] + data
  }

  predicate DataFits(limit: int, held: Bytes, data: Bytes) {
    limit > 0 ==> (if held == [] then |data| else |held| + 1 + |data|) <= limit
  }

  lemma {:induction false} DataLinesFold(limit: int, f: Fields, data: Bytes)
    requires !f.dropping && DataFits(limit, f.data, data)
    ensures FoldLines(limit, f, DataLinesOf(SplitLf(data))) == Parsed(f.(data := Joined(f.data, data)), [])
    decreases |data|
  {
    hide *;
    var n := IndexOf(data, LF);
    var part := data[..n];
    FieldLineStores(limit, f, DATA, part);
    PartStores(limit, f, data, n);
    SplitUnfolds(data);
    if n == |data| {
      DataLinesUnfold(part, []);
      assert [FieldLine(DATA, part)] + [] == [FieldLine(DATA, part)];
      assert [part] + [] == [part];
      DataLinesNone();
    } else {
      var rest := data[n + 1..];
      var f' := TakeField(limit, f, DATA, part);
      DataLinesFold(limit, f', rest);
      DataLinesUnfold(part, SplitLf(rest));
      FoldConcat(limit, f, [FieldLine(DATA, part)], DataLinesOf(SplitLf(rest)));
    }
  }

  lemma DataLinesNone()
    ensures DataLinesOf([]) == []
  {
  }

  /** What the first line of `data` leaves the reader with. */
  lemma PartStores(limit: int, f: Fields, data: Bytes, n: nat)
    requires n == IndexOf(data, LF) && !f.dropping && DataFits(limit, f.data, data)
    ensures var f' := TakeField(limit, f, DATA, data[..n]);
            && f' == f.(data := f'.data)
            && (n == |data| ==> f'.data == Joined(f.data, data))
            && (n < |data| ==> DataFits(limit, f'.data, data[n + 1..])
                               && Joined(f'.data, data[n + 1..]) == Joined(f.data, data))
  {
    hide *;
    var part := data[..n];
    FirstFits(limit, f.data, data, n);
    DataIsTaken(limit, f, part);
    FirstPart(data);
    if n == |data| {
      JoinedLast(f.data, data);
    } else {
      var rest := data[n + 1..];
      assert part == [] <==> n == 0;
      JoinedStep(f.data, part, rest, data);
      PartFits(limit, f.data, part, rest, data);
    }
  }

  lemma FirstFits(limit: int, held: Bytes, data: Bytes, n: nat)
    requires n <= |data| && DataFits(limit, held, data)
    ensures DataFits(limit, held, data[..n])
  {
  }

  lemma FirstPart(data: Bytes)
    ensures var n := IndexOf(data, LF);
            if n == |data| then data[..n] == data && StripLf(data) == data
            else data == data[..n] + [LF] + data[n + 1..]
                 && StripLf(data) == if n == 0 then StripLf(data[n + 1..]) else data
  {
    hide *;
    var n := IndexOf(data, LF);
    if n == |data| {
      assert data[..n] == data;
      StripPlain(data);
    } else {
      SplitAt(data, n);
      StripStep(data, n);
    }
  }

  lemma SplitAt(data: Bytes, n: nat)
    requires n < |data|
    ensures data == data[..n] + [data[n]] + data[n + 1..]
  {
  }

  lemma JoinedLast(held: Bytes, data: Bytes)
    requires StripLf(data) == data
    ensures Joined(held, data) == if held == [] then data else held + [LF] + data
  {
  }

  lemma JoinedStep(held: Bytes, part: Bytes, rest: Bytes, data: Bytes)
    requires data == part + [LF] + rest && StripLf(data) == (if part == [] then StripLf(rest) else data)
    ensures Joined(if held == [] then part else held + [LF] + part, rest) == Joined(held, data)
  {
    hide StripLf;
    if held != [] {
      assert (held + [LF] + part) + [LF] + rest == held + [LF] + (part + [LF] + rest);
    }
  }

  lemma PartFits(limit: int, held: Bytes, part: Bytes, rest: Bytes, data: Bytes)
    requires data == part + [LF] + rest && DataFits(limit, held, data)
    ensures DataFits(limit, if held == [] then part else held + [LF] + part, rest)
  {
  }

  lemma DataIsTaken(limit: int, f: Fields, part: Bytes)
    requires !f.dropping && DataFits(limit, f.data, part)
    ensures TakeField(limit, f, DATA, part) == f.(data := if f.data == [] then part else f.data + [LF] + part)
  {
  }

  lemma StripPlain(data: Bytes)
    requires IndexOf(data, LF) == |data|
    ensures StripLf(data) == data
  {
  }

  lemma StripStep(data: Bytes, n: nat)
    requires IndexOf(data, LF) == n < |data|
    ensures StripLf(data) == if n == 0 then StripLf(data[1..]) else data
  {
  }

  /** One printed event, read from an idle parser. */
  lemma {:induction false} EventFold(limit: int, f: Fields, e: Event)
    requires Idle(f) && Printable(e) && SizesFit(limit, e)
    ensures var id := IdAfter(e, f.idBuffer);
            FoldLines(limit, f, FormatLines(e))
            == Parsed(f.(idBuffer := id, lastEventId := id), Received([e], f.idBuffer))
  {
    var f1 := KindFold(limit, f, e.kind);
    var f2 := DataFold(limit, f1, e.data);
    var f3 := IdFold(limit, f2, e.id);
    assert Received([e][1..], IdAfter(e, f.idBuffer)) == [];
    var events := Dispatch(f3).events;
    FoldOne(limit, f3, []);
    BlankLineDispatches(limit, f3);
    hide FoldLines, KindLines, DataLines, IdLines, TakeField, StripLf;
    FoldConcat(limit, f2, IdLines(e.id), [[]]);
    FoldConcat(limit, f1, DataLines(e.data), IdLines(e.id) + [[]]);
    FoldConcat(limit, f, KindLines(e.kind), DataLines(e.data) + (IdLines(e.id) + [[]]));
    assert [] + events == events;
    assert f3 == f.(kind := f3.kind, data := StripLf(e.data), idBuffer := IdAfter(e, f.idBuffer));
  }

  lemma KindFold(limit: int, f: Fields, kind: Bytes) returns (f': Fields)
    requires Idle(f)
    ensures FoldLines(limit, f, KindLines(kind)) == Parsed(f', [])
    ensures f' == f.(kind := if kind == MESSAGE then [] else kind)
  {
    f' := f.(kind := if kind == MESSAGE then [] else kind);
    FieldLineStores(limit, f, EVENT, kind);
  }

  lemma DataFold(limit: int, f: Fields, data: Bytes) returns (f': Fields)
    requires !f.dropping && f.data == [] && (limit > 0 ==> |data| <= limit)
    ensures FoldLines(limit, f, DataLines(data)) == Parsed(f', [])
    ensures f' == f.(data := StripLf(data))
  {
    f' := f.(data := StripLf(data));
    FieldLineStores(limit, f, DATA, []);
    DataLinesFold(limit, f, data);
  }

  lemma IdFold(limit: int, f: Fields, id: Bytes) returns (f': Fields)
    requires NUL !in id
    ensures FoldLines(limit, f, IdLines(id)) == Parsed(f', [])
    ensures f' == if id == [] then f else f.(idBuffer := id)
  {
    f' := if id == [] then f else f.(idBuffer := id);
    FieldLineStores(limit, f, ID, id);
  }

  function AllLines(es: seq<Event>): seq<Bytes> {
    if es == [] then [] else FormatLines(es[0]) + AllLines(es[1..])
  }

  lemma {:induction false} AllLinesPrint(es: seq<Event>)
    ensures FormatAll(es) == Terminated(AllLines(es))
  {
    if es != [] {
      AllLinesPrint(es[1..]);
      TerminatedConcat(FormatLines(es[0]), AllLines(es[1..]));
    }
  }

  lemma {:induction false} EventsFold(limit: int, f: Fields, es: seq<Event>)
    requires Idle(f) && forall e :: e in es ==> Printable(e) && SizesFit(limit, e)
    ensures var id := IdAfterAll(es, f.idBuffer);
            FoldLines(limit, f, AllLines(es))
            == Parsed(f.(idBuffer := id, lastEventId := id), Received(es, f.idBuffer))
    decreases |es|
  {
    if es != [] {
      var e, now := es[0], IdAfter(es[0], f.idBuffer);
      var f' := f.(idBuffer := now, lastEventId := now);
      EventFold(limit, f, e);
      EventsFold(limit, f', es[1..]);
      ReceivedStep(es, f.idBuffer);
      hide FoldLines, FormatLines, Received;
      FoldConcat(limit, f, FormatLines(e), AllLines(es[1..]));
    } else {
      assert f.(idBuffer := f.idBuffer, lastEventId := f.idBuffer) == f;
    }
  }

  lemma ReceivedStep(es: seq<Event>, id: Bytes)
    requires es != []
    ensures Received(es, id) == Received([es[0]], id) + Received(es[1..], IdAfter(es[0], id))
  {
    assert Received([es[0]][1..], IdAfter(es[0], id)) == [];
  }

  lemma {:induction false} PlainParts(data: Bytes)
    requires CR !in data
    ensures forall p :: p in SplitLf(data) ==> Plain(p)
    decreases |data|
  {
    var n := IndexOf(data, LF);
    assert forall j :: 0 <= j < n ==> data[..n][j] == data[j];
    if n < |data| {
      PlainParts(data[n + 1..]);
    }
  }

  lemma PlainFieldLine(name: Bytes, value: Bytes)
    requires Plain(name) && Plain(value)
    ensures Plain(FieldLine(name, value))
  {
  }

  lemma {:induction false} PlainDataLines(parts: seq<Bytes>)
    requires forall p :: p in parts ==> Plain(p)
    ensures forall l :: l in DataLinesOf(parts) ==> Plain(l)
    decreases |parts|
  {
    if parts != [] {
      PlainFieldLine(DATA, parts[0]);
      PlainDataLines(parts[1..]);
    }
  }

  lemma PlainEvent(e: Event)
    requires Printable(e)
    ensures forall l :: l in FormatLines(e) ==> Plain(l)
  {
    PlainParts(e.data);
    PlainDataLines(SplitLf(e.data));
  }

  lemma {:induction false} PlainEvents(limit: int, es: seq<Event>)
    requires forall e :: e in es ==> Printable(e) && SizesFit(limit, e)
    ensures forall l :: l in AllLines(es) ==> Plain(l) && (limit > 0 ==> |l| <= limit)
  {
    if es != [] {
      PlainEvent(es[0]);
      PlainEvents(limit, es[1..]);
    }
  }

  lemma EndsWithLineFeed(lines: seq<Bytes>)
    ensures !EndsWithCr(Terminated(lines))
  {
    if lines != [] {
      TerminatedConcat(lines[..|lines| - 1], [lines[|lines| - 1]]);
      assert lines == lines[..|lines| - 1] + [lines[|lines| - 1]];
      TerminatedOne(lines[|lines| - 1]);
    }
  }

  /**
   Reading back printed events, in any chunking: leading line feeds of the data are lost, an
   event without other data is not received, an empty type reads as `message`, and an empty id
   inherits the last one.
   */
  lemma {:induction false} ParseInvertsFormat(limit: int, f: Fields, es: seq<Event>, chunks: seq<Bytes>)
    requires Idle(f) && forall e :: e in es ==> Printable(e) && SizesFit(limit, e)
    requires Concat(chunks) == FormatAll(es)
    ensures var id := IdAfterAll(es, f.idBuffer);
            AppendAll(limit, Parser([], false, f), chunks)
            == (Parser([], false, f.(idBuffer := id, lastEventId := id)), Received(es, f.idBuffer))
  {
    var lines := AllLines(es);
    AllLinesPrint(es);
    PlainEvents(limit, es);
    EventsFold(limit, f, es);
    EndsWithLineFeed(lines);
    LinesOfTerminated(lines, []);
    assert Terminated(lines) + [] == Terminated(lines);
    NothingToSplit();
    hide Lines, Rest, FoldLines, Terminated, AllLines, FormatAll, EndsWithCr;
    assert lines + [] == lines;
    ChunkingDoesNotMatter(limit, f, chunks);
  }

  lemma NothingToSplit()
    ensures Lines([]) == [] && Rest([]) == []
  {
  }
}
