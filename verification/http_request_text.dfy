/**
 What the parser makes of a well-formed request head: a request line and field lines, as RFC 9112,
 sections 3 and 5, write them.
 */
module HttpRequestText {
  import opened ByteStrings
  import opened HttpParser

  /** A field line, before its line end. */
  datatype Field = Field(name: Bytes, value: Bytes)

  const CRLF: Bytes := [CR, LF]

  function FieldLine(f: Field): Bytes { f.name + [COLON, SPACE] + f.value }

  function RequestLine(verb: Bytes, target: Bytes, version: Bytes): Bytes {
    verb + [SPACE] + target + [SPACE] + version
  }

  /** A line ends with CR LF, or with a line feed alone. */
  predicate IsEnd(end: Bytes) { end == CRLF || end == [LF] }

  /** The lines of a head, each but the last with its line end. */
  function Head(first: Bytes, lines: seq<Bytes>, ends: seq<Bytes>): Bytes
    requires |ends| == |lines|
    decreases |lines|
  {
    if lines == [] then first else first + ends[0] + Head(lines[0], lines[1..], ends[1..])
  }

  function FieldLines(fields: seq<Field>): (r: seq<Bytes>)
    ensures |r| == |fields|
  {
    if fields == [] then [] else [FieldLine(fields[0])] + FieldLines(fields[1..])
  }

  /** Lower-cased names; of fields with the same name the last one stays. */
  function Collected(fields: seq<Field>): map<Bytes, Bytes>
    decreases |fields|
  {
    if fields == [] then map[]
    else Collected(fields[..|fields| - 1])[ToLower(fields[|fields| - 1].name) := fields[|fields| - 1].value]
  }

  predicate NoSpace(s: Bytes) { forall i :: 0 <= i < |s| ==> !IsSpace(s[i]) }

  predicate Tight(s: Bytes) { s != [] ==> !IsSpace(s[0]) && !IsSpace(s[|s| - 1]) }

  predicate IsToken(s: Bytes) { s != [] && NoSpace(s) }

  /** No line feed, no white space around, and no colon in the name. */
  predicate IsField(f: Field) {
    f.name != [] && Tight(f.name) && COLON !in f.name && LF !in f.name && Tight(f.value) && LF !in f.value
  }

  // ---- trimming and splitting -------------------------------------------------------------------

  lemma TightStays(s: Bytes)
    requires Tight(s)
    ensures Trimmed(s) == s
  {
  }

  lemma {:induction false} TrimRightSpaces(s: Bytes, spaces: Bytes)
    requires forall i :: 0 <= i < |spaces| ==> IsSpace(spaces[i])
    ensures TrimRight(s + spaces) == TrimRight(s)
    decreases |spaces|
  {
    if spaces == [] {
      assert s + spaces == s;
    } else {
      assert (s + spaces)[..|s + spaces| - 1] == s + spaces[..|spaces| - 1];
      TrimRightSpaces(s, spaces[..|spaces| - 1]);
    }
  }

  /** White space around a tight, non-empty string goes away. */
  lemma TrimmedAround(s: Bytes, before: Bytes, after: Bytes)
    requires s != [] && Tight(s) && |before| <= 1 && |after| <= 1
    requires (forall i :: 0 <= i < |before| ==> IsSpace(before[i])) && forall i :: 0 <= i < |after| ==> IsSpace(after[i])
    ensures Trimmed(before + s + after) == s
  {
    assert |before| == 1 ==> (before + s + after)[1..] == s + after;
    assert |before| == 0 ==> before + s + after == s + after;
    assert TrimLeft(s + after) == s + after;
    TrimRightSpaces(s, after);
  }

  lemma {:induction false} SplitFirst(first: Bytes, b: byte, rest: Bytes)
    requires b !in first
    ensures Split(first + [b] + rest, b) == [first] + Split(rest, b)
    ensures Split(first, b) == [first]
  {
    var s := first + [b] + rest;
    IndexOfIs(s, b, |first|);
    IndexOfIs(first, b, |first|);
    assert s[..|first|] == first && s[|first| + 1..] == rest;
  }

  /** The lines of a head, each but the last perhaps still with its carriage return. */
  lemma {:induction false} HeadLines(first: Bytes, lines: seq<Bytes>, ends: seq<Bytes>)
    requires LF !in first && forall i :: 0 <= i < |lines| ==> LF !in lines[i]
    requires |ends| == |lines| && forall i :: 0 <= i < |ends| ==> IsEnd(ends[i])
    ensures var parts := Split(Head(first, lines, ends), LF);
            && |parts| == |lines| + 1
            && (parts[0] == first || parts[0] == first + [CR])
            && forall i :: 0 <= i < |lines| ==> parts[i + 1] == lines[i] || parts[i + 1] == lines[i] + [CR]
    decreases |lines|
  {
    if lines == [] {
      SplitFirst(first, LF, []);
    } else {
      var rest := Head(lines[0], lines[1..], ends[1..]);
      if ends[0] == CRLF {
        assert first + CRLF + rest == (first + [CR]) + [LF] + rest;
        SplitFirst(first + [CR], LF, rest);
      } else {
        SplitFirst(first, LF, rest);
      }
      HeadLines(lines[0], lines[1..], ends[1..]);
    }
  }

  // ---- the request line ------------------------------------------------------------------------------

  lemma RequestLineRead(verb: Bytes, target: Bytes, version: Bytes, raw: Bytes, r: HttpRequest)
    requires IsToken(verb) && IsToken(target) && IsToken(version)
    requires var line := RequestLine(verb, target, version); raw == line || raw == line + [CR]
    ensures WithRequestLine(r, raw) == r.(verb := verb, target := target, version := version)
  {
    var line := RequestLine(verb, target, version);
    assert line[0] == verb[0] && line[|line| - 1] == version[|version| - 1];
    assert [] + line + [] == line && [] + line + [CR] == line + [CR];
    TrimmedAround(line, [], if raw == line then [] else [CR]);
    var rest := target + [SPACE] + version;
    assert line == verb + [SPACE] + rest;
    SplitFirst(verb, SPACE, rest);
    SplitFirst(target, SPACE, version);
    SplitFirst(version, SPACE, []);
  }

  // ---- the fields ------------------------------------------------------------------------------------------

  lemma FieldRead(f: Field, raw: Bytes, headers: map<Bytes, Bytes>)
    requires IsField(f) && (raw == FieldLine(f) || raw == FieldLine(f) + [CR])
    ensures WithHeaderLine(headers, raw) == headers[ToLower(f.name) := f.value]
  {
    hide Trimmed, ToLower;
    var line := Trimmed(raw);
    FieldTrimmed(f, raw);
    var tail := if f.value == [] then [] else [SPACE] + f.value;
    assert line == f.name + [COLON] + tail;
    assert line[..|f.name|] == f.name && line[|f.name| + 1..] == tail;
    IndexOfIs(line, COLON, |f.name|);
    TightStays(f.name);
    TailTrimmed(f.value, tail);
  }

  lemma TailTrimmed(value: Bytes, tail: Bytes)
    requires Tight(value) && tail == if value == [] then [] else [SPACE] + value
    ensures Trimmed(tail) == value
  {
    if value != [] {
      assert [SPACE] + value + [] == tail;
      TrimmedAround(value, [SPACE], []);
    }
  }

  /** With an empty value the space after the colon is trimmed away too. */
  lemma FieldTrimmed(f: Field, raw: Bytes)
    requires IsField(f) && (raw == FieldLine(f) || raw == FieldLine(f) + [CR])
    ensures Trimmed(raw) == f.name + [COLON] + (if f.value == [] then [] else [SPACE] + f.value)
  {
    var line := f.name + [COLON] + (if f.value == [] then [] else [SPACE] + f.value);
    assert Tight(line);
    var spaces := (if f.value == [] then [SPACE] else []) + (if raw == FieldLine(f) then [] else [CR]);
    assert raw == line + spaces;
    TrimRightSpaces(line, spaces);
    assert raw[0] == f.name[0];
    assert TrimRight(line) == line;
  }

  lemma {:induction false} FieldsRead(fields: seq<Field>, raws: seq<Bytes>)
    requires |raws| == |fields|
    requires forall i :: 0 <= i < |fields| ==>
               IsField(fields[i]) && (raws[i] == FieldLine(fields[i]) || raws[i] == FieldLine(fields[i]) + [CR])
    ensures WithHeaderLines(map[], raws) == Collected(fields)
    decreases |fields|
  {
    hide IsField, WithHeaderLine, ToLower;
    if fields != [] {
      var n := |fields| - 1;
      FieldsRead(fields[..n], raws[..n]);
      FieldRead(fields[n], raws[n], Collected(fields[..n]));
    }
  }

  lemma {:induction false} FieldLinesAt(fields: seq<Field>)
    ensures |FieldLines(fields)| == |fields|
    ensures forall i :: 0 <= i < |fields| ==> FieldLines(fields)[i] == FieldLine(fields[i])
  {
    if fields != [] {
      FieldLinesAt(fields[1..]);
    }
  }

  /** A well-formed head is read as its parts, with lower-cased field names, whatever its line ends are. */
  lemma HeadIsRead(verb: Bytes, target: Bytes, version: Bytes, fields: seq<Field>, ends: seq<Bytes>)
    requires |ends| == |fields| && forall i :: 0 <= i < |ends| ==> IsEnd(ends[i])
    requires IsToken(verb) && IsToken(target) && IsToken(version)
    requires forall i :: 0 <= i < |fields| ==> IsField(fields[i])
    ensures ReadBlock(NoRequest, Head(RequestLine(verb, target, version), FieldLines(fields), ends))
         == HttpRequest(verb, target, version, Collected(fields), [])
  {
    var line, lines := RequestLine(verb, target, version), FieldLines(fields);
    FieldLinesAt(fields);
    NoLineFeeds(verb, target, version, fields);
    hide RequestLine, FieldLine, FieldLines, Collected, Head, IsField, IsToken;
    HeadLines(line, lines, ends);
    var parts := Split(Head(line, lines, ends), LF);
    hide Split, WithRequestLine, WithHeaderLines;
    RequestLineRead(verb, target, version, parts[0], NoRequest);
    FieldsRead(fields, parts[1..]);
  }

  lemma NoLineFeeds(verb: Bytes, target: Bytes, version: Bytes, fields: seq<Field>)
    requires IsToken(verb) && IsToken(target) && IsToken(version)
    requires forall i :: 0 <= i < |fields| ==> IsField(fields[i])
    ensures LF !in RequestLine(verb, target, version)
    ensures forall i :: 0 <= i < |fields| ==> LF !in FieldLine(fields[i])
  {
    forall b | b in RequestLine(verb, target, version) ensures b != LF {
      assert b in verb || b in target || b in version || b == SPACE;
    }
  }
}
