/**
 The server's incremental HTTP/1.1 request parser (source/network/HttpRequestParser.cpp), for a
 subset of RFC 9112, sections 2.2, 3, 5 and 6.2.
 */
module HttpParser {
  import opened ByteStrings
  import opened Options

  // ---- byte-string helpers of the library ---------------------------------------------------

  predicate IsSpace(b: byte) { b == SPACE || 9 <= b <= 13 }

  function TrimLeft(s: Bytes): (r: Bytes)
    ensures |r| <= |s|
  {
    if s != [] && IsSpace(s[0]) then TrimLeft(s[1..]) else s
  }

  function TrimRight(s: Bytes): (r: Bytes)
    ensures |r| <= |s|
  {
    if s != [] && IsSpace(s[|s| - 1]) then TrimRight(s[..|s| - 1]) else s
  }

  function Trimmed(s: Bytes): Bytes { TrimRight(TrimLeft(s)) }

  function Split(s: Bytes, b: byte): (parts: seq<Bytes>)
    ensures parts != []
    decreases |s|
  {
    var i := IndexOf(s, b);
    if i == |s| then [s] else [s[..i]] + Split(s[i + 1..], b)
  }

  function Lower(b: byte): byte { if 65 <= b <= 90 then b + 32 else b }

  function ToLower(s: Bytes): Bytes { seq(|s|, i requires 0 <= i < |s| => Lower(s[i])) }

  const TERMINATOR: Bytes := [CR, LF, CR, LF]

  predicate EndsAt(s: Bytes, i: nat) { i + 4 <= |s| && s[i..i + 4] == TERMINATOR }

  /** The position of the first blank line, if there is one. */
  function HeaderEnd(s: Bytes): (end: Option<nat>)
    ensures end.Some? ==> EndsAt(s, end.value)
    ensures forall j: nat :: EndsAt(s, j) ==> end.Some? && end.value <= j
  {
    EndsLater(s);
    if EndsAt(s, 0) then Some(0)
    else if |s| < 4 then None
    else
      var rest := HeaderEnd(s[1..]);
      if rest.Some? then Some(rest.value + 1) else None
  }

  lemma EndsLater(s: Bytes)
    ensures |s| > 0 ==> forall j: nat :: j > 0 ==> (EndsAt(s, j) <==> EndsAt(s[1..], j - 1))
  {
    if |s| > 0 {
      forall j: nat | j > 0 ensures EndsAt(s, j) <==> EndsAt(s[1..], j - 1) {
        if j + 4 <= |s| {
          assert s[1..][j - 1..j + 3] == s[j..j + 4];
        }
      }
    }
  }

  predicate AllDigits(s: Bytes) { forall i :: 0 <= i < |s| ==> 48 <= s[i] <= 57 }

  function DigitsValue(s: Bytes): nat
    requires AllDigits(s)
  {
    if s == [] then 0 else DigitsValue(s[..|s| - 1]) * 10 + (s[|s| - 1] as int - 48)
  }

  const PLUS: byte := 43
  const MINUS: byte := 45
  const MAX_INT64: int := 0x7fff_ffff_ffff_ffff

  /** `toLongLong` of a trimmed, non-empty value. */
  function ToLongLong(s: Bytes): Option<int>
    requires s != []
  {
    var signed := s[0] == PLUS || s[0] == MINUS;
    var digits := if signed then s[1..] else s;
    if digits == [] || !AllDigits(digits) then None
    else
      var value := if s[0] == MINUS then -(DigitsValue(digits) as int) else DigitsValue(digits);
      if -MAX_INT64 - 1 <= value <= MAX_INT64 then Some(value) else None
  }

  /** The cast to a 32-bit signed integer. */
  function ToInt32(n: int): int {
    var m := n % 0x1_0000_0000;
    if m < 0x8000_0000 then m else m - 0x1_0000_0000
  }

  // ---- state ------------------------------------------------------------------------------------

  datatype HttpRequest = HttpRequest(verb: Bytes, target: Bytes, version: Bytes, headers: map<Bytes, Bytes>, body: Bytes)

  const NoRequest: HttpRequest := HttpRequest([], [], [], map[], [])

  datatype Phase = ReadingHeaders | ReadingBody | Finished

  datatype Error = HeaderOverflow | InvalidRequestLine | InvalidContentLength | BodyTooLarge

  datatype Status = NeedMoreData | Complete | Failed(error: Error)

  datatype Limits = Limits(header: int, body: int)

  const DefaultLimits: Limits := Limits(32 * 1024, 8 * 1024 * 1024)

  /** A length that is rejected is never looked at again, so it is not kept here. */
  datatype Parser = Parser(buffer: Bytes, current: HttpRequest, phase: Phase, contentLength: nat)

  const Idle: Parser := Parser([], NoRequest, ReadingHeaders, 0)

  // "content-length"
  const CONTENT_LENGTH: Bytes := [99, 111, 110, 116, 101, 110, 116, 45, 108, 101, 110, 103, 116, 104]

  // ---- one request -----------------------------------------------------------------------------------

  function WithRequestLine(r: HttpRequest, line: Bytes): HttpRequest {
    var parts := Split(Trimmed(line), SPACE);
    if |parts| >= 3 then r.(verb := parts[0], target := parts[1], version := parts[2]) else r
  }

  function WithHeaderLine(headers: map<Bytes, Bytes>, raw: Bytes): map<Bytes, Bytes> {
    var line := Trimmed(raw);
    var colon := IndexOf(line, COLON);
    if colon == 0 || colon == |line| then headers
    else headers[ToLower(Trimmed(line[..colon])) := Trimmed(line[colon + 1..])]
  }

  function WithHeaderLines(headers: map<Bytes, Bytes>, lines: seq<Bytes>): map<Bytes, Bytes>
    decreases |lines|
  {
    if lines == [] then headers
    else WithHeaderLine(WithHeaderLines(headers, lines[..|lines| - 1]), lines[|lines| - 1])
  }

  function ReadBlock(r: HttpRequest, block: Bytes): HttpRequest {
    var lines := Split(block, LF);
    var r1 := WithRequestLine(r, lines[0]);
    r1.(headers := WithHeaderLines(r1.headers, lines[1..]))
  }

  /** What the headers say about the body. */
  function BodyLength(limits: Limits, r: HttpRequest): (Option<nat>, Status) {
    if r.verb == [] || r.target == [] || r.version == [] then (None, Failed(InvalidRequestLine))
    else if CONTENT_LENGTH !in r.headers || r.headers[CONTENT_LENGTH] == [] then (Some(0), Complete)
    else
      var n := ToLongLong(r.headers[CONTENT_LENGTH]);
      if n.None? || n.value < 0 then (None, Failed(InvalidContentLength))
      else if n.value > limits.body then (None, Failed(BodyTooLarge))
      else (Some(n.value), Complete)
  }

  /** The header half of `parseNext`; `Complete` means that the body may be read. */
  function ParseHeaders(limits: Limits, p: Parser): (Parser, Status) {
    var end := HeaderEnd(p.buffer);
    if end.None? then (p, if |p.buffer| > limits.header then Failed(HeaderOverflow) else NeedMoreData)
    else
      var r := ReadBlock(p.current, p.buffer[..end.value]);
      var p1 := p.(current := r, buffer := p.buffer[end.value + 4..]);
      var (length, status) := BodyLength(limits, r);
      if length.Some? then (p1.(contentLength := length.value, phase := ReadingBody), Complete)
      else (p1, status)
  }

  function ParseBody(p: Parser): (Parser, Status) {
    if |p.buffer| < p.contentLength then (p, NeedMoreData)
    else
      ToInt32Bounds(p.contentLength);
      var n := ToInt32(p.contentLength);
      var taken := if n < 0 then 0 else n;
      (p.(current := p.current.(body := p.buffer[..taken]), buffer := p.buffer[taken..], phase := Finished), Complete)
  }

  function ParseNext(limits: Limits, p: Parser): (Parser, Status) {
    match p.phase
    case Finished => (p, Complete)
    case ReadingBody => ParseBody(p)
    case ReadingHeaders =>
      var (p1, status) := ParseHeaders(limits, p);
      if status != Complete then (p1, status) else ParseBody(p1)
  }

  function Taken(p: Parser): Parser { p.(current := NoRequest, contentLength := 0, phase := ReadingHeaders) }

  function Feed(p: Parser, bytes: Bytes): Parser { p.(buffer := p.buffer + bytes) }

  lemma BodyShrinks(p: Parser)
    ensures var (p1, status) := ParseBody(p);
            |p1.buffer| <= |p.buffer| && if status == Complete then p1.phase == Finished else p1 == p
  {
    ToInt32Bounds(p.contentLength);
    hide ToInt32;
  }

  lemma HeadersShrink(limits: Limits, p: Parser)
    ensures var (p1, status) := ParseHeaders(limits, p);
            |p1.buffer| <= |p.buffer|
            && if status == Complete then p1.phase == ReadingBody && |p1.buffer| < |p.buffer| else p1.phase == p.phase
  {
    hide ReadBlock, HeaderEnd;
    BodyLengthStatus(limits, ReadBlock(p.current, p.buffer[..if HeaderEnd(p.buffer).Some? then HeaderEnd(p.buffer).value else 0]));
    hide BodyLength;
  }

  lemma ParseNextShrinks(limits: Limits, p: Parser)
    ensures var (p1, status) := ParseNext(limits, p);
            |p1.buffer| <= |p.buffer|
            && (status == Complete ==> p1.phase == Finished && (p.phase == ReadingHeaders ==> |p1.buffer| < |p.buffer|))
            && (status != Complete ==> p1.phase != Finished && p.phase != Finished)
  {
    hide ParseHeaders, ParseBody;
    HeadersShrink(limits, p);
    BodyShrinks(if p.phase == ReadingHeaders then ParseHeaders(limits, p).0 else p);
  }

  // ---- the server's loop -------------------------------------------------------------------------------

  /** Takes every complete request; ends in `NeedMoreData` or in an error. */
  function Drain(limits: Limits, p: Parser): (r: (Parser, seq<HttpRequest>, Status))
    ensures r.2 != Complete
    decreases |p.buffer|, if p.phase == ReadingHeaders then 0 else 1
  {
    ParseNextShrinks(limits, p);
    var (p1, status) := ParseNext(limits, p);
    if status != Complete then (p1, [], status)
    else
      var (p2, rest, last) := Drain(limits, Taken(p1));
      (p2, [p1.current] + rest, last)
  }

  /** Feeding chunk after chunk and draining after each; an error ends it. */
  function DrainAll(limits: Limits, p: Parser, chunks: seq<Bytes>): (Parser, seq<HttpRequest>, Status)
    decreases |chunks|
  {
    if chunks == [] then (p, [], NeedMoreData)
    else
      var (p1, first, status) := Drain(limits, Feed(p, chunks[0]));
      if status != NeedMoreData then (p1, first, status)
      else
        var (p2, rest, last) := DrainAll(limits, p1, chunks[1..]);
        (p2, first + rest, last)
  }

  // ---- more bytes -------------------------------------------------------------------------------------------

  lemma HeaderEndExtends(s: Bytes, more: Bytes)
    ensures HeaderEnd(s).Some? ==> HeaderEnd(s + more) == HeaderEnd(s)
    ensures HeaderEnd(s).None? && HeaderEnd(s + more).Some? ==> HeaderEnd(s + more).value + 4 > |s|
  {
    forall j: nat | j + 4 <= |s| ensures EndsAt(s + more, j) <==> EndsAt(s, j) {
      assert (s + more)[j..j + 4] == s[j..j + 4];
    }
    if HeaderEnd(s).Some? {
      assert EndsAt(s + more, HeaderEnd(s).value);
    }
  }

  lemma ParseBodyExtends(p: Parser, more: Bytes)
    ensures var (p1, status) := ParseBody(p);
            if status == Complete then ParseBody(Feed(p, more)) == (Feed(p1, more), Complete) else p1 == p
  {
    ToInt32Bounds(p.contentLength);
    var n := ToInt32(p.contentLength);
    hide ToInt32;
    if |p.buffer| >= p.contentLength {
      var taken := if n < 0 then 0 else n;
      assert (p.buffer + more)[..taken] == p.buffer[..taken];
      assert (p.buffer + more)[taken..] == p.buffer[taken..] + more;
    }
  }

  lemma ParseHeadersExtends(limits: Limits, p: Parser, more: Bytes)
    ensures var (p1, status) := ParseHeaders(limits, p);
            if HeaderEnd(p.buffer).Some? then ParseHeaders(limits, Feed(p, more)) == (Feed(p1, more), status)
            else p1 == p && (status == NeedMoreData || status == Failed(HeaderOverflow))
    ensures HeaderEnd(p.buffer).Some? ==>
              ParseHeaders(limits, p).1 != NeedMoreData && ParseHeaders(limits, p).1 != Failed(HeaderOverflow)
  {
    HeaderEndExtends(p.buffer, more);
    hide ReadBlock, HeaderEnd;
    var end := HeaderEnd(p.buffer);
    if end.Some? {
      assert (p.buffer + more)[..end.value] == p.buffer[..end.value];
      assert (p.buffer + more)[end.value + 4..] == p.buffer[end.value + 4..] + more;
      BodyLengthStatus(limits, ReadBlock(p.current, p.buffer[..end.value]));
      hide BodyLength;
    }
  }

  lemma BodyLengthStatus(limits: Limits, r: HttpRequest)
    ensures var (length, status) := BodyLength(limits, r);
            status != NeedMoreData && status != Failed(HeaderOverflow) && (length.Some? <==> status == Complete)
  {
  }

  /** What was decided on fewer bytes is decided the same way on more; only an overflow is not final. */
  lemma ParseNextExtends(limits: Limits, p: Parser, more: Bytes)
    ensures var (p1, status) := ParseNext(limits, p);
            if status == NeedMoreData || status == Failed(HeaderOverflow)
            then ParseNext(limits, Feed(p, more)) == ParseNext(limits, Feed(p1, more))
            else ParseNext(limits, Feed(p, more)) == (Feed(p1, more), status)
  {
    var ph := if p.phase == ReadingHeaders then ParseHeaders(limits, p).0 else p;
    ParseHeadersExtends(limits, p, more);
    HeadersThenBody(limits, p);
    HeadersThenBody(limits, ph);
    ParseBodyExtends(ph, more);
    hide ParseBody, ParseHeaders, HeaderEnd;
  }

  lemma HeadersThenBody(limits: Limits, p: Parser)
    ensures ParseHeaders(limits, p).1 == Complete ==> ParseHeaders(limits, p).0.phase == ReadingBody
    ensures ParseBody(p).1 == Complete || ParseBody(p) == (p, NeedMoreData)
  {
    hide ReadBlock, BodyLength, HeaderEnd;
    BodyLengthStatus(limits, ReadBlock(p.current, p.buffer[..if HeaderEnd(p.buffer).Some? then HeaderEnd(p.buffer).value else 0]));
  }

  lemma ToInt32Bounds(n: nat)
    ensures ToInt32(n) <= n
    ensures n < 0x8000_0000 ==> ToInt32(n) == n
  {
  }

  // ---- chunking ------------------------------------------------------------------------------------------------

  /** Draining what there is, then the rest, is draining all of it. */
  lemma {:induction false} DrainExtends(limits: Limits, p: Parser, more: Bytes)
    ensures var (p1, requests, status) := Drain(limits, p);
            var (p2, rest, last) := Drain(limits, Feed(p1, more));
            if status == NeedMoreData || status == Failed(HeaderOverflow)
            then Drain(limits, Feed(p, more)) == (p2, requests + rest, last)
            else Drain(limits, Feed(p, more)) == (Feed(p1, more), requests, status)
    decreases |p.buffer|, if p.phase == ReadingHeaders then 0 else 1
  {
    ParseNextShrinks(limits, p);
    ParseNextExtends(limits, p, more);
    hide ParseNext;
    var (p1, status) := ParseNext(limits, p);
    if status == Complete {
      DrainExtends(limits, Taken(p1), more);
      var (q, requests, st) := Drain(limits, Taken(p1));
      var rest := Drain(limits, Feed(q, more)).1;
      assert ([p1.current] + requests) + rest == [p1.current] + (requests + rest);
    } else {
      DrainAgain(limits, Feed(p, more), Feed(p1, more));
      assert [] + Drain(limits, Feed(p1, more)).1 == Drain(limits, Feed(p1, more)).1;
    }
  }

  lemma DrainAgain(limits: Limits, a: Parser, b: Parser)
    ensures ParseNext(limits, a) == ParseNext(limits, b) ==> Drain(limits, a) == Drain(limits, b)
  {
    hide ParseNext;
    ParseNextShrinks(limits, a);
    ParseNextShrinks(limits, b);
  }

  function Minus(a: nat, b: nat): nat { if a > b then a - b else 0 }

  /**
   How many of the bytes that follow a request are there whenever it has been taken: those of `due`
   that it did not take, and what it waited for as its body and, after the cast, did not take.
   */
  function DueAfter(p: Parser, p1: Parser, due: nat): nat {
    var left := Minus(due, Minus(|p.buffer|, |p1.buffer|));
    var waited := if p.phase == Finished then 0 else Minus(p1.contentLength, |p1.current.body|);
    if left > waited then left else waited
  }

  /**
   Every header block that can be seen without its end is within the limit: with all but the last
   byte of its blank line it is, or it ends among the `due` bytes that are there with its beginning.
   */
  ghost predicate Fits(limits: Limits, p: Parser, due: nat)
    decreases |p.buffer|, if p.phase == ReadingHeaders then 0 else 1
  {
    ParseNextShrinks(limits, p);
    var (p1, status) := ParseNext(limits, p);
    && (p.phase == ReadingHeaders && HeaderEnd(p.buffer).Some? ==>
          HeaderEnd(p.buffer).value + 3 <= limits.header || HeaderEnd(p.buffer).value + 3 < due)
    && (status == Complete ==> Fits(limits, Taken(p1), DueAfter(p, p1, due)))
  }

  lemma {:induction false} FitsLater(limits: Limits, p: Parser, more: Bytes, due: nat) returns (left: nat)
    requires due <= |p.buffer| && Fits(limits, Feed(p, more), due)
    requires Drain(limits, p).2 == NeedMoreData || Drain(limits, p).2 == Failed(HeaderOverflow)
    ensures left <= |Drain(limits, p).0.buffer| && Fits(limits, Feed(Drain(limits, p).0, more), left)
    decreases |p.buffer|, if p.phase == ReadingHeaders then 0 else 1
  {
    ParseNextShrinks(limits, p);
    ParseNextExtends(limits, p, more);
    var (p1, status) := ParseNext(limits, p);
    if status == Complete {
      DueArrived(limits, p, due);
      FitsNext(limits, Feed(p, more), due);
      hide ParseNext, HeaderEnd, Fits;
      left := FitsLater(limits, Taken(p1), more, DueAfter(p, p1, due));
    } else {
      left := Minus(due, Minus(|p.buffer|, |p1.buffer|));
      Unchanged(limits, p);
      hide ParseNext, HeaderEnd, Fits;
      FitsWaiting(limits, Feed(p, more), Feed(p1, more), due);
    }
  }

  lemma FitsNext(limits: Limits, p: Parser, due: nat)
    requires Fits(limits, p, due) && ParseNext(limits, p).1 == Complete
    ensures Fits(limits, Taken(ParseNext(limits, p).0), DueAfter(p, ParseNext(limits, p).0, due))
  {
    hide ParseNext, HeaderEnd, DueAfter;
  }

  /** What is due once a request has been taken has arrived with it. */
  lemma DueArrived(limits: Limits, p: Parser, due: nat)
    requires due <= |p.buffer| && ParseNext(limits, p).1 == Complete
    ensures DueAfter(p, ParseNext(limits, p).0, due) <= |ParseNext(limits, p).0.buffer|
  {
    hide ReadBlock, BodyLength, HeaderEnd, ToInt32;
    ParseNextShrinks(limits, p);
    if p.phase != Finished {
      BodyArrived(if p.phase == ReadingHeaders then ParseHeaders(limits, p).0 else p);
    }
    hide ParseHeaders, ParseBody;
  }

  lemma BodyArrived(p: Parser)
    requires ParseBody(p).1 == Complete
    ensures var p1 := ParseBody(p).0; p1.contentLength <= |p1.buffer| + |p1.current.body|
  {
    ToInt32Bounds(p.contentLength);
    hide ToInt32;
  }

  /** Waiting for a body, after its head is consumed, changes nothing. */
  lemma FitsWaiting(limits: Limits, p: Parser, p1: Parser, due: nat)
    requires Fits(limits, p, due) && ParseNext(limits, p1) == ParseNext(limits, p)
    requires p1 == p || (p.phase == ReadingHeaders && p1.phase == ReadingBody && |p1.buffer| <= |p.buffer|)
    ensures Fits(limits, p1, Minus(due, Minus(|p.buffer|, |p1.buffer|)))
  {
    ParseNextShrinks(limits, p1);
    hide ParseNext, HeaderEnd;
    if p1 != p {
      var left := Minus(due, Minus(|p.buffer|, |p1.buffer|));
      var (p2, status) := ParseNext(limits, p);
      assert status == Complete ==> DueAfter(p1, p2, left) == DueAfter(p, p2, due);
    }
  }

  /** A parser that waits is where it was, or past its headers. */
  lemma Unchanged(limits: Limits, p: Parser)
    ensures var (p1, status) := ParseNext(limits, p);
            && (status == NeedMoreData ==> p1 == p || p1.phase == ReadingBody)
            && (status == Failed(HeaderOverflow) ==>
                  p1 == p && p.phase == ReadingHeaders && HeaderEnd(p.buffer).None? && |p.buffer| > limits.header)
  {
    hide HeaderEnd, ReadBlock;
    HeadersThenBody(limits, p);
    HeadersThenBody(limits, ParseHeaders(limits, p).0);
    if HeaderEnd(p.buffer).Some? {
      BodyLengthStatus(limits, ReadBlock(p.current, p.buffer[..HeaderEnd(p.buffer).value]));
    }
    hide BodyLength;
  }

  /** Where draining stopped. */
  lemma {:induction false} Stopped(limits: Limits, p: Parser)
    ensures var (p1, _, status) := Drain(limits, p);
            status == Failed(HeaderOverflow) ==>
              p1.phase == ReadingHeaders && HeaderEnd(p1.buffer).None? && |p1.buffer| > limits.header
    decreases |p.buffer|, if p.phase == ReadingHeaders then 0 else 1
  {
    ParseNextShrinks(limits, p);
    Unchanged(limits, p);
    hide ParseNext, HeaderEnd;
    if ParseNext(limits, p).1 == Complete {
      Stopped(limits, Taken(ParseNext(limits, p).0));
    }
  }

  /** When its beginning is all that was due, an overflow stays an overflow. */
  lemma OverflowIsFinal(limits: Limits, p: Parser, more: Bytes, due: nat)
    requires p.phase == ReadingHeaders && HeaderEnd(p.buffer).None? && |p.buffer| > limits.header
    requires due <= |p.buffer| && Fits(limits, Feed(p, more), due)
    ensures Drain(limits, Feed(p, more)) == (Feed(p, more), [], Failed(HeaderOverflow))
  {
    HeaderEndExtends(p.buffer, more);
    hide HeaderEnd, DueAfter;
  }

  /**
   When every header block that can be seen without its end fits the limit, feeding a stream in any
   pieces, draining after each, takes the same requests and meets the same first error as feeding it
   at once; without an error the parser also ends in the same state.
   */
  lemma ChunkingDoesNotMatter(limits: Limits, p: Parser, chunks: seq<Bytes>)
    requires chunks != [] && Fits(limits, Feed(p, Concat(chunks)), 0)
    ensures var (p1, requests, status) := DrainAll(limits, p, chunks);
            var (p2, requests', status') := Drain(limits, Feed(p, Concat(chunks)));
            requests == requests' && status == status' && (status == NeedMoreData ==> p1 == p2)
  {
    hide Drain, DrainAll, Fits;
    FedInPieces(limits, p, chunks, 0);
  }

  lemma {:induction false} FedInPieces(limits: Limits, p: Parser, chunks: seq<Bytes>, due: nat)
    requires chunks != [] && due <= |p.buffer| && Fits(limits, Feed(p, Concat(chunks)), due)
    ensures var (p1, requests, status) := DrainAll(limits, p, chunks);
            var (p2, requests', status') := Drain(limits, Feed(p, Concat(chunks)));
            requests == requests' && status == status' && (status == NeedMoreData ==> p1 == p2)
    decreases |chunks|
  {
    var more := Concat(chunks[1..]);
    assert Concat(chunks) == chunks[0] + more;
    assert Feed(Feed(p, chunks[0]), more) == Feed(p, chunks[0] + more) by {
      assert (p.buffer + chunks[0]) + more == p.buffer + (chunks[0] + more);
    }
    DrainExtends(limits, Feed(p, chunks[0]), more);
    var (p1, first, status) := Drain(limits, Feed(p, chunks[0]));
    if status == NeedMoreData {
      var left := FitsLater(limits, Feed(p, chunks[0]), more, due);
      if |chunks| == 1 {
        assert Feed(p1, []) == p1 by {
          assert p1.buffer + [] == p1.buffer;
        }
        DrainIdle(limits, Feed(p, chunks[0]));
        assert first + [] == first;
      } else {
        hide Drain, Fits;
        FedInPieces(limits, p1, chunks[1..], left);
      }
    } else if status == Failed(HeaderOverflow) {
      var left := FitsLater(limits, Feed(p, chunks[0]), more, due);
      Stopped(limits, Feed(p, chunks[0]));
      OverflowIsFinal(limits, p1, more, left);
      assert first + [] == first;
    }
  }

  /** Draining again without new bytes changes nothing. */
  lemma {:induction false} DrainIdle(limits: Limits, p: Parser)
    ensures var (p1, _, status) := Drain(limits, p);
            status == NeedMoreData ==> Drain(limits, p1) == (p1, [], NeedMoreData)
    decreases |p.buffer|, if p.phase == ReadingHeaders then 0 else 1
  {
    ParseNextShrinks(limits, p);
    ParseNextExtends(limits, p, []);
    assert Feed(p, []) == p by {
      assert p.buffer + [] == p.buffer;
    }
    var (p1, status) := ParseNext(limits, p);
    assert Feed(p1, []) == p1 by {
      assert p1.buffer + [] == p1.buffer;
    }
    hide ParseNext;
    if status == Complete {
      DrainIdle(limits, Taken(p1));
    }
  }

  // ---- exactly when --------------------------------------------------------------------------------------------

  /** The bytes that are taken as a body announced with `n`: what a 32-bit cast leaves of them. */
  function BodyTaken(n: nat): (taken: nat)
    ensures taken <= n && (taken == n <==> n < 0x8000_0000)
  {
    if ToInt32(n) < 0 then 0 else ToInt32(n)
  }

  /** A request at the start of a buffer: head, blank line, and the bytes that are taken as its body. */
  ghost predicate IsMessage(limits: Limits, block: Bytes, body: Bytes) {
    && HeaderEnd(block + TERMINATOR) == Some(|block|)
    && BodyLength(limits, ReadBlock(NoRequest, block)).0.Some?
    && |body| == BodyTaken(BodyLength(limits, ReadBlock(NoRequest, block)).0.value)
  }

  /** The announced body has arrived. */
  ghost predicate Arrived(limits: Limits, block: Bytes, size: nat) {
    var length := BodyLength(limits, ReadBlock(NoRequest, block)).0;
    length.Some? && length.value <= size
  }

  function Message(block: Bytes, body: Bytes): Bytes { block + TERMINATOR + body }

  function RequestOf(block: Bytes, body: Bytes): HttpRequest { ReadBlock(NoRequest, block).(body := body) }

  lemma ParseNextIs(limits: Limits, block: Bytes, body: Bytes, rest: Bytes) returns (n: nat)
    requires IsMessage(limits, block, body) && Arrived(limits, block, |body| + |rest|)
    ensures ParseNext(limits, Idle.(buffer := Message(block, body) + rest))
         == (Parser(rest, RequestOf(block, body), Finished, n), Complete)
    ensures n == BodyLength(limits, ReadBlock(NoRequest, block)).0.value
  {
    hide ReadBlock, BodyLength, HeaderEnd, ToInt32, ParseBody, ParseHeaders, Message;
    n := BodyLength(limits, ReadBlock(NoRequest, block)).0.value;
    HeadIsParsed(limits, block, body, rest);
    BodyIsParsed(ReadBlock(NoRequest, block), n, body, rest);
  }

  lemma HeadIsParsed(limits: Limits, block: Bytes, body: Bytes, rest: Bytes)
    requires IsMessage(limits, block, body)
    ensures ParseHeaders(limits, Idle.(buffer := Message(block, body) + rest))
         == (Parser(body + rest, ReadBlock(NoRequest, block), ReadingBody,
                    BodyLength(limits, ReadBlock(NoRequest, block)).0.value), Complete)
  {
    hide ReadBlock, BodyLength, ToInt32;
    BodyLengthStatus(limits, ReadBlock(NoRequest, block));
    var s := Message(block, body) + rest;
    HeaderEndExtends(block + TERMINATOR, body + rest);
    assert s == (block + TERMINATOR) + (body + rest);
    hide HeaderEnd;
    assert s[..|block|] == block && s[|block| + 4..] == body + rest;
  }

  lemma BodyIsParsed(r: HttpRequest, n: nat, body: Bytes, rest: Bytes)
    requires |body| == BodyTaken(n) && n <= |body| + |rest|
    ensures ParseBody(Parser(body + rest, r, ReadingBody, n))
         == (Parser(rest, r.(body := body), Finished, n), Complete)
  {
    hide ToInt32;
    BodyTakenIs(n);
    assert (body + rest)[..|body|] == body && (body + rest)[|body|..] == rest;
  }

  lemma BodyTakenIs(n: nat)
    ensures BodyTaken(n) == if ToInt32(n) < 0 then 0 else ToInt32(n)
  {
  }

  /** A complete request has the body it announced exactly when the announced length survives the cast. */
  lemma BodyIsWhole(limits: Limits, p: Parser)
    requires p.phase == ReadingBody && ParseBody(p).1 == Complete
    ensures |ParseBody(p).0.current.body| == p.contentLength <==> p.contentLength < 0x8000_0000
    ensures ParseBody(p).0.current.body + ParseBody(p).0.buffer == p.buffer
  {
    hide ToInt32;
    BodyTakenIs(p.contentLength);
    var taken := BodyTaken(p.contentLength);
    assert p.buffer == p.buffer[..taken] + p.buffer[taken..];
  }

  lemma CompleteIsMessage(limits: Limits, s: Bytes) returns (block: Bytes, body: Bytes, rest: Bytes)
    requires ParseNext(limits, Idle.(buffer := s)).1 == Complete
    ensures IsMessage(limits, block, body) && Arrived(limits, block, |body| + |rest|) && s == Message(block, body) + rest
  {
    hide ReadBlock, ToInt32, HeaderEnd;
    var h := HeaderEnd(s).value;
    var r := ReadBlock(NoRequest, s[..h]);
    BodyLengthStatus(limits, r);
    var n := BodyTaken(BodyLength(limits, r).0.value);
    hide BodyLength;
    block, body, rest := s[..h], s[h + 4..][..n], s[h + 4..][n..];
    BlockEnds(s, h);
    Reassembled(s, h, n);
  }

  lemma Reassembled(s: Bytes, h: nat, n: nat)
    requires h + 4 <= |s| && n <= |s| - h - 4 && s[h..h + 4] == TERMINATOR
    ensures s == Message(s[..h], s[h + 4..][..n]) + s[h + 4..][n..]
  {
    assert s == s[..h] + s[h..h + 4] + s[h + 4..];
  }

  lemma TerminatorEnds(block: Bytes)
    ensures EndsAt(block + TERMINATOR, |block|)
  {
  }

  lemma Rejoined(s: Bytes, h: nat)
    requires h + 4 <= |s| && s[h..h + 4] == TERMINATOR
    ensures s == (s[..h] + TERMINATOR) + s[h + 4..]
  {
    assert s == (s[..h] + s[h..h + 4]) + s[h + 4..];
  }

  lemma BlockEnds(s: Bytes, h: nat)
    requires HeaderEnd(s) == Some(h)
    ensures h + 4 <= |s| && s[h..h + 4] == TERMINATOR && HeaderEnd(s[..h] + TERMINATOR) == Some(h)
  {
    hide HeaderEnd;
    assert EndsAt(s, h);
    Rejoined(s, h);
    TerminatorEnds(s[..h]);
    hide EndsAt;
    HeaderEndExtends(s[..h] + TERMINATOR, s[h + 4..]);
  }

  /** With as many bytes after it as are due, a request is complete. */
  lemma HasArrived(limits: Limits, block: Bytes, body: Bytes, due: nat, size: nat)
    requires IsMessage(limits, block, body) && size >= DueRest(limits, block, body, due)
    ensures Arrived(limits, block, |body| + size)
  {
    hide ReadBlock, HeaderEnd, BodyTaken, BodyLength;
  }

  /** `DueAfter` for a request at the start of a stream. */
  ghost function DueRest(limits: Limits, block: Bytes, body: Bytes, due: nat): nat
    requires IsMessage(limits, block, body)
  {
    var left := Minus(due, |Message(block, body)|);
    var waited := Minus(BodyLength(limits, ReadBlock(NoRequest, block)).0.value, |body|);
    if left > waited then left else waited
  }

  lemma DrainFirst(limits: Limits, block: Bytes, body: Bytes, rest: Bytes, due: nat)
    requires IsMessage(limits, block, body) && Arrived(limits, block, |body| + |rest|)
    ensures var (p, requests, status) := Drain(limits, Idle.(buffer := rest));
            Drain(limits, Idle.(buffer := Message(block, body) + rest)) == (p, [RequestOf(block, body)] + requests, status)
    ensures Fits(limits, Idle.(buffer := Message(block, body) + rest), due)
       <==> (|block| + 3 <= limits.header || |block| + 3 < due)
            && Fits(limits, Idle.(buffer := rest), DueRest(limits, block, body, due))
    ensures due <= |Message(block, body) + rest| ==> DueRest(limits, block, body, due) <= |rest|
  {
    hide ParseNext, HeaderEnd, Message, EndsAt, BodyLength, ReadBlock;
    var s := Message(block, body) + rest;
    ParseNextShrinks(limits, Idle.(buffer := s));
    var n := ParseNextIs(limits, block, body, rest);
    MessageFits(limits, s, block, body, rest);
    var p1 := Parser(rest, RequestOf(block, body), Finished, n);
    assert Taken(p1) == Idle.(buffer := rest);
    assert DueAfter(Idle.(buffer := s), p1, due) == DueRest(limits, block, body, due);
  }

  /** Some beginning of a stream with a block that does not fit overflows, when the whole does not. */
  lemma {:induction false} BeginningOverflows(limits: Limits, s: Bytes, due: nat) returns (n: nat)
    requires due <= |s| && !Fits(limits, Idle.(buffer := s), due)
    ensures due <= n <= |s| && Drain(limits, Idle.(buffer := s[..n])).2 == Failed(HeaderOverflow)
    ensures var (_, requests, _) := Drain(limits, Idle.(buffer := s[..n]));
            var (_, requests', status') := Drain(limits, Idle.(buffer := s));
            status' == Failed(HeaderOverflow) ==> |requests| < |requests'|
    decreases |s|
  {
    hide ParseNext, HeaderEnd, Fits, IsMessage, Arrived, Drain, EndsAt, Message, DueRest;
    if HeaderEnd(s).Some? && HeaderEnd(s).value + 3 > limits.header && HeaderEnd(s).value + 3 >= due {
      n := HeaderEnd(s).value + 3;
      FirstBlockOverflows(limits, s, n);
    } else {
      NotFirstBlock(limits, s, due);
      var block, body, rest := CompleteIsMessage(limits, s);
      DrainFirst(limits, block, body, rest, due);
      MessageFits(limits, s, block, body, rest);
      MessageLength(block, body);
      var m := BeginningOverflows(limits, rest, DueRest(limits, block, body, due));
      HasArrived(limits, block, body, due, m);
      DueGrows(limits, block, body, due);
      n := |Message(block, body)| + m;
      assert s[..n] == Message(block, body) + rest[..m];
      DrainFirst(limits, block, body, rest[..m], due);
    }
  }

  lemma DueGrows(limits: Limits, block: Bytes, body: Bytes, due: nat)
    requires IsMessage(limits, block, body)
    ensures due <= |Message(block, body)| + DueRest(limits, block, body, due)
  {
    hide BodyLength, ReadBlock, HeaderEnd;
  }

  lemma MessageLength(block: Bytes, body: Bytes)
    ensures |Message(block, body)| == |block| + 4 + |body|
  {
  }

  lemma NotFirstBlock(limits: Limits, s: Bytes, due: nat)
    requires !Fits(limits, Idle.(buffer := s), due)
    requires HeaderEnd(s).None? || HeaderEnd(s).value + 3 <= limits.header || HeaderEnd(s).value + 3 < due
    ensures ParseNext(limits, Idle.(buffer := s)).1 == Complete
  {
    hide ParseNext, HeaderEnd, DueAfter;
  }

  lemma MessageFits(limits: Limits, s: Bytes, block: Bytes, body: Bytes, rest: Bytes)
    requires s == Message(block, body) + rest && IsMessage(limits, block, body)
    ensures HeaderEnd(s) == Some(|block|)
  {
    hide HeaderEnd, EndsAt, BodyLength, ReadBlock;
    HeaderEndExtends(block + TERMINATOR, body + rest);
    assert s == (block + TERMINATOR) + (body + rest);
  }

  lemma FirstBlockOverflows(limits: Limits, s: Bytes, n: nat)
    requires HeaderEnd(s).Some? && n == HeaderEnd(s).value + 3 && n > limits.header
    ensures n <= |s| && Drain(limits, Idle.(buffer := s[..n])).2 == Failed(HeaderOverflow)
    ensures Drain(limits, Idle.(buffer := s[..n])).1 == []
    ensures var (_, requests, status) := Drain(limits, Idle.(buffer := s));
            status == Failed(HeaderOverflow) ==> |requests| > 0
  {
    hide HeaderEnd, ParseNext;
    assert EndsAt(s, n - 3);
    HeaderEndExtends(s[..n], s[n..]);
    assert s[..n] + s[n..] == s;
    hide EndsAt;
    BeginningWaits(limits, s[..n]);
    Unchanged(limits, Idle.(buffer := s));
  }

  lemma BeginningWaits(limits: Limits, s: Bytes)
    requires HeaderEnd(s).None? && |s| > limits.header
    ensures ParseNext(limits, Idle.(buffer := s)) == (Idle.(buffer := s), Failed(HeaderOverflow))
  {
  }

  /**
   The limit on headers is what chunking can show: a stream with a block that can be seen without its
   end over the limit can be cut so that the parser overflows, though fed at once it does not, or not
   there.
   */
  lemma OverflowShows(limits: Limits, s: Bytes) returns (n: nat)
    requires !Fits(limits, Feed(Idle, s), 0)
    ensures n <= |s|
    ensures var (_, requests, status) := DrainAll(limits, Idle, [s[..n], s[n..]]);
            var (_, requests', status') := Drain(limits, Feed(Idle, s));
            status == Failed(HeaderOverflow) && (requests, status) != (requests', status')
  {
    hide Drain, Fits;
    assert [] + s == s;
    n := BeginningOverflows(limits, s, 0);
    assert [] + s[..n] == s[..n];
  }

  /** Fed piece by piece, a stream gives the requests and the first error that it gives at once. */
  predicate SameOutcome(limits: Limits, s: Bytes, chunks: seq<Bytes>) {
    var (_, requests, status) := DrainAll(limits, Idle, chunks);
    var (_, requests', status') := Drain(limits, Feed(Idle, s));
    requests == requests' && status == status'
  }

  /** Whether the pieces matter is decided by the limit on headers, and by nothing else. */
  lemma PiecesMatterExactly(limits: Limits, s: Bytes)
    ensures Fits(limits, Feed(Idle, s), 0)
       <==> forall chunks: seq<Bytes> | chunks != [] && Concat(chunks) == s :: SameOutcome(limits, s, chunks)
  {
    hide Drain, DrainAll, Fits;
    if Fits(limits, Feed(Idle, s), 0) {
      forall chunks: seq<Bytes> | chunks != [] && Concat(chunks) == s ensures SameOutcome(limits, s, chunks) {
        ChunkingDoesNotMatter(limits, Idle, chunks);
      }
    } else {
      var n := OverflowShows(limits, s);
      var chunks := [s[..n], s[n..]];
      TwoChunks(s, n);
      assert Concat(chunks) == s && !SameOutcome(limits, s, chunks);
    }
  }

  lemma TwoChunks(s: Bytes, n: nat)
    requires n <= |s|
    ensures Concat([s[..n], s[n..]]) == s
  {
    assert [s[..n], s[n..]][1..] == [s[n..]];
    assert Concat([s[n..]]) == s[n..] + Concat([]);
  }

  /** Every complete header block, with all but the last byte of its blank line, is within the limit. */
  ghost predicate BlocksFit(limits: Limits, p: Parser)
    decreases |p.buffer|, if p.phase == ReadingHeaders then 0 else 1
  {
    ParseNextShrinks(limits, p);
    var (p1, status) := ParseNext(limits, p);
    && (p.phase == ReadingHeaders && HeaderEnd(p.buffer).Some? ==> HeaderEnd(p.buffer).value + 3 <= limits.header)
    && (status == Complete ==> BlocksFit(limits, Taken(p1)))
  }

  /** With a limit on bodies below 2 GiB nothing is ever due, and `Fits` says just that every block fits. */
  lemma {:induction false} FitsIsPlain(limits: Limits, p: Parser)
    requires limits.body < 0x8000_0000 && (p.phase == ReadingBody ==> p.contentLength <= limits.body)
    ensures Fits(limits, p, 0) <==> BlocksFit(limits, p)
    decreases |p.buffer|, if p.phase == ReadingHeaders then 0 else 1
  {
    ParseNextShrinks(limits, p);
    if ParseNext(limits, p).1 == Complete {
      NothingDue(limits, p);
      hide ParseNext, HeaderEnd, DueAfter;
      FitsIsPlain(limits, Taken(ParseNext(limits, p).0));
    } else {
      hide ParseNext, HeaderEnd, DueAfter;
    }
  }

  lemma NothingDue(limits: Limits, p: Parser)
    requires limits.body < 0x8000_0000 && (p.phase == ReadingBody ==> p.contentLength <= limits.body)
    requires ParseNext(limits, p).1 == Complete
    ensures DueAfter(p, ParseNext(limits, p).0, 0) == 0
  {
    hide ReadBlock, HeaderEnd, ToInt32;
    ParseNextShrinks(limits, p);
    var p1 := if p.phase == ReadingHeaders then ParseHeaders(limits, p).0 else p;
    ToInt32Bounds(p1.contentLength);
  }

  // ---- nothing is lost ------------------------------------------------------------------------------------------

  function Wire(messages: seq<(Bytes, Bytes)>): Bytes {
    if messages == [] then [] else Message(messages[0].0, messages[0].1) + Wire(messages[1..])
  }

  /** The head of a request whose body is awaited, or that was rejected, is consumed already. */
  ghost predicate Pending(p: Parser, status: Status, head: Bytes) {
    if (status == NeedMoreData && p.phase == ReadingHeaders) || status == Failed(HeaderOverflow)
    then head == [] && p.current == NoRequest && HeaderEnd(p.buffer).None?
    else exists block :: head == block + TERMINATOR && HeaderEnd(head) == Some(|block|)
                         && p.current == ReadBlock(NoRequest, block)
  }

  lemma {:induction false} BytesOfOneFeed(limits: Limits, s: Bytes)
    returns (messages: seq<(Bytes, Bytes)>, head: Bytes)
    ensures var (p, requests, status) := Drain(limits, Idle.(buffer := s));
            && s == Wire(messages) + head + p.buffer
            && |messages| == |requests|
            && (forall i :: 0 <= i < |messages| ==>
                  IsMessage(limits, messages[i].0, messages[i].1)
                  && requests[i] == RequestOf(messages[i].0, messages[i].1))
            && Pending(p, status, head)
    decreases |s|
  {
    hide ParseNext, HeaderEnd, IsMessage, Arrived, Drain, RequestOf, Pending, Message, Wire;
    if ParseNext(limits, Idle.(buffer := s)).1 == Complete {
      var block, body, rest := CompleteIsMessage(limits, s);
      MessageLength(block, body);
      DrainFirst(limits, block, body, rest, 0);
      var more;
      more, head := BytesOfOneFeed(limits, rest);
      messages := [(block, body)] + more;
      WireFirst(block, body, more);
      var p := Drain(limits, Idle.(buffer := rest)).0;
      assert Wire(messages) + head + p.buffer == Message(block, body) + (Wire(more) + head + p.buffer);
    } else {
      messages := [];
      head := PendingHead(limits, s);
      WireFirst([], [], []);
      DrainStops(limits, Idle.(buffer := s));
      assert [] + head == head;
    }
  }

  /** The number of chunks fed, the one that ends in an error included. */
  function FedChunks(limits: Limits, p: Parser, chunks: seq<Bytes>): (n: nat)
    ensures n <= |chunks|
    decreases |chunks|
  {
    if chunks == [] then 0
    else
      var (p1, _, status) := Drain(limits, Feed(p, chunks[0]));
      if status != NeedMoreData then 1 else 1 + FedChunks(limits, p1, chunks[1..])
  }

  /** As far as chunks are fed, feeding them one by one is feeding them at once, with any limits. */
  lemma {:induction false} FedIsDrained(limits: Limits, p: Parser, chunks: seq<Bytes>)
    requires chunks != []
    ensures DrainAll(limits, p, chunks) == Drain(limits, Feed(p, Concat(chunks[..FedChunks(limits, p, chunks)])))
    decreases |chunks|
  {
    var n := FedChunks(limits, p, chunks);
    var first := Drain(limits, Feed(p, chunks[0])).1;
    var p1 := Drain(limits, Feed(p, chunks[0])).0;
    assert first + [] == first;
    hide Drain;
    if n == 1 {
      assert chunks[..1][1..] == chunks[..0] && chunks[0] + [] == chunks[0];
    } else {
      var more := Concat(chunks[1..][..n - 1]);
      assert chunks[..n][1..] == chunks[1..][..n - 1] && Concat(chunks[..n]) == chunks[0] + more;
      assert Feed(Feed(p, chunks[0]), more) == Feed(p, chunks[0] + more) by {
        assert (p.buffer + chunks[0]) + more == p.buffer + (chunks[0] + more);
      }
      DrainExtends(limits, Feed(p, chunks[0]), more);
      FedIsDrained(limits, p1, chunks[1..]);
    }
  }

  /**
   Every byte of every chunk that is fed is accounted for, wherever the stream is cut and also when
   it ends in an error, be it one that another cut would not show: it belongs to a request taken,
   whose head it is parsed from or whose body it is, to the head of the request in the making, or to
   the buffer.
   */
  lemma BytesAreConserved(limits: Limits, chunks: seq<Bytes>) returns (messages: seq<(Bytes, Bytes)>, head: Bytes)
    ensures var (p, requests, status) := DrainAll(limits, Idle, chunks);
            && Concat(chunks[..FedChunks(limits, Idle, chunks)]) == Wire(messages) + head + p.buffer
            && (status == NeedMoreData ==> FedChunks(limits, Idle, chunks) == |chunks|)
            && |messages| == |requests|
            && (forall i :: 0 <= i < |messages| ==>
                  IsMessage(limits, messages[i].0, messages[i].1)
                  && requests[i] == RequestOf(messages[i].0, messages[i].1))
            && Pending(p, status, head)
  {
    hide Drain, IsMessage, RequestOf, Message, FedChunks, DrainAll;
    var s := Concat(chunks[..FedChunks(limits, Idle, chunks)]);
    if chunks == [] {
      messages, head := [], [];
      NothingFed(limits);
    } else {
      FedIsDrained(limits, Idle, chunks);
      FedToTheEnd(limits, Idle, chunks);
      assert [] + s == s;
      messages, head := BytesOfOneFeed(limits, s);
    }
  }

  lemma NothingFed(limits: Limits)
    ensures DrainAll(limits, Idle, []) == (Idle, [], NeedMoreData) && FedChunks(limits, Idle, []) == 0
    ensures Wire([]) == [] && Pending(Idle, NeedMoreData, [])
  {
  }

  lemma {:induction false} FedToTheEnd(limits: Limits, p: Parser, chunks: seq<Bytes>)
    ensures DrainAll(limits, p, chunks).2 == NeedMoreData ==> FedChunks(limits, p, chunks) == |chunks|
    decreases |chunks|
  {
    hide Drain;
    if chunks != [] {
      FedToTheEnd(limits, Drain(limits, Feed(p, chunks[0])).0, chunks[1..]);
    }
  }

  lemma WireFirst(block: Bytes, body: Bytes, more: seq<(Bytes, Bytes)>)
    ensures Wire([(block, body)] + more) == Message(block, body) + Wire(more)
    ensures Wire([]) == []
  {
    assert ([(block, body)] + more)[1..] == more;
  }

  lemma DrainStops(limits: Limits, p: Parser)
    requires ParseNext(limits, p).1 != Complete
    ensures Drain(limits, p) == (ParseNext(limits, p).0, [], ParseNext(limits, p).1)
  {
    hide ParseNext;
  }

  lemma PendingHead(limits: Limits, s: Bytes) returns (head: Bytes)
    requires ParseNext(limits, Idle.(buffer := s)).1 != Complete
    ensures var (p, status) := ParseNext(limits, Idle.(buffer := s));
            s == head + p.buffer && Pending(p, status, head)
  {
    hide HeaderEnd, ParseBody, ReadBlock;
    var end := HeaderEnd(s);
    var p1 := ParseHeaders(limits, Idle.(buffer := s)).0;
    if end.None? {
      head := [];
    } else {
      head := HeadConsumed(limits, s);
      HeadersThenBody(limits, p1);
      hide ParseHeaders;
      HeadPends(limits, s, head);
    }
  }

  lemma HeadConsumed(limits: Limits, s: Bytes) returns (head: Bytes)
    requires HeaderEnd(s).Some?
    ensures var (p, status) := ParseHeaders(limits, Idle.(buffer := s));
            && s == head + p.buffer && status != NeedMoreData && status != Failed(HeaderOverflow)
            && (status == Complete <==> p.phase == ReadingBody)
            && exists block :: head == block + TERMINATOR && HeaderEnd(head) == Some(|block|)
                               && p.current == ReadBlock(NoRequest, block)
  {
    hide ReadBlock, HeaderEnd;
    var h := HeaderEnd(s).value;
    var block := s[..h];
    BlockEnds(s, h);
    head := block + TERMINATOR;
    assert s == head + s[h + 4..];
    BodyLengthStatus(limits, ReadBlock(NoRequest, block));
    hide BodyLength;
  }

  lemma HeadPends(limits: Limits, s: Bytes, head: Bytes)
    requires ParseNext(limits, Idle.(buffer := s)).1 != Complete
    requires var (p1, status) := ParseHeaders(limits, Idle.(buffer := s));
             && s == head + p1.buffer && status != NeedMoreData && status != Failed(HeaderOverflow)
             && (status == Complete <==> p1.phase == ReadingBody)
             && (ParseBody(p1).1 == Complete || ParseBody(p1) == (p1, NeedMoreData))
             && exists block :: head == block + TERMINATOR && HeaderEnd(head) == Some(|block|)
                                && p1.current == ReadBlock(NoRequest, block)
    ensures var (p, status) := ParseNext(limits, Idle.(buffer := s)); s == head + p.buffer && Pending(p, status, head)
  {
    hide ParseHeaders, ParseBody, HeaderEnd, ReadBlock;
  }
}
