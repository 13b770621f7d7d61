/** The parser as the program has it, an object that consumes its buffer step by step. */
module HttpParserObject {
  import opened ByteStrings
  import opened Options
  import H = HttpParser
  import opened HttpParser

  class HttpRequestParser {
    var buffer: Bytes
    var current: HttpRequest
    var phase: Phase
    var contentLength: nat
    var maxHeaderBytes: int
    var maxBodyBytes: int

    ghost function Model(): Parser
      reads this
    {
      Parser(buffer, current, phase, contentLength)
    }

    function CurrentLimits(): Limits
      reads this
    {
      Limits(maxHeaderBytes, maxBodyBytes)
    }

    constructor ()
      ensures Model() == Idle && CurrentLimits() == DefaultLimits
    {
      buffer, current, phase, contentLength := [], NoRequest, ReadingHeaders, 0;
      maxHeaderBytes, maxBodyBytes := DefaultLimits.header, DefaultLimits.body;
    }

    method Feed(bytes: Bytes)
      modifies `buffer
      ensures Model() == H.Feed(old(Model()), bytes)
    {
      buffer := buffer + bytes;
    }

    method ParseNext() returns (status: Status)
      modifies `buffer, `current, `phase, `contentLength
      ensures (Model(), status) == H.ParseNext(CurrentLimits(), old(Model()))
    {
      hide HeaderEnd, ReadBlock, BodyLength, ToInt32;
      if phase == Finished {
        return Complete;
      }
      if phase == ReadingHeaders {
        status := ParseHeaders();
        if status != Complete {
          return;
        }
      }
      if |buffer| < contentLength {
        return NeedMoreData;
      }
      ToInt32Bounds(contentLength);
      var n := ToInt32(contentLength);
      var taken := if n < 0 then 0 else n;
      current := current.(body := buffer[..taken]);
      buffer := buffer[taken..];
      phase := Finished;
      return Complete;
    }

    method ParseHeaders() returns (status: Status)
      modifies `buffer, `current, `phase, `contentLength
      ensures (Model(), status) == H.ParseHeaders(CurrentLimits(), old(Model()))
      ensures status == Complete ==> phase == ReadingBody
    {
      HeadersThenBody(CurrentLimits(), Model());
      hide HeaderEnd, ReadBlock, ToLongLong;
      var headerEnd := HeaderEnd(buffer);
      if headerEnd.None? {
        return if |buffer| > maxHeaderBytes then Failed(HeaderOverflow) else NeedMoreData;
      }
      ParseHeaderBlock(headerEnd.value);
      if current.verb == [] || current.target == [] || current.version == [] {
        return Failed(InvalidRequestLine);
      }
      var length := if CONTENT_LENGTH in current.headers then current.headers[CONTENT_LENGTH] else [];
      if length == [] {
        contentLength := 0;
      } else {
        var n := ToLongLong(length);
        if n.None? || n.value < 0 {
          return Failed(InvalidContentLength);
        }
        if n.value > maxBodyBytes {
          return Failed(BodyTooLarge);
        }
        contentLength := n.value;
      }
      phase := ReadingBody;
      return Complete;
    }

    method ParseHeaderBlock(headerEnd: nat)
      requires headerEnd + 4 <= |buffer|
      modifies `buffer, `current
      ensures buffer == old(buffer)[headerEnd + 4..]
      ensures current == ReadBlock(old(current), old(buffer)[..headerEnd])
    {
      hide Trimmed, Split, ToLower, IndexOf;
      var headerBlock := buffer[..headerEnd];
      buffer := buffer[headerEnd + 4..];
      var lines := Split(headerBlock, LF);
      var parts := Split(Trimmed(lines[0]), SPACE);
      if |parts| >= 3 {
        current := current.(verb := parts[0], target := parts[1], version := parts[2]);
      }
      ghost var first := current;
      var i := 1;
      while i < |lines|
        invariant 1 <= i <= |lines| && buffer == old(buffer)[headerEnd + 4..]
        invariant current == first.(headers := WithHeaderLines(first.headers, lines[1..][..i - 1]))
      {
        assert lines[1..][..i][..i - 1] == lines[1..][..i - 1];
        var line := Trimmed(lines[i]);
        var colon := IndexOf(line, COLON);
        if line != [] && 0 < colon < |line| {
          current := current.(headers := current.headers[ToLower(Trimmed(line[..colon])) := Trimmed(line[colon + 1..])]);
        }
        i := i + 1;
      }
      assert lines[1..][..|lines| - 1] == lines[1..];
    }

    method TakeRequest() returns (out: HttpRequest)
      modifies `current, `phase, `contentLength
      ensures out == old(current) && Model() == Taken(old(Model()))
    {
      out := current;
      current := NoRequest;
      contentLength := 0;
      phase := ReadingHeaders;
    }

    method Reset()
      modifies `buffer, `current, `phase, `contentLength
      ensures Model() == Idle
    {
      buffer, current, phase, contentLength := [], NoRequest, ReadingHeaders, 0;
    }

    /** The server's reading loop, with every request put aside. */
    method DrainRequests() returns (requests: seq<HttpRequest>, status: Status)
      modifies `buffer, `current, `phase, `contentLength
      ensures (Model(), requests, status) == Drain(CurrentLimits(), old(Model()))
    {
      hide H.ParseNext;
      ghost var before := Model();
      requests := [];
      assert [] + Drain(CurrentLimits(), before).1 == Drain(CurrentLimits(), before).1;
      while true
        invariant CurrentLimits() == old(CurrentLimits())
        invariant var (p, rest, last) := Drain(CurrentLimits(), Model());
                  Drain(CurrentLimits(), before) == (p, requests + rest, last)
        decreases |buffer|, if phase == ReadingHeaders then 0 else 1
      {
        ParseNextShrinks(CurrentLimits(), Model());
        ghost var p := Model();
        status := ParseNext();
        if status != Complete {
          assert requests + [] == requests;
          return;
        }
        var request := TakeRequest();
        ghost var rest := Drain(CurrentLimits(), Model()).1;
        assert requests + ([request] + rest) == (requests + [request]) + rest;
        requests := requests + [request];
      }
    }
  }
}
