/** A streamed Claude turn ends up as the buffered one, however its blocks are cut into deltas. */
module ClaudeStream {
  import opened Options
  import opened BaseMessages
  import opened ClaudeMessages

  // ---- a block and its pieces -----------------------------------------------------------------

  /** What a block starts with, and the deltas that follow. */
  datatype Part = Part(data: Data, deltas: seq<Delta>)

  function Texts(ds: seq<Delta>): string
    decreases |ds|
  {
    if ds == [] then ""
    else Texts(ds[..|ds| - 1]) + (if ds[|ds| - 1].TextDelta? then ds[|ds| - 1].text else "")
  }

  function Jsons(ds: seq<Delta>): string
    decreases |ds|
  {
    if ds == [] then ""
    else Jsons(ds[..|ds| - 1]) + (if ds[|ds| - 1].JsonDelta? then ds[|ds| - 1].partial else "")
  }

  function Thoughts(ds: seq<Delta>): string
    decreases |ds|
  {
    if ds == [] then ""
    else Thoughts(ds[..|ds| - 1]) + (if ds[|ds| - 1].ThinkingDelta? then ds[|ds| - 1].thinking else "")
  }

  /** The last signature sent, or the one the block started with. */
  function Signature(first: string, ds: seq<Delta>): string
    decreases |ds|
  {
    if ds == [] then first
    else if ds[|ds| - 1].SignatureDelta? then ds[|ds| - 1].signature
    else Signature(first, ds[..|ds| - 1])
  }

  /** The block that the pieces are pieces of. */
  function Assemble(library: Library, p: Part): Block {
    match p.data
    case TextData(text) => Text(text + Texts(p.deltas))
    case ThinkingData(thinking, signature) => Thinking(thinking + Thoughts(p.deltas), Signature(signature, p.deltas))
    case RedactedData(signature) => Redacted(Signature(signature, p.deltas))
    case ToolUseData(id, name, input) =>
      ToolUse(id, name, if Jsons(p.deltas) == "" then input else library.parseObject(Jsons(p.deltas)))
    case d => BlockOf(d)
  }

  function DeltaEvents(index: int, ds: seq<Delta>): (es: seq<Event>)
    ensures |es| == |ds|
  {
    seq(|ds|, k requires 0 <= k < |ds| => BlockDelta(index, ds[k]))
  }

  function PartEvents(index: int, p: Part): seq<Event> {
    [BlockStart(index, p.data)] + DeltaEvents(index, p.deltas) + [BlockStop(index)]
  }

  lemma FoldSnoc(library: Library, es: seq<Event>, e: Event)
    ensures FoldCell(library, es + [e]) == StepCell(library, FoldCell(library, es), e)
  {
    assert (es + [e])[..|es|] == es;
  }

  /** A block under way: its text so far, and a call's arguments not parsed yet. */
  lemma {:induction false} FoldDeltas(library: Library, index: int, d: Data, ds: seq<Delta>)
    requires Known(d)
    ensures FoldCell(library, [BlockStart(index, d)] + DeltaEvents(index, ds))
         == if d.ToolUseData? then Cell(BlockOf(d), Some(Jsons(ds))) else Cell(Assemble(library, Part(d, ds)), None)
    decreases |ds|
  {
    var start := [BlockStart(index, d)];
    if ds == [] {
      assert start + DeltaEvents(index, ds) == [] + start;
      FoldSnoc(library, [], BlockStart(index, d));
      assert FoldCell(library, []) == NoCell;
      NoDeltas(library, d);
    } else {
      hide FoldCell, Jsons, Assemble, BlockOf, Edited;
      var n := |ds| - 1;
      var before := start + DeltaEvents(index, ds[..n]);
      FoldDeltas(library, index, d, ds[..n]);
      assert DeltaEvents(index, ds) == DeltaEvents(index, ds[..n]) + [BlockDelta(index, ds[n])];
      assert start + DeltaEvents(index, ds) == before + [BlockDelta(index, ds[n])];
      FoldSnoc(library, before, BlockDelta(index, ds[n]));
      DeltaAssembles(library, d, ds[..n], ds[n]);
      assert ds[..n] + [ds[n]] == ds;
    }
  }

  lemma NoDeltas(library: Library, d: Data)
    requires Known(d)
    ensures Assemble(library, Part(d, [])) == BlockOf(d) && Jsons([]) == ""
  {
    if d.TextData? {
      assert d.text + "" == d.text;
    }
    if d.ThinkingData? {
      assert d.thinking + "" == d.thinking;
    }
  }

  lemma DeltaAssembles(library: Library, d: Data, ds: seq<Delta>, x: Delta)
    requires Known(d)
    ensures Jsons(ds + [x]) == if x.JsonDelta? then Jsons(ds) + x.partial else Jsons(ds)
    ensures !d.ToolUseData? ==>
              Assemble(library, Part(d, ds + [x]))
              == if x.JsonDelta? then Assemble(library, Part(d, ds)) else Edited(Assemble(library, Part(d, ds)), x)
    ensures d.ToolUseData? && !x.JsonDelta? ==> Edited(BlockOf(d), x) == BlockOf(d)
  {
    assert (ds + [x])[..|ds|] == ds;
    assert Jsons(ds) + "" == Jsons(ds);
    hide Jsons;
    if d.TextData? {
      assert d.text + (Texts(ds) + (if x.TextDelta? then x.text else ""))
          == (d.text + Texts(ds)) + (if x.TextDelta? then x.text else "");
    }
    if d.ThinkingData? {
      assert d.thinking + (Thoughts(ds) + (if x.ThinkingDelta? then x.thinking else ""))
          == (d.thinking + Thoughts(ds)) + (if x.ThinkingDelta? then x.thinking else "");
    }
  }

  lemma FoldPart(library: Library, index: int, p: Part)
    requires Known(p.data)
    ensures FoldCell(library, PartEvents(index, p)) == Cell(Assemble(library, p), None)
  {
    var es := [BlockStart(index, p.data)] + DeltaEvents(index, p.deltas);
    FoldDeltas(library, index, p.data, p.deltas);
    FoldSnoc(library, es, BlockStop(index));
    hide FoldCell;
    assert Part(p.data, p.deltas) == p;
  }

  // ---- the whole turn ----------------------------------------------------------------------------

  /** The indices of the blocks of known types. */
  function KnownIndices(content: seq<Data>): (r: seq<int>)
    ensures forall k :: 0 <= k < |r| ==> 0 <= r[k] < |content| && Known(content[r[k]])
    ensures forall j, k :: 0 <= j < k < |r| ==> r[j] < r[k]
    decreases |content|
  {
    if content == [] then []
    else
      var n := |content| - 1;
      KnownIndices(content[..n]) + (if Known(content[n]) then [n] else [])
  }

  /** The pieces of each block make up the block of the response. */
  ghost predicate Decomposes(library: Library, parts: seq<Part>, content: seq<Data>) {
    && |parts| == |content|
    && forall i :: 0 <= i < |parts| ==>
         && (Known(parts[i].data) <==> Known(content[i]))
         && (Known(content[i]) ==> Assemble(library, parts[i]) == BlockOf(content[i]))
  }

  /** Each block's events keep their order and blocks start in index order; all else is free. */
  ghost predicate Interleaves(es: seq<Event>, parts: seq<Part>, content: seq<Data>) {
    && (forall k :: 0 <= k < |es| ==> IsContent(es[k]))
    && (forall i :: 0 <= i < |parts| ==> Project(es, i) == PartEvents(i, parts[i]))
    && Started(es) == KnownIndices(content)
  }

  lemma {:induction false} BufferedBlocks(library: Library, content: seq<Data>)
    ensures var (m, _) := ApplyContent(library, content);
            && m.callJson == map[] && m.callBlock == map[] && m.state == Building && m.stopReason == ""
            && |m.blocks| == |KnownIndices(content)|
            && forall k :: 0 <= k < |m.blocks| ==> m.blocks[k] == BlockOf(content[KnownIndices(content)[k]])
    decreases |content|
  {
    if content != [] {
      var n := |content| - 1;
      BufferedBlocks(library, content[..n]);
      var m := ApplyContent(library, content[..n]).0;
      var m1 := EndBlock(library, BeginBlock(m, n, content[n]), n);
      EndsWhole(library, m, n, content[n]);
      hide ApplyContent, BeginBlock, EndBlock, BlockOf;
      var known := KnownIndices(content[..n]);
      forall k | 0 <= k < |m1.blocks| ensures m1.blocks[k] == BlockOf(content[KnownIndices(content)[k]]) {
        if k < |known| {
          assert m1.blocks[k] == m.blocks[k] && content[known[k]] == content[..n][known[k]];
        }
      }
    }
  }

  /** A block that starts complete ends as it started. */
  lemma EndsWhole(library: Library, m: Message, index: int, d: Data)
    requires m.callJson == map[] && m.callBlock == map[]
    ensures var m1 := EndBlock(library, BeginBlock(m, index, d), index);
            && m1.callJson == map[] && m1.callBlock == map[] && m1.state == m.state && m1.stopReason == m.stopReason
            && m1.blocks == m.blocks + (if Known(d) then [BlockOf(d)] else [])
  {
    var m0 := BeginBlock(m, index, d);
    if d.ToolUseData? {
      assert m0.blocks[|m.blocks| := m0.blocks[|m.blocks|]] == m0.blocks;
      assert map[index := ""] - {index} == map[] && map[index := |m.blocks|] - {index} == map[];
      assert m0.callJson == map[index := ""] && m0.callBlock == map[index := |m.blocks|];
    }
  }

  lemma StreamedBlocks(library: Library, es: seq<Event>, parts: seq<Part>, content: seq<Data>)
    requires Interleaves(es, parts, content) && Decomposes(library, parts, content)
    ensures ApplyEvents(library, FreshMessage, es).0.blocks == ApplyContent(library, content).0.blocks
  {
    var order := KnownIndices(content);
    assert OneStartEach(es);
    BlocksDoNotInterfere(library, es);
    BufferedBlocks(library, content);
    var m, b := ApplyEvents(library, FreshMessage, es).0, ApplyContent(library, content).0;
    hide ApplyEvents, ApplyContent, Project, Started, FoldCell, BlockOf, Assemble, KnownIndices, PartEvents;
    forall k | 0 <= k < |m.blocks| ensures m.blocks[k] == b.blocks[k] {
      assert CellAt(m, order[k]) == FoldCell(library, Project(es, order[k]));
      assert Project(es, order[k]) == PartEvents(order[k], parts[order[k]]);
      FoldPart(library, order[k], parts[order[k]]);
    }
  }

  lemma {:induction false} ContentKeepsState(library: Library, es: seq<Event>)
    requires forall k :: 0 <= k < |es| ==> IsContent(es[k])
    ensures var (m, _) := ApplyEvents(library, FreshMessage, es); m.state == Building && m.stopReason == ""
    decreases |es|
  {
    if es != [] {
      ContentKeepsState(library, es[..|es| - 1]);
      hide Edited, Finished, BlockOf;
    }
  }

  lemma {:induction false} ApplyConcat(library: Library, m: Message, a: seq<Event>, b: seq<Event>)
    ensures var (m1, x) := ApplyEvents(library, m, a);
            var (m2, y) := ApplyEvents(library, m1, b);
            ApplyEvents(library, m, a + b) == (m2, x + y)
    decreases |b|
  {
    hide ApplyEvent;
    if b == [] {
      assert a + b == a;
      var x := ApplyEvents(library, m, a).1;
      assert x + "" == x;
    } else {
      var n := |b| - 1;
      assert (a + b)[..|a + b| - 1] == a + b[..n];
      ApplyConcat(library, m, a, b[..n]);
      var (m1, x) := ApplyEvents(library, m, a);
      var (m2, y) := ApplyEvents(library, m1, b[..n]);
      assert (x + y) + ApplyEvent(library, m2, b[n]).1 == x + (y + ApplyEvent(library, m2, b[n]).1);
    }
  }

  /** The events of a turn: a start, the content, and an end, whose `stop_reason` may be left out. */
  function TurnEvents(es: seq<Event>, sent: Option<string>): seq<Event> {
    [MessageStart] + es + [MessageDelta(sent)]
  }

  /** What a response has for the stop reason of such a turn. */
  function ReasonOf(sent: Option<string>): string { if sent.Some? then sent.value else "" }

  lemma TurnIs(library: Library, m: Message, es: seq<Event>, sent: Option<string>)
    ensures var m1 := ApplyEvents(library, FreshMessage, es).0;
            ApplyEvents(library, m, TurnEvents(es, sent)).0
            == if sent.Some? then HandleStopReason(m1, sent.value) else m1
    ensures ApplyEvents(library, m, TurnEvents(es, sent)).1 == ApplyEvents(library, FreshMessage, es).1
  {
    assert [MessageStart][..0] == [] && ApplyEvents(library, m, []) == (m, "");
    assert ApplyEvents(library, m, [MessageStart]) == (FreshMessage, "" + "");
    ApplyConcat(library, m, [MessageStart], es);
    ApplyConcat(library, m, [MessageStart] + es, [MessageDelta(sent)]);
    var (m1, x) := ApplyEvents(library, FreshMessage, es);
    hide Resolve;
    var last := [MessageDelta(sent)];
    assert last[..0] == [] && ApplyEvents(library, m1, last).1 == "" + "";
    assert ("" + x) + ("" + "") == x;
  }

  /**
   For any way of cutting the blocks of a response into a start and deltas, and any interleaving of
   the blocks' events, the streamed message has the blocks and the stop reason of the buffered one.
   It has its state, too, unless the stream sends an empty stop reason.
   */
  lemma StreamingIsBuffering(library: Library, m: Message, es: seq<Event>, parts: seq<Part>, r: Response, sent: Option<string>)
    requires Interleaves(es, parts, r.content) && Decomposes(library, parts, r.content) && r.reason == ReasonOf(sent)
    ensures var streamed, buffered := ApplyEvents(library, m, TurnEvents(es, sent)).0, ApplyResponse(library, r).0;
            && streamed.blocks == buffered.blocks && streamed.stopReason == buffered.stopReason
            && (streamed.state == buffered.state <==> sent != Some(""))
            && (sent == Some("") ==> streamed.state != Building && buffered.state == Building)
  {
    TurnIs(library, m, es, sent);
    StreamedBlocks(library, es, parts, r.content);
    ContentKeepsState(library, es);
    BufferedBlocks(library, r.content);
    hide ApplyEvents, ApplyContent, Interleaves, Decomposes, HasToolUse;
  }

  // ---- the chunks of text -----------------------------------------------------------------------------

  /** Block after block, without interleaving. */
  function Sequential(parts: seq<Part>): seq<Event>
    decreases |parts|
  {
    if parts == [] then [] else Sequential(parts[..|parts| - 1]) + PartEvents(|parts| - 1, parts[|parts| - 1])
  }

  function SentText(parts: seq<Part>): string
    decreases |parts|
  {
    if parts == [] then "" else SentText(parts[..|parts| - 1]) + Texts(parts[|parts| - 1].deltas)
  }

  lemma {:induction false} DeltaChunks(library: Library, m: Message, index: int, ds: seq<Delta>)
    ensures ApplyEvents(library, m, DeltaEvents(index, ds)).1 == Texts(ds)
    decreases |ds|
  {
    if ds != [] {
      var n := |ds| - 1;
      assert DeltaEvents(index, ds)[..n] == DeltaEvents(index, ds[..n]);
      DeltaChunks(library, m, index, ds[..n]);
      hide ApplyDelta;
    }
  }

  lemma PartChunks(library: Library, m: Message, index: int, p: Part)
    ensures ApplyEvents(library, m, PartEvents(index, p)).1 == Texts(p.deltas)
  {
    var start, stop := [BlockStart(index, p.data)], [BlockStop(index)];
    ApplyConcat(library, m, start, DeltaEvents(index, p.deltas));
    ApplyConcat(library, m, start + DeltaEvents(index, p.deltas), stop);
    var m1 := ApplyEvents(library, m, start).0;
    DeltaChunks(library, m1, index, p.deltas);
    assert start[..0] == [] && ApplyEvents(library, m, start).1 == "" + "";
    var m2 := ApplyEvents(library, m, start + DeltaEvents(index, p.deltas)).0;
    assert stop[..0] == [] && ApplyEvents(library, m2, stop).1 == "" + "";
    hide ApplyEvents;
    assert (("" + "") + Texts(p.deltas)) + ("" + "") == Texts(p.deltas);
  }

  lemma {:induction false} SequentialChunks(library: Library, m: Message, parts: seq<Part>)
    ensures ApplyEvents(library, m, Sequential(parts)).1 == SentText(parts)
    decreases |parts|
  {
    if parts != [] {
      var n := |parts| - 1;
      SequentialChunks(library, m, parts[..n]);
      ApplyConcat(library, m, Sequential(parts[..n]), PartEvents(n, parts[n]));
      PartChunks(library, ApplyEvents(library, m, Sequential(parts[..n])).0, n, parts[n]);
    }
  }

  /** The text that the start events of text blocks carry. */
  function UpFront(parts: seq<Part>): string
    decreases |parts|
  {
    if parts == [] then ""
    else
      var n := |parts| - 1;
      UpFront(parts[..n]) + (if parts[n].data.TextData? then parts[n].data.text else "")
  }

  /** The text that deltas send for blocks that are not text blocks. */
  function Astray(parts: seq<Part>): string
    decreases |parts|
  {
    if parts == [] then ""
    else
      var n := |parts| - 1;
      Astray(parts[..n]) + (if parts[n].data.TextData? then "" else Texts(parts[n].deltas))
  }

  lemma LastPart(parts: seq<Part>)
    requires parts != []
    ensures var n := |parts| - 1;
            && SentText(parts) == SentText(parts[..n]) + Texts(parts[n].deltas)
            && UpFront(parts) == UpFront(parts[..n]) + (if parts[n].data.TextData? then parts[n].data.text else "")
            && Astray(parts) == Astray(parts[..n]) + (if parts[n].data.TextData? then "" else Texts(parts[n].deltas))
  {
  }

  lemma ContentLast(library: Library, content: seq<Data>)
    requires content != []
    ensures var d := content[|content| - 1];
            ApplyContent(library, content).1
            == ApplyContent(library, content[..|content| - 1]).1 + (if d.TextData? then d.text else "")
  {
    hide BeginBlock, EndBlock;
  }

  lemma LastText(library: Library, p: Part, d: Data)
    requires (Known(p.data) <==> Known(d)) && (Known(d) ==> Assemble(library, p) == BlockOf(d))
    ensures p.data.TextData? <==> d.TextData?
    ensures d.TextData? ==> d.text == p.data.text + Texts(p.deltas)
  {
    hide Texts;
  }

  lemma NothingSent(library: Library)
    ensures ApplyContent(library, []).1 == SentText([]) == UpFront([]) == Astray([]) == ""
  {
  }

  /** What the buffered chunk lacks is the text gone astray, and what it has more is the text up front. */
  lemma {:induction false} ChunksBalance(library: Library, parts: seq<Part>, content: seq<Data>)
    requires Decomposes(library, parts, content)
    ensures |ApplyContent(library, content).1| + |Astray(parts)| == |SentText(parts)| + |UpFront(parts)|
    ensures UpFront(parts) == "" && Astray(parts) == "" ==> ApplyContent(library, content).1 == SentText(parts)
    decreases |parts|
  {
    hide ApplyContent, SentText, UpFront, Astray, Texts, Assemble;
    if parts == [] {
      NothingSent(library);
    } else {
      var n := |parts| - 1;
      assert Decomposes(library, parts[..n], content[..n]);
      ChunksBalance(library, parts[..n], content[..n]);
      LastText(library, parts[n], content[n]);
      ContentLast(library, content);
      LastPart(parts);
    }
  }

  /** After every block, the chunks so far are those of the buffered form. */
  ghost predicate InStep(library: Library, parts: seq<Part>, content: seq<Data>)
    requires |parts| == |content|
  {
    forall k :: 0 <= k <= |parts| ==>
      ApplyEvents(library, FreshMessage, Sequential(parts[..k])).1 == ApplyContent(library, content[..k]).1
  }

  lemma {:induction false} InStepExactly(library: Library, parts: seq<Part>, content: seq<Data>)
    requires Decomposes(library, parts, content)
    ensures InStep(library, parts, content) <==> UpFront(parts) == "" && Astray(parts) == ""
    decreases |parts|
  {
    hide ApplyEvents, Sequential, ApplyContent, SentText, UpFront, Astray, Texts, Assemble;
    ChunksBalance(library, parts, content);
    SequentialChunks(library, FreshMessage, parts);
    if parts == [] {
      NothingSent(library);
      assert parts[..0] == parts && content[..0] == content;
      assert forall k :: 0 <= k <= 0 ==> parts[..k] == parts && content[..k] == content;
    } else {
      var n := |parts| - 1;
      assert Decomposes(library, parts[..n], content[..n]);
      InStepExactly(library, parts[..n], content[..n]);
      ChunksBalance(library, parts[..n], content[..n]);
      LastPart(parts);
      hide Decomposes;
      assert parts[..n + 1] == parts && content[..n + 1] == content;
      assert forall k :: 0 <= k <= n ==> parts[..n][..k] == parts[..k] && content[..n][..k] == content[..k];
      assert InStep(library, parts, content) <==>
             (InStep(library, parts[..n], content[..n])
              && ApplyEvents(library, FreshMessage, Sequential(parts)).1 == ApplyContent(library, content).1);
    }
  }

  /**
   Without interleaving, the chunks of a streamed turn against the chunk of the buffered one: their
   lengths differ by the text up front, which is never handed on as a chunk, and by the text gone
   astray, which is handed on though no block takes it. With no text up front they are equal exactly
   when none goes astray, and the other way round; and they agree after every block exactly when there
   is neither.
   */
  lemma ChunksAddUp(library: Library, m: Message, parts: seq<Part>, r: Response, sent: Option<string>)
    requires Decomposes(library, parts, r.content)
    ensures var streamed := ApplyEvents(library, m, TurnEvents(Sequential(parts), sent)).1;
            var buffered := ApplyResponse(library, r).1;
            && |buffered| + |Astray(parts)| == |streamed| + |UpFront(parts)|
            && (UpFront(parts) == "" ==> (streamed == buffered <==> Astray(parts) == ""))
            && (Astray(parts) == "" ==> (streamed == buffered <==> UpFront(parts) == ""))
            && (InStep(library, parts, r.content) <==> UpFront(parts) == "" && Astray(parts) == "")
  {
    TurnIs(library, m, Sequential(parts), sent);
    SequentialChunks(library, FreshMessage, parts);
    ChunksBalance(library, parts, r.content);
    InStepExactly(library, parts, r.content);
    hide ApplyEvents, ApplyContent, SentText, Decomposes, UpFront, Astray, InStep;
  }

  /**
   Both happen. A block of an unknown type is skipped, but text sent for it becomes a chunk; text in
   the start event of a text block becomes none; and the two can make up for each other.
   */
  lemma ChunksGoAstray(library: Library, m: Message, sent: Option<string>)
    ensures var stray, upFront := [Part(UnknownData, [TextDelta("x")])], [Part(TextData("x"), [])];
            var content := [UnknownData, TextData("x")];
            && Decomposes(library, stray, content[..1])
            && ApplyEvents(library, m, TurnEvents(Sequential(stray), sent)).1 == "x"
            && ApplyResponse(library, Response(content[..1], "")).1 == ""
            && Decomposes(library, upFront, content[1..])
            && ApplyEvents(library, m, TurnEvents(Sequential(upFront), sent)).1 == ""
            && ApplyResponse(library, Response(content[1..], "")).1 == "x"
            && Decomposes(library, stray + upFront, content)
            && ApplyEvents(library, m, TurnEvents(Sequential(stray + upFront), sent)).1 == "x"
            && ApplyResponse(library, Response(content, "")).1 == "x"
  {
    var stray, upFront := [Part(UnknownData, [TextDelta("x")])], [Part(TextData("x"), [])];
    StrayText(library);
    Streamed(library, m, stray, sent);
    Streamed(library, m, upFront, sent);
    Streamed(library, m, stray + upFront, sent);
    hide *;
  }

  lemma Streamed(library: Library, m: Message, parts: seq<Part>, sent: Option<string>)
    ensures ApplyEvents(library, m, TurnEvents(Sequential(parts), sent)).1 == SentText(parts)
  {
    TurnIs(library, m, Sequential(parts), sent);
    SequentialChunks(library, FreshMessage, parts);
    hide ApplyEvents, SentText;
  }

  lemma StrayText(library: Library)
    ensures var stray, upFront := [Part(UnknownData, [TextDelta("x")])], [Part(TextData("x"), [])];
            var content := [UnknownData, TextData("x")];
            && Decomposes(library, stray, content[..1]) && SentText(stray) == "x"
            && ApplyResponse(library, Response(content[..1], "")).1 == ""
            && Decomposes(library, upFront, content[1..]) && SentText(upFront) == ""
            && ApplyResponse(library, Response(content[1..], "")).1 == "x"
            && Decomposes(library, stray + upFront, content) && SentText(stray + upFront) == "x"
            && ApplyResponse(library, Response(content, "")).1 == "x"
  {
    var delta: seq<Delta> := [TextDelta("x")];
    assert delta[..0] == [] && Texts(delta) == "" + "x" == "x" && Texts([]) == "";
    var stray, upFront := Part(UnknownData, delta), Part(TextData("x"), []);
    var first, second: Data := UnknownData, TextData("x");
    hide Texts, BlockOf, BeginBlock, EndBlock, HandleStopReason;
    assert [stray][..0] == [] && [upFront][..0] == [] && [first][..0] == [] && [second][..0] == [];
    assert [stray] + [upFront] == [stray, upFront] && [stray, upFront][..1] == [stray];
    assert [first, second][..1] == [first] && [first, second][1..] == [second];
    assert Assemble(library, upFront) == Text("x" + "") && "x" + "" == "x";
    TextBlock("x");
  }

  lemma TextBlock(text: string)
    ensures BlockOf(TextData(text)) == Text(text)
  {
  }
}
