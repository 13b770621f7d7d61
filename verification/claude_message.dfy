/**
 How a Claude turn is put together (source/clients/claude/ClaudeMessage.cpp), from stream events or
 from one buffered response.
 */
module ClaudeMessages {
  import opened Options
  import opened BaseMessages

  /** A `content_block` object, by its `type`. */
  datatype Data =
    | TextData(text: string)
    | UrlImageData(url: string)
    | BytesImageData(data: string, mediaType: string)
    | ToolUseData(id: string, name: string, input: Json)
    | ThinkingData(thinking: string, signature: string)
    | RedactedData(signature: string)
    | UnknownData

  datatype Delta =
    | TextDelta(text: string)
    | JsonDelta(partial: string)
    | ThinkingDelta(thinking: string)
    | SignatureDelta(signature: string)
    | OtherDelta

  datatype Event =
    | MessageStart
    | BlockStart(index: int, data: Data)
    | BlockDelta(index: int, delta: Delta)
    | BlockStop(index: int)
    | MessageDelta(stopReason: Option<string>)
    | OtherEvent

  /** `reason` is the response's `stop_reason`, empty when it has none. */
  datatype Response = Response(content: seq<Data>, reason: string)

  /** The fields that grow with the blocks; the two hashes of the tool-call accumulator come last. */
  datatype Message = Message(blocks: seq<Block>, state: MessageState, stopReason: string,
                             positions: map<int, nat>, callBlock: map<int, nat>, callJson: map<int, string>)

  const FreshMessage: Message := Message([], Building, "", map[], map[], map[])

  const STOP_REASONS: StopReasonMap := StopReasonMap({"tool_use"}, {}, {"end_turn"}, {}, Complete, false)

  predicate Known(d: Data) { !d.UnknownData? }

  function BlockOf(d: Data): Block {
    match d
    case TextData(text) => Text(text)
    case UrlImageData(url) => Image(FromUrl(url), "")
    case BytesImageData(data, mediaType) => Image(FromBase64(data), mediaType)
    case ToolUseData(id, name, input) => ToolUse(id, name, input)
    case ThinkingData(thinking, signature) => Thinking(thinking, signature)
    case RedactedData(signature) => Redacted(signature)
    case UnknownData => Text("")
  }

  // ---- the operations ---------------------------------------------------------------------------

  function BeginBlock(m: Message, index: int, d: Data): Message {
    if !Known(d) then m
    else
      var position := |m.blocks|;
      var m1 := m.(blocks := m.blocks + [BlockOf(d)], positions := m.positions[index := position]);
      if d.ToolUseData?
      then m1.(callBlock := m1.callBlock[index := position], callJson := m1.callJson[index := ""]) else m1
  }

  /** What a delta does to the block itself. */
  function Edited(b: Block, d: Delta): Block {
    if d.TextDelta? && b.Text? then Text(b.text + d.text)
    else if d.ThinkingDelta? && b.Thinking? then Thinking(b.thinking + d.thinking, b.signature)
    else if d.SignatureDelta? && b.Thinking? then Thinking(b.thinking, d.signature)
    else if d.SignatureDelta? && b.Redacted? then Redacted(d.signature)
    else b
  }

  function ApplyDelta(m: Message, index: int, d: Delta): Message {
    if index !in m.positions || m.positions[index] >= |m.blocks| then m
    else if d.JsonDelta?
    then (if index in m.callJson then m.(callJson := m.callJson[index := m.callJson[index] + d.partial]) else m)
    else
      var position := m.positions[index];
      m.(blocks := m.blocks[position := Edited(m.blocks[position], d)])
  }

  /** A tool call's arguments are parsed when its block ends, unless none came. */
  function Finished(library: Library, b: Block, json: string): Block {
    if json != "" && b.ToolUse? then ToolUse(b.id, b.name, library.parseObject(json)) else b
  }

  function EndBlock(library: Library, m: Message, index: int): Message {
    if index !in m.callJson then m
    else
      var m1 := m.(callJson := m.callJson - {index}, callBlock := m.callBlock - {index});
      if index in m.callBlock && m.callBlock[index] < |m.blocks|
      then
        var position := m.callBlock[index];
        m1.(blocks := m.blocks[position := Finished(library, m.blocks[position], m.callJson[index])])
      else m1
  }

  function HandleStopReason(m: Message, reason: string): Message {
    m.(stopReason := reason, state := Resolve(m.blocks, reason, STOP_REASONS))
  }

  /** The new message, and the chunk of text the event yields. */
  function ApplyEvent(library: Library, m: Message, e: Event): (Message, string) {
    match e
    case MessageStart => (FreshMessage, "")
    case BlockStart(index, d) => (BeginBlock(m, index, d), "")
    case BlockDelta(index, d) => (ApplyDelta(m, index, d), if d.TextDelta? then d.text else "")
    case BlockStop(index) => (EndBlock(library, m, index), "")
    case MessageDelta(reason) => (if reason.Some? then HandleStopReason(m, reason.value) else m, "")
    case OtherEvent => (m, "")
  }

  function ApplyEvents(library: Library, m: Message, es: seq<Event>): (Message, string)
    decreases |es|
  {
    if es == [] then (m, "")
    else
      var (m1, before) := ApplyEvents(library, m, es[..|es| - 1]);
      var (m2, chunk) := ApplyEvent(library, m1, es[|es| - 1]);
      (m2, before + chunk)
  }

  /** The loop over the content of a buffered response. */
  function ApplyContent(library: Library, content: seq<Data>): (Message, string)
    decreases |content|
  {
    if content == [] then (FreshMessage, "")
    else
      var index := |content| - 1;
      var d := content[index];
      var (m, chunk) := ApplyContent(library, content[..index]);
      (EndBlock(library, BeginBlock(m, index, d), index), chunk + (if d.TextData? then d.text else ""))
  }

  function ApplyResponse(library: Library, r: Response): (Message, string) {
    var (m, chunk) := ApplyContent(library, r.content);
    (if r.reason != "" then HandleStopReason(m, r.reason) else m, chunk)
  }

  // ---- one block at a time ------------------------------------------------------------------------

  /** What a message holds for one index: its block and the arguments of its open call. */
  datatype Cell = NoCell | Cell(block: Block, json: Option<string>)

  function CellAt(m: Message, index: int): Cell {
    if index in m.positions && m.positions[index] < |m.blocks|
    then Cell(m.blocks[m.positions[index]], if index in m.callJson then Some(m.callJson[index]) else None)
    else NoCell
  }

  function StepCell(library: Library, c: Cell, e: Event): Cell {
    match e
    case BlockStart(_, d) =>
      if Known(d) then Cell(BlockOf(d), if d.ToolUseData? then Some("") else None) else c
    case BlockDelta(_, d) =>
      if c.NoCell? then c
      else if d.JsonDelta? then c.(json := if c.json.Some? then Some(c.json.value + d.partial) else None)
      else c.(block := Edited(c.block, d))
    case BlockStop(_) =>
      if c.NoCell? || c.json.None? then c else Cell(Finished(library, c.block, c.json.value), None)
    case _ => c
  }

  function FoldCell(library: Library, es: seq<Event>): Cell
    decreases |es|
  {
    if es == [] then NoCell else StepCell(library, FoldCell(library, es[..|es| - 1]), es[|es| - 1])
  }

  predicate IsAbout(e: Event, index: int) {
    (e.BlockStart? || e.BlockDelta? || e.BlockStop?) && e.index == index
  }

  /** The events of a stream about one index. */
  function Project(es: seq<Event>, index: int): seq<Event>
    decreases |es|
  {
    if es == [] then []
    else
      var before := Project(es[..|es| - 1], index);
      if IsAbout(es[|es| - 1], index) then before + [es[|es| - 1]] else before
  }

  /** The indices of the blocks that are started, unknown types left out, in order. */
  function Started(es: seq<Event>): seq<int>
    decreases |es|
  {
    if es == [] then []
    else
      var e := es[|es| - 1];
      Started(es[..|es| - 1]) + (if e.BlockStart? && Known(e.data) then [e.index] else [])
  }

  predicate IsContent(e: Event) { e.BlockStart? || e.BlockDelta? || e.BlockStop? || e.OtherEvent? }

  /** Content events only, and no index started twice. */
  ghost predicate OneStartEach(es: seq<Event>) {
    && (forall k :: 0 <= k < |es| ==> IsContent(es[k]))
    && forall j, k :: 0 <= j < k < |Started(es)| ==> Started(es)[j] != Started(es)[k]
  }

  /** The message is its cells, in the order in which they were started. */
  ghost predicate IsCells(library: Library, m: Message, es: seq<Event>) {
    var order := Started(es);
    && |m.blocks| == |order|
    && (forall k :: 0 <= k < |order| ==> order[k] in m.positions && m.positions[order[k]] == k)
    && (forall i :: i in m.positions ==> m.positions[i] < |order| && order[m.positions[i]] == i)
    && (forall i :: i in m.callJson <==> i in m.callBlock)
    && (forall i :: i in m.callBlock ==> i in m.positions && m.callBlock[i] == m.positions[i])
    && (forall i :: CellAt(m, i) == FoldCell(library, Project(es, i)))
  }

  lemma ProjectSnoc(library: Library, es: seq<Event>, e: Event, index: int)
    ensures Project(es + [e], index) == if IsAbout(e, index) then Project(es, index) + [e] else Project(es, index)
    ensures Started(es + [e]) == Started(es) + (if e.BlockStart? && Known(e.data) then [e.index] else [])
    ensures FoldCell(library, Project(es + [e], index))
         == if IsAbout(e, index) then StepCell(library, FoldCell(library, Project(es, index)), e)
            else FoldCell(library, Project(es, index))
  {
    assert (es + [e])[..|es|] == es;
    var p := Project(es, index);
    assert (p + [e])[..|p|] == p;
  }

  lemma StartCells(library: Library, m: Message, es: seq<Event>, e: Event)
    requires IsCells(library, m, es) && e.BlockStart? && e.index !in Started(es)
    ensures IsCells(library, ApplyEvent(library, m, e).0, es + [e])
  {
    hide FoldCell, Project, Started, BlockOf;
    var m1 := BeginBlock(m, e.index, e.data);
    ProjectSnoc(library, es, e, e.index);
    assert e.index !in m.positions;
    forall i ensures CellAt(m1, i) == FoldCell(library, Project(es + [e], i)) {
      ProjectSnoc(library, es, e, i);
      assert CellAt(m, i) == FoldCell(library, Project(es, i));
    }
  }

  lemma DeltaCells(library: Library, m: Message, es: seq<Event>, e: Event)
    requires IsCells(library, m, es) && e.BlockDelta?
    ensures IsCells(library, ApplyEvent(library, m, e).0, es + [e])
  {
    hide FoldCell, Project, Started, Edited;
    var m1 := ApplyDelta(m, e.index, e.delta);
    ProjectSnoc(library, es, e, e.index);
    forall i ensures CellAt(m1, i) == FoldCell(library, Project(es + [e], i)) {
      ProjectSnoc(library, es, e, i);
      assert CellAt(m, i) == FoldCell(library, Project(es, i));
      if i != e.index && i in m.positions && e.index in m.positions {
        assert m.positions[i] != m.positions[e.index];
      }
    }
  }

  lemma StopCells(library: Library, m: Message, es: seq<Event>, e: Event)
    requires IsCells(library, m, es) && e.BlockStop?
    ensures IsCells(library, ApplyEvent(library, m, e).0, es + [e])
  {
    hide FoldCell, Project, Started, Finished;
    var m1 := EndBlock(library, m, e.index);
    ProjectSnoc(library, es, e, e.index);
    forall i ensures CellAt(m1, i) == FoldCell(library, Project(es + [e], i)) {
      ProjectSnoc(library, es, e, i);
      assert CellAt(m, i) == FoldCell(library, Project(es, i));
      if i != e.index && i in m.positions && e.index in m.positions {
        assert m.positions[i] != m.positions[e.index];
      }
    }
  }

  /**
   However the events of different blocks are interleaved, a message is what each block's own events
   make of it, in the order in which the blocks were started.
   */
  lemma {:induction false} BlocksDoNotInterfere(library: Library, es: seq<Event>)
    requires OneStartEach(es)
    ensures IsCells(library, ApplyEvents(library, FreshMessage, es).0, es)
    decreases |es|
  {
    if es != [] {
      var n := |es| - 1;
      var before, e := es[..n], es[n];
      assert es == before + [e];
      ProjectSnoc(library, before, e, 0);
      OneStartBefore(before, e);
      BlocksDoNotInterfere(library, before);
      var m := ApplyEvents(library, FreshMessage, before).0;
      hide IsCells, FoldCell, Project, Started;
      match e
      case BlockStart(index, d) =>
        if index !in Started(before) {
          StartCells(library, m, before, e);
        } else {
          UnknownCells(library, m, before, e);
        }
      case BlockDelta(_, _) => DeltaCells(library, m, before, e);
      case BlockStop(_) => StopCells(library, m, before, e);
      case _ => OtherCells(library, m, before, e);
    }
  }

  lemma OneStartBefore(before: seq<Event>, e: Event)
    requires OneStartEach(before + [e])
    ensures OneStartEach(before) && IsContent(e)
    ensures e.BlockStart? && Known(e.data) ==> e.index !in Started(before)
  {
    var es := before + [e];
    assert es[..|before|] == before && es[|before|] == e;
    assert forall k :: 0 <= k < |before| ==> es[k] == before[k];
    var s := Started(before);
    assert forall k :: 0 <= k < |s| ==> Started(es)[k] == s[k];
    if e.BlockStart? && Known(e.data) {
      assert Started(es)[|s|] == e.index;
    }
  }

  lemma OtherCells(library: Library, m: Message, es: seq<Event>, e: Event)
    requires IsCells(library, m, es) && e.OtherEvent?
    ensures IsCells(library, ApplyEvent(library, m, e).0, es + [e])
  {
    hide FoldCell, Project, Started, CellAt;
    ProjectSnoc(library, es, e, 0);
    forall i ensures CellAt(m, i) == FoldCell(library, Project(es + [e], i)) {
      ProjectSnoc(library, es, e, i);
    }
  }

  /** A block of an unknown type leaves everything as it is. */
  lemma UnknownCells(library: Library, m: Message, es: seq<Event>, e: Event)
    requires IsCells(library, m, es) && e.BlockStart? && !Known(e.data)
    ensures IsCells(library, ApplyEvent(library, m, e).0, es + [e])
  {
    hide FoldCell, Project, Started, CellAt;
    ProjectSnoc(library, es, e, 0);
    forall i ensures CellAt(m, i) == FoldCell(library, Project(es + [e], i)) {
      ProjectSnoc(library, es, e, i);
    }
  }
}
