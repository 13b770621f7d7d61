/** The Claude message as the program has it, an object that takes events one by one. */
module ClaudeMessageObject {
  import opened Options
  import opened BaseMessages
  import C = ClaudeMessages
  import opened ClaudeMessages

  /** The part of an event's effects that concerns the message. */
  datatype Effects = Effects(chunk: string, thinkingCompleted: bool, toolsReady: bool)

  const NoEffects: Effects := Effects("", false, false)

  /** There is a thinking block, redacted or not, among the first `n`. */
  predicate HasThinking(content: seq<Data>, n: nat)
    requires n <= |content|
  {
    exists i :: 0 <= i < n && (content[i].ThinkingData? || content[i].RedactedData?)
  }

  class ClaudeMessage {
    var currentBlocks: seq<Block>
    var state: MessageState
    var stopReason: string
    var blockPositions: map<int, nat>
    var toolCallBlocks: map<int, nat>
    var toolCallPending: map<int, string>

    ghost function Model(): Message
      reads this
    {
      Message(currentBlocks, state, stopReason, blockPositions, toolCallBlocks, toolCallPending)
    }

    constructor ()
      ensures Model() == FreshMessage
    {
      currentBlocks, state, stopReason := [], Building, "";
      blockPositions, toolCallBlocks, toolCallPending := map[], map[], map[];
    }

    method StartNewContinuation()
      modifies this
      ensures Model() == FreshMessage
    {
      toolCallBlocks, toolCallPending, blockPositions := map[], map[], map[];
      currentBlocks := [];
      stopReason := "";
      state := Building;
    }

    method AddCurrentContent(block: Block) returns (position: nat)
      modifies `currentBlocks
      ensures currentBlocks == old(currentBlocks) + [block] && position == |old(currentBlocks)|
    {
      position := |currentBlocks|;
      currentBlocks := currentBlocks + [block];
    }

    method BeginBlock(index: int, d: Data)
      modifies this
      ensures Model() == C.BeginBlock(old(Model()), index, d)
    {
      match d
      case UnknownData =>
      case ToolUseData(id, name, input) =>
        var position := AddCurrentContent(ToolUse(id, name, input));
        blockPositions := blockPositions[index := position];
        toolCallBlocks := toolCallBlocks[index := position];
        toolCallPending := toolCallPending[index := ""];
      case _ =>
        var position := AddCurrentContent(BlockOf(d));
        blockPositions := blockPositions[index := position];
    }

    method ApplyDelta(index: int, d: Delta)
      modifies this
      ensures Model() == C.ApplyDelta(old(Model()), index, d)
    {
      if index !in blockPositions || blockPositions[index] >= |currentBlocks| {
        return;
      }
      var position := blockPositions[index];
      var block := currentBlocks[position];
      match d
      case TextDelta(text) =>
        if block.Text? {
          currentBlocks := currentBlocks[position := Text(block.text + text)];
        }
      case JsonDelta(partial) =>
        if index in toolCallPending {
          toolCallPending := toolCallPending[index := toolCallPending[index] + partial];
        }
      case ThinkingDelta(thinking) =>
        if block.Thinking? {
          currentBlocks := currentBlocks[position := Thinking(block.thinking + thinking, block.signature)];
        }
      case SignatureDelta(signature) =>
        if block.Thinking? {
          currentBlocks := currentBlocks[position := Thinking(block.thinking, signature)];
        } else if block.Redacted? {
          currentBlocks := currentBlocks[position := Redacted(signature)];
        }
      case OtherDelta =>
    }

    /** `completeToolCall`, which `endBlock` calls without final arguments. */
    method EndBlock(library: Library, index: int)
      modifies this
      ensures Model() == C.EndBlock(library, old(Model()), index)
    {
      if index !in toolCallPending {
        return;
      }
      var json := toolCallPending[index];
      toolCallPending := toolCallPending - {index};
      var position := if index in toolCallBlocks then toolCallBlocks[index] else |currentBlocks|;
      toolCallBlocks := toolCallBlocks - {index};
      if json == "" {
        return;
      }
      if position < |currentBlocks| && currentBlocks[position].ToolUse? {
        var tool := currentBlocks[position];
        currentBlocks := currentBlocks[position := ToolUse(tool.id, tool.name, library.parseObject(json))];
      }
    }

    method HandleStopReason(reason: string)
      modifies `stopReason, `state
      ensures Model() == C.HandleStopReason(old(Model()), reason)
    {
      stopReason := reason;
      state := Resolve(currentBlocks, reason, STOP_REASONS);
    }

    method ApplyEvent(library: Library, e: Event) returns (effects: Effects)
      modifies this
      ensures (Model(), effects.chunk) == C.ApplyEvent(library, old(Model()), e)
      ensures effects.thinkingCompleted == e.BlockStop? && effects.toolsReady == (e.MessageDelta? && e.stopReason.Some?)
    {
      hide C.BeginBlock, C.ApplyDelta, C.EndBlock, C.HandleStopReason;
      effects := NoEffects;
      match e
      case MessageStart => StartNewContinuation();
      case BlockStart(index, d) => BeginBlock(index, d);
      case BlockDelta(index, d) =>
        ApplyDelta(index, d);
        if d.TextDelta? {
          effects := effects.(chunk := d.text);
        }
      case BlockStop(index) =>
        effects := effects.(thinkingCompleted := true);
        EndBlock(library, index);
      case MessageDelta(reason) =>
        if reason.Some? {
          HandleStopReason(reason.value);
          effects := effects.(toolsReady := true);
        }
      case OtherEvent =>
    }

    method ApplyResponse(library: Library, r: Response) returns (effects: Effects)
      modifies this
      ensures (Model(), effects.chunk) == C.ApplyResponse(library, r)
      ensures effects.toolsReady == (r.reason != "")
      ensures effects.thinkingCompleted == HasThinking(r.content, |r.content|)
    {
      hide C.BeginBlock, C.EndBlock, C.HandleStopReason;
      effects := NoEffects;
      StartNewContinuation();
      var index := 0;
      while index < |r.content|
        invariant 0 <= index <= |r.content| && !effects.toolsReady
        invariant effects.thinkingCompleted == HasThinking(r.content, index)
        invariant (Model(), effects.chunk) == ApplyContent(library, r.content[..index])
      {
        assert r.content[..index + 1][..index] == r.content[..index];
        var d := r.content[index];
        BeginBlock(index, d);
        if d.TextData? {
          effects := effects.(chunk := effects.chunk + d.text);
        } else if d.ThinkingData? || d.RedactedData? {
          effects := effects.(thinkingCompleted := true);
        }
        assert effects.chunk + "" == effects.chunk;
        EndBlock(library, index);
        index := index + 1;
      }
      assert r.content[..index] == r.content;
      if r.reason != "" {
        HandleStopReason(r.reason);
        effects := effects.(toolsReady := true);
      }
    }
  }
}
