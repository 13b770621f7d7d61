/** The message as the program has it, an object whose list of blocks is edited in place. */
module BaseMessageObject {
  import B = BaseMessages
  import opened BaseMessages

  class BaseMessage {
    var blocks: seq<Block>
    var notifiedThinking: set<nat>
    var currentThinkingIndex: int
    var stopReason: string
    var state: MessageState

    ghost function Model(): Base
      reads this
    {
      Base(blocks, notifiedThinking, currentThinkingIndex)
    }

    constructor ()
      ensures Model() == Empty && stopReason == "" && state == Building
    {
      blocks, notifiedThinking, currentThinkingIndex, stopReason, state := [], {}, -1, "", Building;
    }

    method AddCurrentContent(block: Block) returns (position: nat)
      modifies `blocks
      ensures Model() == Add(old(Model()), block) && position == |old(blocks)|
    {
      blocks := blocks + [block];
      position := |blocks| - 1;
    }

    method TakePendingThinkingNotifications(library: Library) returns (pending: seq<Notification>)
      modifies `notifiedThinking
      ensures (Model(), pending) == TakePending(library, old(Model()))
    {
      hide Tellable, Untold;
      ghost var before := Model();
      pending := [];
      var i := 0;
      NothingUntold(library, before);
      while i < |blocks|
        invariant 0 <= i <= |blocks|
        invariant notifiedThinking == before.notified + AsSet(Untold(library, before, i))
        invariant pending == Notifications(before, Untold(library, before, i))
      {
        UntoldNext(library, before, i);
        if i !in notifiedThinking && Tellable(library, blocks[i]) {
          notifiedThinking := notifiedThinking + {i};
          pending := pending + [NotificationOf(blocks[i])];
        }
        i := i + 1;
      }
    }

    /** Compaction in place: what is kept moves down, the rest is cut off. */
    method RemoveBlocksIf(drop: Block -> bool)
      modifies `blocks, `notifiedThinking, `currentThinkingIndex
      ensures Model() == B.RemoveBlocksIf(old(Model()), drop)
    {
      ghost var before := Model();
      ghost var mask := Mask(blocks, drop);
      var remapped: set<nat> := {};
      var thinkingIndex := -1;
      var kept, i := 0, 0;
      hide KeepBy, Rank, Remapped;
      NothingKept(mask, before);
      while i < |blocks|
        invariant 0 <= kept <= i <= |mask| == |blocks|
        invariant notifiedThinking == before.notified && currentThinkingIndex == before.thinkingIndex
        invariant kept == Rank(mask, i) && Compacted(before.blocks, blocks, mask, kept, i)
        invariant remapped == Remapped(before.notified, mask, i)
        invariant thinkingIndex == if 0 <= before.thinkingIndex < i && mask[before.thinkingIndex]
                                   then Rank(mask, before.thinkingIndex) else -1
      {
        RankNext(mask, i);
        RemappedNext(before.notified, mask, i);
        CompactNext(before.blocks, blocks, mask, kept, i);
        if !drop(blocks[i]) {
          if i in notifiedThinking {
            remapped := remapped + {kept};
          }
          if i == currentThinkingIndex {
            thinkingIndex := kept;
          }
          if kept != i {
            blocks := blocks[kept := blocks[i]];
          }
          kept := kept + 1;
        }
        i := i + 1;
      }
      AllCompacted(before.blocks, blocks, mask, kept);
      blocks := blocks[..kept];
      notifiedThinking := remapped;
      currentThinkingIndex := thinkingIndex;
    }

    method ClearBlocks()
      modifies `blocks, `notifiedThinking, `currentThinkingIndex
      ensures Model() == Empty
    {
      blocks, notifiedThinking, currentThinkingIndex := [], {}, -1;
    }

    method StartNewContinuation()
      modifies this
      ensures Model() == Empty && stopReason == "" && state == Building
    {
      ClearBlocks();
      stopReason := "";
      state := Building;
    }

    method RecordStopReason(reason: string, m: StopReasonMap)
      modifies `stopReason, `state
      ensures stopReason == reason && state == Resolve(blocks, reason, m)
    {
      stopReason := reason;
      state := Resolve(blocks, reason, m);
    }

    method EnsureThinkingContentIndex() returns (index: nat)
      modifies `blocks, `currentThinkingIndex
      ensures Model() == EnsureThinking(old(Model())) && currentThinkingIndex == index
      ensures index < |blocks| && blocks[index].Thinking?
    {
      if 0 <= currentThinkingIndex < |blocks| && blocks[currentThinkingIndex].Thinking? {
        return currentThinkingIndex;
      }
      index := 0;
      while index < |blocks| && !blocks[index].Thinking?
        invariant 0 <= index <= |blocks| && blocks == old(blocks)
        invariant forall j :: 0 <= j < index ==> !blocks[j].Thinking?
      {
        index := index + 1;
      }
      if index == |blocks| {
        index := AddCurrentContent(Thinking("", ""));
      }
      currentThinkingIndex := index;
    }

    method EnsureTextContentIndex() returns (index: nat)
      modifies `blocks
      ensures Model() == EnsureText(old(Model())) && index == FirstText(old(blocks))
      ensures index < |blocks| && blocks[index].Text?
    {
      index := 0;
      while index < |blocks| && !blocks[index].Text?
        invariant 0 <= index <= |blocks| && blocks == old(blocks)
        invariant forall j :: 0 <= j < index ==> !blocks[j].Text?
      {
        index := index + 1;
      }
      if index == |blocks| {
        index := AddCurrentContent(Text(""));
      }
    }

    method AppendTextDelta(delta: string)
      modifies `blocks
      ensures Model() == AppendText(old(Model()), delta)
    {
      var index := EnsureTextContentIndex();
      blocks := blocks[index := Text(blocks[index].text + delta)];
    }
  }

  lemma NothingUntold(library: Library, b: Base)
    ensures AsSet(Untold(library, b, 0)) == {} && Notifications(b, Untold(library, b, 0)) == []
  {
  }

  lemma UntoldNext(library: Library, b: Base, i: nat)
    requires i < |b.blocks|
    ensures var before, now := Untold(library, b, i), Untold(library, b, i + 1);
            var told := i !in b.notified && Tellable(library, b.blocks[i]);
            && i !in AsSet(before)
            && AsSet(now) == AsSet(before) + (if told then {i} else {})
            && Notifications(b, now) == Notifications(b, before) + (if told then [NotificationOf(b.blocks[i])] else [])
  {
    hide Tellable;
    var before, now := Untold(library, b, i), Untold(library, b, i + 1);
    if i !in b.notified && Tellable(library, b.blocks[i]) {
      assert now == before + [i];
      assert forall k :: 0 <= k < |before| ==> now[k] == before[k];
      assert now[|before|] == i;
    } else {
      assert now == before + [];
    }
  }

  lemma RankNext(mask: seq<bool>, i: nat)
    requires i < |mask|
    ensures Rank(mask, i + 1) == Rank(mask, i) + (if mask[i] then 1 else 0)
  {
  }

  /** The first `i` entries are dealt with: those kept stand in front, the others are as they were. */
  ghost predicate Compacted(before: seq<Block>, blocks: seq<Block>, mask: seq<bool>, kept: nat, i: nat) {
    && kept <= i <= |before| == |blocks| == |mask|
    && blocks[..kept] == KeepBy(mask[..i], before[..i])
    && blocks[i..] == before[i..]
  }

  lemma CompactNext(before: seq<Block>, blocks: seq<Block>, mask: seq<bool>, kept: nat, i: nat)
    requires Compacted(before, blocks, mask, kept, i) && i < |blocks|
    ensures blocks[i] == before[i]
    ensures mask[i] ==> Compacted(before, blocks[kept := blocks[i]], mask, kept + 1, i + 1)
    ensures mask[i] && kept == i ==> Compacted(before, blocks, mask, kept + 1, i + 1)
    ensures !mask[i] ==> Compacted(before, blocks, mask, kept, i + 1)
  {
    hide KeepBy;
    KeepNext(mask, before, i);
    assert blocks[i] == blocks[i..][0] == before[i..][0];
    var moved := blocks[kept := blocks[i]];
    assert moved[..kept + 1] == blocks[..kept] + [blocks[i]];
    assert moved[i + 1..] == blocks[i..][1..] && before[i + 1..] == before[i..][1..];
    assert kept == i ==> moved == blocks;
  }

  lemma AllCompacted(before: seq<Block>, blocks: seq<Block>, mask: seq<bool>, kept: nat)
    requires Compacted(before, blocks, mask, kept, |before|)
    ensures blocks[..kept] == KeepBy(mask, before)
  {
    hide KeepBy;
    assert mask[..|before|] == mask && before[..|before|] == before;
  }

  lemma NothingKept(mask: seq<bool>, b: Base)
    requires |mask| == |b.blocks|
    ensures Compacted(b.blocks, b.blocks, mask, 0, 0) && Rank(mask, 0) == 0 && Remapped(b.notified, mask, 0) == {}
  {
  }

  lemma RemappedNext(notified: set<nat>, mask: seq<bool>, i: nat)
    requires i < |mask|
    ensures Remapped(notified, mask, i + 1)
         == Remapped(notified, mask, i) + (if i in notified && mask[i] then {Rank(mask, i)} else {})
  {
    hide Rank;
  }
}
