/**
 The blocks of one assistant turn (source/core/BaseMessage.cpp): compaction in place, and which
 thinking blocks the application has been told of.
 */
module BaseMessages {
  import opened Options

  type Json = string

  datatype Source = FromUrl(url: string) | FromBase64(data: string)

  /** The kinds of content the modelled messages hold. */
  datatype Block =
    | Text(text: string)
    | Image(source: Source, mimeType: string)
    | ToolUse(id: string, name: string, input: Json)
    | Thinking(thinking: string, signature: string)
    | Redacted(signature: string)

  /** `IsSpace` of characters and JSON parsing belong to the library. */
  datatype Library = Library(isSpace: char -> bool, parseObject: string -> Json)

  predicate Blank(library: Library, s: string) { forall i :: 0 <= i < |s| ==> library.isSpace(s[i]) }

  datatype MessageState = Building | Complete | RequiresToolExecution | Final

  datatype StopReasonMap = StopReasonMap(toolReasons: set<string>, completeReasons: set<string>,
                                         finalReasons: set<string>, openReasons: set<string>,
                                         fallback: MessageState, toolsOverrideReason: bool)

  predicate HasToolUse(blocks: seq<Block>) { exists i :: 0 <= i < |blocks| && blocks[i].ToolUse? }

  function Resolve(blocks: seq<Block>, reason: string, m: StopReasonMap): MessageState {
    if HasToolUse(blocks) && (m.toolsOverrideReason || reason in m.toolReasons) then RequiresToolExecution
    else if reason in m.completeReasons then Complete
    else if reason in m.finalReasons then Final
    else if reason in m.openReasons then Building
    else m.fallback
  }

  // ---- keeping some of a list ---------------------------------------------------------------

  function KeepBy<T>(mask: seq<bool>, s: seq<T>): (r: seq<T>)
    requires |mask| == |s|
    ensures |r| <= |s|
  {
    if s == [] then []
    else KeepBy(mask[..|s| - 1], s[..|s| - 1]) + (if mask[|s| - 1] then [s[|s| - 1]] else [])
  }

  /** How many entries before `i` are kept. */
  function Rank(mask: seq<bool>, i: nat): (r: nat)
    requires i <= |mask|
    ensures r <= i
  {
    if i == 0 then 0 else Rank(mask, i - 1) + (if mask[i - 1] then 1 else 0)
  }

  lemma {:induction false} RankPrefix(mask: seq<bool>, n: nat, i: nat)
    requires i <= n <= |mask|
    ensures Rank(mask[..n], i) == Rank(mask, i)
  {
    if i > 0 {
      RankPrefix(mask, n, i - 1);
    }
  }

  lemma {:induction false} RankMonotone(mask: seq<bool>, i: nat, j: nat)
    requires i <= j <= |mask|
    ensures Rank(mask, i) <= Rank(mask, j)
    ensures i < j && mask[i] ==> Rank(mask, i) < Rank(mask, j)
    decreases j
  {
    if i < j {
      RankMonotone(mask, i, j - 1);
    }
  }

  /** The entry that is kept as number `k`. */
  function Origin(mask: seq<bool>, k: nat): (i: nat)
    requires k < Rank(mask, |mask|)
    ensures i < |mask| && mask[i] && Rank(mask, i) == k
    decreases |mask|
  {
    var n := |mask| - 1;
    RankPrefix(mask, n, n);
    if mask[n] && Rank(mask, n) == k then n
    else
      var i := Origin(mask[..n], k);
      RankPrefix(mask, n, i);
      i
  }

  /** An entry that is kept is found at its rank. */
  lemma {:induction false} KeptAt<T>(mask: seq<bool>, s: seq<T>, i: nat)
    requires |mask| == |s| && i <= |s|
    ensures |KeepBy(mask, s)| == Rank(mask, |s|)
    ensures i < |s| && mask[i] ==> Rank(mask, i) < |KeepBy(mask, s)| && KeepBy(mask, s)[Rank(mask, i)] == s[i]
    decreases |s|
  {
    if s != [] {
      var n := |s| - 1;
      RankPrefix(mask, n, n);
      if i < n {
        RankPrefix(mask, n, i);
        KeptAt(mask[..n], s[..n], i);
      } else {
        KeptAt(mask[..n], s[..n], n);
      }
    }
  }

  lemma OriginOf(mask: seq<bool>, i: nat)
    requires i < |mask| && mask[i]
    ensures Rank(mask, i) < Rank(mask, |mask|) && Origin(mask, Rank(mask, i)) == i
  {
    RankMonotone(mask, i, |mask|);
    var o := Origin(mask, Rank(mask, i));
    RankMonotone(mask, if i < o then i else o, if i < o then o else i);
  }

  lemma KeptFrom<T>(mask: seq<bool>, s: seq<T>)
    requires |mask| == |s|
    ensures |KeepBy(mask, s)| == Rank(mask, |mask|)
    ensures forall k :: 0 <= k < |KeepBy(mask, s)| ==> KeepBy(mask, s)[k] == s[Origin(mask, k)]
  {
    hide KeepBy, Rank, Origin;
    KeptAt(mask, s, |s|);
    forall k | 0 <= k < |KeepBy(mask, s)| ensures KeepBy(mask, s)[k] == s[Origin(mask, k)] {
      KeptAt(mask, s, Origin(mask, k));
    }
  }

  // ---- the operations ---------------------------------------------------------------------------

  datatype Base = Base(blocks: seq<Block>, notified: set<nat>, thinkingIndex: int)

  const Empty: Base := Base([], {}, -1)

  function Mask(blocks: seq<Block>, drop: Block -> bool): (m: seq<bool>)
    ensures |m| == |blocks|
  {
    seq(|blocks|, i requires 0 <= i < |blocks| => !drop(blocks[i]))
  }

  /** The marks of the first `n` entries that are kept, at their new positions. */
  function Remapped(notified: set<nat>, mask: seq<bool>, n: nat): set<nat>
    requires n <= |mask|
  {
    set i | i in notified && i < n && mask[i] :: Rank(mask, i)
  }

  function RemoveBlocksIf(b: Base, drop: Block -> bool): Base {
    var mask := Mask(b.blocks, drop);
    Base(KeepBy(mask, b.blocks),
         Remapped(b.notified, mask, |mask|),
         if 0 <= b.thinkingIndex < |mask| && mask[b.thinkingIndex] then Rank(mask, b.thinkingIndex) else -1)
  }

  /** A thinking block the application can be told of: redacted, or with some text in it. */
  predicate Tellable(library: Library, block: Block) {
    block.Redacted? || (block.Thinking? && !Blank(library, block.thinking))
  }

  datatype Notification = Notification(thinking: string, signature: string)

  function NotificationOf(block: Block): Notification {
    if block.Thinking? then Notification(block.thinking, block.signature)
    else Notification("", if block.Redacted? then block.signature else "")
  }

  /** The positions to be told of, among the first `n`. */
  function Untold(library: Library, b: Base, n: nat): (r: seq<nat>)
    requires n <= |b.blocks|
    ensures forall k :: 0 <= k < |r| ==> r[k] < n && r[k] !in b.notified && Tellable(library, b.blocks[r[k]])
    ensures forall i :: 0 <= i < n && i !in b.notified && Tellable(library, b.blocks[i]) ==> i in r
    ensures forall j, k :: 0 <= j < k < |r| ==> r[j] < r[k]
  {
    if n == 0 then []
    else Untold(library, b, n - 1) + (if n - 1 !in b.notified && Tellable(library, b.blocks[n - 1]) then [n - 1] else [])
  }

  function Notifications(b: Base, positions: seq<nat>): seq<Notification>
    requires forall k :: 0 <= k < |positions| ==> positions[k] < |b.blocks|
  {
    seq(|positions|, k requires 0 <= k < |positions| => NotificationOf(b.blocks[positions[k]]))
  }

  function AsSet(s: seq<nat>): set<nat> { set k | 0 <= k < |s| :: s[k] }

  function TakePending(library: Library, b: Base): (Base, seq<Notification>) {
    var positions := Untold(library, b, |b.blocks|);
    (b.(notified := b.notified + AsSet(positions)), Notifications(b, positions))
  }

  function Add(b: Base, block: Block): Base { b.(blocks := b.blocks + [block]) }

  /** The first block of a kind, or the end. */
  function FirstThinking(blocks: seq<Block>): (i: nat)
    ensures i <= |blocks| && (i < |blocks| ==> blocks[i].Thinking?) && forall j :: 0 <= j < i ==> !blocks[j].Thinking?
  {
    if blocks == [] || blocks[0].Thinking? then 0 else 1 + FirstThinking(blocks[1..])
  }

  function FirstText(blocks: seq<Block>): (i: nat)
    ensures i <= |blocks| && (i < |blocks| ==> blocks[i].Text?) && forall j :: 0 <= j < i ==> !blocks[j].Text?
  {
    if blocks == [] || blocks[0].Text? then 0 else 1 + FirstText(blocks[1..])
  }

  function EnsureThinking(b: Base): Base {
    if 0 <= b.thinkingIndex < |b.blocks| && b.blocks[b.thinkingIndex].Thinking? then b
    else
      var i := FirstThinking(b.blocks);
      (if i < |b.blocks| then b else Add(b, Thinking("", ""))).(thinkingIndex := i)
  }

  function EnsureText(b: Base): Base {
    if FirstText(b.blocks) < |b.blocks| then b else Add(b, Text(""))
  }

  function AppendText(b: Base, delta: string): Base {
    var b1 := EnsureText(b);
    var i := FirstText(b.blocks);
    if i < |b1.blocks| && b1.blocks[i].Text?
    then b1.(blocks := b1.blocks[i := Text(b1.blocks[i].text + delta)]) else b1
  }

  // ---- all operations -------------------------------------------------------------------------------

  predicate SameKind(a: Block, b: Block) {
    (a.Text? <==> b.Text?) && (a.Image? <==> b.Image?) && (a.ToolUse? <==> b.ToolUse?)
    && (a.Thinking? <==> b.Thinking?) && (a.Redacted? <==> b.Redacted?)
  }

  /** `Edit` is what a delta does to the block it belongs to. */
  datatype Op =
    | Append(block: Block)
    | Edit(position: nat, block: Block)
    | RemoveIf(drop: Block -> bool)
    | Take
    | Think
    | Speak(delta: string)
    | Clear

  /** Gives every block a name of its own, so as to say which ones were told of. */
  datatype Tracked = Tracked(base: Base, names: seq<nat>, next: nat, told: seq<nat>)

  const Untouched: Tracked := Tracked(Empty, [], 0, [])

  function Extended(t: Tracked, b: Base): Tracked {
    if |b.blocks| > |t.base.blocks| then Tracked(b, t.names + [t.next], t.next + 1, t.told) else t.(base := b)
  }

  function Apply(library: Library, t: Tracked, op: Op): Tracked
    requires |t.names| == |t.base.blocks|
  {
    var b := t.base;
    match op
    case Append(block) => Extended(t, Add(b, block))
    case Edit(i, block) =>
      if i < |b.blocks| && SameKind(b.blocks[i], block) then t.(base := b.(blocks := b.blocks[i := block])) else t
    case RemoveIf(drop) => t.(base := RemoveBlocksIf(b, drop), names := KeepBy(Mask(b.blocks, drop), t.names))
    case Take =>
      var positions := Untold(library, b, |b.blocks|);
      t.(base := TakePending(library, b).0,
         told := t.told + seq(|positions|, k requires 0 <= k < |positions| => t.names[positions[k]]))
    case Think => Extended(t, EnsureThinking(b))
    case Speak(delta) => Extended(t, AppendText(b, delta))
    case Clear => t.(base := Empty, names := [])
  }

  ghost predicate Distinct(s: seq<nat>) { forall i, j :: 0 <= i < j < |s| ==> s[i] != s[j] }

  ghost predicate ThinkingIndexOk(b: Base) {
    b.thinkingIndex == -1 || (0 <= b.thinkingIndex < |b.blocks| && b.blocks[b.thinkingIndex].Thinking?)
  }

  /** The told blocks still there are exactly the notified ones. */
  ghost predicate Ok(t: Tracked) {
    && |t.names| == |t.base.blocks|
    && Distinct(t.names) && (forall k :: 0 <= k < |t.names| ==> t.names[k] < t.next)
    && Distinct(t.told) && (forall k :: 0 <= k < |t.told| ==> t.told[k] < t.next)
    && (forall i :: i in t.base.notified ==> i < |t.names|)
    && (forall i :: 0 <= i < |t.names| ==> (i in t.base.notified <==> t.names[i] in t.told))
    && ThinkingIndexOk(t.base)
  }

  lemma ExtendedOk(t: Tracked, b: Base)
    requires Ok(t) && b.notified == t.base.notified && ThinkingIndexOk(b)
    requires |b.blocks| == |t.base.blocks| || |b.blocks| == |t.base.blocks| + 1
    ensures Ok(Extended(t, b))
  {
  }

  /** The marks that removal leaves, by origin. */
  lemma MarksKept(b: Base, drop: Block -> bool)
    ensures var mask, r := Mask(b.blocks, drop), RemoveBlocksIf(b, drop);
            && |r.blocks| == Rank(mask, |mask|)
            && (forall k :: k in r.notified ==> k < |r.blocks|)
            && (forall k :: 0 <= k < |r.blocks| ==>
                  && r.blocks[k] == b.blocks[Origin(mask, k)]
                  && (k in r.notified <==> Origin(mask, k) in b.notified)
                  && (k == r.thinkingIndex <==> Origin(mask, k) == b.thinkingIndex))
            && (r.thinkingIndex == -1 || 0 <= r.thinkingIndex < |r.blocks|)
  {
    hide KeepBy, Rank, Origin;
    var mask, r := Mask(b.blocks, drop), RemoveBlocksIf(b, drop);
    KeptFrom(mask, b.blocks);
    forall i | 0 <= i < |mask| && mask[i] ensures Rank(mask, i) < |r.blocks| && Origin(mask, Rank(mask, i)) == i {
      OriginOf(mask, i);
    }
  }

  lemma RemoveIfOk(library: Library, t: Tracked, drop: Block -> bool)
    requires Ok(t)
    ensures Ok(Apply(library, t, RemoveIf(drop)))
  {
    hide KeepBy, Rank, Origin, RemoveBlocksIf, Mask;
    MarksKept(t.base, drop);
    var mask := Mask(t.base.blocks, drop);
    KeptFrom(mask, t.names);
    forall j, k | 0 <= j < k < Rank(mask, |mask|) ensures Origin(mask, j) != Origin(mask, k) {
      assert Rank(mask, Origin(mask, j)) == j;
    }
  }

  lemma TakeOk(library: Library, t: Tracked)
    requires Ok(t)
    ensures Ok(Apply(library, t, Take))
  {
    hide Tellable, Untold, Notifications;
    var positions := Untold(library, t.base, |t.base.blocks|);
    var r := Apply(library, t, Take);
    var more := seq(|positions|, k requires 0 <= k < |positions| => t.names[positions[k]]);
    assert r.told == t.told + more && r.base.notified == t.base.notified + AsSet(positions);
    TakenMarks(t, positions, more);
    hide Apply, TakePending;
  }

  lemma TakenMarks(t: Tracked, positions: seq<nat>, more: seq<nat>)
    requires Ok(t) && |more| == |positions|
    requires forall k :: 0 <= k < |positions| ==> positions[k] < |t.names| && positions[k] !in t.base.notified
    requires forall k :: 0 <= k < |positions| ==> more[k] == t.names[positions[k]]
    requires forall j, k :: 0 <= j < k < |positions| ==> positions[j] < positions[k]
    ensures Distinct(t.told + more) && forall k :: 0 <= k < |more| ==> more[k] < t.next
    ensures forall i :: 0 <= i < |t.names| ==>
              (i in t.base.notified + AsSet(positions) <==> t.names[i] in t.told + more)
  {
    forall i | 0 <= i < |t.names| ensures i in AsSet(positions) <==> t.names[i] in more {
      if i in AsSet(positions) {
        var k :| 0 <= k < |positions| && positions[k] == i;
        assert more[k] == t.names[i];
      }
      if t.names[i] in more {
        var k :| 0 <= k < |more| && more[k] == t.names[i];
        assert positions[k] == i;
      }
    }
    forall k | 0 <= k < |more| ensures more[k] !in t.told {
      assert positions[k] !in t.base.notified;
    }
  }

  lemma ApplyOk(library: Library, t: Tracked, op: Op)
    requires Ok(t)
    ensures Ok(Apply(library, t, op))
  {
    match op
    case Append(block) => ExtendedOk(t, Add(t.base, block));
    case Edit(i, block) =>
    case RemoveIf(drop) => RemoveIfOk(library, t, drop);
    case Take => TakeOk(library, t);
    case Think => ExtendedOk(t, EnsureThinking(t.base));
    case Speak(delta) => ExtendedOk(t, AppendText(t.base, delta));
    case Clear =>
  }

  function ApplyAll(library: Library, t: Tracked, ops: seq<Op>): Tracked
    requires Ok(t)
    decreases |ops|
  {
    if ops == [] then t
    else
      ApplyOk(library, t, ops[0]);
      ApplyAll(library, Apply(library, t, ops[0]), ops[1..])
  }

  /**
   Under any mix of appends, edits, removals and clears, taking the pending notifications tells of
   each block at most once, and leaves no block untold that could be told of.
   */
  lemma {:induction false} ToldAtMostOnce(library: Library, t: Tracked, ops: seq<Op>)
    requires Ok(t)
    ensures var r := ApplyAll(library, t, ops);
            && Ok(r) && Distinct(r.told)
            && var taken := Apply(library, r, Take);
               forall i :: 0 <= i < |r.names| && Tellable(library, r.base.blocks[i]) ==> taken.names[i] in taken.told
    decreases |ops|
  {
    hide Tellable;
    if ops == [] {
      TakeOk(library, t);
      var taken := Apply(library, t, Take);
      forall i | 0 <= i < |t.names| && Tellable(library, t.base.blocks[i]) ensures taken.names[i] in taken.told {
        assert i in taken.base.notified;
      }
    } else {
      ApplyOk(library, t, ops[0]);
      ToldAtMostOnce(library, Apply(library, t, ops[0]), ops[1..]);
    }
  }

  /** Removal is the stable filter: what stays keeps its order, its mark and its being current. */
  lemma RemovalIsStable(b: Base, drop: Block -> bool, i: nat, j: nat)
    requires i < j < |b.blocks| && !drop(b.blocks[i]) && !drop(b.blocks[j])
    ensures var mask, r := Mask(b.blocks, drop), RemoveBlocksIf(b, drop);
            && Rank(mask, i) < Rank(mask, j) < |r.blocks|
            && r.blocks[Rank(mask, i)] == b.blocks[i] && r.blocks[Rank(mask, j)] == b.blocks[j]
            && (Rank(mask, i) in r.notified <==> i in b.notified)
            && (r.thinkingIndex == Rank(mask, i) <==> b.thinkingIndex == i)
    ensures forall k :: 0 <= k < |RemoveBlocksIf(b, drop).blocks| ==> !drop(RemoveBlocksIf(b, drop).blocks[k])
  {
    hide KeepBy, Rank, Origin;
    var mask := Mask(b.blocks, drop);
    MarksKept(b, drop);
    OriginOf(mask, i);
    OriginOf(mask, j);
    RankMonotone(mask, i, j);
    hide RemoveBlocksIf;
  }

  lemma KeepNext<T>(mask: seq<bool>, s: seq<T>, i: nat)
    requires |mask| == |s| && i < |s|
    ensures KeepBy(mask[..i + 1], s[..i + 1]) == KeepBy(mask[..i], s[..i]) + (if mask[i] then [s[i]] else [])
  {
    assert mask[..i + 1][..i] == mask[..i] && s[..i + 1][..i] == s[..i];
  }
}
