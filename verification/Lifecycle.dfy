/** On every well-formed Messages stream the translator's output is accepted by the observer of `Ledger`. */
module Lifecycle {
  import opened Text
  import opened Protocol
  import opened TranslatorSpec
  import opened Chunking
  import opened Ledger
  import opened Terminal

  // ---------------------------------------------------------------- well-formed streams

  datatype CompactionPhase = Never | Active(index: nat) | Stopped

  /** What a caller can keep track of from the upstream events alone. */
  datatype Check = Check(phase: CompactionPhase, ids: set<string>, tools: nat)

  const START: Check := Check(Never, {}, 0)

  function ToolCallId(id: string, toolId: Option<string>, tools: nat): string {
    if toolId.Some? && Trim(toolId.value) != "" then toolId.value else "call_" + id + "_" + Digits(tools)
  }

  function ToolId(id: string, toolId: Option<string>, tools: nat): string {
    "fc_" + ToolCallId(id, toolId, tools)
  }

  function CompactionItemId(id: string, index: nat): string {
    "msg_cmp_" + id + "_" + Digits(index)
  }

  /** Distinct item ids, one compaction block at a time, and no piece without its block. */
  predicate Admits(id: string, c: Check, event: Upstream) {
    match event
    case BlockStart(index, CompactionBlock(_)) => !c.phase.Active? && CompactionItemId(id, index.GetOr(0)) !in c.ids
    case BlockStart(_, ToolUse(toolId, _, _)) => ToolId(id, toolId, c.tools) !in c.ids
    case BlockDelta(_, CompactionPiece(Some(text))) => text == "" || !c.phase.Stopped?
    case BlockDelta(_, InputJsonPiece(Some(_))) => c.tools > 0
    case _ => true
  }

  function Next(id: string, c: Check, event: Upstream): Check {
    match event
    case BlockStart(index, CompactionBlock(_)) =>
      c.(phase := Active(index.GetOr(0)), ids := c.ids + {CompactionItemId(id, index.GetOr(0))})
    case BlockStart(_, ToolUse(toolId, _, _)) =>
      c.(ids := c.ids + {ToolId(id, toolId, c.tools)}, tools := c.tools + 1)
    case BlockStop(index) =>
      if c.phase == Active(index.GetOr(USIZE_MAX)) then c.(phase := Stopped) else c
    case _ => c
  }

  /** A stream is well formed up to its end: nothing is asked of what follows a message_stop or an error. */
  predicate WellFormed(id: string, c: Check, events: seq<Upstream>)
    decreases |events|
  {
    events == [] || (Admits(id, c, events[0])
                     && (EndsStream(events[0]) || WellFormed(id, Next(id, c, events[0]), events[1..])))
  }

  // ---------------------------------------------------------------- the link between state and book

  ghost function IndexOf(st: State, i: nat): nat
    requires i < |st.items|
  {
    if st.items[i].id in st.indexes then st.indexes[st.items[i].id] else 0
  }

  ghost predicate ItemLinked(st: State, b: Book, i: nat)
    requires i < |st.items|
  {
    var item := st.items[i];
    && item.id in st.indexes && !item.Reasoning?
    && var k := st.indexes[item.id];
    && k < st.next
    && st.thinking.index != Some(k) && st.msg.index != Some(k)
    && if IsDone(item) then item.Message? && k in b.closed && b.closed[k] == item
       else IsOpen(b, k, item.id) && PiecesAt(b, k) == Content(item)
  }

  ghost predicate ItemsLinked(st: State, b: Book) {
    && (forall i :: 0 <= i < |st.items| ==> ItemLinked(st, b, i))
    && (forall i, j :: 0 <= i < j < |st.items| ==>
          st.items[i].id != st.items[j].id && IndexOf(st, i) != IndexOf(st, j))
  }

  ghost predicate TextLinked(st: State, b: Book) {
    && (st.msg.itemId.Some? <==> st.msg.index.Some?)
    && (st.msg.index.Some? ==>
          && st.msg.index.value < st.next
          && st.msg.index != st.thinking.index
          && IsOpen(b, st.msg.index.value, st.msg.itemId.value)
          && PiecesAt(b, st.msg.index.value) == st.msg.text)
    && (st.msg.index.None? ==> st.msg.text == "")
  }

  ghost predicate ThinkingLinked(st: State, b: Book) {
    && (st.thinking.index.None? ==> b.reasoning.None? && st.thinking.text == "")
    && (st.thinking.index.Some? ==>
          && st.thinking.index.value < st.next
          && b.reasoning == Some(Slot(st.thinking.index.value, "rs_" + st.id))
          && PiecesAt(b, st.thinking.index.value) == st.thinking.text)
  }

  ghost predicate CompactionLinked(st: State) {
    && (forall i :: 0 <= i < |st.items| && st.items[i].Message? && !IsDone(st.items[i]) ==>
          st.cmp.active.Some? && st.cmp.itemId == Some(st.items[i].id))
    && (st.cmp.itemId.None? ==> st.cmp.active.None?)
    && (st.cmp.itemId.Some? ==>
          && st.cmp.itemId.value in st.indexes
          && st.cmp.index == Some(st.indexes[st.cmp.itemId.value])
          && var found := FindItem(st.items, st.cmp.itemId.value);
          && found.Some? && st.items[found.value].Message?
          && (IsDone(st.items[found.value]) <==> st.cmp.active.None?)
          && (st.cmp.active.Some? ==> Content(st.items[found.value]) == st.cmp.text))
  }

  ghost predicate ToolsLinked(st: State) {
    && |st.tools.itemIds| == st.tools.count == |st.tools.indexes|
    && (forall j :: 0 <= j < st.tools.count ==>
          && st.tools.itemIds[j] in st.indexes
          && st.tools.indexes[j] == st.indexes[st.tools.itemIds[j]]
          && var found := FindItem(st.items, st.tools.itemIds[j]);
          && found.Some? && st.items[found.value].FunctionCall?)
    && (forall b :: b in st.tools.ordinals ==> st.tools.ordinals[b] < st.tools.count)
    && (forall i :: 0 <= i < |st.items| && st.items[i].FunctionCall? ==> st.items[i].id in st.tools.itemIds)
  }

  /** Every index handed out has an owner, and the book holds no others. */
  ghost predicate Owned(st: State, k: nat) {
    st.msg.index == Some(k) || exists i :: 0 <= i < |st.items| && IndexOf(st, i) == k
  }

  ghost predicate Covered(st: State, b: Book) {
    && b.next == st.next
    && b.open.Keys !! b.closed.Keys
    && (forall k :: k in b.open || k in b.closed ==> k < st.next && Owned(st, k))
    && (forall k :: 0 <= k < st.next ==> k in b.open || k in b.closed || st.thinking.index == Some(k))
  }

  ghost predicate Linked(st: State, b: Book) {
    && b.ok
    && ItemsLinked(st, b) && TextLinked(st, b) && ThinkingLinked(st, b)
    && CompactionLinked(st) && ToolsLinked(st)
    && Covered(st, b)
  }

  ghost predicate CheckLinked(st: State, c: Check) {
    && c.tools == st.tools.count
    && (forall i :: 0 <= i < |st.items| ==> st.items[i].id in c.ids)
    && (c.phase.Never? <==> st.cmp.itemId.None?)
    && (c.phase.Active? <==> st.cmp.active.Some?)
    && (c.phase.Active? ==> st.cmp.active == Some(c.phase.index))
  }

  // ---------------------------------------------------------------- what a step leaves alone

  /** The items stored before a step keep their ids and indexes. */
  ghost predicate SameSlots(st: State, st1: State) {
    && |st1.items| >= |st.items|
    && (forall i :: 0 <= i < |st.items| ==> st1.items[i].id == st.items[i].id && IndexOf(st1, i) == IndexOf(st, i))
    && (st.msg.index.Some? ==> st1.msg.index == st.msg.index)
  }

  lemma KeepsOwner(st: State, st1: State, k: nat)
    requires SameSlots(st, st1) && Owned(st, k)
    ensures Owned(st1, k)
  {
    if st.msg.index != Some(k) {
      var i :| 0 <= i < |st.items| && IndexOf(st, i) == k;
      assert IndexOf(st1, i) == k;
    }
  }

  /** An item whose index the step does not touch. */
  lemma ItemKept(st: State, b: Book, st1: State, b1: Book, i: nat)
    requires i < |st.items| <= |st1.items| && ItemLinked(st, b, i)
    requires st1.items[i] == st.items[i]
    requires st.items[i].id in st1.indexes && st1.indexes[st.items[i].id] == st.indexes[st.items[i].id]
    requires st1.next >= st.next
    requires st1.thinking.index == st.thinking.index || st1.thinking.index == Some(st.next)
    requires st1.msg.index == st.msg.index || st1.msg.index == Some(st.next)
    requires var k := st.indexes[st.items[i].id];
      && (k in b.open ==> k in b1.open && b1.open[k] == b.open[k])
      && (k in b.closed ==> k in b1.closed && b1.closed[k] == b.closed[k])
      && PiecesAt(b1, k) == PiecesAt(b, k)
    ensures ItemLinked(st1, b1, i)
  {}

  /** No index is opened or closed. */
  lemma CoveredKept(st: State, b: Book, st1: State, b1: Book)
    requires Covered(st, b) && SameSlots(st, st1)
    requires b1.open == b.open && b1.closed == b.closed && b1.next == b.next
    requires st1.next == st.next && st1.thinking.index == st.thinking.index
    ensures Covered(st1, b1)
  {
    forall k | k in b1.open || k in b1.closed ensures k < st1.next && Owned(st1, k) {
      KeepsOwner(st, st1, k);
    }
  }

  /** One more index is opened, for an owner the new state has. */
  lemma CoveredGrows(st: State, b: Book, st1: State, b1: Book, id: string)
    requires Covered(st, b) && SameSlots(st, st1)
    requires b1.open == b.open[st.next := id] && b1.closed == b.closed && b1.next == b.next + 1
    requires st1.next == st.next + 1 && st1.thinking.index == st.thinking.index
    requires Owned(st1, st.next)
    ensures Covered(st1, b1)
  {
    forall k | k in b1.open || k in b1.closed ensures k < st1.next && Owned(st1, k) {
      if k != st.next {
        KeepsOwner(st, st1, k);
      }
    }
  }

  /** A step that leaves items alone, and changes pieces only under the text's or the reasoning's index. */
  lemma ItemsUntouched(st: State, b: Book, st1: State, b1: Book)
    requires ItemsLinked(st, b)
    requires st1.items == st.items && st1.indexes == st.indexes && st1.next >= st.next
    requires st1.thinking.index == st.thinking.index || st1.thinking.index == Some(st.next)
    requires st1.msg.index == st.msg.index || st1.msg.index == Some(st.next)
    requires forall k :: k in b.open ==> k in b1.open && b1.open[k] == b.open[k]
    requires b1.closed == b.closed
    requires forall k: nat :: k < st.next && st.msg.index != Some(k) && st.thinking.index != Some(k) ==>
      PiecesAt(b1, k) == PiecesAt(b, k)
    ensures ItemsLinked(st1, b1)
  {
    forall i | 0 <= i < |st.items| ensures ItemLinked(st1, b1, i) {
      assert ItemLinked(st, b, i);
      ItemKept(st, b, st1, b1, i);
    }
    forall i, j | 0 <= i < j < |st1.items|
      ensures st1.items[i].id != st1.items[j].id && IndexOf(st1, i) != IndexOf(st1, j)
    {
      assert IndexOf(st, i) != IndexOf(st, j);
    }
  }

  // ---------------------------------------------------------------- text and reasoning

  /** Stored items, the compaction and the tools as they were. */
  lemma StoreKept(st: State, st1: State)
    requires st1.items == st.items && st1.indexes == st.indexes && st1.cmp == st.cmp && st1.tools == st.tools
    ensures CompactionLinked(st1) == CompactionLinked(st) && ToolsLinked(st1) == ToolsLinked(st)
  {}

  lemma TextOpens(st: State, b: Book, text: string)
    requires Linked(st, b) && st.msg.itemId.None?
    ensures var r := TextDelta(st, text); Linked(r.state, Observe(b, r.out))
  {
    hide CompactionLinked, ToolsLinked, ItemsLinked, Owned, Observe, Frames;
    var r := TextDelta(st, text);
    StoreKept(st, r.state);
    var itemId, k := "msg_" + st.id, st.next;
    ObserveThree(b, r.state.(sequence := st.sequence), ItemAdded(k, Message(itemId, InProgress, None)),
                 PartAdded(itemId, k), OutputTextDelta(itemId, k, text));
    var b1 := Observe(b, r.out);
    assert PiecesAt(b1, k) == "" + text == text;
    ItemsUntouched(st, b, r.state, b1);
    CoveredGrows(st, b, r.state, b1, itemId);
  }

  lemma TextStep(st: State, b: Book, text: string)
    requires Linked(st, b)
    ensures var r := TextDelta(st, text); Linked(r.state, Observe(b, r.out))
  {
    hide CompactionLinked, ToolsLinked, ItemsLinked, Owned, Observe, Frames;
    if st.msg.itemId.None? {
      TextOpens(st, b, text);
    } else {
      var r := TextDelta(st, text);
      StoreKept(st, r.state);
      ObserveOne(b, r.state.(sequence := st.sequence),
                 OutputTextDelta(st.msg.itemId.value, st.msg.index.GetOr(0), text));
      var b1 := Observe(b, r.out);
      ItemsUntouched(st, b, r.state, b1);
      CoveredKept(st, b, r.state, b1);
    }
  }

  lemma ThinkingOpens(st: State, b: Book, text: string)
    requires Linked(st, b) && st.thinking.index.None?
    ensures var r := ThinkingDelta(st, text); Linked(r.state, Observe(b, r.out))
  {
    hide CompactionLinked, ToolsLinked, ItemsLinked, Owned, Observe, Frames;
    var r := ThinkingDelta(st, text);
    StoreKept(st, r.state);
    var k := st.next;
    ObserveOne(b, r.state.(sequence := st.sequence), ReasoningDelta("rs_" + st.id, k, text));
    var b1 := Observe(b, r.out);
    assert "" + text == text;
    ItemsUntouched(st, b, r.state, b1);
    forall j | j in b1.open || j in b1.closed ensures j < r.state.next && Owned(r.state, j) {
      KeepsOwner(st, r.state, j);
    }
  }

  lemma ThinkingStep(st: State, b: Book, text: string)
    requires Linked(st, b)
    ensures var r := ThinkingDelta(st, text); Linked(r.state, Observe(b, r.out))
  {
    hide CompactionLinked, ToolsLinked, ItemsLinked, Owned, Observe, Frames;
    if st.thinking.index.None? {
      ThinkingOpens(st, b, text);
    } else {
      var r := ThinkingDelta(st, text);
      StoreKept(st, r.state);
      var k := st.thinking.index.value;
      ObserveOne(b, r.state.(sequence := st.sequence), ReasoningDelta("rs_" + st.id, k, text));
      var b1 := Observe(b, r.out);
      ItemsUntouched(st, b, r.state, b1);
      CoveredKept(st, b, r.state, b1);
    }
  }

  /** The message and the reasoning live at indexes of their own. */
  lemma SidesKept(st: State, b: Book, st1: State, b1: Book, k: nat)
    requires TextLinked(st, b) && ThinkingLinked(st, b)
    requires st1.msg == st.msg && st1.thinking == st.thinking && st1.id == st.id && st1.next >= st.next
    requires st.msg.index != Some(k) && st.thinking.index != Some(k)
    requires b1.reasoning == b.reasoning
    requires forall j :: j != k && j in b.open ==> j in b1.open && b1.open[j] == b.open[j]
    requires forall j :: j != k ==> PiecesAt(b1, j) == PiecesAt(b, j)
    ensures TextLinked(st1, b1) && ThinkingLinked(st1, b1)
  {}

  // ---------------------------------------------------------------- changing one stored item

  lemma {:induction false} FindSameIds(xs: seq<Item>, ys: seq<Item>, id: string)
    requires |xs| == |ys| && forall i :: 0 <= i < |xs| ==> xs[i].id == ys[i].id
    ensures FindItem(xs, id) == FindItem(ys, id)
  {
    if xs != [] {
      FindSameIds(xs[1..], ys[1..], id);
    }
  }

  lemma FindDistinct(st: State, b: Book, i: nat)
    requires ItemsLinked(st, b) && i < |st.items|
    ensures FindItem(st.items, st.items[i].id) == Some(i)
  {
    var k := FindItem(st.items, st.items[i].id).value;
  }

  ghost predicate SameKind(x: Item, y: Item) {
    x.id == y.id && (x.FunctionCall? <==> y.FunctionCall?) && (x.Message? <==> y.Message?)
  }

  /** The tool tables point at the same items. */
  lemma ToolsKept(st: State, st1: State)
    requires ToolsLinked(st) && st1.tools == st.tools && st1.indexes == st.indexes
    requires |st1.items| == |st.items| && forall i :: 0 <= i < |st.items| ==> SameKind(st.items[i], st1.items[i])
    ensures ToolsLinked(st1)
  {
    forall j | 0 <= j < st.tools.count
      ensures FindItem(st1.items, st.tools.itemIds[j]) == FindItem(st.items, st.tools.itemIds[j])
    {
      FindSameIds(st.items, st1.items, st.tools.itemIds[j]);
    }
    forall i | 0 <= i < |st1.items| && st1.items[i].FunctionCall? ensures st1.items[i].id in st1.tools.itemIds {
      assert SameKind(st.items[i], st1.items[i]);
    }
  }

  /** One item is replaced under its own index; the other items stay linked. */
  lemma ItemsWithOneChanged(st: State, b: Book, st1: State, b1: Book, i: nat)
    requires ItemsLinked(st, b) && i < |st.items| == |st1.items|
    requires st1.items == st.items[i := st1.items[i]] && st1.items[i].id == st.items[i].id
    requires st1.indexes == st.indexes && st1.next == st.next
    requires st1.thinking.index == st.thinking.index && st1.msg.index == st.msg.index
    requires var k := IndexOf(st, i);
      && (forall j :: j != k && j in b.open ==> j in b1.open && b1.open[j] == b.open[j])
      && (forall j :: j != k && j in b.closed ==> j in b1.closed && b1.closed[j] == b.closed[j])
      && (forall j :: j != k ==> PiecesAt(b1, j) == PiecesAt(b, j))
    requires ItemLinked(st1, b1, i)
    ensures ItemsLinked(st1, b1) && SameSlots(st, st1)
  {
    forall j | 0 <= j < |st1.items| ensures ItemLinked(st1, b1, j) {
      if j != i {
        assert ItemLinked(st, b, j);
        assert IndexOf(st, j) != IndexOf(st, i);
        ItemKept(st, b, st1, b1, j);
      }
    }
    forall x, y | 0 <= x < y < |st1.items|
      ensures st1.items[x].id != st1.items[y].id && IndexOf(st1, x) != IndexOf(st1, y)
    {
      assert IndexOf(st, x) != IndexOf(st, y);
    }
  }

  /** One open item changes its content under its own index; everything else stays. */
  lemma OneItemGrows(st: State, b: Book, st1: State, b1: Book, i: nat)
    requires Linked(st, b) && i < |st.items| == |st1.items|
    requires !IsDone(st.items[i]) && !IsDone(st1.items[i]) && SameKind(st.items[i], st1.items[i])
    requires st1 == st.(items := st.items[i := st1.items[i]], cmp := st1.cmp, sequence := st1.sequence)
    requires st1.cmp == st.cmp.(text := st1.cmp.text)
    requires if st.cmp.itemId == Some(st.items[i].id) then Content(st1.items[i]) == st1.cmp.text
             else st1.cmp.text == st.cmp.text
    requires b1 == b.(pieces := b.pieces[IndexOf(st, i) := Content(st1.items[i])])
    ensures Linked(st1, b1)
  {
    hide TextLinked, ToolsLinked, FindItem, IsDone, Content, CompactionLinked;
    assert ItemLinked(st, b, i);
    assert forall j :: j != IndexOf(st, i) ==> PiecesAt(b1, j) == PiecesAt(b, j);
    ItemsWithOneChanged(st, b, st1, b1, i);
    SidesKept(st, b, st1, b1, IndexOf(st, i));
    CoveredKept(st, b, st1, b1);
    ToolsKept(st, st1);
    CompactionGrows(st, b, st1, i);
  }

  lemma CompactionGrows(st: State, b: Book, st1: State, i: nat)
    requires ItemsLinked(st, b) && CompactionLinked(st) && i < |st.items| == |st1.items|
    requires !IsDone(st.items[i]) && !IsDone(st1.items[i]) && SameKind(st.items[i], st1.items[i])
    requires st1.items == st.items[i := st1.items[i]] && st1.indexes == st.indexes
    requires st1.cmp == st.cmp.(text := st1.cmp.text)
    requires if st.cmp.itemId == Some(st.items[i].id) then Content(st1.items[i]) == st1.cmp.text
             else st1.cmp.text == st.cmp.text
    ensures CompactionLinked(st1)
  {
    if st.cmp.itemId.Some? {
      FindSameIds(st.items, st1.items, st.cmp.itemId.value);
    }
  }

  lemma CompactionStep(st: State, b: Book, text: string)
    requires Linked(st, b)
    requires text == "" || st.cmp.itemId.None? || st.cmp.active.Some?
    ensures var r := CompactionDelta(st, text); Linked(r.state, Observe(b, r.out))
    ensures var r := CompactionDelta(st, text); r.state.cmp.active == st.cmp.active
  {
    hide ToolsLinked, PiecesAt, IsOpen;
    var r := CompactionDelta(st, text);
    if text != "" && st.cmp.itemId.Some? {
      var itemId, joined := st.cmp.itemId.value, st.cmp.text + text;
      var i := FindItem(st.items, itemId).value;
      var item := WithText(st.items[i], joined);
      assert ItemLinked(st, b, i);
      ObserveOne(b, r.state.(sequence := st.sequence), OutputTextDelta(itemId, st.cmp.index.GetOr(0), text));
      OneItemGrows(st, b, r.state, Observe(b, r.out), i);
    }
  }

  lemma ArgumentsStep(st: State, b: Book, block: Option<nat>, partial: string)
    requires Linked(st, b) && st.tools.count > 0
    ensures var r := ArgumentsPiece(st, block, partial); Linked(r.state, Observe(b, r.out))
  {
    hide Covered;
    var r := ArgumentsPiece(st, block, partial);
    var ordinal := ToolOrdinal(st.tools, block);
    assert ordinal < st.tools.count;
    var itemId := st.tools.itemIds[ordinal];
    var i := FindItem(st.items, itemId).value;
    var item := WithMoreArguments(st.items[i], partial);
    assert ItemLinked(st, b, i);
    ObserveOne(b, r.state.(sequence := st.sequence), ArgumentsDelta(itemId, st.tools.indexes[ordinal], partial));
    OneItemGrows(st, b, r.state, Observe(b, r.out), i);
  }

  // ---------------------------------------------------------------- a new stored item

  lemma {:induction false} FindInLonger(items: seq<Item>, item: Item, id: string)
    ensures FindItem(items, id).Some? ==> FindItem(items + [item], id) == FindItem(items, id)
    ensures FindItem(items, id).None? && id == item.id ==> FindItem(items + [item], id) == Some(|items|)
  {
    if items != [] {
      FindInLonger(items[1..], item, id);
      assert (items + [item])[1..] == items[1..] + [item];
    } else {
      assert (items + [item])[1..] == [];
    }
  }

  lemma FindAppended(items: seq<Item>, item: Item)
    ensures forall id :: FindItem(items, id).Some? ==> FindItem(items + [item], id) == FindItem(items, id)
    ensures FindItem(items, item.id).None? ==> FindItem(items + [item], item.id) == Some(|items|)
  {
    hide FindItem;
    FindInLonger(items, item, item.id);
    forall id | FindItem(items, id).Some? ensures FindItem(items + [item], id) == FindItem(items, id) {
      FindInLonger(items, item, id);
    }
  }

  /** A fresh item announced under the next index. */
  lemma ItemStep(st: State, b: Book, st1: State, b1: Book, item: Item)
    requires Linked(st, b)
    requires FindItem(st.items, item.id).None? && !item.Reasoning? && !IsDone(item) && Content(item) == ""
    requires st1.items == st.items + [item] && st1.indexes == st.indexes[item.id := st.next] && st1.next == st.next + 1
    requires st1.msg == st.msg && st1.thinking == st.thinking && st1.id == st.id
    requires b1.ok && b1.next == b.next + 1 && b1.open == b.open[st.next := item.id] && b1.closed == b.closed
    requires b1.reasoning == b.reasoning && b1.pieces == b.pieces[st.next := ""]
    ensures ItemsLinked(st1, b1) && TextLinked(st1, b1) && ThinkingLinked(st1, b1) && Covered(st1, b1)
  {
    ItemsWithOneMore(st, b, st1, b1, item);
    SidesKept(st, b, st1, b1, st.next);
    assert IndexOf(st1, |st.items|) == st.next;
    CoveredGrows(st, b, st1, b1, item.id);
  }

  lemma ItemsWithOneMore(st: State, b: Book, st1: State, b1: Book, item: Item)
    requires ItemsLinked(st, b) && TextLinked(st, b) && ThinkingLinked(st, b)
    requires FindItem(st.items, item.id).None? && !item.Reasoning? && !IsDone(item) && Content(item) == ""
    requires st1.items == st.items + [item] && st1.indexes == st.indexes[item.id := st.next] && st1.next == st.next + 1
    requires st1.msg == st.msg && st1.thinking == st.thinking
    requires b1.open == b.open[st.next := item.id] && b1.closed == b.closed && b1.pieces == b.pieces[st.next := ""]
    ensures ItemsLinked(st1, b1) && SameSlots(st, st1)
  {
    hide FindItem;
    var n := |st.items|;
    forall i | 0 <= i < n
      ensures ItemLinked(st1, b1, i) && IndexOf(st1, i) == IndexOf(st, i) < st.next && st.items[i].id != item.id
    {
      assert ItemLinked(st, b, i);
      ItemKept(st, b, st1, b1, i);
    }
    assert ItemLinked(st1, b1, n);
    forall x, y | 0 <= x < y < n + 1
      ensures st1.items[x].id != st1.items[y].id && IndexOf(st1, x) != IndexOf(st1, y)
    {
      if y < n {
        assert IndexOf(st, x) != IndexOf(st, y);
      }
    }
  }

  lemma OpenCompactionStep(st: State, b: Book, index: nat)
    requires Linked(st, b) && st.cmp.active.None?
    requires FindItem(st.items, CompactionId(st, index)).None?
    ensures var r := OpenCompaction(st, index); Linked(r.state, Observe(b, r.out))
  {
    hide Observe, TextLinked, ToolsLinked, Thought, Grown, Owned, FindItem;
    var r := OpenCompaction(st, index);
    var itemId, k := CompactionId(st, index), st.next;
    var item := Message(itemId, InProgress, None);
    ObserveTwo(b, r.state.(sequence := st.sequence), ItemAdded(k, item), PartAdded(itemId, k));
    ItemStep(st, b, r.state, Observe(b, r.out), item);
    FindAppended(st.items, item);
    ToolsKeepFinding(st, r.state, item);
  }

  lemma ToolsKeepFinding(st: State, st1: State, item: Item)
    requires ToolsLinked(st) && FindItem(st.items, item.id).None? && item.Message?
    requires st1.items == st.items + [item] && st1.tools == st.tools && st1.indexes == st.indexes[item.id := st.next]
    ensures ToolsLinked(st1)
  {
    FindAppended(st.items, item);
  }

  lemma OpenToolStep(st: State, b: Book, index: Option<nat>, callId: string, name: string)
    requires Linked(st, b) && FindItem(st.items, "fc_" + callId).None?
    ensures var r := OpenTool(st, index, callId, name); Linked(r.state, Observe(b, r.out))
  {
    hide TextLinked, ItemLinked, FindItem;
    var r := OpenTool(st, index, callId, name);
    var itemId, k := "fc_" + callId, st.next;
    var item := FunctionCall(itemId, InProgress, callId, name, "");
    ObserveOne(b, r.state.(sequence := st.sequence), ItemAdded(k, item));
    ItemStep(st, b, r.state, Observe(b, r.out), item);
    FindAppended(st.items, item);
    var st1 := r.state;
    forall j | 0 <= j < st1.tools.count
      ensures st1.tools.itemIds[j] in st1.indexes
      ensures st1.tools.indexes[j] == st1.indexes[st1.tools.itemIds[j]]
      ensures var found := FindItem(st1.items, st1.tools.itemIds[j]);
        found.Some? && st1.items[found.value].FunctionCall?
    {
      if j < st.tools.count {
        assert st1.tools.itemIds[j] == st.tools.itemIds[j];
        assert st.tools.itemIds[j] != itemId;
      }
    }
    if st.cmp.itemId.Some? {
      assert st.cmp.itemId.value != itemId;
    }
  }

  lemma FirstArgumentsStep(st: State, b: Book, itemId: string, output: nat, initial: string)
    requires Linked(st, b)
    requires var found := FindItem(st.items, itemId);
      found.Some? && st.items[found.value].FunctionCall? && st.items[found.value].arguments == ""
    requires itemId in st.indexes && st.indexes[itemId] == output
    ensures var r := FirstArguments(st, itemId, output, initial); Linked(r.state, Observe(b, r.out))
  {
    hide Covered, ToolsLinked;
    var r := FirstArguments(st, itemId, output, initial);
    if initial != "" {
      var i := FindItem(st.items, itemId).value;
      assert ItemLinked(st, b, i);
      assert "" + initial == initial;
      ObserveOne(b, r.state.(sequence := st.sequence), ArgumentsDelta(itemId, output, initial));
      OneItemGrows(st, b, r.state, Observe(b, r.out), i);
    }
  }

  lemma StartToolStep(st: State, b: Book, index: Option<nat>, id: Option<string>, name: string, input: Option<string>)
    requires Linked(st, b) && FindItem(st.items, "fc_" + CallId(st, id)).None?
    ensures var r := StartTool(st, index, id, name, input); Linked(r.state, Observe(b, r.out))
  {
    var callId := CallId(st, id);
    var begun := OpenTool(st, index, callId, name);
    OpenToolStep(st, b, index, callId, name);
    FindAppended(st.items, FunctionCall("fc_" + callId, InProgress, callId, name, ""));
    FirstArgumentsStep(begun.state, Observe(b, begun.out), "fc_" + callId, st.next, InitialArguments(input));
    ObserveThen(b, begun.out, FirstArguments(begun.state, "fc_" + callId, st.next, InitialArguments(input)).out);
  }

  lemma StartCompactionStep(st: State, b: Book, index: nat, content: Option<string>)
    requires Linked(st, b) && st.cmp.active.None?
    requires FindItem(st.items, CompactionId(st, index)).None?
    ensures var r := StartCompaction(st, index, content);
      Linked(r.state, Observe(b, r.out)) && r.state.cmp.active == Some(index)
  {
    OpenCompactionStep(st, b, index);
    if content.Some? {
      var begun := OpenCompaction(st, index);
      CompactionStep(begun.state, Observe(b, begun.out), content.value);
      ObserveThen(b, begun.out, CompactionDelta(begun.state, content.value).out);
    }
  }

  // ---------------------------------------------------------------- closing the compaction

  lemma CloseCompactionStep(st: State, b: Book, st0: State)
    requires st0 == st.(cmp := st.cmp.(active := None))
    requires Linked(st, b) && st.cmp.active.Some?
    ensures var r := CloseCompaction(st0); Linked(r.state, Observe(b, r.out))
  {
    hide ToolsLinked, Covered, TextLinked, ThinkingLinked;
    var r := CloseCompaction(st0);
    var itemId, k, text := st.cmp.itemId.value, st.cmp.index.value, st.cmp.text;
    var i := FindItem(st.items, itemId).value;
    var item := WithText(AsCompleted(st.items[i]), text);
    assert ItemLinked(st, b, i);
    ObserveThree(b, r.state.(sequence := st.sequence), OutputTextDone(itemId, k, text),
                 PartDone(itemId, k, text), ItemDone(k, item));
    var b1 := Observe(b, r.out);
    CompactionClosed(st, b, r.state, b1, i);
  }

  lemma CompactionClosed(st: State, b: Book, st1: State, b1: Book, i: nat)
    requires Linked(st, b) && i < |st.items| == |st1.items|
    requires st.cmp.active.Some? && st.cmp.itemId == Some(st.items[i].id)
    requires FindItem(st.items, st.items[i].id) == Some(i)
    requires st1.items[i].Message? && IsDone(st1.items[i]) && st1.items[i].id == st.items[i].id
    requires st1 == st.(items := st.items[i := st1.items[i]], cmp := st.cmp.(active := None), sequence := st1.sequence)
    requires var k := IndexOf(st, i);
      b1 == b.(open := b.open - {k}, closed := b.closed[k := st1.items[i]])
    ensures Linked(st1, b1)
  {
    hide FindItem, Owned;
    assert ItemLinked(st, b, i);
    ItemsWithOneChanged(st, b, st1, b1, i);
    SidesKept(st, b, st1, b1, IndexOf(st, i));
    ToolsKept(st, st1);
    forall k | k in b1.open || k in b1.closed ensures k < st1.next && Owned(st1, k) {
      KeepsOwner(st, st1, k);
    }
    NoCompactionLeft(st, b, st1, i);
  }

  lemma NoCompactionLeft(st: State, b: Book, st1: State, i: nat)
    requires ItemsLinked(st, b) && CompactionLinked(st) && i < |st.items| == |st1.items|
    requires st.cmp.itemId == Some(st.items[i].id) && FindItem(st.items, st.items[i].id) == Some(i)
    requires st1.items[i].Message? && IsDone(st1.items[i]) && st1.items[i].id == st.items[i].id
    requires st1.items == st.items[i := st1.items[i]] && st1.indexes == st.indexes
    requires st1.cmp == st.cmp.(active := None)
    ensures CompactionLinked(st1)
  {
    FindSameIds(st.items, st1.items, st.items[i].id);
    forall j | 0 <= j < |st1.items| ensures !(st1.items[j].Message? && !IsDone(st1.items[j])) {
      FindDistinct(st, b, j);
    }
  }
}
