/** A whole Messages object, played through the stream translator block by block. */
module Buffered {
  import opened Text
  import opened Protocol
  import opened TranslatorSpec
  import opened Chunking
  import opened Lifecycle
  import opened ToolRouting
  import opened MessageObjects
  import opened Namesakes

  // ---------------------------------------------------------------- the items stored for a plan

  /** The items stored for the first places. */
  function Stored(places: seq<Place>, n: nat): seq<Item>
    requires n <= |places|
  {
    if n == 0 then []
    else Stored(places, n - 1) + if places[n - 1].ItemPlace? then [Merged(places, n - 1)] else []
  }

  /** One more piece for the first call of an id. */
  function Grow(items: seq<Item>, x: string, piece: string): (r: seq<Item>)
    ensures |r| == |items|
  {
    match FindItem(items, x)
    case Some(k) => items[k := WithMoreArguments(items[k], piece)]
    case None => items
  }

  lemma FindBehind(items: seq<Item>, item: Item, x: string)
    ensures FindItem(items + [item], x)
         == if FindItem(items, x).Some? then FindItem(items, x) else if item.id == x then Some(|items|) else None
  {
    var found := FindItem(items + [item], x);
    assert forall k :: 0 <= k < |items| ==> (items + [item])[k] == items[k];
    assert (items + [item])[|items|] == item;
  }

  lemma GrowBehind(items: seq<Item>, item: Item, x: string, piece: string)
    ensures Grow(items + [item], x, piece)
         == if FindItem(items, x).Some? then Grow(items, x, piece) + [item]
            else if item.id == x then items + [WithMoreArguments(item, piece)] else items + [item]
    ensures FindItem(items, x).None? ==> Grow(items, x, piece) == items
  {
    FindBehind(items, item, x);
    if FindItem(items, x).Some? {
      var k := FindItem(items, x).value;
      assert (items + [item])[k := WithMoreArguments(items[k], piece)]
          == items[k := WithMoreArguments(items[k], piece)] + [item];
    }
  }

  lemma {:induction false} StoredHas(places: seq<Place>, n: nat, x: string)
    requires n <= |places|
    ensures FindItem(Stored(places, n), x).Some? <==> Earlier(places, x, n)
  {
    hide Inputs;
    if n > 0 {
      StoredHas(places, n - 1, x);
      if places[n - 1].ItemPlace? {
        FindBehind(Stored(places, n - 1), Merged(places, n - 1), x);
      } else {
        assert Stored(places, n) == Stored(places, n - 1);
      }
      assert Earlier(places, x, n) <==> Earlier(places, x, n - 1) || Names(places[n - 1], x);
    }
  }

  lemma InputsNext(places: seq<Place>, place: Place, x: string)
    ensures Inputs(places + [place], x) == Inputs(places, x) + InputOf(place, x)
  {
    assert (places + [place])[..|places|] == places;
  }

  /** What a further place does to the item stored for an earlier one. */
  lemma MergedNext(places: seq<Place>, place: Place, k: nat)
    requires k < |places| && places[k].ItemPlace?
    ensures Merged(places + [place], k)
         == if Earlier(places, places[k].item.id, k) then Merged(places, k)
            else WithMoreArguments(Merged(places, k), InputOf(place, places[k].item.id))
  {
    hide Inputs, InputOf;
    var x := places[k].item.id;
    InputsNext(places, place, x);
    assert forall j :: 0 <= j < k ==> (places + [place])[j] == places[j];
    assert Earlier(places + [place], x, k) <==> Earlier(places, x, k);
  }

  lemma NothingMore(item: Item)
    ensures WithMoreArguments(item, "") == item
  {
    if item.FunctionCall? {
      assert item.arguments + "" == item.arguments;
    }
  }

  /** One place more of text or thinking, or of a message: the stored items stay. */
  lemma {:induction false} StoredSame(places: seq<Place>, place: Place, n: nat)
    requires n <= |places| && (place.ItemPlace? ==> !place.item.FunctionCall?)
    ensures Stored(places + [place], n) == Stored(places, n)
  {
    hide Merged;
    if n > 0 {
      StoredSame(places, place, n - 1);
      if places[n - 1].ItemPlace? {
        MergedNext(places, place, n - 1);
        NothingMore(Merged(places, n - 1));
      }
    }
  }

  /** One call more: the first call of its id collects its input. */
  lemma {:induction false} StoredGrows(places: seq<Place>, call: Item, n: nat)
    requires n <= |places| && call.FunctionCall?
    ensures Stored(places + [ItemPlace(call)], n) == Grow(Stored(places, n), call.id, call.arguments)
  {
    hide Merged, Grow;
    if n == 0 {
      GrowNothing(call.id, call.arguments);
    } else {
      StoredGrows(places, call, n - 1);
      var before, places1 := Stored(places, n - 1), places + [ItemPlace(call)];
      assert places1[n - 1] == places[n - 1];
      if places[n - 1].ItemPlace? {
        var item := Merged(places, n - 1);
        assert Stored(places1, n) == Stored(places1, n - 1) + [Merged(places1, n - 1)];
        MergedHasId(places, n - 1);
        MergedNext(places, ItemPlace(call), n - 1);
        StoredHas(places, n - 1, call.id);
        GrowBehind(before, item, call.id, call.arguments);
        NothingMore(item);
      } else {
        assert before + [] == before;
      }
    }
  }

  lemma GrowNothing(x: string, piece: string)
    ensures Grow([], x, piece) == []
  {}

  lemma MergedHasId(places: seq<Place>, k: nat)
    requires k < |places| && places[k].ItemPlace?
    ensures Merged(places, k).id == places[k].item.id
  {}

  // ---------------------------------------------------------------- following the plan

  predicate CompactionBelow(id: string, x: string, index: nat) {
    exists j :: 0 <= j < index && x == CompactionItemId(id, j)
  }

  /** Text and thinking are joined as planned, at the places planned. */
  ghost predicate SidesTracked(st: State, plan: Plan) {
    && st.msg.text == plan.text && st.thinking.text == plan.thinking
    && st.msg.itemId == (if TextPlace in plan.places then Some("msg_" + st.id) else None)
    && (st.msg.index.Some? <==> TextPlace in plan.places)
    && (st.thinking.index.Some? <==> ThinkingPlace in plan.places)
    && (st.thinking.index.None? ==> st.thinking.text == "")
    && (forall k :: 0 <= k < |plan.places| && plan.places[k].TextPlace? ==> st.msg.index == Some(k))
    && (forall k :: 0 <= k < |plan.places| && plan.places[k].ThinkingPlace? ==> st.thinking.index == Some(k))
  }

  /** The stored items are those of the plan, messages completed already. */
  ghost predicate ItemsTracked(items: seq<Item>, stored: seq<Item>) {
    && |items| == |stored|
    && forall i :: 0 <= i < |items| ==>
         AsCompleted(items[i]) == stored[i] && (items[i].Message? ==> IsDone(items[i]))
  }

  /** An id answers with the last place it has. */
  ghost predicate IndexesTracked(st: State, places: seq<Place>) {
    forall k :: 0 <= k < |places| && places[k].ItemPlace? ==>
      places[k].item.id in st.indexes && LastPlace(places, places[k].item.id, st.indexes[places[k].item.id])
  }

  /** Calls and compaction messages are told apart by their ids, and no two messages share one. */
  ghost predicate IdsTracked(id: string, places: seq<Place>, index: nat) {
    && CallsShare(places)
    && forall k :: 0 <= k < |places| && places[k].ItemPlace? ==>
         match places[k].item
         case FunctionCall(x, _, _, _, _) => x != "" && x[0] == 'f'
         case Message(x, _, _) => CompactionBelow(id, x, index)
         case Reasoning(_, _) => false
  }

  /** Everything an induction over the blocks carries. */
  ghost predicate Tracks(st: State, plan: Plan, index: nat) {
    && !st.Closed() && st.next == |plan.places|
    && SidesTracked(st, plan)
    && ItemsTracked(st.items, Stored(plan.places, |plan.places|))
    && IndexesTracked(st, plan.places)
    && |st.tools.itemIds| == st.tools.count == plan.tools
    && IdsTracked(st.id, plan.places, index)
    && (st.cmp.itemId.Some? ==> st.cmp.itemId.value != "" && st.cmp.itemId.value[0] == 'm')
  }

  lemma CompactionIdFresh(id: string, index: nat, x: string)
    requires CompactionBelow(id, x, index)
    ensures x != CompactionItemId(id, index) && x[0] == 'm'
  {
    var j :| 0 <= j < index && x == CompactionItemId(id, j);
    var stem := "msg_cmp_" + id + "_";
    assert CompactionItemId(id, j)[|stem|..] == Digits(j);
    assert CompactionItemId(id, index)[|stem|..] == Digits(index);
    if x == CompactionItemId(id, index) {
      DigitsInjective(j, index);
    }
  }

  predicate InBlock(event: Upstream) {
    event.BlockStart? || event.BlockDelta? || event.BlockStop?
  }

  ghost predicate SameHead(st: State, st1: State) {
    && st1.id == st.id && st1.model == st.model && st1.phase == st.phase && st1.usage == st.usage
    && st1.stopReason == st.stopReason
  }

  lemma StepKeepsHead(st: State, event: Upstream)
    requires InBlock(event)
    ensures SameHead(st, Step(st, event).state)
  {
    hide Replace, FindItem, Frames, CallId, CompactionId, InitialArguments, ToolOrdinal, AddTool, IsDone;
  }

  lemma {:induction false} RunKeepsHead(st: State, events: seq<Upstream>)
    requires forall i :: 0 <= i < |events| ==> InBlock(events[i])
    ensures SameHead(st, Run(st, events).state)
    decreases |events|
  {
    hide Step, InBlock;
    if events != [] {
      StepKeepsHead(st, events[0]);
      RunKeepsHead(Step(st, events[0]).state, events[1..]);
    }
  }

  lemma {:induction false} RunTwo(st: State, e1: Upstream, e2: Upstream)
    ensures Run(st, [e1, e2]) == Then(Step(st, e1), Step(Step(st, e1).state, e2))
  {
    assert [e1, e2] == [e1] + [e2];
    RunAppend(st, [e1], [e2]);
    RunOne(st, e1);
    RunOne(Step(st, e1).state, e2);
  }

  // ---------------------------------------------------------------- text and thinking blocks

  lemma TextSides(st: State, plan: Plan, index: nat, text: string)
    requires SidesTracked(st, plan) && st.next == |plan.places|
    ensures SidesTracked(TextDelta(st, text).state, Extend(st.id, plan, index, TextContent(text)))
  {
    var places := plan.places;
    if TextPlace !in places {
      assert forall k :: 0 <= k < |places| ==> (places + [TextPlace])[k] == places[k];
    }
  }

  lemma ThinkingSides(st: State, plan: Plan, index: nat, text: string)
    requires SidesTracked(st, plan) && st.next == |plan.places|
    ensures SidesTracked(ThinkingDelta(st, text).state, Extend(st.id, plan, index, ThinkingContent(text)))
  {
    var places := plan.places;
    if ThinkingPlace !in places {
      assert forall k :: 0 <= k < |places| ==> (places + [ThinkingPlace])[k] == places[k];
    }
  }

  /** A place of text or thinking more. */
  lemma LooseItems(items: seq<Item>, places: seq<Place>, place: Place)
    requires ItemsTracked(items, Stored(places, |places|)) && !place.ItemPlace?
    ensures ItemsTracked(items, Stored(places + [place], |places| + 1))
  {
    hide Stored, ItemsTracked;
    StoredSame(places, place, |places|);
    StoredLoose(places + [place]);
  }

  lemma StoredLoose(places: seq<Place>)
    requires places != [] && !places[|places| - 1].ItemPlace?
    ensures Stored(places, |places|) == Stored(places, |places| - 1)
  {}

  lemma LooseIndexes(st: State, places: seq<Place>, place: Place)
    requires IndexesTracked(st, places) && !place.ItemPlace?
    ensures IndexesTracked(st, places + [place])
  {
    var places1 := places + [place];
    assert forall k :: 0 <= k < |places| ==> places1[k] == places[k];
    forall k | 0 <= k < |places1| && places1[k].ItemPlace?
      ensures places1[k].item.id in st.indexes
        && LastPlace(places1, places1[k].item.id, st.indexes[places1[k].item.id])
    {
      assert LastPlace(places, places[k].item.id, st.indexes[places[k].item.id]);
    }
  }

  lemma LooseIds(id: string, places: seq<Place>, place: Place, index: nat)
    requires IdsTracked(id, places, index) && !place.ItemPlace?
    ensures IdsTracked(id, places + [place], index)
  {
    hide CompactionBelow;
    assert forall k :: 0 <= k < |places| ==> (places + [place])[k] == places[k];
  }

  lemma LoosePlaced(st: State, st1: State, plan: Plan, places1: seq<Place>, place: Place, index: nat)
    requires Tracks(st, plan, index) && !place.ItemPlace? && places1 == Placed(plan.places, place)
    requires st1.items == st.items && st1.indexes == st.indexes && st1.id == st.id
    ensures ItemsTracked(st1.items, Stored(places1, |places1|))
    ensures IndexesTracked(st1, places1) && IdsTracked(st1.id, places1, index)
  {
    hide SidesTracked, Stored, ItemsTracked, IndexesTracked, IdsTracked;
    SameIndexes(st, st1, plan.places);
    if place !in plan.places {
      LooseItems(st.items, plan.places, place);
      LooseIndexes(st1, plan.places, place);
      LooseIds(st.id, plan.places, place, index);
    }
  }

  lemma SameIndexes(st: State, st1: State, places: seq<Place>)
    requires IndexesTracked(st, places) && st1.indexes == st.indexes
    ensures IndexesTracked(st1, places)
  {}

  lemma IdsLater(id: string, places: seq<Place>, index: nat)
    requires IdsTracked(id, places, index)
    ensures IdsTracked(id, places, index + 1)
  {
    forall k | 0 <= k < |places| && places[k].ItemPlace? && places[k].item.Message?
      ensures CompactionBelow(id, places[k].item.id, index + 1)
    {
      assert CompactionBelow(id, places[k].item.id, index);
    }
  }

  lemma JoinedBlock(st: State, plan: Plan, index: nat, block: Content)
    requires Tracks(st, plan, index) && (block.TextContent? || block.ThinkingContent?)
    ensures var st1 := Run(st, BlockEvents(index, block)).state;
      st1.id == st.id && Tracks(st1, Extend(st.id, plan, index, block), index + 1)
  {
    hide Run, SidesTracked, ItemsTracked, IndexesTracked, IdsTracked, Stored;
    var event := BlockEvents(index, block)[0];
    RunOne(st, event);
    IdsLater(st.id, plan.places, index);
    var place := if block.TextContent? then TextPlace else ThinkingPlace;
    var plan1 := Extend(st.id, plan, index, block);
    var st1 := Step(st, event).state;
    LoosePlaced(st, st1, plan, plan1.places, place, index);
    IdsLater(st.id, plan1.places, index);
    match block {
      case TextContent(text) => TextSides(st, plan, index, text);
      case ThinkingContent(text) => ThinkingSides(st, plan, index, text);
    }
    JoinedNext(st, plan, index, block);
  }

  lemma JoinedNext(st: State, plan: Plan, index: nat, block: Content)
    requires Tracks(st, plan, index) && (block.TextContent? || block.ThinkingContent?)
    ensures var st1 := Step(st, BlockEvents(index, block)[0]).state;
      var plan1 := Extend(st.id, plan, index, block);
      && !st1.Closed() && st1.next == |plan1.places| && st1.tools == st.tools && plan1.tools == plan.tools
      && st1.cmp == st.cmp
  {
    hide ItemsTracked, IndexesTracked, IdsTracked, Stored;
  }

  // ---------------------------------------------------------------- item blocks

  /** One more place for a stored item leaves text and thinking alone. */
  lemma ItemSides(st: State, st1: State, plan: Plan, item: Item)
    requires SidesTracked(st, plan)
    requires st1.msg == st.msg && st1.thinking == st.thinking && st1.id == st.id
    ensures SidesTracked(st1, plan.(places := plan.places + [ItemPlace(item)]))
  {
    var places1 := plan.places + [ItemPlace(item)];
    assert forall k :: 0 <= k < |plan.places| ==> places1[k] == plan.places[k];
    assert TextPlace in places1 <==> TextPlace in plan.places;
    assert ThinkingPlace in places1 <==> ThinkingPlace in plan.places;
  }

  lemma ItemIndexes(st: State, st1: State, places: seq<Place>, item: Item)
    requires IndexesTracked(st, places) && st1.indexes == st.indexes[item.id := |places|]
    ensures IndexesTracked(st1, places + [ItemPlace(item)])
  {
    var places1 := places + [ItemPlace(item)];
    assert forall k :: 0 <= k < |places| ==> places1[k] == places[k];
    forall k | 0 <= k < |places1| && places1[k].ItemPlace?
      ensures places1[k].item.id in st1.indexes
        && LastPlace(places1, places1[k].item.id, st1.indexes[places1[k].item.id])
    {
      if places1[k].item.id != item.id {
        assert LastPlace(places, places[k].item.id, st.indexes[places[k].item.id]);
      }
    }
  }

  lemma CallIds(id: string, places: seq<Place>, call: Item, index: nat)
    requires IdsTracked(id, places, index) && call.FunctionCall? && call.id != "" && call.id[0] == 'f'
    ensures IdsTracked(id, places + [ItemPlace(call)], index + 1)
  {
    var places1 := places + [ItemPlace(call)];
    IdsLater(id, places, index);
    assert forall k :: 0 <= k < |places| ==> places1[k] == places[k];
    forall k | 0 <= k < |places| && places[k].ItemPlace? && places[k].item.id == call.id
      ensures places[k].item.FunctionCall?
    {
      if places[k].item.Message? {
        CompactionIdFresh(id, index, call.id);
      }
    }
  }

  lemma MessageIds(id: string, places: seq<Place>, text: string, index: nat)
    requires IdsTracked(id, places, index)
    ensures !Earlier(places, CompactionItemId(id, index), |places|)
    ensures IdsTracked(id, places + [ItemPlace(Message(CompactionItemId(id, index), Status.Completed, Some(text)))],
                       index + 1)
  {
    var x := CompactionItemId(id, index);
    var places1 := places + [ItemPlace(Message(x, Status.Completed, Some(text)))];
    forall k | 0 <= k < |places| ensures !Names(places[k], x) {
      if places[k].ItemPlace? && places[k].item.Message? {
        CompactionIdFresh(id, index, places[k].item.id);
      }
    }
    IdsLater(id, places, index);
    assert forall k :: 0 <= k < |places| ==> places1[k] == places[k];
    assert CompactionBelow(id, x, index + 1);
  }

  // ---------------------------------------------------------------- tool blocks

  /** A call of the buffered form: started empty; then its whole input goes to the first call of its id. */
  lemma ToolBlockState(st: State, index: nat, toolId: string, name: string, input: string)
    requires !st.Closed() && |st.tools.itemIds| == st.tools.count
    ensures var callId := CallId(st, Some(toolId));
      var st1 := Step(st, BlockStart(Some(index), ToolUse(Some(toolId), name, None))).state;
      var st2 := Step(st1, BlockDelta(Some(index), InputJsonPiece(Some(input)))).state;
      && st2.items == Grow(st.items + [FunctionCall("fc_" + callId, InProgress, callId, name, "")],
                           "fc_" + callId, input)
      && st2.indexes == st.indexes["fc_" + callId := st.next] && st2.next == st.next + 1
      && st2.msg == st.msg && st2.thinking == st.thinking && st2.cmp == st.cmp
      && |st2.tools.itemIds| == st2.tools.count == st.tools.count + 1
      && st2.id == st.id && !st2.Closed()
  {
    hide Trim, Digits, FindItem, Frames, Complete, FailWith, OnStart, OnPing, OnStop, StartCompaction;
    var callId := CallId(st, Some(toolId));
    var st1 := Step(st, BlockStart(Some(index), ToolUse(Some(toolId), name, None))).state;
    assert InitialArguments(None) == "";
    assert st1 == OpenTool(st, Some(index), callId, name).state;
    assert ToolOrdinal(st1.tools, Some(index)) == st.tools.count;
    assert st1.tools.itemIds[st.tools.count] == "fc_" + callId;
  }

  /** Tracking goes on when the first call of the id grows. */
  lemma GrowTracked(items: seq<Item>, stored: seq<Item>, x: string, piece: string)
    requires ItemsTracked(items, stored)
    ensures ItemsTracked(Grow(items, x, piece), Grow(stored, x, piece))
  {
    FindSameIds(items, stored, x);
  }

  lemma CallTracked(items: seq<Item>, places: seq<Place>, open: Item, input: string)
    requires ItemsTracked(items, Stored(places, |places|))
    requires open.FunctionCall? && open.arguments == ""
    ensures var call := FunctionCall(open.id, Status.Completed, open.callId, open.name, input);
      var places1 := places + [ItemPlace(call)];
      ItemsTracked(Grow(items + [open], open.id, input), Stored(places1, |places1|))
  {
    hide Grow, Inputs, Earlier, Stored, ItemsTracked;
    var x, n := open.id, |places|;
    var call := FunctionCall(open.id, Status.Completed, open.callId, open.name, input);
    var places1, stored := places + [ItemPlace(call)], Stored(places, |places|);
    StoredGrows(places, call, n);
    StoredHas(places, n, x);
    GrowBehind(stored, AsCompleted(open), x, input);
    TrackedBehind(items, stored, open);
    GrowTracked(items + [open], stored + [AsCompleted(open)], x, input);
    StoredLast(places1);
    InputsNext(places, ItemPlace(call), x);
    EarlierSame(places, ItemPlace(call), x);
    if !Earlier(places, x, n) {
      NoInputsOf(places, x);
    }
    assert "" + input == input;
  }

  lemma StoredLast(places: seq<Place>)
    requires places != [] && places[|places| - 1].ItemPlace?
    ensures Stored(places, |places|) == Stored(places, |places| - 1) + [Merged(places, |places| - 1)]
  {}

  lemma EarlierSame(places: seq<Place>, place: Place, x: string)
    ensures Earlier(places + [place], x, |places|) <==> Earlier(places, x, |places|)
  {
    assert forall k :: 0 <= k < |places| ==> (places + [place])[k] == places[k];
  }

  lemma NoInputsOf(places: seq<Place>, x: string)
    requires !Earlier(places, x, |places|)
    ensures Inputs(places, x) == ""
  {
    NoInputs(places, x);
  }

  lemma TrackedBehind(items: seq<Item>, stored: seq<Item>, item: Item)
    requires ItemsTracked(items, stored) && (item.Message? ==> IsDone(item))
    ensures ItemsTracked(items + [item], stored + [AsCompleted(item)])
  {}

  lemma ToolBlock(st: State, plan: Plan, index: nat, block: Content)
    requires Tracks(st, plan, index) && block.ToolContent?
    ensures var st1 := Run(st, BlockEvents(index, block)).state;
      st1.id == st.id && Tracks(st1, Extend(st.id, plan, index, block), index + 1)
  {
    hide Run, Step, SidesTracked, ItemsTracked, IndexesTracked, IdsTracked, Stored, Grow, CallId, ToolCallId;
    var toolId := block.id.GetOr("");
    var start := BlockStart(Some(index), ToolUse(Some(toolId), block.name, None));
    RunTwo(st, start, BlockDelta(Some(index), InputJsonPiece(Some(block.input))));
    ToolBlockState(st, index, toolId, block.name, block.input);
    SameCallId(st, toolId);
    var callId := CallId(st, Some(toolId));
    var open := FunctionCall("fc_" + callId, InProgress, callId, block.name, "");
    var call := FunctionCall("fc_" + callId, Status.Completed, callId, block.name, block.input);
    var st1 := Run(st, BlockEvents(index, block)).state;
    CallTracked(st.items, plan.places, open, block.input);
    ItemSides(st, st1, plan, call);
    ItemIndexes(st, st1, plan.places, call);
    CallIds(st.id, plan.places, call, index);
    PlanIgnoresTools(st1, plan.(places := plan.places + [ItemPlace(call)]), Extend(st.id, plan, index, block));
  }

  lemma SameCallId(st: State, toolId: string)
    ensures CallId(st, Some(toolId)) == ToolCallId(st.id, Some(toolId), st.tools.count)
  {}

  lemma PlanIgnoresTools(st: State, plan: Plan, plan1: Plan)
    requires SidesTracked(st, plan) && plan1.places == plan.places
    requires plan1.text == plan.text && plan1.thinking == plan.thinking
    ensures SidesTracked(st, plan1)
  {}

  // ---------------------------------------------------------------- compaction blocks

  /** A compaction block of the buffered form ends up as one completed message. */
  lemma CompactionBlockState(st: State, index: nat, summary: string)
    requires !st.Closed() && FindItem(st.items, CompactionId(st, index)).None?
    ensures var r := Run(st, BlockEvents(index, CompactionContent(summary)));
      && r.state.items == st.items + [Message(CompactionId(st, index), Status.Completed, Some(summary))]
      && r.state.indexes == st.indexes[CompactionId(st, index) := st.next] && r.state.next == st.next + 1
      && r.state.cmp.itemId == Some(CompactionId(st, index))
      && r.state.msg == st.msg && r.state.thinking == st.thinking && r.state.tools == st.tools && r.state.id == st.id
  {
    hide Run, Digits, FindItem, Frames, Complete, FailWith, OnStart, OnPing, StartTool, CompactionId;
    var itemId := CompactionId(st, index);
    var item := Message(itemId, InProgress, None);
    var start, stop := BlockStart(Some(index), CompactionBlock(Some(""))), BlockStop(Some(index));
    FindAppended(st.items, item);
    var st1 := Step(st, start).state;
    assert st1 == OpenCompaction(st, index).state;
    if summary == "" {
      assert BlockEvents(index, CompactionContent(summary)) == [start, stop];
      RunTwo(st, start, stop);
    } else {
      var piece := BlockDelta(Some(index), CompactionPiece(Some(summary)));
      assert BlockEvents(index, CompactionContent(summary)) == [start, piece] + [stop];
      RunAppend(st, [start, piece], [stop]);
      RunTwo(st, start, piece);
      var st2 := Step(st1, piece).state;
      assert "" + summary == summary;
      assert st2.items == st.items + [Message(itemId, InProgress, Some(summary))];
      FindAppended(st.items, Message(itemId, InProgress, Some(summary)));
      RunOne(st2, stop);
    }
  }

  lemma NotStored(st: State, plan: Plan, index: nat, x: string)
    requires Tracks(st, plan, index) && !Earlier(plan.places, x, |plan.places|)
    ensures FindItem(st.items, x).None?
  {
    hide Stored, Merged, SidesTracked, IndexesTracked, IdsTracked;
    StoredHas(plan.places, |plan.places|, x);
    FindSameIds(st.items, Stored(plan.places, |plan.places|), x);
  }

  lemma MessageTracked(items: seq<Item>, places: seq<Place>, item: Item)
    requires ItemsTracked(items, Stored(places, |places|)) && item.Message? && IsDone(item)
    ensures var places1 := places + [ItemPlace(item)];
      ItemsTracked(items + [item], Stored(places1, |places1|))
  {
    hide Stored, ItemsTracked;
    StoredSame(places, ItemPlace(item), |places|);
    StoredLast(places + [ItemPlace(item)]);
    TrackedBehind(items, Stored(places, |places|), item);
  }

  lemma CompactionBlockTracked(st: State, plan: Plan, index: nat, summary: string)
    requires Tracks(st, plan, index)
    ensures var st1 := Run(st, BlockEvents(index, CompactionContent(summary))).state;
      st1.id == st.id && Tracks(st1, Extend(st.id, plan, index, CompactionContent(summary)), index + 1)
  {
    hide Run, SidesTracked, ItemsTracked, IndexesTracked, IdsTracked, Stored, FindItem, BlockEvents;
    var x := CompactionItemId(st.id, index);
    assert x == CompactionId(st, index) && x[0] == 'm';
    var item := Message(x, Status.Completed, Some(summary));
    MessageIds(st.id, plan.places, summary, index);
    NotStored(st, plan, index, x);
    CompactionBlockState(st, index, summary);
    InBlocks(index, CompactionContent(summary));
    RunKeepsHead(st, BlockEvents(index, CompactionContent(summary)));
    var st1 := Run(st, BlockEvents(index, CompactionContent(summary))).state;
    MessageTracked(st.items, plan.places, item);
    ItemSides(st, st1, plan, item);
    ItemIndexes(st, st1, plan.places, item);
  }

  lemma InBlocks(index: nat, block: Content)
    ensures forall i :: 0 <= i < |BlockEvents(index, block)| ==> InBlock(BlockEvents(index, block)[i])
  {}

  // ---------------------------------------------------------------- all blocks

  lemma OneBlock(st: State, plan: Plan, index: nat, block: Content)
    requires Tracks(st, plan, index)
    ensures var st1 := Run(st, BlockEvents(index, block)).state;
      st1.id == st.id && Tracks(st1, Extend(st.id, plan, index, block), index + 1)
  {
    hide SidesTracked, ItemsTracked, IndexesTracked, IdsTracked, Stored;
    match block {
      case ToolContent(_, _, _) => ToolBlock(st, plan, index, block);
      case CompactionContent(summary) => CompactionBlockTracked(st, plan, index, summary);
      case OtherContent => IdsLater(st.id, plan.places, index);
      case _ => JoinedBlock(st, plan, index, block);
    }
  }

  /** The state after all blocks, one block at a time. */
  function Played(st: State, index: nat, content: seq<Content>): State
    decreases |content|
  {
    if content == [] then st else Played(Run(st, BlockEvents(index, content[0])).state, index + 1, content[1..])
  }

  lemma {:induction false} PlayedIsRun(st: State, index: nat, content: seq<Content>)
    ensures Run(st, ContentEvents(index, content)).state == Played(st, index, content)
    decreases |content|
  {
    if content != [] {
      var first := BlockEvents(index, content[0]);
      RunAppend(st, first, ContentEvents(index + 1, content[1..]));
      PlayedIsRun(Run(st, first).state, index + 1, content[1..]);
    }
  }

  /** The translator follows the plan of any object, whatever ids its calls have. */
  lemma {:induction false} AllBlocks(st: State, plan: Plan, index: nat, content: seq<Content>)
    requires Tracks(st, plan, index)
    ensures var st1 := Played(st, index, content);
      st1.id == st.id && Tracks(st1, PlanOf(st.id, plan, index, content), index + |content|)
    decreases |content|
  {
    hide Tracks, Run, Extend;
    if content != [] {
      OneBlock(st, plan, index, content[0]);
      var st1, plan1 := Run(st, BlockEvents(index, content[0])).state, Extend(st.id, plan, index, content[0]);
      AllBlocks(st1, plan1, index + 1, content[1..]);
    }
  }
}
