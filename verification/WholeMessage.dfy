/** What comes out at the end of a played Messages object, and exactly when that is what the object means. */
module WholeMessage {
  import opened Text
  import opened Protocol
  import opened TranslatorSpec
  import opened Chunking
  import opened Lifecycle
  import opened TerminalOutput
  import opened SortByIndex
  import opened MessageObjects
  import opened Namesakes
  import opened Buffered

  // ---------------------------------------------------------------- closing

  /** Nothing but calls is left to close. */
  ghost predicate OnlyCallsOpen(st: State) {
    forall i :: 0 <= i < |st.items| ==>
      && (st.items[i].Message? ==> IsDone(st.items[i]))
      && (st.cmp.itemId == Some(st.items[i].id) ==> IsDone(st.items[i]))
  }

  lemma {:induction false} ClosingKeepsItems(st: State, items: seq<Item>, p: nat)
    requires p <= |items| && items == st.items && OnlyCallsOpen(st)
    ensures var r := CloseItemsFrom(st, items, p);
      r.state == st.(sequence := r.state.sequence)
    decreases |items| - p
  {
    if p < |items| {
      var one := CloseItem(st, items[p], p);
      assert one.state == st.(sequence := one.state.sequence);
      ClosingKeepsItems(one.state, items, p + 1);
    }
  }

  /** A stored item is the planned one of some place, whatever has become of its arguments. */
  lemma {:induction false} StoredFrom(places: seq<Place>, n: nat, i: nat) returns (k: nat)
    requires n <= |places| && i < |Stored(places, n)|
    ensures k < n && places[k].ItemPlace? && Stored(places, n)[i] == Merged(places, k)
  {
    hide Merged;
    if i < |Stored(places, n - 1)| {
      k := StoredFrom(places, n - 1, i);
    } else {
      k := n - 1;
    }
  }

  lemma StoredItem(st: State, plan: Plan, index: nat, i: nat) returns (k: nat)
    requires Tracks(st, plan, index) && i < |st.items|
    ensures k < |plan.places| && plan.places[k].ItemPlace? && AsCompleted(st.items[i]) == Merged(plan.places, k)
    ensures plan.places[k].item.id == st.items[i].id
    ensures st.items[i].FunctionCall? || st.items[i].Message?
    ensures st.items[i].FunctionCall? <==> plan.places[k].item.FunctionCall?
  {
    hide Merged, Stored, SidesTracked, IndexesTracked, CallsShare;
    k := StoredFrom(plan.places, |plan.places|, i);
    MergedKind(plan.places, k);
  }

  lemma MergedKind(places: seq<Place>, k: nat)
    requires k < |places| && places[k].ItemPlace?
    ensures var item, merged := places[k].item, Merged(places, k);
      && merged.id == item.id && (merged.FunctionCall? <==> item.FunctionCall?) && (merged.Message? <==> item.Message?)
  {}

  lemma TrackedOnlyCallsOpen(st: State, plan: Plan, index: nat)
    requires Tracks(st, plan, index)
    ensures OnlyCallsOpen(st)
  {
    hide Stored, SidesTracked, IndexesTracked;
    forall i | 0 <= i < |st.items|
      ensures st.items[i].Message? ==> IsDone(st.items[i])
      ensures st.cmp.itemId == Some(st.items[i].id) ==> IsDone(st.items[i])
    {
      var k := StoredItem(st, plan, index, i);
      assert plan.places[k].item.FunctionCall? ==> plan.places[k].item.id[0] == 'f';
    }
  }

  // ---------------------------------------------------------------- the output, index by index

  function WithId(items: seq<Item>, x: string): seq<Item> {
    if items == [] then [] else (if items[0].id == x then [items[0]] else []) + WithId(items[1..], x)
  }

  lemma {:induction false} WithIdThen(a: seq<Item>, b: seq<Item>, x: string)
    ensures WithId(a + b, x) == WithId(a, x) + WithId(b, x)
  {
    if a == [] {
      assert a + b == b;
    } else {
      WithIdThen(a[1..], b, x);
      assert (a + b)[0] == a[0] && (a + b)[1..] == a[1..] + b;
      var first := if a[0].id == x then [a[0]] else [];
      assert first + (WithId(a[1..], x) + WithId(b, x)) == (first + WithId(a[1..], x)) + WithId(b, x);
    }
  }

  lemma WithIdOne(item: Item, x: string)
    ensures WithId([item], x) == if item.id == x then [item] else []
  {
    assert [item][1..] == [];
  }

  lemma {:induction false} GroupIsStored(places: seq<Place>, x: string, n: nat)
    requires n <= |places|
    ensures WithId(Stored(places, n), x) == Group(places, x, n)
  {
    hide Merged, WithId;
    if n == 0 {
      NothingWithId(x);
    } else {
      GroupIsStored(places, x, n - 1);
      var before := Stored(places, n - 1);
      if places[n - 1].ItemPlace? {
        MergedKind(places, n - 1);
        WithIdThen(before, [Merged(places, n - 1)], x);
        WithIdOne(Merged(places, n - 1), x);
      } else {
        assert before + [] == before;
      }
    }
  }

  lemma NothingWithId(x: string)
    ensures WithId([], x) == []
  {}

  lemma {:induction false} PickThen(a: seq<Entry>, b: seq<Entry>, k: nat)
    ensures Pick(a + b, k) == Pick(a, k) + Pick(b, k)
  {
    if a == [] {
      assert a + b == b;
    } else {
      PickThen(a[1..], b, k);
      assert (a + b)[0] == a[0] && (a + b)[1..] == a[1..] + b;
      var first := if a[0].index == k then [a[0]] else [];
      assert first + (Pick(a[1..], k) + Pick(b, k)) == (first + Pick(a[1..], k)) + Pick(b, k);
    }
  }

  lemma PickSingle(e: Entry, k: nat)
    ensures Pick([e], k) == if e.index == k then [e] else []
  {
    assert [e][1..] == [];
  }

  /** Every stored item answers with the last place its id has. */
  lemma StoredIndex(st: State, plan: Plan, index: nat, p: nat)
    requires Tracks(st, plan, index) && p < |st.items|
    ensures LastPlace(plan.places, st.items[p].id, ItemIndex(st, st.items[p], p))
  {
    hide Stored, SidesTracked, Merged, LastPlace;
    var k := StoredItem(st, plan, index, p);
  }

  /** The items under an index are those of the one id that has its last place there. */
  lemma {:induction false} PickItems(st: State, plan: Plan, index: nat, k: nat, p: nat, order: nat)
    requires Tracks(st, plan, index) && k < |plan.places| && p <= |st.items|
    ensures var stored := Stored(plan.places, |plan.places|);
      ItemsOf(Pick(ItemEntries(st, p, order), k)) ==
        match plan.places[k]
        case ItemPlace(item) => if Later(plan.places, item.id, k + 1) then [] else WithId(stored[p..], item.id)
        case _ => []
    decreases |st.items| - p
  {
    hide Tracks, Stored, ItemIndex, AsCompleted, Later;
    SameNumber(st, plan, index);
    var stored := Stored(plan.places, |plan.places|);
    if p < |st.items| {
      PickItems(st, plan, index, k, p + 1, order + 1);
      StoredIndex(st, plan, index, p);
      AtItsLast(plan.places, st.items[p].id, ItemIndex(st, st.items[p], p), k);
      StoredAt(st, plan, index, p);
      assert stored[p..][0] == stored[p] && stored[p..][1..] == stored[p + 1..];
      var e := Entry(ItemIndex(st, st.items[p], p), order, AsCompleted(st.items[p]));
      var rest := ItemEntries(st, p + 1, order + 1);
      assert ItemEntries(st, p, order) == [e] + rest;
      PickCons(e, rest, k);
      if e.index == k {
        ItemsOfCons(e, Pick(rest, k));
      }
    }
  }

  lemma ItemsOfCons(e: Entry, es: seq<Entry>)
    ensures ItemsOf([e] + es) == [e.item] + ItemsOf(es)
  {
    assert ([e] + es)[1..] == es;
  }

  lemma SameNumber(st: State, plan: Plan, index: nat)
    requires Tracks(st, plan, index)
    ensures |Stored(plan.places, |plan.places|)| == |st.items|
  {
    hide Stored, SidesTracked, IndexesTracked, IdsTracked;
  }

  lemma StoredAt(st: State, plan: Plan, index: nat, p: nat)
    requires Tracks(st, plan, index) && p < |st.items| == |Stored(plan.places, |plan.places|)|
    ensures AsCompleted(st.items[p]) == Stored(plan.places, |plan.places|)[p]
    ensures Stored(plan.places, |plan.places|)[p].id == st.items[p].id
  {
    hide Stored, SidesTracked, IndexesTracked, IdsTracked;
  }

  /** An id has its last place at `k` when `k` names it and nothing behind does. */
  lemma AtItsLast(places: seq<Place>, x: string, last: nat, k: nat)
    requires LastPlace(places, x, last) && k < |places|
    ensures last == k <==> Names(places[k], x) && !Later(places, x, k + 1)
    ensures places[k].ItemPlace? && !Later(places, places[k].item.id, k + 1) ==> (last == k <==> x == places[k].item.id)
  {
    if k < last {
      assert Later(places, x, k + 1);
    }
  }

  /** What lies under one index. */
  lemma PickAt(st: State, plan: Plan, index: nat, k: nat)
    requires Tracks(st, plan, index) && k < |plan.places|
    ensures ItemsOf(Pick(Entries(st), k)) == GatheredAt(st.id, plan, k)
  {
    hide Tracks, Stored, Pick, ItemEntries, ItemsOf, Group, WithId, Later;
    var reasoning := ReasoningEntries(st);
    var text := TextEntries(st, |reasoning|);
    var order := |reasoning| + |text|;
    var items := ItemEntries(st, 0, order);
    PickThen(reasoning + text, items, k);
    PickThen(reasoning, text, k);
    ItemsOfAppend(Pick(reasoning + text, k), Pick(items, k));
    PickItems(st, plan, index, k, 0, order);
    PickSides(st, plan, index, k);
    var stored := Stored(plan.places, |plan.places|);
    assert stored[0..] == stored;
    if plan.places[k].ItemPlace? && !Later(plan.places, plan.places[k].item.id, k + 1) {
      var x := plan.places[k].item.id;
      GroupIsStored(plan.places, x, |plan.places|);
      LastHere(plan.places, x, k);
      GroupPast(plan.places, x, k, |plan.places|);
    }
  }

  lemma LastHere(places: seq<Place>, x: string, k: nat)
    requires k < |places| && Names(places[k], x) && !Later(places, x, k + 1)
    ensures LastPlace(places, x, k)
  {}

  /** Text and thinking lie under the indexes of their places. */
  lemma PickSides(st: State, plan: Plan, index: nat, k: nat)
    requires Tracks(st, plan, index) && k < |plan.places|
    ensures var reasoning := ReasoningEntries(st); var text := TextEntries(st, |reasoning|);
      ItemsOf(Pick(reasoning, k) + Pick(text, k))
        == if plan.places[k].ItemPlace? then [] else FillOne(st.id, plan, plan.places[k])
  {
    hide ItemsTracked, Stored, IndexesTracked, IdsTracked, Pick, ItemsOf;
    var reasoning := ReasoningEntries(st);
    var text := TextEntries(st, |reasoning|);
    SidesAt(st, plan, k);
    PickNone([], k);
    if reasoning != [] {
      PickSingle(reasoning[0], k);
      assert reasoning == [reasoning[0]];
    }
    if text != [] {
      PickSingle(text[0], k);
      assert text == [text[0]];
    }
    ItemsOfNothing();
    match plan.places[k] {
      case TextPlace =>
        assert Pick(reasoning, k) == [] && Pick(text, k) == text;
        assert [] + text == text;
        ItemsOfSingle(text[0]);
      case ThinkingPlace =>
        assert Pick(reasoning, k) == reasoning && Pick(text, k) == [];
        assert reasoning + [] == reasoning;
        if reasoning != [] {
          ItemsOfSingle(reasoning[0]);
        }
      case ItemPlace(_) =>
        assert Pick(reasoning, k) + Pick(text, k) == [];
    }
  }

  lemma SidesAt(st: State, plan: Plan, k: nat)
    requires SidesTracked(st, plan) && k < |plan.places|
    ensures st.msg.index == Some(k) <==> plan.places[k].TextPlace?
    ensures st.thinking.index == Some(k) <==> plan.places[k].ThinkingPlace?
  {
    if TextPlace in plan.places {
      var j :| 0 <= j < |plan.places| && plan.places[j] == TextPlace;
      assert st.msg.index == Some(j);
    }
    if ThinkingPlace in plan.places {
      var j :| 0 <= j < |plan.places| && plan.places[j] == ThinkingPlace;
      assert st.thinking.index == Some(j);
    }
  }

  lemma ItemsOfNothing()
    ensures ItemsOf([]) == []
  {}

  lemma ItemsOfSingle(e: Entry)
    ensures ItemsOf([e]) == [e.item]
  {
    ItemsOfCons(e, []);
    assert [e] + [] == [e];
  }

  lemma {:induction false} BucketsGather(st: State, plan: Plan, index: nat, k: nat)
    requires Tracks(st, plan, index) && k <= |plan.places|
    ensures var n := |plan.places|;
      Gathered(st.id, plan, k) + ItemsOf(Buckets(Entries(st), k, n)) == Gathered(st.id, plan, n)
    decreases |plan.places| - k
  {
    hide Tracks, Entries, GatheredAt, Pick, ItemsOf;
    var n := |plan.places|;
    if k < n {
      PickAt(st, plan, index, k);
      var here, rest := Pick(Entries(st), k), Buckets(Entries(st), k + 1, n);
      ItemsOfAppend(here, rest);
      BucketsGather(st, plan, index, k + 1);
      var out := Gathered(st.id, plan, k);
      assert out + (ItemsOf(here) + ItemsOf(rest)) == (out + ItemsOf(here)) + ItemsOf(rest);
    } else {
      ItemsOfNothing();
      assert Gathered(st.id, plan, n) + [] == Gathered(st.id, plan, n);
    }
  }

  /** Entries are in range, and their orders run. */
  lemma EntriesRun(st: State, plan: Plan, index: nat)
    requires Tracks(st, plan, index)
    ensures var es := Entries(st);
      && (forall i :: 0 <= i < |es| ==> es[i].index < |plan.places|)
      && (forall i :: 0 <= i < |es| ==> es[i].order == i)
  {
    hide ItemsTracked, Stored, IndexesTracked, IdsTracked, ItemIndex, LastPlace;
    var reasoning := ReasoningEntries(st);
    var text := TextEntries(st, |reasoning|);
    var order := |reasoning| + |text|;
    ItemEntriesAt(st, 0, order);
    SidesInRange(st, plan);
    forall p | 0 <= p < |st.items| ensures ItemIndex(st, st.items[p], p) < |plan.places| {
      StoredIndex(st, plan, index, p);
      LastInRange(plan.places, st.items[p].id, ItemIndex(st, st.items[p], p));
    }
  }

  lemma LastInRange(places: seq<Place>, x: string, last: nat)
    requires LastPlace(places, x, last)
    ensures last < |places|
  {}

  lemma SidesInRange(st: State, plan: Plan)
    requires SidesTracked(st, plan)
    ensures st.msg.itemId.Some? ==> st.msg.index.Some? && st.msg.index.value < |plan.places|
    ensures st.thinking.text != "" ==> st.thinking.index.Some? && st.thinking.index.value < |plan.places|
  {
    if TextPlace in plan.places {
      var j :| 0 <= j < |plan.places| && plan.places[j] == TextPlace;
      assert st.msg.index == Some(j);
    }
    if ThinkingPlace in plan.places {
      var j :| 0 <= j < |plan.places| && plan.places[j] == ThinkingPlace;
      assert st.thinking.index == Some(j);
    }
  }

  /** The terminal output of a state that follows a plan is the plan gathered id by id. */
  lemma TrackedOutput(st: State, plan: Plan, index: nat)
    requires Tracks(st, plan, index)
    ensures FinalOutput(CloseOpenItems(st).state) == Gathered(st.id, plan, |plan.places|)
  {
    hide Tracks, Entries, Gathered, Sorted, Buckets, ItemsOf, CloseItemsFrom;
    TrackedOnlyCallsOpen(st, plan, index);
    ClosingKeepsItems(CloseText(st).state, st.items, 0);
    var closed := CloseOpenItems(st).state;
    assert closed == st.(sequence := closed.sequence);
    SameEntries(st, closed);
    EntriesRun(st, plan, index);
    SortedIsBuckets(Entries(st), |plan.places|);
    BucketsGather(st, plan, index, 0);
    NothingGathered(st.id, plan);
    assert [] + ItemsOf(Buckets(Entries(st), 0, |plan.places|)) == ItemsOf(Buckets(Entries(st), 0, |plan.places|));
  }

  lemma NothingGathered(id: string, plan: Plan)
    ensures Gathered(id, plan, 0) == []
  {}

  lemma {:induction false} SameItemEntries(st: State, st1: State, p: nat, order: nat)
    requires p <= |st.items| && st1 == st.(sequence := st1.sequence, phase := st1.phase)
    ensures ItemEntries(st1, p, order) == ItemEntries(st, p, order)
    decreases |st.items| - p
  {
    if p < |st.items| {
      SameItemEntries(st, st1, p + 1, order + 1);
    }
  }

  lemma SameEntries(st: State, st1: State)
    requires st1 == st.(sequence := st1.sequence, phase := st1.phase)
    ensures Entries(st1) == Entries(st)
  {
    hide ItemEntries;
    var reasoning := ReasoningEntries(st);
    SameItemEntries(st, st1, 0, |reasoning| + |TextEntries(st, |reasoning|)|);
  }

  // ---------------------------------------------------------------- from the first event to the last

  lemma {:induction false} ContentInBlocks(index: nat, content: seq<Content>)
    ensures forall i :: 0 <= i < |ContentEvents(index, content)| ==> InBlock(ContentEvents(index, content)[i])
    decreases |content|
  {
    if content != [] {
      ContentInBlocks(index + 1, content[1..]);
    }
  }

  /** The state in which the object's blocks have all been played and its ending taken in. */
  function Ready(id: string, model: string, m: MessageObject): State {
    var begun := OnStart(Fresh(id, model), Some(m.model.GetOr(model)), None).state;
    var ending := Ending(m);
    OnMessageDelta(Played(begun, 0, m.content), ending.stopReason, ending.usage)
  }

  lemma ObjectRun(id: string, model: string, m: MessageObject) returns (sent: seq<Frame>)
    ensures Run(Fresh(id, model), ObjectEvents(m, model)).out == sent + Complete(Ready(id, model, m)).out
  {
    hide Step, Complete, ContentEvents, InBlock, OnMessageDelta, Fresh;
    var st := Fresh(id, model);
    var start := MessageStart(Some(m.model.GetOr(model)), None);
    var blocks := ContentEvents(0, m.content);
    var begun := OnStart(st, Some(m.model.GetOr(model)), None);
    StepStart(id, model, m);
    RunOne(st, start);
    RunAppend(st, [start], blocks + [Ending(m), MessageStop]);
    RunAppend(begun.state, blocks, [Ending(m), MessageStop]);
    var played := Run(begun.state, blocks);
    PlayedIsRun(begun.state, 0, m.content);
    ContentInBlocks(0, m.content);
    RunKeepsHead(begun.state, blocks);
    RunTwo(played.state, Ending(m), MessageStop);
    StepEnding(played.state, m);
    sent := begun.out + played.out;
    var last := Complete(Ready(id, model, m)).out;
    assert begun.out + (played.out + ([] + last)) == sent + last;
  }

  lemma StepStart(id: string, model: string, m: MessageObject)
    ensures var st := Fresh(id, model);
      Step(st, MessageStart(Some(m.model.GetOr(model)), None)) == OnStart(st, Some(m.model.GetOr(model)), None)
    ensures var st1 := OnStart(Fresh(id, model), Some(m.model.GetOr(model)), None).state;
      && !st1.Closed() && st1.model == m.model.GetOr(model) && st1.usage == Counters(0, 0, 0, 0)
      && st1.stopReason == None && st1.id == id
  {}

  lemma StepEnding(st: State, m: MessageObject)
    requires !st.Closed()
    ensures var st1 := OnMessageDelta(st, Ending(m).stopReason, Ending(m).usage);
      && Step(st, Ending(m)) == Silent(st1)
      && Step(st1, MessageStop) == Complete(st1) && !st1.Closed()
  {
    hide Complete;
  }

  /** The stream closes with this response and the closing mark. */
  predicate Concludes(out: seq<Frame>, response: Response) {
    && |out| >= 2 && out[|out| - 1] == DoneMark && out[|out| - 2].Event?
    && out[|out| - 2].body
       == if response.status == IncompleteResponse then IncompleteBody(response) else CompletedBody(response)
  }

  function EndStatus(stopReason: Option<string>): ResponseStatus {
    if stopReason == Some("max_tokens") then IncompleteResponse else CompletedResponse
  }

  lemma CompleteConcludes(st: State)
    requires !st.Closed()
    ensures var closed := CloseOpenItems(st.(phase := st.phase.(finished := true))).state;
      Concludes(Complete(st).out, closed.Base(EndStatus(st.stopReason), FinalOutput(closed)))
  {
    hide CloseOpenItems, FinalOutput;
  }

  // ---------------------------------------------------------------- the output and the meaning

  lemma PlanBegins(id: string, model: string, m: MessageObject)
    ensures Tracks(OnStart(Fresh(id, model), Some(m.model.GetOr(model)), None).state, NO_PLAN, 0)
  {}

  /** What is known of the state the object ends in. */
  lemma ReadyHead(id: string, model: string, m: MessageObject)
    ensures var st, usage := Ready(id, model, m), m.usage.GetOr(Usage(None, None, None, None));
      && !st.Closed() && st.id == id && st.model == m.model.GetOr(model)
      && st.usage == IngestUsage(Counters(0, 0, 0, 0), Some(usage))
      && (st.stopReason == Some("max_tokens") <==> m.stopReason == Some("max_tokens"))
  {
    hide Played, ContentEvents, InBlock, Run, Fresh, OnStart;
    var begun := OnStart(Fresh(id, model), Some(m.model.GetOr(model)), None).state;
    StepStart(id, model, m);
    PlayedIsRun(begun, 0, m.content);
    ContentInBlocks(0, m.content);
    RunKeepsHead(begun, ContentEvents(0, m.content));
  }

  lemma TracksLater(st: State, st1: State, plan: Plan, index: nat)
    requires Tracks(st, plan, index) && !st1.Closed()
    requires st1 == st.(phase := st1.phase, usage := st1.usage, model := st1.model, stopReason := st1.stopReason,
                        sequence := st1.sequence)
    ensures Tracks(st1, plan, index)
  {
    hide Stored, IdsTracked;
  }

  lemma TrackedMarked(st: State, marked: State, plan: Plan, index: nat)
    requires Tracks(st, plan, index) && marked == st.(phase := marked.phase)
    ensures FinalOutput(CloseOpenItems(marked).state) == Gathered(st.id, plan, |plan.places|)
  {
    hide Tracks, FinalOutput, CloseOpenItems, Gathered;
    TrackedOutput(st, plan, index);
    ClosingIgnoresPhase(st, marked, plan, index);
  }

  lemma ClosingIgnoresPhase(st: State, marked: State, plan: Plan, index: nat)
    requires Tracks(st, plan, index) && marked == st.(phase := marked.phase)
    ensures FinalOutput(CloseOpenItems(marked).state) == FinalOutput(CloseOpenItems(st).state)
  {
    hide Tracks, CloseItemsFrom, Entries, Sorted, ItemsOf;
    TrackedOnlyCallsOpen(st, plan, index);
    ClosingKeepsItems(CloseText(st).state, st.items, 0);
    ClosingKeepsItems(CloseText(marked).state, marked.items, 0);
    SameEntries(CloseOpenItems(st).state, CloseOpenItems(marked).state);
  }

  lemma ReadyOutput(id: string, model: string, m: MessageObject)
    ensures var st, plan := Ready(id, model, m), PlanOf(id, NO_PLAN, 0, m.content);
      && CallsShare(plan.places)
      && FinalOutput(CloseOpenItems(st.(phase := st.phase.(finished := true))).state)
         == Gathered(id, plan, |plan.places|)
  {
    hide Played, Fresh, OnStart, PlanOf, CloseOpenItems, FinalOutput, Gathered, Tracks, CallsShare;
    var begun := OnStart(Fresh(id, model), Some(m.model.GetOr(model)), None).state;
    StepStart(id, model, m);
    PlanBegins(id, model, m);
    AllBlocks(begun, NO_PLAN, 0, m.content);
    var played, plan := Played(begun, 0, m.content), PlanOf(id, NO_PLAN, 0, m.content);
    var st := Ready(id, model, m);
    ReadyHead(id, model, m);
    TracksLater(played, st, plan, 0 + |m.content|);
    TrackedMarked(st, st.(phase := st.phase.(finished := true)), plan, 0 + |m.content|);
    TracksCalls(st, plan, 0 + |m.content|);
  }

  lemma TracksCalls(st: State, plan: Plan, index: nat)
    requires Tracks(st, plan, index)
    ensures CallsShare(plan.places)
  {}

  // ---------------------------------------------------------------- the theorem

  function UsageTotals(usage: Usage): Totals {
    Totals(usage.input.GetOr(0) + usage.cacheRead.GetOr(0) + usage.cacheCreation.GetOr(0),
           usage.output.GetOr(0), usage.cacheRead.GetOr(0))
  }

  /** Played as a stream, an object comes out as one terminal response, and its output is what the object means
      exactly when calls that share an id do no harm: only the first of them has input, and no other item comes out
      between them. */
  lemma ObjectKeepsMeaning(id: string, model: string, m: MessageObject) returns (output: seq<Item>)
    ensures Concludes(Run(Fresh(id, model), ObjectEvents(m, model)).out,
                      Response(id, m.model.GetOr(model), EndStatus(m.stopReason), output,
                               UsageTotals(m.usage.GetOr(Usage(None, None, None, None)))))
    ensures output == Meaning(id, m.content) <==> Harmless(id, m.content)
  {
    hide Ready, Run, Fresh, ObjectEvents, HarmlessPlan, FinalOutput, CloseText, CloseItemsFrom, Complete;
    hide Gathered, Fill;
    hide CallsShare, PlanOf;
    var sent := ObjectRun(id, model, m);
    var st := Ready(id, model, m);
    ReadyHead(id, model, m);
    CompleteConcludes(st);
    var marked := st.(phase := st.phase.(finished := true));
    ClosingKeepsHead(marked);
    output := FinalOutput(CloseOpenItems(marked).state);
    ReadyOutput(id, model, m);
    GatheredIsMeaning(id, PlanOf(id, NO_PLAN, 0, m.content));
  }

  // ---------------------------------------------------------------- distinct calls

  /** Planned ids are those of the places, each had by one place only. */
  ghost predicate OnePlaceEach(plan: Plan) {
    && (forall j, k :: 0 <= j < k < |plan.places| && plan.places[j].ItemPlace? ==>
          !Names(plan.places[k], plan.places[j].item.id))
    && (forall k :: 0 <= k < |plan.places| && plan.places[k].ItemPlace? && plan.places[k].item.FunctionCall? ==>
          plan.places[k].item.id in plan.ids)
  }

  lemma {:induction false} DistinctAreAlone(id: string, plan: Plan, index: nat, content: seq<Content>)
    requires OnePlaceEach(plan) && IdsTracked(id, plan.places, index) && DistinctCalls(id, plan, index, content)
    ensures OnePlaceEach(PlanOf(id, plan, index, content))
    decreases |content|
  {
    hide Extend, ToolId, OnePlaceEach, IdsTracked;
    if content != [] {
      OneMoreAlone(id, plan, index, content[0]);
      DistinctAreAlone(id, Extend(id, plan, index, content[0]), index + 1, content[1..]);
    }
  }

  lemma OneMoreAlone(id: string, plan: Plan, index: nat, block: Content)
    requires OnePlaceEach(plan) && IdsTracked(id, plan.places, index)
    requires block.ToolContent? ==> ToolId(id, Some(block.id.GetOr("")), plan.tools) !in plan.ids
    ensures var plan1 := Extend(id, plan, index, block);
      OnePlaceEach(plan1) && IdsTracked(id, plan1.places, index + 1)
  {
    hide CompactionBelow, CallsShare, IdsTracked, ToolCallId;
    var places := plan.places;
    IdsLater(id, places, index);
    match block {
      case ToolContent(toolId, name, input) =>
        var callId := ToolCallId(id, Some(toolId.GetOr("")), plan.tools);
        var call := FunctionCall("fc_" + callId, Status.Completed, callId, name, input);
        CallIds(id, places, call, index);
        NotPlaced(id, plan, index, call);
      case CompactionContent(summary) => MessageIds(id, places, summary, index);
      case TextContent(_) => LooseIds(id, places, TextPlace, index + 1);
      case ThinkingContent(_) => LooseIds(id, places, ThinkingPlace, index + 1);
      case OtherContent =>
    }
  }

  lemma NotPlaced(id: string, plan: Plan, index: nat, call: Item)
    requires OnePlaceEach(plan) && IdsTracked(id, plan.places, index)
    requires call.FunctionCall? && call.id != "" && call.id[0] == 'f' && call.id !in plan.ids
    ensures forall k :: 0 <= k < |plan.places| ==> !Names(plan.places[k], call.id)
  {
    hide CallsShare;
    forall k | 0 <= k < |plan.places| ensures !Names(plan.places[k], call.id) {
      if plan.places[k].ItemPlace? && plan.places[k].item.Message? {
        CompactionIdFresh(id, index, plan.places[k].item.id);
      }
    }
  }

  /** Calls with ids of their own do no harm. */
  lemma DistinctIsHarmless(id: string, content: seq<Content>)
    requires DistinctCalls(id, NO_PLAN, 0, content)
    ensures Harmless(id, content)
  {
    hide DistinctCalls, PlanOf, FillOne;
    DistinctAreAlone(id, NO_PLAN, 0, content);
  }

  lemma ClosingKeepsHead(st: State)
    ensures SameHead(st, CloseOpenItems(st).state)
  {
    hide CloseItemsFrom;
    ClosingFromKeepsHead(CloseText(st).state, st.items, 0);
  }

  lemma {:induction false} ClosingFromKeepsHead(st: State, items: seq<Item>, p: nat)
    requires p <= |items|
    ensures SameHead(st, CloseItemsFrom(st, items, p).state)
    decreases |items| - p
  {
    if p < |items| {
      ClosingFromKeepsHead(CloseItem(st, items[p], p).state, items, p + 1);
    }
  }
}
