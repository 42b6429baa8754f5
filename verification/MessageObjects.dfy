/** A whole Messages object: as a stream, as what it means, and as what the translator makes of it. */
module MessageObjects {
  import opened Text
  import opened Protocol
  import opened TranslatorSpec
  import opened Lifecycle

  datatype Content =
    | TextContent(text: string)
    | ToolContent(id: Option<string>, name: string, input: string)
    | ThinkingContent(thinking: string)
    | CompactionContent(summary: string)
    | OtherContent

  datatype MessageObject = MessageObject(model: Option<string>, content: seq<Content>, stopReason: Option<string>,
                                         usage: Option<Usage>)

  // ---------------------------------------------------------------- the object as a stream

  function BlockEvents(index: nat, block: Content): seq<Upstream> {
    match block
    case TextContent(text) => [BlockDelta(Some(index), TextPiece(Some(text)))]
    case ToolContent(id, name, input) =>
      [BlockStart(Some(index), ToolUse(Some(id.GetOr("")), name, None)),
       BlockDelta(Some(index), InputJsonPiece(Some(input)))]
    case ThinkingContent(thinking) => [BlockDelta(Some(index), ThinkingPiece(Some(thinking)))]
    case CompactionContent(summary) =>
      [BlockStart(Some(index), CompactionBlock(Some("")))]
      + (if summary == "" then [] else [BlockDelta(Some(index), CompactionPiece(Some(summary)))])
      + [BlockStop(Some(index))]
    case OtherContent => []
  }

  function ContentEvents(index: nat, content: seq<Content>): seq<Upstream>
    decreases |content|
  {
    if content == [] then [] else BlockEvents(index, content[0]) + ContentEvents(index + 1, content[1..])
  }

  function Ending(m: MessageObject): Upstream {
    MessageDelta(m.stopReason, Some(m.usage.GetOr(Usage(None, None, None, None))))
  }

  function ObjectEvents(m: MessageObject, model: string): seq<Upstream> {
    [MessageStart(Some(m.model.GetOr(model)), None)] + (ContentEvents(0, m.content) + [Ending(m), MessageStop])
  }

  // ---------------------------------------------------------------- the object as output items

  /** One place per output item, at the first block that feeds it. */
  datatype Place = TextPlace | ThinkingPlace | ItemPlace(item: Item)

  datatype Plan = Plan(places: seq<Place>, text: string, thinking: string, tools: nat, ids: set<string>)

  const NO_PLAN: Plan := Plan([], "", "", 0, {})

  function Placed(places: seq<Place>, place: Place): seq<Place> {
    if place in places then places else places + [place]
  }

  function Extend(id: string, plan: Plan, index: nat, block: Content): Plan {
    match block
    case TextContent(text) => plan.(places := Placed(plan.places, TextPlace), text := plan.text + text)
    case ThinkingContent(thinking) =>
      plan.(places := Placed(plan.places, ThinkingPlace), thinking := plan.thinking + thinking)
    case ToolContent(toolId, name, input) =>
      var callId := ToolCallId(id, Some(toolId.GetOr("")), plan.tools);
      plan.(places := plan.places + [ItemPlace(FunctionCall("fc_" + callId, Status.Completed, callId, name, input))],
            tools := plan.tools + 1, ids := plan.ids + {"fc_" + callId})
    case CompactionContent(summary) =>
      plan.(places := plan.places + [ItemPlace(Message(CompactionItemId(id, index), Status.Completed, Some(summary)))])
    case OtherContent => plan
  }

  function PlanOf(id: string, plan: Plan, index: nat, content: seq<Content>): Plan
    decreases |content|
  {
    if content == [] then plan else PlanOf(id, Extend(id, plan, index, content[0]), index + 1, content[1..])
  }

  function FillOne(id: string, plan: Plan, place: Place): seq<Item> {
    match place
    case TextPlace => [Message("msg_" + id, Status.Completed, Some(plan.text))]
    case ThinkingPlace => if plan.thinking == "" then [] else [Reasoning("rs_" + id, plan.thinking)]
    case ItemPlace(item) => [item]
  }

  function Fill(id: string, plan: Plan, n: nat): seq<Item>
    requires n <= |plan.places|
  {
    if n == 0 then [] else Fill(id, plan, n - 1) + FillOne(id, plan, plan.places[n - 1])
  }

  /** What an object means: one message joining all text blocks, one reasoning item joining all thinking, a call per
      tool_use with its input, a message per compaction block; each where its first block stands. */
  function Meaning(id: string, content: seq<Content>): seq<Item> {
    var plan := PlanOf(id, NO_PLAN, 0, content);
    Fill(id, plan, |plan.places|)
  }

  /** No two tool_use blocks end up with the same item id. */
  predicate DistinctCalls(id: string, plan: Plan, index: nat, content: seq<Content>)
    decreases |content|
  {
    content == [] ||
      ((content[0].ToolContent? ==> ToolId(id, Some(content[0].id.GetOr("")), plan.tools) !in plan.ids)
       && DistinctCalls(id, Extend(id, plan, index, content[0]), index + 1, content[1..]))
  }

  // ---------------------------------------------------------------- calls that share an id

  /** The place stands for a stored item of this id. */
  predicate Names(place: Place, x: string) {
    place.ItemPlace? && place.item.id == x
  }

  predicate Earlier(places: seq<Place>, x: string, n: nat) {
    exists j :: 0 <= j < n && j < |places| && Names(places[j], x)
  }

  predicate Later(places: seq<Place>, x: string, n: nat) {
    exists j :: n <= j < |places| && Names(places[j], x)
  }

  function InputOf(place: Place, x: string): string {
    if Names(place, x) && place.item.FunctionCall? then place.item.arguments else ""
  }

  /** The inputs of all calls of one id, joined. */
  function Inputs(places: seq<Place>, x: string): string {
    if places == [] then "" else Inputs(places[..|places| - 1], x) + InputOf(places[|places| - 1], x)
  }

  /** The item stored for a place: of the calls that share an id the first collects every input, the others none. */
  function Merged(places: seq<Place>, k: nat): Item
    requires k < |places| && places[k].ItemPlace?
  {
    var item := places[k].item;
    if !item.FunctionCall? then item
    else item.(arguments := if Earlier(places, item.id, k) then "" else Inputs(places, item.id))
  }

  /** The stored items for one id among the first places. */
  function Group(places: seq<Place>, x: string, n: nat): seq<Item>
    requires n <= |places|
  {
    if n == 0 then []
    else Group(places, x, n - 1) + if Names(places[n - 1], x) then [Merged(places, n - 1)] else []
  }

  /** What comes out at a place: items that share an id all come out at the last place they have. */
  function GatheredAt(id: string, plan: Plan, k: nat): seq<Item>
    requires k < |plan.places|
  {
    match plan.places[k]
    case ItemPlace(item) => if Later(plan.places, item.id, k + 1) then [] else Group(plan.places, item.id, k + 1)
    case _ => FillOne(id, plan, plan.places[k])
  }

  function Gathered(id: string, plan: Plan, n: nat): seq<Item>
    requires n <= |plan.places|
  {
    if n == 0 then [] else Gathered(id, plan, n - 1) + GatheredAt(id, plan, n - 1)
  }

  /** Calls that share an id do no harm: only the first has input, and nothing else comes out between them. */
  predicate HarmlessPlan(id: string, plan: Plan) {
    forall j, k :: 0 <= j < k < |plan.places| && plan.places[j].ItemPlace? ==>
      var x := plan.places[j].item.id;
      Names(plan.places[k], x) ==>
        && InputOf(plan.places[k], x) == ""
        && forall m :: j < m < k ==> Names(plan.places[m], x) || FillOne(id, plan, plan.places[m]) == []
  }

  predicate Harmless(id: string, content: seq<Content>) {
    HarmlessPlan(id, PlanOf(id, NO_PLAN, 0, content))
  }
}
