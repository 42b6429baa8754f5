/** The two event vocabularies the stream translator stands between. */
module Protocol {
  import opened Text

  // ---------------------------------------------------------------- Anthropic Messages, decoded

  /** A usage object: each counter may be missing. */
  datatype Usage = Usage(input: Option<nat>, output: Option<nat>, cacheRead: Option<nat>, cacheCreation: Option<nat>)

  datatype Delta =
    | ThinkingPiece(thinking: Option<string>)
    | CompactionPiece(content: Option<string>)
    | TextPiece(text: Option<string>)
    | InputJsonPiece(partial: Option<string>)
    | OtherPiece

  /** `input` is the text of a string input, or the serialised text of any other; None for null. */
  datatype Block =
    | CompactionBlock(content: Option<string>)
    | ToolUse(id: Option<string>, name: string, input: Option<string>)
    | OtherBlock

  datatype Upstream =
    | MessageStart(model: Option<string>, usage: Option<Usage>)
    | BlockStart(index: Option<nat>, block: Block)
    | BlockDelta(index: Option<nat>, delta: Delta)
    | BlockStop(index: Option<nat>)
    | MessageDelta(stopReason: Option<string>, usage: Option<Usage>)
    | MessageStop
    | ErrorEvent(kind: Option<string>, message: Option<string>)
    | Ping
    | OtherEvent

  // ---------------------------------------------------------------- OpenAI Responses, before serialisation

  datatype Status = InProgress | Completed

  /** A message holds no part yet (None) or one output_text part. */
  datatype Item =
    | Message(id: string, status: Status, text: Option<string>)
    | FunctionCall(id: string, status: Status, callId: string, name: string, arguments: string)
    | Reasoning(id: string, summary: string)

  datatype Totals = Totals(input: nat, output: nat, cached: nat)

  datatype ResponseStatus = RunningResponse | CompletedResponse | IncompleteResponse | FailedResponse

  datatype Response = Response(id: string, model: string, status: ResponseStatus, output: seq<Item>, usage: Totals)

  datatype Body =
    | CreatedBody(response: Response)
    | InProgressBody(response: Response)
    | ItemAdded(index: nat, item: Item)
    | PartAdded(itemId: string, index: nat)
    | OutputTextDelta(itemId: string, index: nat, delta: string)
    | ReasoningDelta(itemId: string, index: nat, delta: string)
    | ArgumentsDelta(itemId: string, index: nat, delta: string)
    | OutputTextDone(itemId: string, index: nat, text: string)
    | PartDone(itemId: string, index: nat, text: string)
    | ArgumentsDone(itemId: string, index: nat, arguments: string)
    | ItemDone(index: nat, item: Item)
    | CompletedBody(response: Response)
    | IncompleteBody(response: Response)
    | FailedBody(response: Response, kind: Option<string>, message: string)
  {
    predicate Terminal() {
      CompletedBody? || IncompleteBody? || FailedBody?
    }
  }

  /** What goes out as one `data:` line: a numbered event or the closing `[DONE]`. */
  datatype Frame = Event(sequence: nat, body: Body) | DoneMark
}
