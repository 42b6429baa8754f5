# Proxy stream, routing, monitor and pool: a verified model

The proxy sits between clients that speak OpenAI Responses and an upstream that speaks Anthropic Messages. This project
models its four parts with the hardest logic and proves what they are for.

- **Stream translation.** `Sse` is the server-sent-event codec. `Protocol` has the two event vocabularies,
  `TranslatorSpec` the translator as functions of its state, `Translator` the class that updates its fields in place and
  is proved equal to them. `Chunking`, `Terminal`, `Announcement`, `PeekLoop`, `PeekSafety`, `Ledger`, `Lifecycle`,
  `SortByIndex`, `Closing`, `TerminalOutput`, `Completion`, `ToolRouting`, `CallArguments` and `RepeatedCalls` prove what
  holds of every stream; `EventFacts`, `Keepalive`, `ClosingOrder`, `CompactionText` and `PeekStatus` say what is sent and
  answered in terms of the upstream events alone; `MessageObjects`, `Namesakes`, `Buffered`, `WholeMessage` and `Wire`
  follow a whole Messages object through the same translator.
- **Model routing.** `Glob` is the wildcard loop against its recursive meaning; `Models` and `Grok` are normalisation,
  rules and the two Grok namespaces, `ModelSpellings` and `GrokSpellings` the ways to write an id; `AccountRoutes`,
  `RouteLookup`, `RouteLaws` and `RouteClearing` build, consult and edit account routes; `AliasCandidates`,
  `RoutePreference` and `RouteEdits` say which candidates, which winner and which rules that gives.
- **Monitor.** `Metrics`, `Monitoring`, `MonitorBooks`, `RequestOutcomes`, `RecentRows`, `TokenHistory`, `OutputHistory`
  and `HistoryRuns` are the life cycle of requests, its counters and the sliding history as functions with their laws;
  `MonitorCounts`, `RequestReading`, `LateRows`, `PhaseTimes` and `HistoryMeaning` read counters, rows, times and history
  from the events; `MonitorStore` has the classes that do it in place.
- **Pool and sessions.** `WorkerPool` is a transition system over every interleaving; `Sessions` the bounded table, and
  `SessionChains` what it knows of an id.

Every method that updates state is proved against a function of the old state; the laws are lemmas about those functions,
over all inputs, runs and schedules.

Facts of the code that the model keeps, and that its own comments or a standard put differently:

- A value in a block loses all its leading spaces; section 9.2.6 of the WHATWG HTML standard removes one. The round trip
  therefore holds exactly for wire-safe events (`Sse.RoundTrip`).
- The wildcard loop tries literal equality before the star, so a star in the text can hide a match
  (`Glob.MissedMatch`, `Glob.ScanAgreesExactly`).
- Normalisation takes off one layer per call; `Models.OneCallIsEnough` says when one is enough, and exactly then a
  policy treats an id and its counterpart alike (`Grok.SandAgreesExactly`).
- Two tool blocks with one id are both announced, but pieces go to the first. Such a stream always breaks the item life
  cycle (`RepeatedCalls.RepeatedCallIsRefused`), and a Messages object with such ids keeps its meaning only if they do no
  harm (`WholeMessage.ObjectKeepsMeaning`).
- A ping before message_start announces the response twice (`Announcement.PingBeforeStart`); how often it is announced is
  said exactly by `Announcement.RunAnnounces`.
- The uniqueness that building a policy establishes is not needed for the early exit of the lookup: a later rule for the
  same model loses by its position (`RouteLookup.DirectIsFinal`).
- A failure after a completion adds a second row (`RecentRows.LateFailureAddsRow`); `RecentRows.UniqueThroughout` says
  when rows stay unique. Overlapping requests of a session repeat a number (`Sessions.OverlapRepeats`).
- Starting an active id again loses its outcome and its running timers (`MonitorBooks.OutcomesConserved`,
  `MonitorBooks.TimersConserved`).

Reading the model: text is a sequence of characters, one per byte. JSON is not modelled: decoding, printing and the error
classifiers are function parameters, and `Wire.Reads` and `Wire.Carries` say what is assumed of a printer and its reader
on the events at hand (`Wire.SomeCodec` gives one). The fields of the translator class are grouped into records (phase,
counters, message, reasoning, compaction, tools). Clock readings are arguments, one pair for each event; the peek
deadline is a number of waits. Counters that saturate at the top of their range are natural numbers. Account resolution,
the registry's alias test and the scheduler are left open.

Well-formed streams (`Lifecycle.WellFormed`) have distinct item ids, one open compaction block at a time, and no argument
piece before the first tool block; nothing is asked of what follows the event that ends the stream.

## Model

| member | source | states |
|---|---|---|
| Sse.NormalizeLines | src/anthropic/sse.rs:72-86 | the loop turns CR LF and lone CR into LF exactly as the character-pair definition says, and leaves no CR |
| Sse.ParseBlock | src/anthropic/sse.rs:88-130 | the block loop yields the events of its lines: data lines joined by LF, an `event` line closing what was read, everything else ignored |
| Sse.ParseSseEvents | src/anthropic/sse.rs:20-54 | the segment loop yields the events of the whole text, blocks split at empty lines |
| Sse.EncodeSseEvent | src/anthropic/sse.rs:56-70 | the encoder writes the event line, one data line per LF-separated part, and a blank line |
| Sse.ParseAppend | src/anthropic/sse.rs:20-54 | if `a` ends in a blank line, parsing `a + b` is parsing `a` and then `b`, whatever CR or LF either holds |
| Sse.RoundTrip | src/anthropic/sse.rs:20-70 | a list of events survives encoding and parsing if and only if every event is wire-safe (no CR, event name one line without leading space, no data line with a leading space) |
| Sse.ParsedIsWireSafe | src/anthropic/sse.rs:88-130 | whatever was parsed is wire-safe |
| Sse.ReencodingIsStable | src/anthropic/sse.rs:20-70 | encoding parsed events is a normal form: parsing it again changes nothing, for every input text |
| Sse.ParseUnterminated | src/anthropic/sse.rs:20-54 | a body need not end in a blank line: parsing any text is parsing it with a blank line behind it |
| Sse.CutOffReadsBack | src/anthropic/sse.rs:42-54 | written wire-safe events read back in full when the last line ending, or both of the last two, are cut off |
| Sse.FieldMeaning | src/anthropic/sse.rs:88-130 | the key of a line is what stands before its first colon, its value what stands behind it without leading spaces; a line without a colon is a key with an empty value |
| Sse.BlockOfData | src/anthropic/sse.rs:88-130 | lines without an event field make one event of all their data values, or none if there are none |
| Sse.BlockCut | src/anthropic/sse.rs:88-130 | an event line closes what was read before it and names what is read behind it |
| Sse.EncodedText | src/anthropic/sse.rs:56-70 | an event on the wire, letter by letter: its name on a line of its own if it has one, a data line for each part, an empty line |
| Translator.AnthropicToResponses.constructor | src/openai.rs:700-706 | a fresh translator holds no text and is in the initial state |
| Translator.AnthropicToResponses.Push | src/openai.rs:708-723 | renders exactly the events up to the last blank line of everything held, and keeps the rest |
| Translator.AnthropicToResponses.Finish | src/openai.rs:725-741 | renders what is held, then completes if there is something to deliver, fails if the stream had started, and is silent otherwise |
| Translator.AnthropicToResponses.OnFail | src/openai.rs:747-763 | announces the response if needed, then one failure and the closing mark; nothing once closed |
| Translator.AnthropicToResponses.OnText | src/openai.rs:1069-1110 | the first piece opens the one message under the next free index; later pieces go to it |
| Translator.AnthropicToResponses.OnThinking | src/openai.rs:820-834 | reasoning takes the next free index with its first piece and keeps it |
| Translator.AnthropicToResponses.OnCompactionText | src/openai.rs:1116-1147 | a compaction piece grows the stored item and is streamed under its id and index |
| Translator.AnthropicToResponses.OnArguments | src/openai.rs:848-893 | an argument piece goes to the tool of its block, or to the latest one, and grows that stored call |
| Translator.AnthropicToResponses.OnBlockStart | src/openai.rs:894-1006 | a compaction or tool block takes the next free index, is announced, stored, and given its initial content |
| Translator.AnthropicToResponses.OnMessageStart | src/openai.rs:804-816 | records the model and usage and announces the response |
| Translator.AnthropicToResponses.OnKeepalive | src/openai.rs:1044-1063 | a ping announces the response if needed and reports it in progress |
| Translator.AnthropicToResponses.CloseCompactionItem | src/openai.rs:1149-1206 | closes the compaction item once, with its whole text |
| Translator.AnthropicToResponses.CloseItems | src/openai.rs:1238-1321 | closes the message and every stored item that is still open, in storage order |
| Translator.AnthropicToResponses.FinalItems | src/openai.rs:1340-1407 | the terminal output: reasoning, message and stored items sorted by output index and running order |
| Translator.AnthropicToResponses.OnComplete | src/openai.rs:1208-1236 | closes everything, then completed or incomplete with the terminal output, and the closing mark |
| Translator.AnthropicToResponses.AllocateOutputIndex | src/openai.rs:1453-1457 | hands out the next index and moves on by one |
| Translator.AnthropicToResponses.EnsureReasoningOutputIndex | src/openai.rs:1459-1466 | allocates the reasoning index once |
| Translator.AnthropicToResponses.Emit | src/openai.rs:1475-1488 | numbers the event and advances the sequence number by one |
| Translator.AnthropicToResponses.OnEvent | src/openai.rs:795-1067 | every decoded event has exactly the effect of the specified step |
| Chunking.ChunkingIndependence | src/openai.rs:708-741 | for any chunks, all pushes followed by finish send what rendering the events of the concatenated text and wrapping up sends |
| Chunking.SameBytesSameFrames | src/openai.rs:708-741 | two cuts of the same bytes give the same frames and state |
| Chunking.RenderIsRun | src/openai.rs:795-803 | rendering wire events is running what they decode to; undecodable text is skipped |
| Chunking.FinishReadsTheRest | src/openai.rs:725-741 | finish sends what the held text sends with a blank line behind it, then wraps up: an event cut off without its blank line is not lost |
| EventFacts.RunReflects | src/openai.rs:795-1451 | over every run of an open stream: each usage counter is the last value a message_start or message_delta named for it, or its start value; the model is the last one named, the stop reason the last non-empty one, text and thinking the joined pieces; and whether it has started, was pinged or has anything to deliver is read from the events alone |
| EventFacts.StoppedStream | src/openai.rs:1208-1236 | a stream stopped by message_stop, whatever follows, ends in completed, or incomplete for max_tokens, with the last named model and the totals of the last named counters, input counting cache reads and creations; its output holds the joined text and thinking |
| EventFacts.FailedStream | src/openai.rs:747-763 | a stream ended by an error event ends in failed with its kind and message, `api_error` and `upstream error` where it names none, with the model, totals and output so far |
| EventFacts.CutOffStream | src/openai.rs:725-741 | a stream cut off: no terminal event before it has started; then completed or incomplete if any text, reasoning, compaction or call came, text or reasoning alone included, else failed |
| Keepalive.StartSays | src/openai.rs:804-816 | message_start announces the response with the model and usage named so far, its own included, and no output |
| Keepalive.PingSays | src/openai.rs:1044-1063 | a ping reports the response in progress with the model and usage named so far, listing the stored items as they stand, which are those announced, the message aside, in order; it announces first only if nothing has begun |
| ClosingOrder.ClosesInOrder | src/openai.rs:1238-1321 | message_stop closes the message first if there is one, then exactly what a ping would list as in progress, in that order |
| Terminal.SingleTerminal | src/openai.rs:708-798 | over every sequence of push, finish and fail calls: at most one terminal event, the closing mark at once behind it and nothing after, exactly one after a finish if the stream started, sequence numbers 0, 1, 2, ... |
| Terminal.StepShape | src/openai.rs:795-1067 | every event either goes on or ends the stream, and which is decided by its kind; numbering has no gap |
| Announcement.RunAnnounces | src/openai.rs:747-1063 | every run of an open stream announces the response exactly once for each message_start that reaches it, and once more when a ping or an error reaches it unannounced |
| Announcement.AnnouncedOnceExactly | src/openai.rs:747-1063 | a new stream, ended or cut off, announces the response at most once if and only if at most one message_start reaches it and no ping comes before that one; never, exactly when neither it nor a ping or error reaches it |
| PeekLoop.Serve | src/server.rs:794-877 | for any body and any deadline, at the first step after which the status is known, output or a keepalive has been seen, the deadline has passed or the body is over: the 4xx of that state if it has one; otherwise the stream, begun with what was gathered, prelude and tail together being the unpeeked translation of the whole body |
| PeekLoop.OneDecision | src/server.rs:794-877 | there is one such step |
| PeekLoop.Drain | src/server.rs:833-870 | the tail stream sends exactly the translation of the rest of the body |
| PeekSafety.RefusalIsBeforeOutput | src/openai.rs:771-787 | when a body leads to a refusal after some step, its status is in 400..499 and no frame gathered so far carries text, reasoning or a call |
| PeekLoop.CleanBodyIsWhole | src/server.rs:801-870 | a body that ends cleanly is translated like one text |
| PeekStatus.ErrorIsAnswered | src/openai.rs:771-787 | from the body: if its first ending event is an error, nothing deliverable came before it and no ping in an earlier step, and the deadline leaves room, the answer is its status where that is a 4xx: the classification of 429, 401, 403, 400 or 404 for the five kinds and of classify(502, message) for any other; else a stream |
| PeekStatus.BrokenIsAnswered | src/server.rs:794-877 | a body that breaks off before anything has happened is answered by the classification of 502, where that is a 4xx, else by a stream |
| PeekStatus.EmptyIsAnswered | src/openai.rs:725-741 | a body that ends with nothing to deliver is answered so too if the stream had started, and by a stream otherwise |
| PeekStatus.AliveIsStreamed | src/openai.rs:789-793 | output, a ping in a step without an ending event, or the deadline passing in silence: the answer is a stream, and it is the whole body translated |
| Ledger.AddedHasOneDone | src/openai.rs:1149-1206 | in a trace the observer accepts, up to its completion, every added item has exactly one later done event with its index and id |
| Ledger.CompletedHasOneDone | src/openai.rs:1208-1236 | the same with the closing mark behind the completion |
| Lifecycle.TextStep | src/openai.rs:1069-1110 | text keeps the translator and an observer that knows only the outgoing stream in agreement |
| Lifecycle.ArgumentsStep | src/openai.rs:848-893 | argument pieces keep them in agreement |
| Lifecycle.StartToolStep | src/openai.rs:935-1006 | a tool start with a new id keeps them in agreement |
| Lifecycle.StartCompactionStep | src/openai.rs:896-934 | a compaction start while none is open keeps them in agreement |
| Lifecycle.CloseCompactionStep | src/openai.rs:1020-1031 | stopping the open compaction block keeps them in agreement |
| Closing.CloseAllStep | src/openai.rs:1238-1321 | closing everything leaves every index closed under its own item, whole |
| TerminalOutput.FinalOutputIsWhole | src/openai.rs:1340-1407 | the terminal output is exactly the done items and non-empty reasoning, index by index |
| Completion.StepLinked | src/openai.rs:795-1067 | every admitted event that does not end the stream keeps translator and observer in agreement |
| Completion.LifecycleAccepted | src/openai.rs:708-1407 | for every well-formed stream, ended or cut off: indexes are allocated consecutively from 0, every piece belongs to an open item, done events carry exactly what was streamed, nothing stays open, and the terminal output is the done items in index order with at most one reasoning item |
| Completion.EveryAddedIsDone | src/openai.rs:894-1321 | in positions: when a well-formed stream completes, each added item has exactly one done event, later, before the completion, same index and id |
| SortByIndex.SortedIsBuckets | src/openai.rs:1396-1407 | with running orders, sorting by index and order is going through the indexes one by one |
| ToolRouting.StepHeld | src/openai.rs:848-893 | one event grows a given call by exactly the piece it carries for that call's block |
| ToolRouting.ToolArguments | src/openai.rs:848-1006 | in a well-formed stream of any interleaving, ended by message_stop or cut off once started, the completed call of a tool block holds its start input followed by exactly the pieces that belong to it, in order: those of its index while it is the last block with that index, and those that name no tool block while it is the latest one |
| ToolRouting.InitialIsStartInput | src/openai.rs:935-1006 | a start input counts unless it is nothing, `{}` or `null` between blanks |
| ToolRouting.OrphanPiece | src/openai.rs:848-893 | an argument piece before any tool block goes out under the first made-up id and changes nothing else |
| CompactionText.CompactionsAreWhole | src/openai.rs:894-1206 | in a well-formed stream, stopped or cut off once started, every compaction block comes out as a completed message of its start content followed by the pieces up to its stop |
| CallArguments.ArgumentsAreTheirPieces | src/openai.rs:848-1407 | in every well-formed stream, completed, failed or cut off, each call of the terminal object holds exactly the argument pieces sent under its item id, joined in order |
| RepeatedCalls.RepeatedCallIsRefused | src/openai.rs:935-1321 | a stream in which two tool blocks end up with one item id, whatever else it holds, is refused by the observer once it is completed, by message_stop or by being cut off after it started |
| Buffered.AllBlocks | src/openai.rs:1541-1620 | playing the blocks of any object, whatever ids its calls have, keeps the state on the plan that reads the same blocks without a translator: the first call of an id collects every input, and an id answers with the last place it has |
| Namesakes.GatheredIsMeaning | src/openai.rs:1340-1407 | items gathered by id at the last place of the id are the planned items in place order if and only if, of the calls that share an id, only the first has input and nothing else comes out between them |
| WholeMessage.TrackedOutput | src/openai.rs:1340-1407 | the terminal output of a state on the plan is the plan gathered by id |
| WholeMessage.DistinctIsHarmless | src/openai.rs:1541-1620 | objects whose calls end up with different ids meet that condition |
| WholeMessage.ObjectKeepsMeaning | src/openai.rs:1520-1637 | the played object gives one terminal response with its model, status and usage; its output is the object's meaning if and only if, of the calls that share an id, only the first has input and no other item comes out between them |
| Wire.MessageToSse | src/openai.rs:1520-1637 | the writer emits exactly the encoded events of the object, in order |
| Wire.TerminalResponse | src/openai.rs:1639-1660 | the reader returns the last terminal event among the blocks of the text |
| Wire.SplitBlankMeaning | src/openai.rs:1639-1660 | the blocks it reads hold no blank line, and joined by blank lines they are the text |
| Wire.PicksLast | src/openai.rs:1639-1668 | read back from emitted bytes, that is the last terminal frame |
| Wire.MessagesJsonToResponses | src/openai.rs:1491-1518 | end to end: one response with the object's model, status and usage, whose output is its meaning if and only if calls that share an id do no harm; the fallback is never reached |
| Wire.NamesReadBack | src/openai.rs:1520-1637 | read back, a written object names its events message_start, content_block_start, _delta and _stop by their kind, message_delta and message_stop, and carries them |
| Glob.GlobMatches | src/config.rs:1132-1162 | the loop that backtracks to the latest star terminates, is sound for every text, and for a text without a star is exactly the recursive meaning |
| Glob.ScanMeaning | src/config.rs:1132-1162 | the loop's value is sound for every pattern and text, and complete for texts without a star |
| Glob.ScanAgreesExactly | src/config.rs:1142-1145 | the loop agrees with the meaning on all patterns if and only if the text holds no star |
| Glob.MissedMatch | src/config.rs:1142-1145 | for every text with a star, a pattern that should match and does not |
| Glob.LiteralMatches | src/config.rs:1132-1162 | a pattern without wildcards matches only itself |
| Models.FixedExactlyWhenPlain | src/config.rs:1078-1110 | the fixed points of normalisation are the ids that are trimmed, lower case, without context size, context marker and wrapper |
| Models.OneWrapperPerCall | src/config.rs:1103-1109 | one call takes one wrapper off |
| Models.OneCallIsEnough | src/config.rs:1078-1110 | for every id, normalising its normal form again changes nothing if and only if that form ends in no context size, has no context marker and is not wrapped; otherwise the second call shortens it |
| Models.NormalIsTrimmedAndLow | src/config.rs:1078-1110 | every normal form is trimmed and without capitals |
| Models.NotIdempotent | src/config.rs:1078-1110 | a doubly wrapped id keeps one layer per call |
| ModelSpellings.NormalIffSpelled | src/config.rs:1078-1110 | a text is normalised to a given plain id if and only if it is a way to write it: any case, at most one of the four wrappers in front, a context marker in words and a context size behind, blanks anywhere but between the two |
| ModelSpellings.NormalIsSpelled | src/config.rs:1078-1110 | every text is such a way to write its normal form: nothing else is dropped |
| Models.SandPatternMatches | src/config.rs:1171-1182 | a rule matches an id or the id without its preview marker; a literal rule only those two spellings |
| Grok.CounterpartInvolution | src/config.rs:1193-1211 | on normalised ids the counterpart is normalised, different, and has the id as its counterpart |
| Grok.SandMeaning | src/config.rs:972-995 | a policy answers by its patterns on the normalised id and its counterpart, and by nothing else |
| Grok.SandAgreesExactly | src/config.rs:972-995 | for every id with a counterpart, every policy gives the id and its counterpart the same answer if and only if one call has normalised the id for good |
| Grok.TierCandidates | src/config.rs:586-682 | the candidates of an explicit tier are exactly that tier and the bare family, in both namespaces |
| Grok.BareCandidates | src/config.rs:586-697 | the candidates of a bare family are exactly the id, the family and the default tier, in both namespaces |
| Grok.TiersStayApart | src/config.rs:586-682 | read back independently, a candidate of an explicit tier is that tier or the bare family of the same version and presentation, never another tier |
| Grok.CounterpartHasSameCandidates | src/config.rs:586-682 | an id and its counterpart have the same candidates |
| GrokSpellings.CounterpartIsSpelled | src/config.rs:1193-1211 | written out: with a version of digits and dots, the counterpart exchanges `grok-` and `cursor-grok-` and keeps the rest |
| GrokSpellings.CounterpartOnlyOfNumbered | src/config.rs:1193-1211 | no other id has a counterpart |
| GrokSpellings.TierList | src/config.rs:586-682 | written out in order: the candidates of an explicit tier are the id, that tier in the other namespace, the bare family in both |
| GrokSpellings.BareList | src/config.rs:586-697 | written out in order: those of a bare family are the id, the other namespace, the default tier in both |
| GrokSpellings.DashList | src/config.rs:586-697 | those of a version with a dash and nothing behind it, written out in order |
| GrokSpellings.OtherwiseAlone | src/config.rs:586-640 | any other id is its only candidate |
| AccountRoutes.NewPolicy | src/config.rs:325-350 | the built list has one rule per normalised model, and for each model the account of the last usable rule |
| AccountRoutes.LastWins | src/config.rs:325-350 | of the rules for one normalised model the last one wins |
| RouteEdits.CleanMeaning | src/config.rs:325-339 | a rule is used exactly with its normalised model and what stands between the blanks of its account, if neither is empty |
| RouteEdits.BuiltInOrder | src/config.rs:325-350 | a built list holds one rule for each model that has a usable one, in the order of their first usable rules, however often a model comes again |
| AccountRoutes.ResolveModel | src/config.rs:455-505 | the candidate loops compute the specified chain, resolution left open |
| AliasCandidates.AliasesMeaning | src/config.rs:455-489 | for every resolver: the aliases are, in order and once each, the id, the id without its preview marker, what the resolver says of that, what it says of that in turn, and the two Fable names if one of these is of the family |
| AliasCandidates.FableMeaning | src/config.rs:1041-1075 | the Fable family is its two names and the longer one followed by words of a fixed list |
| AliasCandidates.CandidatesMeaning | src/config.rs:490-505 | a candidate is an alias or a route spelling of one, and nothing else is |
| AliasCandidates.AliasIsCandidate | src/config.rs:470-481 | what the resolver leads to in one step or two is a candidate |
| AliasCandidates.AliasIsRouted | src/config.rs:508-566 | a lone literal rule for what an alias leads to answers for the alias |
| RouteEdits.CandidatesInOrder | src/config.rs:455-505 | the candidates in order, each where it comes up first: the known ids, the Fable names, then the spellings of each of these in turn |
| AccountRoutes.EquivalentModels | src/config.rs:394-411 | both presentations of every candidate are added |
| RouteEdits.EquivalentMeaning | src/config.rs:394-411 | an edit regards exactly the candidates, these without their preview marker, and these with it |
| RouteLookup.AccountForModel | src/config.rs:508-566 | the account of the one matching rule whose score no other matching rule reaches, or none if nothing matches; the early exit changes nothing, for lists with repeated models too |
| RouteLookup.DirectIsFinal | src/config.rs:553-560 | after a direct literal match no later rule can win |
| RouteLookup.OneWinner | src/config.rs:540-552 | two rules never win at once |
| RoutePreference.WinnerComesFirst | src/config.rs:508-566 | said without scores, the winner is the matching rule before all others: the one naming the id itself, then those without wildcards, then the earlier first matching candidate, then the longer pattern, then the earlier rule |
| RoutePreference.LookupPrefers | src/config.rs:508-566 | a lookup answers with the account of that rule, and with nothing exactly when no rule matches |
| RouteLaws.WithModelAssignment | src/config.rs:416-449 | the edit builds the specified list |
| RouteLaws.SetLawExactly | src/config.rs:416-449 | for a literal normalised id and any rule list, the lookup after setting answers with the last kept rule that normalises to the id, so with the assigned account if and only if no kept rule does so under another account |
| RouteLaws.SetLaw | src/config.rs:416-449 | in a settled list the lookup after setting answers with the assigned account |
| RouteLaws.ClearLaw | src/config.rs:416-449 | in a settled list, after clearing, the lookup is that of the wildcard rules alone |
| RouteClearing.ClearLawExactly | src/config.rs:416-449 | for a literal id and any rule list, after clearing, the winner is that of the wildcard rules alone if and only if no kept rule normalises to a literal that matches a candidate; otherwise such a literal wins |
| RouteClearing.NewSettledExactly | src/config.rs:325-350 | building a built list again changes nothing if and only if the normalised model of every usable rule is a fixed point of normalisation |
| RouteLaws.WildcardsSurvive | src/config.rs:421-433 | both edits keep all wildcard rules in order and keep the list settled |
| RouteLaws.ClearUndoesSet | src/config.rs:416-449 | clearing after setting leaves what clearing alone leaves |
| RouteEdits.EditIsExact | src/config.rs:416-449 | in a settled list and for every normalised id, wildcard or not, an edit removes exactly the rules of its target, keeps the others in their order, and puts the new rule in front |
| WorkerPool.ActIsSafe | src/main.rs:639-655 | every action of every worker keeps: indexes started are 0, 1, 2, ... once each; each started one is in one hand or once in the channel; results belong to their items |
| WorkerPool.RunIsSafe | src/main.rs:639-655 | so does every schedule, with never more workers than the ceiling |
| WorkerPool.EveryRunEnds | src/main.rs:639-655 | every schedule is over after exactly three actions per item and one per worker, and until then every worker left can act |
| WorkerPool.OverHasAll | src/main.rs:656-663 | when all workers are gone the channel holds every index exactly once |
| WorkerPool.Collect | src/main.rs:656-670 | writing results by index leaves no place empty and gives them in input order |
| WorkerPool.RunBoundedOrdered | src/main.rs:628-671 | under an arbitrary scheduler the results are those of the tasks, in input order |
| WorkerPool.CeilingIsMet | src/main.rs:628-655 | no schedule has more tasks running than items and ceiling allow, a ceiling of 0 counting as 1, and some schedule has that many running at once |
| Sessions.SessionStore.ExistingSession | src/session.rs:33-43 | a live session is returned, an idle one forgotten |
| Sessions.SessionStore.RecordSessionRequest | src/session.rs:49-90 | the session moves to the back with its next number and affinity, then the table is cut to its limit from the front |
| Sessions.StoreValid | src/session.rs:76-87 | recording keeps order and map in agreement without duplicates and at most 10000 long, and drops at most the front id, never the one recorded |
| Sessions.EveryRunIsOrdered | src/session.rs:33-90 | in every interleaving of lookups and records the table is valid and its order is that of the last records |
| Sessions.EvictsLeastRecent | src/session.rs:82-87 | an evicted id was recorded before every id that stays |
| Sessions.ForgottenStaysAway | src/session.rs:33-43 | once a lookup finds nothing, no later one finds anything, by whatever clock, until the id is recorded again |
| Sessions.GrowsByOneExactly | src/session.rs:58-64 | with anything between a lookup and its record, the number grows by one if and only if the stored number is still the one seen |
| Sessions.PairedGrowsByOne | src/session.rs:33-90 | with no other record of the id in between and the session kept, it grows by exactly one |
| Sessions.OverlapRepeats | src/session.rs:58-64 | two records of one lookup repeat the number |
| SessionChains.StaysWithTheRecent | src/session.rs:33-90 | after any requests, an id is in the table if and only if it was requested and fewer than ten thousand other ids were requested since |
| SessionChains.SessionIsItsChain | src/session.rs:33-90 | after any requests by any clock, a lookup finds the chain of the id's requests back to the first one more than half an hour, or ten thousand ids, behind the one before it: its number is their number, its affinity the last of codex, kimi and cursor one of them named by a model of its own, last seen with the last of them |
| Metrics.LabelledBounded | src/monitor/metrics.rs:62-76 | a label map never exceeds 256 values and the overflow one, none longer than 96 bytes |
| Metrics.ObservedAddsUp | src/monitor/metrics.rs:33-42 | histogram buckets add up to the count |
| Metrics.FinishedConsistent | src/monitor/metrics.rs:159-192 | outcomes, durations, codes and each kind of label stay equal in number |
| MonitorCounts.StepCounts | src/monitor/metrics.rs:112-192 | every event moves exactly the counters that are said to count it |
| MonitorCounts.CountersMeanWhatTheySay | src/monitor/metrics.rs:112-192 | over every run from an empty monitor the three outcome counters are the active requests completed, failed and abandoned, the two started counters the requests started by endpoint, the retries the retrying phases of active requests, and the code counters the endings and upstream errors of each code |
| MonitorCounts.LabelsExactly | src/monitor/metrics.rs:62-76 | over every run, whatever the names, each provider, model, client and account label counts the ended requests whose name is shown as it, a name longer than 96 bytes or new after 256 being shown as `__other__` |
| PhaseTimes.OneMoreSaid | src/monitor/metrics.rs:33-60 | observing keeps sum, count and, for each exported bound, the buckets up to it equal to the number of samples up to it |
| PhaseTimes.HistogramsSayTheTimes | src/monitor/metrics.rs:120-192 | over every run the five histograms say exactly the times the events tell: in the queue, opening, to the first bytes, from the first bytes to the end, and of the whole request |
| MonitorStore.MetricsStore.PhaseChanged | src/monitor/metrics.rs:120-138 | leaving a phase stops its timer, entering queued or opening starts one, a repeated phase changes nothing |
| MonitorStore.MetricsStore.StreamProgressed | src/monitor/metrics.rs:140-153 | the first bytes are observed once and phase timers stop |
| MonitorStore.MetricsStore.RequestFinished | src/monitor/metrics.rs:159-192 | one outcome with its code, duration, running timers and labels |
| MonitorStore.MonitorStore.Finish | src/monitor.rs:1069-1172 | the end of a request moves it to the recent rows, counts it if it was active, hands on its tokens, and does nothing for a completion that is overruled |
| MonitorStore.MonitorStore.NoteLate | src/monitor.rs:899-1005 | a late report updates its row in place and hands on what it adds |
| MonitorStore.MonitorStore.RecordSessionOutput | src/monitor.rs:1183-1223 | prunes when due, evicts only when full, and adds the sample to its bucket |
| MonitorStore.MonitorStore.EvictUnlistedSessionOutput | src/monitor.rs:1233-1251 | the session dropped is not shown, and none that is not shown is older; none is dropped if all are shown |
| MonitorStore.MonitorStore.Apply | src/monitor.rs:751-1046 | every event has exactly the effect of the specified step, on rows, metrics and history |
| RequestReading.ActiveIsRead | src/monitor.rs:751-1046 | after any run an active request is exactly what its last start and its events since tell: session, endpoint, marks, phase, bytes, chunks, counts, when output was measured, and the timers |
| RequestReading.RowIsRead | src/monitor.rs:1069-1172 | a request that ends leaves in front of the recent rows exactly what its events tell, with the status, code, error and final counts of its end |
| LateRows.RowIsReadLate | src/monitor.rs:899-1005 | once over, and as long as it is on record, a row adds up the bytes and chunks that come late and takes the counts and client type named last |
| LateRows.UnknownEnd | src/monitor.rs:1069-1172 | the completion or failure of a request that is not active leaves a bare row with its status, code, error and counts, hands on its tokens to no session, and counts nothing; a completion behind a failure on record, and an abandonment, do nothing |
| LateRows.GuardLeavesRow | src/server.rs:1685-1717 | a guard leaves for its active request a row with the code it was told first, with the error if it was told of one, or the abandonment of a dropped stream |
| LateRows.TokensAtTheEnd | src/monitor.rs:1069-1172 | the end of an active request hands its final output count to the session it was started for, as of the end |
| MonitorBooks.StepBalanced | src/monitor.rs:751-1046 | every event keeps the books: started requests, outcomes, timers, first bytes |
| MonitorBooks.OutcomesConserved | src/monitor.rs:751-1172 | over every run, started requests are the active ones plus the counted outcomes if and only if no active id was started again; durations, codes and labels equal the outcomes |
| MonitorBooks.TimersConserved | src/monitor/metrics.rs:120-191 | over every run, timers run exactly in their phases; entries into a phase are the observed waits plus running timers if and only if no event restarted a request with that timer running, first bytes are the stream lifetimes plus active requests with one if and only if none restarted such a request; otherwise they are more |
| RequestOutcomes.OutcomeWhenRemoved | src/monitor.rs:1069-1172 | an outcome is counted exactly when an active request goes, and it alone goes |
| RequestOutcomes.GuardLife | src/server.rs:1685-1717 | a guard publishes one event over its life, whatever it is told |
| RequestOutcomes.GuardCountsOnce | src/server.rs:1427-1445 | that event counts one outcome for its active request, completed or failed as the guard was told first, abandoned if it was told nothing, unless a completion meets a failure on record |
| RecentRows.StepUnique | src/monitor.rs:1069-1172 | after an event on unique rows the rows are unique if and only if it does not end a request whose id has a row in a place the new row leaves on record |
| RecentRows.UniqueThroughout | src/monitor.rs:751-1172 | over every run the rows are unique all along if and only if no event does that |
| RecentRows.LateFailureAddsRow | src/monitor.rs:1069-1172 | such an event: a failure after a completion adds a second row with the same id and no second outcome |
| TokenHistory.StepTelescopes | src/monitor.rs:887-1005 | one event hands on what it adds to the recorded count, apart from what a late report drops |
| TokenHistory.TokensTelescope | src/monitor.rs:887-1172 | the tokens a request hands on are its final output count if and only if no late report names a count below the one on record, however reports fall around the one terminal event |
| TokenHistory.RisingIsExact | src/monitor.rs:887-1172 | with reported counts that never fall they are exactly its final output count |
| OutputHistory.RecordedFaithful | src/monitor.rs:1183-1223 | recording by a clock that does not go back keeps the history bounded and faithful |
| OutputHistory.HistoryIsFaithful | src/monitor.rs:1183-1251 | in every run: at most 4096 sessions, every vector strictly increasing with at most 360 buckets, and in the window every bucket is the sum of the accepted samples since the session was last evicted |
| OutputHistory.UpdatedIsExact | src/monitor.rs:1217-1223 | a session just updated holds nothing else |
| OutputHistory.ShownIsSpared | src/monitor.rs:1233-1251 | eviction leaves every shown session its buckets |
| HistoryMeaning.ChartIsExact | src/monitor.rs:1183-1223 | as long as at most 4096 sessions have reported, in the last hour each session holds for every ten seconds exactly the tokens reported for it, a stamp in the future counting when it is reported |
| HistoryMeaning.NothingStale | src/monitor.rs:1193-1199 | no session keeps anything an hour and a minute old |
| HistoryMeaning.RecordedExactly | src/monitor.rs:1183-1251 | in every run one recording either changes nothing but what pruning takes, exactly when there is nothing to add, it is an hour old or 4096 shown sessions fill the table, or adds exactly its tokens where they count, drops another session only when 4096 are kept, and leaves the rest |
| HistoryMeaning.EvictsTheQuietest | src/monitor.rs:1233-1251 | a session is evicted only when 4096 are kept, is not shown, and has been quiet at least as long as any other that is not shown |
| HistoryMeaning.MonitorChartIsExact | src/monitor.rs:751-1223 | the same of a monitor, whatever events it applies by a clock that does not go back |
| HistoryRuns.EventsRecordOrderly | src/monitor.rs:751-1251 | every run of monitor events by a clock that does not go back is an orderly run of recordings: of the samples the events hand on, in order, with the sessions shown at the time |
| HistoryRuns.MonitorHistoryIsFaithful | src/monitor.rs:751-1251 | so the history of a monitor is bounded and faithful after every such run of events |
| HistoryRuns.ShownKeepsBuckets | src/monitor.rs:1183-1251 | while an event is recorded a session shown in the active or recent rows loses nothing but what pruning takes |

## Left out

- Protocol.Item: content parts other than one output text, and annotations, carry nothing the translator changes.
- UTF-8 decoding with replacement characters: bytes and characters coincide here.
- HTTP serving, response headers, time-outs and the transport: the body is a list of frames that may break off.
- TranslatorSpec.Step: error classification by substrings of a message is a parameter of `PeekLoop`.
- `created_at` and the other constant fields of the emitted JSON.
- AccountRoutes.ResolvedCandidates: which id an alias resolves to is an arbitrary function, so nothing is claimed about particular aliases.
- Registry resolution (`matches_model`), `matches_direct`, configuration files, environment parsing and the terminal interface.
- RouteLaws.SetLaw: the lookup laws are for literal ids; what assigning to a wildcard row does to the list is said by `RouteEdits.EditIsExact`.
- Monitoring.Apply: the project, session number and capture path events only set a field that nothing here reads; the effort of a request and the text of an account's usage are not kept.
- Monitoring.Progressed: throughput rates and durations of generation, only when it began and last ended.
- Metrics.Observed: durations are exact nanoseconds where the code compares floating-point seconds.
- Session summaries and Prometheus text.
- WorkerPool.Act: a task that panics; the code lets the panic through.
- Affinity lookups outside the session table, and the rest of the session module's test helpers.
- Media proxying, log redaction, traffic capture and credential storage.
