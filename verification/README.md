# A verified model of the protocol bridge

The program stands between a client that speaks Anthropic Messages and an
upstream that speaks OpenAI Responses. This project models the logic of that
bridge in Dafny and proves what it is for:

* **the stream converter** and **the accumulator**, two implementations of one
  meaning, as the classes they are; the stream's grammar over every event
  sequence; and that both give the client the same message on every well-formed
  lifecycle;
* **the two response handlers** as loops over whatever the upstream body brings;
* **server-sent events** down to the buffered line reader, against section 9.2.6
  of the HTML Living Standard, "Interpreting an event stream";
* **request conversion and normalisation**: idempotence and normal form, and the
  pairing of tool calls with their results from the client to the wire;
* **token refresh** by any number of threads around one lock, and the **cache of
  continuation states** against its history.

Each stateful piece has two parts. Functions say what one step does to a value;
the class's methods, which follow the statements of the source, are proved to do
exactly that; lemmas then prove what the source promises about those functions,
over every run.

## Reading guide

| file | subject |
|---|---|
| Text, Protocol | strings as Go sees them; the two wire vocabularies |
| Blocks | Responses output to Anthropic blocks; stop reason; usage |
| Converter, Client, Grammar | the stream converter; a client that reassembles its stream; what ties the two together in every run |
| Accumulator, Accumulation | the accumulator; what its result depends on |
| Outcomes, Chunking | success and failure across both pipelines; how deltas are cut |
| Endings, Collected | how a response begins, fails and ends, in the fields of its events; what one event adds to a collected item |
| Lifecycle, StreamAgreement, BufferedAgreement, Agreement | well-formed lifecycles and their meaning; both pipelines give it |
| Handler, HandlerOutcome | the two response loops; what the client receives |
| WireNames, Wording | event names; what a client is told when things go wrong |
| Sse, SseStandard, SseRoundTrip | line reader, decoder, encoder; the standard and the size limit; round trip |
| Exchange | from the bytes of a body to what the client is sent |
| Transform, Normalisation, SentRequest | request normalisation; normal form and idempotence; the request sent, field by field |
| Requests, Conveyed | messages to input items; what both say |
| Pairing, SentInput, Replay | call/result pairing; the input read back from the JSON sent; the agent loop |
| TokenManager, TokenSafety, TokenChain, TokenLifetime | refresh as interleaved steps; one refresh per rejected token; the chain of refresh tokens; lifetimes |
| TurnState | the expiring cache and its history |

Conventions. A wire name with a meaning is a constructor and any other name is
carried by an `Other…` or `Named` one. Text is a sequence of code points, with
`Text.ByteLen` for Go's `len`; server-sent events are modelled on bytes. JSON text
facts the program relies on (is a text a JSON object, how is a string quoted, what
does a payload decode to) and the SHA-256 digest are parameters, so every theorem
holds for all of them. A negative content or summary index makes the Go program
panic; the model gives a sticky error `IndexOutOfRange`.

Where the code and a general expectation part, the code is kept and the difference
stated exactly, for all inputs and with an input that shows it:

* `Transform` is not idempotent on every request. A function tool whose name is
  there but blank, beside a nested function with a name, is kept the first time and
  dropped the second (`Normalisation.TwiceIsOnce` says it is the only such case).
* The byte order mark of a long first line counts towards the size limit while the
  line is being read in pieces, though not afterwards (`SseStandard.BomRefusalExactly`).
* A CR that no LF follows ends a line for the standard only (`SseStandard.LinesAgree`).
* A negative part index ends a buffered exchange in a panic and a streamed one not at
  all (`Outcomes.SuccessTransfers`).
* After a rotated refresh token could not be saved, the next refresh presents the old
  one (`TokenChain.RefreshesPresentTheLatest`).

## Model

| member | source | states |
|---|---|---|
| Blocks.ResponseOutputToBlocks | internal/protocol/responses_to_anthropic.go:61-109 | appends, item by item, exactly the blocks `OutputBlocks` gives, or stops at the first bad function call with its index; reports a tool iff a tool block is there |
| Blocks.ResponsesToAnthropic | internal/protocol/responses_to_anthropic.go:29-59 | nil and failed responses are errors; otherwise the blocks (one empty text if none), the model label, stop reason and usage |
| Blocks.BadItemIsFirst | internal/protocol/responses_to_anthropic.go:86-90 | the error reported for an output is that of its first bad function call, whatever follows |
| Blocks.OutputBlocksAppend | internal/protocol/responses_to_anthropic.go:61-109 | the blocks of two outputs put together are their blocks put together |
| Client.CompleteIffSentence | internal/protocol/responses_to_anthropic_test.go:396-440 | the reassembling client completes on exactly the event sequences `message_start (start delta* stop)* message_delta message_stop` with indices 0, 1, 2, … and deltas fitting their block |
| Client.UnbrokenIffPrefix | internal/protocol/responses_to_anthropic_test.go:396-440 | it is unbroken on exactly the prefixes of such sentences |
| Client.SentenceCompletes | internal/protocol/responses_to_anthropic_test.go:396-440 | on a sentence it ends holding the assembled blocks, stop reason and usage |
| Converter.ResponsesStreamConverter.Process | internal/protocol/responses_to_anthropic.go:210-260 | the fields after an event, the events returned and the error are those of `Step`, for every event kind and in every state |
| Converter.ResponsesStreamConverter.Finalize | internal/protocol/responses_to_anthropic.go:264-269 | the recorded outcome of a terminal converter, a missing-terminal error otherwise |
| Converter.ResponsesStreamConverter.HandleItemAdded | internal/protocol/responses_to_anthropic.go:307-353 | closes the active block unvalidated and opens a tool or reasoning block with the next index; other items only start the message |
| Converter.ResponsesStreamConverter.HandleFragment | internal/protocol/responses_to_anthropic.go:355-383 | a text or reasoning delta extends the active block of its own item and kind or begins one |
| Converter.ResponsesStreamConverter.HandleTextDone | internal/protocol/responses_to_anthropic.go:385-410 | late text is emitted once, then an active text block is closed |
| Converter.ResponsesStreamConverter.HandleReasoningDone | internal/protocol/responses_to_anthropic.go:501-512 | late reasoning text is emitted only into an untouched thinking block |
| Converter.ResponsesStreamConverter.HandleToolDelta | internal/protocol/responses_to_anthropic.go:412-430 | buffers and, unless custom, forwards the delta; a mismatch fails the converter |
| Converter.ResponsesStreamConverter.HandleToolDone | internal/protocol/responses_to_anthropic.go:432-469 | emits the whole input once, validates arguments, closes the block; mismatch and bad arguments fail |
| Converter.ResponsesStreamConverter.HandleItemDone | internal/protocol/responses_to_anthropic.go:514-543 | closes the matching block with its signature or input; a mismatch fails |
| Converter.ResponsesStreamConverter.CloseBlock | internal/protocol/responses_to_anthropic.go:597-616 | stops the active block, after a signature delta if its signature is not blank, and counts it |
| Converter.ResponsesStreamConverter.HandleTerminal | internal/protocol/responses_to_anthropic.go:545-595 | failure, full output from scratch or closing of the active block; then `message_delta` and `message_stop` |
| Converter.StreamFullOutput | internal/protocol/responses_to_anthropic.go:624-661 | streams every block with consecutive indices as its start, deltas and stop |
| Converter.StreamOneBlock | internal/protocol/responses_to_anthropic.go:630-659 | one block is its emptied start, the deltas of its non-empty parts and its stop |
| Grammar.EveryRunTied | internal/protocol/responses_to_anthropic.go:288-616 | after every event sequence the converter's fields and the client's state describe one message: an active block is the open one with index `nextBlockIndex`, it and `sawContent` imply a started message, `hasTool` tells whether the client holds a tool |
| Grammar.StreamGrammar | internal/protocol/responses_to_anthropic.go:210-616 | for every event sequence the emitted events are a prefix of a sentence; they are a whole sentence iff `Finalize` succeeds, iff `message_stop` was emitted, iff `message_delta` was |
| Grammar.TerminalOnlyStreaming | internal/protocol/responses_to_anthropic.go:624-661 | folding a streamed output gives back its blocks (blank signatures unsent), numbered from any start |
| Grammar.FullOutputFromScratch | internal/protocol/responses_to_anthropic.go:551-562 | in every run the full output is streamed only with no active block and counter 0, and leaves the counter at the number of blocks |
| Accumulator.ResponseAccumulator.Process | internal/protocol/accumulator.go:25-119 | the new fields and the error are those of the step function, for every event kind |
| Accumulator.ResponseAccumulator.Finalize | internal/protocol/accumulator.go:123-131 | recorded error, missing-terminal error or the response |
| Accumulator.ResponseAccumulator.SortedOutput | internal/protocol/accumulator.go:174-185 | the items in ascending index order |
| Accumulator.EnsureContentPart | internal/protocol/accumulator.go:196-204 | pads the parts up to an index and gives an untyped part its type |
| Accumulator.EnsureSummaryPart | internal/protocol/accumulator.go:206-214 | the same for summaries |
| Accumulator.MergeOutput | internal/protocol/accumulator.go:225-259 | every non-empty field of a done item replaces the collected one |
| Accumulator.ResponseAccumulator.CaptureResponse | internal/protocol/accumulator.go:144-172 | every field a response carries replaces the one kept, its output only at the end |
| Accumulator.IncreasingUnique | internal/protocol/accumulator.go:174-185 | an increasing list of indices is the only one with its members, so sorting has one result |
| Collected.AddedCollected | internal/protocol/accumulator.go:49-53 | an added item replaces the one kept at its index and touches no other |
| Collected.DoneCollected | internal/protocol/accumulator.go:94-97 | whatever was collected, a done item replaces each field it carries, keeps the others and touches no other index |
| Collected.CallCollected | internal/protocol/accumulator.go:64-83 | a piece of arguments or input is appended, a whole replaces what was collected unless it is empty; identifier and name are taken when given; nothing else changes |
| Collected.TextCollected | internal/protocol/accumulator.go:54-65 | a text delta or done text reaches exactly its part; empty typed parts fill the places before it, all other parts stay |
| Collected.ThoughtCollected | internal/protocol/accumulator.go:84-93 | the same for summary and reasoning texts |
| Accumulation.RunIsPerIndex | internal/protocol/accumulator.go:49-97 | after any run without an ending event or a panic, created and unknown events included, each index holds the fold of its own item events and the response the fold of the created ones |
| Accumulation.InterleavingIndependence | internal/protocol/accumulator.go:49-97 | reordering events so that every index keeps the order of its item events, and the created events theirs, changes nothing in the final result, whatever comes before and after and whatever unknown events stand between |
| Accumulation.OutputInIndexOrder | internal/protocol/accumulator.go:98-185 | with no terminal output, the output of every such run is the per-index folds in strictly ascending index order |
| Accumulation.TerminalIsFinal | internal/protocol/accumulator.go:26-28 | a terminal accumulator never changes |
| Accumulation.PanicsExactly | internal/protocol/accumulator.go:196-214 | a run ends in the panic exactly when an event up to the first ending one has a negative part index |
| Outcomes.EveryRunSimulates | internal/protocol/responses_to_anthropic.go:211-269 | after every common event sequence: an accumulator that has ended has a converter that has ended, and one that has failed a converter that has failed |
| Outcomes.SuccessTransfers | internal/protocol/accumulator.go:123-131 | if the converter succeeds, the accumulator has a response exactly when no part index up to the end is negative, and panics otherwise |
| Outcomes.FailureTransfers | internal/protocol/accumulator.go:26-46 | if the accumulator fails with an error and no part index is negative, the converter fails too, with the same error unless it had ended before |
| Outcomes.NegativeIndexExample | internal/protocol/accumulator.go:54-57 | a text delta with part index -1 and a completed event: the converter succeeds and the accumulator panics |
| Outcomes.ConverterEndIsFinal | internal/protocol/responses_to_anthropic.go:211-213 | a terminal converter emits nothing and never changes |
| Endings.OutputShown | internal/protocol/responses_to_anthropic.go:61-127 | any output converts, from the front, to its text blocks, thoughts and calls with their texts, ciphertexts, names and inputs spelled out, or fails at its first call with arguments neither blank nor an object |
| Endings.StreamEnds | internal/protocol/responses_to_anthropic.go:545-595 | every running stream ended by a terminal event that reports no failure: the client's message is complete; its stop reason is max_tokens iff the event says incomplete for max_output_tokens, tool_use iff it says completed and the client's content has a tool block, end_turn otherwise; its counts add up to the usage given; with nothing shown before, its content is the event's output. Only a bad call in an output shown from scratch fails it |
| Endings.BufferEnds | internal/protocol/accumulator.go:98-172 | the same for every buffered run: status, usage, error, id and model are each those of the last response to give one, and the client's message, stop reason and counts, or its error, follow from these |
| Endings.UsageIsFitting | internal/protocol/responses_to_anthropic.go:129-151 | no count is negative; fresh, read and written input add up to the input charged whenever it covers the cached part; the written part is the first positive of its three fields |
| Endings.BadEndTold | internal/protocol/responses_to_anthropic.go:216-234 | in every running state of both pipelines an error event, a failed response and a response completed as failed end in the code and message of their error record, where an error event fills empty ones from its own fields and a fixed text |
| Endings.ContentFailsExactly | internal/protocol/responses_to_anthropic.go:412-543 | an event of the content fails a running stream exactly when it is a call delta or completion away from the active call of its index and form, a completion with bad arguments, or a done item away from the active index; each with its own error, and nothing emitted |
| Endings.BeginsExactly | internal/protocol/responses_to_anthropic.go:276-305 | the client's message begins at exactly the first created, added-item, non-empty text or reasoning, or terminal event that does not fail, with the last id given by any event so far and the client's label or the first model given |
| Chunking.ChunkingIndependence | internal/protocol/responses_to_anthropic.go:355-499 | cutting any text, reasoning, argument or custom-input delta in two, anywhere in any run, changes neither the converter's final state, nor the client's message, nor the accumulator |
| StreamAgreement.LifecycleStreamed | internal/protocol/responses_to_anthropic.go:210-616 | streaming a well-formed lifecycle shows the client exactly what the lifecycle means |
| BufferedAgreement.LifecycleBuffered | internal/protocol/accumulator.go:25-185 | accumulating and converting it gives exactly what the lifecycle means |
| Agreement.PipelinesAgree | internal/protocol/accumulator.go:10-11 | on every well-formed lifecycle both pipelines fail with one error or give the same blocks (up to the placeholder and blank signatures), stop reason and usage |
| Agreement.NamesAgreeExactly | internal/protocol/responses_to_anthropic.go:276-305 | on a lifecycle that begins with a created event both forms carry the same id iff the last id a created or terminal event gives is that event's, and the same model iff the client's label is not empty or the same holds of the models |
| Handler.StreamResponse | internal/server/stream.go:97-165 | what is written to the client is what the loop writes turn by turn (`StreamLoop`), over every source |
| Handler.NonStreamResponse | internal/server/stream.go:167-224 | the same for the buffering loop (`BufferLoop`) |
| Handler.ResponseWriter.WriteProcessingError | internal/server/stream.go:226-249 | a JSON error before the stream has started, an `error` event afterwards |
| HandlerOutcome.StreamLoopIsRun | internal/server/stream.go:107-164 | the client is sent the converter's events over the delivered frames and at most one error, by the reason the exchange ended |
| HandlerOutcome.StreamOutcome | internal/server/stream.go:97-165 | unless the request is over or the read fails with a context error, exactly one of: a lone JSON error, a complete sentence, a proper prefix and one `error` event; complete iff the converter's run succeeds, so EOF and `[DONE]` never pass silently |
| HandlerOutcome.BufferLoopIsRun | internal/server/stream.go:176-223 | the buffering loop gives what the accumulator's run over the delivered frames gives |
| HandlerOutcome.BufferOutcome | internal/server/stream.go:167-224 | nothing when the request is over or a delivered event has a negative part index (the panic), otherwise exactly one JSON message or one JSON error |
| HandlerOutcome.HandlersAgree | internal/server/stream.go:97-224 | both handlers answer a well-formed lifecycle alike: the same message or the same error |
| Wording.StreamIsTold | internal/server/stream.go:97-165 | after the converter's events a streaming client is told the public wording of an upstream error, the timeout text or the general text, by the reason the exchange stopped |
| Wording.BufferIsTold | internal/server/stream.go:167-224 | a buffering client is sent the message or one such text |
| Wording.BadEndReachesClient | internal/server/stream.go:226-249 | an upstream error, failed response or response completed as failed reaches both clients as the public wording of the very code and message its fields carry |
| WireNames.NamesAndKinds | internal/protocol/responses_to_anthropic.go:216-259 | wire names and event kinds correspond one to one, and unknown names are kept |
| WireNames.FrameDecoded | internal/protocol/sse.go:138-154 | a frame is the end iff its data trims to [DONE]; it is an event iff its payload decodes and the payload or the frame names a type; and then which name |
| Exchange.StreamBody | internal/server/stream.go:97-165 | for every upstream body, limit and buffer, and whether it ends or fails, a streaming client is sent exactly one of a lone JSON error, a complete message, or the beginning of one and a single error event; only when the read fails with a context error may the message just stop |
| Exchange.BufferBody | internal/server/stream.go:167-224 | for every body a buffering client is sent one JSON message or one JSON error, unless a delivered event has a negative part index |
| Sse.LineReader.ReadLine | internal/protocol/sse.go:99 | a line in pieces no longer than the buffer, CRLF never parted, unterminated last line as it is |
| Sse.SSEDecoder.ReadWholeLine | internal/protocol/sse.go:96-111 | the line its pieces make, or a refusal once pieces with more to come exceed the limit |
| Sse.PiecesMakeLine | internal/protocol/sse.go:96-111 | the pieces make up the line, and only a line longer than the limit is refused early |
| Sse.RefusedExactly | internal/protocol/sse.go:96-111 | a line is refused while it is read exactly when a boundary between its pieces lies beyond the limit |
| Sse.BoundariesInside | internal/protocol/sse.go:96-111 | every such boundary is inside the line |
| Sse.SSEDecoder.Next | internal/protocol/sse.go:56-94 | the next frame, end, read failure or size error is the one a scan of the remaining lines gives, and the lines left are the scan's; the one exception is an early refusal of a first line with a byte order mark |
| Sse.ParseSSELine | internal/protocol/sse.go:113-134 | one field line's effect on the pending frame |
| Sse.DecodeByScan | internal/protocol/sse.go:56-94 | decoding a stream is taking its first frame and decoding the rest |
| Sse.DecodeFrames | internal/server/stream.go:44-55 | calling Next until it gives no frame yields the whole stream's frames and its end |
| SseStandard.FieldAndValue | internal/protocol/sse.go:117-122 | the decoder cuts field and value as the standard describes, and there is one way to do so |
| SseStandard.LineTaken | internal/protocol/sse.go:113-134 | by the standard's cut of a line into field and value: event and id without NUL replace, data is appended, every other field is passed over |
| SseStandard.LinesAgree | internal/protocol/sse.go:96-111 | lines by LF/CRLF and by the standard's three line ends are the same exactly when every CR precedes an LF |
| SseStandard.DecodeAgrees | internal/protocol/sse.go:61-94 | line by line the decoder dispatches the messages that the standard's buffers dispatch |
| SseStandard.DecoderMeetsStandard | internal/protocol/sse.go:56-134 | for every such stream within the limit, BOM or not, the (event, data) pairs are the standard's on the stream with a final blank line, followed by the end of the stream |
| SseStandard.IdsKept | internal/protocol/sse.go:56-134 | every frame of a stream decoded to its end carries the last id without NUL among its own lines |
| SseStandard.DecodeBody | internal/protocol/sse.go:43-94 | the decoder itself from its first byte, with any buffer size and any BOM, behaves standardly (a size error iff some run of lines is too long, otherwise the standard's messages and the end) exactly when it does not refuse a fitting first line for its BOM |
| SseStandard.BomRefusalExactly | internal/protocol/sse.go:56-111 | that equivalence: the failing streams are those whose first line begins with a BOM and has a piece boundary beyond the limit although its lines fit |
| SseStandard.LimitIsExact | internal/protocol/sse.go:61-71 | decoding stops for size iff some run of non-blank lines, each counting its length and one, exceeds the limit |
| SseStandard.DataIsShort | internal/protocol/sse.go:67-84 | every returned data is shorter than the limit |
| SseStandard.BareCrDiffers | internal/protocol/sse.go:33-34 | a concrete stream with a CR alone, on which decoder and standard differ |
| SseStandard.BomLineRefused | internal/protocol/sse.go:43-66 | a first line of a BOM and 4094 bytes, refused with the program's 4096-byte buffer and a limit of 4095 although its lines fit |
| SseRoundTrip.RoundTrip | internal/protocol/sse.go:156-172 | decoding any list of encoded frames within the limit gives back the same types and data and then the end |
| SseRoundTrip.SendAndReceive | internal/protocol/sse.go:56-172 | the same through a fresh decoder |
| Transform.TransformBody | internal/upstream/codex/transform.go:47-81 | undecodable and null bodies, further values and undecodable text after the first value are their errors; otherwise all stages in order |
| Transform.Request.SetFixedFields | internal/upstream/codex/transform.go:62-67 | model, stream and store set, every unsupported field removed, nothing else touched |
| Transform.Request.EnsureReasoningInclude | internal/upstream/codex/transform.go:100-116 | the reasoning include is added once, only for a non-empty reasoning object |
| Transform.Request.NormalizeLegacyFunctions | internal/upstream/codex/transform.go:118-141 | legacy functions and function call become tools and tool choice and are removed |
| Transform.Request.NormalizeTools | internal/upstream/codex/transform.go:143-178 | the kept tools, in order |
| Transform.NormalizeTool | internal/upstream/codex/transform.go:150-175 | a function tool without a name takes its nested function's fields or is dropped |
| Transform.Request.NormalizeToolChoice | internal/upstream/codex/transform.go:180-207 | a choice that names no tool of the request becomes auto |
| Transform.Request.NormalizeInput | internal/upstream/codex/transform.go:209-261 | a string becomes one user message or nothing, missing and null input become empty, items are normalised in place |
| Transform.NormalizeItem | internal/upstream/codex/transform.go:221-255 | reasoning id and summary, call identifier and tool name of one item |
| Normalisation.CompactFits | internal/upstream/codex/transform.go:263-270 | a compacted identifier has at most 64 bytes, no space around it, and is compacted to itself |
| Normalisation.ToolsTwice | internal/upstream/codex/transform.go:143-178 | normalising a tool list again shortens it if a blank-named tool was kept and changes nothing otherwise |
| Normalisation.ItemByStages | internal/upstream/codex/transform.go:221-255 | a normalised reasoning item has no id and a non-null summary, a call item an identifier of at most 64 bytes or none at all, other items no call_id; only id, summary, call_id and name can change |
| Normalisation.NormalFormReached | internal/upstream/codex/transform.go:62-74 | every transformed request is in normal form: fixed fields, no unsupported or legacy field, instructions, reasoning include, a tool choice that refers to a tool of the output, normalised items; its tools are the normalised ones seen |
| Normalisation.TwiceIsOnce | internal/upstream/codex/transform.go:161-175 | transforming twice equals once iff no tool seen keeps a blank name beside a named nested function |
| Normalisation.LegacyFunctionsHaveNoName | internal/upstream/codex/transform.go:119-127 | tools made of legacy functions never do |
| Normalisation.BlankNameExample | internal/upstream/codex/transform.go:161-175 | a concrete request on which twice differs from once |
| Normalisation.OthersAreRetained | internal/upstream/codex/transform.go:44-46 | all fields not named by the stages are kept as they are |
| SentRequest.RequestSent | internal/upstream/codex/transform.go:47-91 | for every body: which of the four errors it has, or else everything about the request sent: each of the twelve rejected and two legacy fields is gone, three are set, instructions, includes, tools, choice and input have the values below, and any other field is as it was |
| SentRequest.FieldsSent | internal/upstream/codex/transform.go:28-67 | that removal by field name, the three fixed values, and all other fields kept |
| SentRequest.InstructionsSent | internal/upstream/codex/transform.go:93-98 | the client's instructions unless blank or no text |
| SentRequest.IncludeSent | internal/upstream/codex/transform.go:100-116 | the includes asked for, and the reasoning one added once for a non-empty reasoning object |
| SentRequest.ToolsSent | internal/upstream/codex/transform.go:118-178 | the tools sent are, in order, those given (or wrapped legacy functions) that have a name anywhere; a function tool without name borrows name, description, parameters and strict where it lacks them |
| SentRequest.ChoiceSent | internal/upstream/codex/transform.go:128-207 | a choice, or a legacy call turned into one, is kept iff a tool sent is of its kind and name, becomes auto otherwise, and is left alone when it names no tool |
| SentRequest.InputSent | internal/upstream/codex/transform.go:209-261 | the input by its JSON form, and every item field by field: id, summary, call_id from its own or id, name from three places, all others kept |
| Text.OnlySpaceIsTrimmed | internal/upstream/codex/transform.go:314-317 | trimming takes away space at both ends and nothing else |
| Requests.ConvertInput | internal/protocol/anthropic_to_responses.go:82-108 | system item and messages in order, or the error of the first part that has one, with its message number |
| Requests.ConvertSystem | internal/protocol/anthropic_to_responses.go:110-131 | the non-empty texts that are no billing header |
| Requests.ConvertUserBlocks | internal/protocol/anthropic_to_responses.go:154-193 | tool results first, in order, then text, images and result images as one message |
| Requests.UserMessageKeepsAll | internal/protocol/anthropic_to_responses.go:171-190 | the parts sent for a user message are all its non-empty texts in order, and all its images followed by those of its tool results |
| Requests.ConvertAssistantBlocks | internal/protocol/anthropic_to_responses.go:205-254 | signed reasoning, then joined text, then calls, blank input as `{}` |
| Requests.ConvertToolResult | internal/protocol/anthropic_to_responses.go:256-304 | the joined text or a placeholder, the error form, and the images |
| Conveyed.ItemsSayRequest | internal/protocol/anthropic_to_responses.go:82-315 | the input items say what the request says, in order: system, user and assistant texts with their roles, strings and blocks alike, pictures as data URIs, ciphertexts, calls with name and arguments, and results with their text, placeholder or error form |
| Conveyed.FailsAtFirstFault | internal/protocol/anthropic_to_responses.go:82-152 | conversion fails exactly at a malformed system or the first message with an unknown role or malformed content, with its position |
| Pairing.ItemsInOrder | internal/protocol/anthropic_to_responses.go:99-105 | calls and outputs have the number and order of the tool_use and tool_result blocks |
| Pairing.PairedAlike | internal/protocol/anthropic_to_responses.go:161-251 | every output item follows a call with its identifier iff every tool result names a tool use of an earlier assistant message |
| Pairing.WireInOrder | internal/upstream/codex/transform.go:219-257 | normalised, calls and outputs keep number and order, each with its compacted trimmed identifier |
| Pairing.SentIdsTell | internal/upstream/codex/transform.go:263-270 | identifiers equal up to space are sent alike, different ones of at most 64 bytes differ, all fit 64 bytes |
| Pairing.PairedOnWire | internal/upstream/codex/transform.go:232-239 | paired items are sent paired |
| Pairing.EndToEnd | internal/upstream/codex/transform.go:62-74 | from messages to the transformed request: number, order and identity of calls and outputs, and every output after its call |
| SentInput.ItemRead | internal/upstream/codex/transform.go:219-257 | an item read back from its normalised JSON is the item, with its identifier in the form sent (trimmed, digest beyond 64 bytes) and a blank call name replaced |
| SentInput.SentSaysRequest | internal/upstream/codex/transform.go:62-74 | read back from the JSON sent upstream, the input says what the client's request says, text by text and call by call |
| Replay.BlocksReturned | internal/protocol/anthropic_to_responses.go:210-251 | the blocks of an output, sent back, give its ciphertexts, calls and texts in order |
| Replay.TurnIsReplayed | internal/protocol/anthropic_to_responses.go:195-254 | a whole buffered answer sent back as an assistant message becomes the non-blank ciphertexts, the texts joined by blank lines, and the calls with their arguments or wrapped input |
| TokenManager.Manager.GetValidToken | internal/auth/token_manager.go:36-48 | the stored token while it is more than three minutes from expiry, otherwise a refresh that looks again |
| TokenManager.Manager.ForceRefresh | internal/auth/token_manager.go:53-61 | refuses a blank rejected token, otherwise refreshes for it |
| TokenManager.Manager.Refresh | internal/auth/token_manager.go:63-99 | what is stored and returned after a refresh under the lock, for every answer of store, clock and provider |
| TokenLifetime.SavedAsAnswered | internal/auth/token_manager.go:81-95 | over every interleaving, whatever the provider answers: each refresh saved the access token of its response, an expiry of its expires_in after the time it was answered, the account and rotated refresh token it brought or the ones before; and what is stored is what the last one saved |
| TokenLifetime.AnswersAreRecorded | internal/auth/token_manager.go:81-95 | a response is recorded as it is, at the time it comes, and saved with both |
| TokenLifetime.GivenTokensAreAlive | internal/auth/token_manager.go:36-48 | over every interleaving a token is given out without a refresh, with the lock or without, iff the lifetime its issuing response gave ends more than three minutes later; it goes with the account stored beside it |
| TokenLifetime.CheckDecides | internal/auth/token_manager.go:67-79 | under the lock a stored token that serves the call is given out, whoever stored it; otherwise a refresh begins iff there is a refresh token |
| TokenLifetime.ResultsWereStored | internal/auth/token_manager.go:101-105 | every access returned is a token and account that were stored together |
| TokenSafety.StepKeeps | internal/auth/token_manager.go:36-99 | every step of every thread keeps the safety invariant |
| TokenSafety.OneRefreshPerRejectedToken | internal/auth/token_manager.go:50-73 | over every interleaving with an honest provider, a token known to be rejected is replaced at most once, and no two refreshes answer the same rejection |
| TokenChain.AtMostOnceExactly | internal/auth/token_manager.go:50-98 | over every interleaving, whatever the provider answers: that at most one refresh replaces a token known to be rejected holds iff no refresh follows the saving of such a token again |
| TokenSafety.AnotherTokenIsReturned | internal/auth/token_manager.go:53-61 | every ForceRefresh that returns a token returns another than was rejected |
| TokenChain.ExpiryRefreshesAreDue | internal/auth/token_manager.go:74-76 | over every interleaving, whatever the provider answers, an expiry refresh happens only when what the refresh before it saved is within three minutes of expiry |
| TokenSafety.ReissueRefreshesAgain | internal/auth/token_manager.go:71-85 | a run with a provider that reissues a rejected token, in which two refreshes answer one rejection |
| TokenChain.RefreshesPresentTheLatest | internal/auth/token_manager.go:81-97 | over every interleaving at most one refresh is under way; it presents the latest saved rotated or retained refresh token; and that is the latest the provider sent exactly when the last rotation was saved, or the lost one is the same text |
| TokenChain.StoredStaysValid | internal/auth/token_store.go:165-184 | stored credentials always validate and the local secret never changes |
| TokenChain.LostSavePresentsTheOld | internal/auth/token_manager.go:95-97 | from the start: the provider rotates the refresh token, the save is lost, and the next refresh presents a token that is not the latest |
| TokenChain.Uninterrupted | internal/auth/token_manager.go:63-99 | a thread that is not interrupted does what `Manager.Refresh` does |
| TurnState.TurnStateStore.Get | internal/upstream/codex/turn_state.go:39-54 | the unexpired value of a non-blank key, dropping an expired one |
| TurnState.TurnStateStore.Put | internal/upstream/codex/turn_state.go:56-70 | stores the trimmed state with its expiry, removes for a blank one, ignores blank keys |
| TurnState.TurnStateStore.Delete | internal/upstream/codex/turn_state.go:72-79 | removes the key and nothing else |
| TurnState.StoreRefinesHistory | internal/upstream/codex/turn_state.go:39-79 | under a monotone clock Get answers v iff the last Put or Delete of the key was a Put of a state trimming to v less than ttl ago |
| TurnState.StoreIsHistory | internal/upstream/codex/turn_state.go:39-79 | with no assumption on the clock: the store answers as its history says exactly until a get finds the key expired, and nothing from then to the next write |
| TurnState.OthersAreUnobservable | internal/upstream/codex/turn_state.go:49-52 | gets, lazy deletion and operations on other keys change no answer |
| TurnState.ClockGoingBack | internal/upstream/codex/turn_state.go:49-52 | with an injected clock that goes back the dropping of an expired entry is observed |

## Left out

- HTTP, headers, listeners, browser login and OAuth calls: an OAuth refresh is any
  response or failure, a body is any byte sequence that then ends or fails.
- The file system under the credential store: load and save are atomic steps that
  may fail; only the validity predicate is modelled, and sub-second clock precision is not.
- Timers and channels of the frame pump: waiting for a frame brings a frame, the end,
  a read failure, a read failure with a context error, a timeout or a cancellation.
- JSON text, base64 and SHA-256: decoded trees and blocks, a codec and a digest function.
- Effort, tool schema and tool choice tables, token counting and configuration: small
  tables of their own.
- StreamResponse: does not model failing writes to the client or a flusher that is missing.
- ProcessingError: the wording of an upstream error for the client is a parameter.
- Response items: item ids of events, sequence numbers and other fields no code here reads.
- Slices shared between Go values (a done item's content kept by the accumulator) are
  copied in the model; the program drops the event that shares them.
- FailureTransfers: leaves out the panic on a negative part index, for which the
  converter has no counterpart.
- ReadLine: does not model a body that reports its end together with its last bytes, for
  which an unterminated line of exactly the buffer's size is given whole.
- DecodeBody: does not cover streams with a CR that no LF follows, whose lines differ from
  the standard's.
- DecoderMeetsStandard: does not compare the last event identifier, which the standard
  keeps across messages and the decoder resets with every frame.
- TurnStateStore: does not model a nil store, which answers nothing and ignores writes, or
  its mutex, which makes each operation one step.
