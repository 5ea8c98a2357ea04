# Garive in Dafny

A Dafny model of the stateful protocols at the heart of Garive, with proofs of what each of them keeps over whole runs.
Everything outside a protocol is a parameter: UTF-8 and JSON decoding, SHA-256, protobuf serialisation, the answers of the
benchmark's ports, the file system's faults, identifiers and deadlines. `dafny verify dfyconfig.toml` checks the project.

| part | files |
|---|---|
| Server-sent events: framing, field parsing, the wire round trip | `Framing`, `Splitting`, `SseFields`, `Sse`, `SseWire` |
| Streaming decoders for OpenAI Responses and Anthropic Messages | `StreamPush`, `Responses`, `ResponsesHistory`, `ResponsesStream`, `Messages`, `MessagesHistory`, `MessagesStream` |
| The macOS process protocol: digests, frames, one-shot lifecycle | `DigestEncoding`, `Preimages`, `ProcessDigest`, `ProcessLimits`, `ProcessFrame`, `ProcessState` |
| The browser transport and its frame tree | `CdpTransport`, `FrameTree` |
| The Host client: event reduction, Goal pages | `HostReducer`, `HostHistory`, `GoalPage` |
| The benchmark: concurrent runs, reordering, the result log, the summary | `BenchRunner`, `ResultSink`, `Evaluation` |
| Artifact export with its crash journal | `ArtifactExport`, `ExportJournal`, `ExportSteps`, `ExportLives` |
| Release materials: reachable packages | `RustPackages` |
| Shared | `Common`, `Sequences`, `Lexicographic`, `Ordering` |

How the models are built:

- What the source does by updating fields is a class whose methods are proved equal to a function of the old state
  (`Accept`, `Validate`, `Do`, `Step`, `Fold`, `Export`, `Admit`). The theorems are about those functions and about every run of them.
- The two streaming decoders and the Host reducer are compared with *histories*. `LegalNext` says, from the earlier events
  alone, without the state and without the functions that compute it, whether an event may follow. Exactly the legal events are
  accepted, and the state is a summary of the accepted history. What legality means for positions in a history is then proved
  separately, and for the decoders legality of whole byte streams follows: `FramesDecode`, `StreamDecodes`, `AnnouncedStream`.
- Chunk independence is proved once, for any cutter whose cuts are stable under appending (`Framing.Stable`), and the SSE
  boundary search is proved stable.
- Interleavings of the benchmark are runs of a state machine in which any enabled step may come next.
- An operation of the export service is a function to its result, its new state and the exact sequence of durable states it
  passes. A *life* is any sequence of operations, each run to its end or stopped after any number of its durable writes and
  followed by a restart. The theorems speak of every durable state and every result of every life; `ExportLives.Live` shows
  that the service's methods live so.

Four properties one might expect do not hold of the code. Each has its exact condition:

- Joining two batches of Host events that reduce one after the other can fail (`HostReducer.JoinCanFail`).
  `HostReducer.JoinBatches` gives the condition.
- A wait with a predicate may hand out events of its own key out of order (`CdpTransport.MatchingWaitReorders`).
  `CdpTransport.MatchingWaitOrder` gives the condition, over the queue and the messages to come, and `CdpTransport.OrderPerKey`
  that of a whole run. No event is lost either way (`CdpTransport.NothingLost`).
- An export whose temporary file cannot be unlinked may strike its id from the journal all the same (`ExportLives.LeakExample`).
  `ExportSteps.ExportCovers` gives the condition. When the journal's write also reports success, or a restart comes next, the
  id is forgotten (`ExportSteps.ExportForgotten`) and no later cleanup removes the file (`ExportLives.LostForever`); when the
  write renames the journal and then reports a failure, the id is still pending and the next admission that can unlink removes
  the file (`ExportSteps.RemovedUnlessRestarted`).
- A benchmark run whose every result was logged may still not be ended (`BenchRunner.LateRun`). `BenchRunner.RunAndFinish` and
  `BenchRunner.EndsWhenAgentsInTime` give the condition, which is the agents' durations alone.

## Model

| member | source | states |
|---|---|---|
| `Sse.FrameBoundary` | adapters/openai-responses/src/sse.rs:79-89 | The position and length returned are those of a blank-line delimiter, `\n\n` or `\r\n\r\n`, and no delimiter of either kind starts earlier; nothing is returned exactly when there is none |
| `Sse.BoundaryUnique` | adapters/openai-responses/src/sse.rs:79-89 | A delimiter that no other one precedes is the boundary found |
| `Sse.BoundaryStable` | adapters/openai-responses/src/sse.rs:79-89 | Bytes that arrive later never move a boundary already found |
| `Sse.CutStable` | adapters/openai-responses/src/sse.rs:52-54 | Cutting the first frame off a longer buffer gives the same frame, and the rest with the later bytes behind it |
| `Framing.DrainConcat` | adapters/openai-responses/src/sse.rs:49-60 | Draining `a + b` is draining `a` and then what it left followed by `b`, with the frames in order; a failure inside `a` is the same failure |
| `Framing.DrainLeavesNoFrame` | adapters/openai-responses/src/sse.rs:52-58 | What a successful drain leaves in the buffer holds no complete frame |
| `Framing.ChunkInvariance` | adapters/openai-responses/src/sse.rs:36-60 | For any stable cutter and any division of the bytes into chunks: same success or failure, on success the same frames and remaining buffer, and never a frame the whole would not give |
| `Sse.SseChunkInvariance` | adapters/openai-responses/src/sse.rs:36-60 | The same for the SSE decoder itself and all byte streams |
| `Sse.SseDecoder.Push` | adapters/openai-responses/src/sse.rs:49-60 | One push drains the buffer and the new bytes: all completed frames in order and the remaining buffer, or an error with the buffer after the offending frame |
| `Sse.SseDecoder.Finish` | adapters/openai-responses/src/sse.rs:63-76 | End of stream succeeds exactly when the rest is UTF-8 with only blank and comment lines, and then clears it; otherwise the stream is truncated and the buffer stays |
| `Sse.EndsAfter` | adapters/openai-responses/src/sse.rs:63-76 | A stream may end after some lines exactly when each is blank, by the listed Unicode white space, or a comment |
| `Splitting.SplitJoin` | adapters/openai-responses/src/sse.rs:97-97 | Splitting what was joined gives back the parts, when no part holds the separator |
| `Splitting.SplitIsSegments` | adapters/openai-responses/src/sse.rs:97-97 | The pieces of a text are exactly the stretches without separator between two separators or ends |
| `SseFields.ParseText` | adapters/openai-responses/src/sse.rs:91-129 | The line loop yields the last event name, the data lines joined by newlines, the last id without NUL and the last retry; no frame without data; an error when some retry value is not a 64-bit number |
| `SseFields.RetryFails` | adapters/openai-responses/src/sse.rs:110-116 | One malformed retry line makes the whole frame invalid, wherever it stands |
| `SseFields.WrittenValues` | adapters/openai-responses/src/sse.rs:97-118 | The values read for a field are those written for it, whatever the line endings, with or without a space after the colon, among comments and unknown fields |
| `SseFields.WrittenParses` | adapters/openai-responses/src/sse.rs:91-129 | Parsing reads exactly the frame that was meant, however it was written: the last name, identifier without NUL and delay win, data lines in order, no frame without data |
| `SseFields.NumbersParse` | adapters/openai-responses/src/sse.rs:110-116 | A delay is read back, with or without a plus sign, exactly when it fits 64 bits |
| `SseFields.OthersRefused` | adapters/openai-responses/src/sse.rs:110-116 | No text without digits, and none with another character behind an optional plus sign, is a delay |
| `SseWire.WireDrains` | adapters/openai-responses/src/sse.rs:49-129 | Encoded frames put on the wire one after the other, under either delimiter, are drained to exactly those frames with nothing left |
| `SseWire.WireRoundTrip` | adapters/openai-responses/tests/sse.rs:4-21 | However the encoded wire is divided into chunks, the frames sent are the frames received, for every list of frames |
| `StreamPush.FoldConcat` | adapters/openai-responses/src/stream.rs:42-68 | Handling frames in two groups is handling them in one, up to the first error |
| `StreamPush.PushConcat` | adapters/openai-responses/src/stream.rs:37-69 | One push of `a + b` succeeds exactly when pushing `a` and then `b` does, with the same events and decoder |
| `StreamPush.PushInvariance` | adapters/openai-responses/src/stream.rs:37-69 | Any division into chunks gives the events and the decoder of one push, for any frame handler |
| `Responses.ResponsesChunkInvariance` | adapters/openai-responses/src/stream.rs:37-69 | The Responses decoder emits the same events and ends in the same state for every division of a byte stream |
| `Responses.ResponsesStreamDecoder.Push` | adapters/openai-responses/src/stream.rs:37-69 | One push is the specified one: events, remaining buffer and lifecycle state, or the first error; `ResponsesStream.StreamDecodes` says which streams succeed and with which events |
| `Responses.ResponsesStreamDecoder.OneFrame` | adapters/openai-responses/src/stream.rs:43-66 | The DONE sentinel only once, unnamed and after a terminal; nothing after it; a frame's name must be its event's type; then the lifecycle decides |
| `Responses.ResponsesStreamDecoder.AcceptEvent` | adapters/openai-responses/src/stream.rs:80-157 | The field updates of one event, also those made before a rejection, are those of `Accept` |
| `Responses.ResponsesStreamDecoder.Finish` | adapters/openai-responses/src/stream.rs:72-78 | The stream is complete exactly when only comments remain and a terminal was accepted; the buffer is cleared exactly when only comments remain |
| `ResponsesHistory.SummaryUnique` | adapters/openai-responses/src/stream.rs:12-28 | The accepted history determines flags and items: ids, kinds, done marks, parts and done parts |
| `ResponsesHistory.AddItemLegal` | adapters/openai-responses/src/stream.rs:159-178 | An item is added exactly when it names index, id and kind, and no earlier event used the index or the id |
| `ResponsesHistory.FinishItemLegal` | adapters/openai-responses/src/stream.rs:180-197 | An item is done exactly when it was added under the same id and kind, is not done yet, and every part added to it is done |
| `ResponsesHistory.PartEventsLegal` | adapters/openai-responses/src/stream.rs:199-215 | A part is added exactly to an open message item that has not had it, and done exactly when it was added and is not done |
| `ResponsesHistory.ContentEventsLegal` | adapters/openai-responses/src/stream.rs:217-229 | Deltas, texts and annotations are accepted exactly inside an open part of an open item named by index and id |
| `ResponsesHistory.KindEventsLegal` | adapters/openai-responses/src/stream.rs:231-243 | Function and reasoning events are accepted exactly for an open item of that kind |
| `ResponsesHistory.TargetStep` | adapters/openai-responses/src/stream.rs:245-275 | Looking up the item an event names succeeds exactly when some earlier event added that index under that id |
| `ResponsesHistory.CompletedStep` | adapters/openai-responses/src/stream.rs:119-126 | Some item is open exactly when an added item was never done |
| `ResponsesHistory.FinishContentStep` | adapters/openai-responses/src/stream.rs:208-215 | Although the code does not ask, a part is never done on a done item, and the table stays a summary |
| `ResponsesHistory.NextItemsLegal` | adapters/openai-responses/src/stream.rs:119-155 | The item table admits exactly the payloads that are legal after the history, for every kind of event |
| `ResponsesHistory.AcceptedIsLegal` | adapters/openai-responses/src/stream.rs:80-157 | From a summarising state an accepted event is legal, and the new state summarises the longer history |
| `ResponsesHistory.AcceptsExactly` | adapters/openai-responses/src/stream.rs:80-157 | In every summarising state, also after rejections, an event is accepted if and only if it is legal after the accepted history and its number exceeds the last one recorded |
| `ResponsesHistory.RejectionKeepsState` | adapters/openai-responses/src/stream.rs:86-96 | A rejected event changes nothing but the last sequence number, which never goes back |
| `ResponsesHistory.RefusedFor` | adapters/openai-responses/src/stream.rs:87-229 | An event refused without rejections before it gets its own error: malformed when a field it needs is missing, otherwise out of its lifecycle |
| `ResponsesHistory.RunRefinesHistory` | adapters/openai-responses/src/stream.rs:80-157 | In every run of a new decoder, rejections included, the accepted events form a legal history and the state is its summary |
| `ResponsesHistory.AcceptedIffLegal` | adapters/openai-responses/src/stream.rs:80-157 | A new decoder accepts all events of a sequence if and only if the sequence is a legal history |
| `ResponsesHistory.DecodedStreamIsLegal` | adapters/openai-responses/src/stream.rs:37-69 | Whatever the bytes, the JSON decoder and the chunks: a stream decoded without error emits a legal history and ends in its summary |
| `ResponsesStream.NameHasKind` | adapters/openai-responses/src/events.rs:63-99 | Every kind has its own wire name, and the table of names leads back to the kind |
| `ResponsesStream.NamesDiffer` | adapters/openai-responses/src/events.rs:63-99 | No two kinds share a wire name |
| `ResponsesStream.HandleExactly` | adapters/openai-responses/src/stream.rs:42-66 | After a history a frame emits an event exactly when its data is that event, its name is the event's type or absent, and the event is legal; an unnamed `[DONE]` passes exactly once, after a terminal |
| `ResponsesStream.FramesDecode` | adapters/openai-responses/src/stream.rs:42-69 | A new decoder handles frames without error and emits `es` if and only if the frames carry exactly `es` in order under their own names, `es` is a legal history, and at most one end mark follows, last, unnamed and after a terminal |
| `ResponsesStream.FirstRefused` | adapters/openai-responses/src/stream.rs:42-66 | When frames are not handled, the frames before some frame decode and the error is the reason against that frame |
| `ResponsesStream.StreamDecodes` | adapters/openai-responses/src/stream.rs:37-69 | The same over bytes, however they arrive: exactly the streams whose bytes are such frames decode, and to exactly those events |
| `ResponsesStream.PushRefused` | adapters/openai-responses/src/stream.rs:37-69 | One push of a whole stream reports a bad frame before anything the lifecycle has against earlier frames |
| `ResponsesStream.SentDecodes` | adapters/openai-responses/src/stream.rs:37-69 | What a producer sends, with any line endings, spacing and comments and in any chunks, decodes to `es` if and only if its frames do |
| `ResponsesStream.AnnouncedStream` | adapters/openai-responses/tests/stream_fixtures.rs:20-33 | Round trip: every legal history sent as named frames, with or without an end mark after a terminal and in any chunks, is emitted exactly |
| `ResponsesHistory.CreatedFirst` | adapters/openai-responses/src/stream.rs:97-118 | In a legal history exactly the first event is response.created |
| `ResponsesHistory.TerminalIsLast` | adapters/openai-responses/src/stream.rs:81-85 | No event follows a terminal |
| `ResponsesHistory.AddedOnce` | adapters/openai-responses/src/stream.rs:159-206 | No item and no part is added twice |
| `ResponsesHistory.EndedOnce` | adapters/openai-responses/src/stream.rs:180-215 | No item and no part is done twice |
| `ResponsesHistory.IdsDistinct` | adapters/openai-responses/src/stream.rs:159-178 | Items at different indices have different ids |
| `ResponsesHistory.ContentInsidePart` | adapters/openai-responses/src/stream.rs:217-229 | Every content event lies after its item's and its part's only addition and before both are done |
| `ResponsesHistory.PartInsideItem` | adapters/openai-responses/src/stream.rs:199-206 | A part is added after its item |
| `ResponsesHistory.PartAddPrecedesItemDone` | adapters/openai-responses/src/stream.rs:199-206 | No part is added once its item is done |
| `ResponsesHistory.PartDonePrecedesItemDone` | adapters/openai-responses/src/stream.rs:180-215 | No part is done once its item is |
| `ResponsesHistory.ItemDoneMatches` | adapters/openai-responses/src/stream.rs:180-197 | An item's done event comes after its addition and repeats its id and kind |
| `ResponsesHistory.BalancedItems` | adapters/openai-responses/src/stream.rs:119-126 | In a completed stream every added item has exactly one done event, before the completion, with the same id and kind |
| `ResponsesHistory.BalancedParts` | adapters/openai-responses/src/stream.rs:119-126 | In a completed stream every added part has exactly one done event, before its item's |
| `Messages.MessagesChunkInvariance` | adapters/anthropic-messages/src/stream.rs:92-98 | The Messages decoder emits the same events and ends in the same state for every division of a byte stream |
| `Messages.MessagesStreamDecoder.Push` | adapters/anthropic-messages/src/stream.rs:92-98 | Buffer, lifecycle and emitted events after one push are those of draining the frames and handling them in order |
| `Messages.MessagesStreamDecoder.AcceptFrame` | adapters/anthropic-messages/src/stream.rs:110-130 | JSON, type and event name are checked before the lifecycle is touched; then the event or the lifecycle's error |
| `Messages.MessagesStreamDecoder.ValidateLifecycle` | adapters/anthropic-messages/src/stream.rs:132-208 | The field updates of one event, also those made before a rejection, are those of `Validate` |
| `Messages.MessagesStreamDecoder.OpenNew` | adapters/anthropic-messages/src/stream.rs:210-240 | Opening a block stores it even when the index was open and the event is rejected |
| `Messages.MessagesStreamDecoder.Extend` | adapters/anthropic-messages/src/stream.rs:242-278 | A compatible delta is accepted and an input fragment appended to its block's text |
| `Messages.MessagesStreamDecoder.Close` | adapters/anthropic-messages/src/stream.rs:280-294 | A stop removes the block even when a tool block's text is not JSON and the event is rejected |
| `Messages.MessagesStreamDecoder.Finish` | adapters/anthropic-messages/src/stream.rs:101-108 | The stream is complete exactly when only comments remain, a terminal was accepted and no block is open; the buffer is cleared exactly when only comments remain |
| `MessagesHistory.SummaryUnique` | adapters/anthropic-messages/src/stream.rs:70-83 | The accepted history determines the whole state, open blocks and their collected text included |
| `MessagesHistory.StartLegality` | adapters/anthropic-messages/src/stream.rs:210-240 | A start is accepted exactly when it is well formed and its index is not open in the history |
| `MessagesHistory.DeltaLegality` | adapters/anthropic-messages/src/stream.rs:242-278 | A delta is accepted exactly when its block is open since a start of a compatible kind and an input delta carries its fragment |
| `MessagesHistory.StopLegality` | adapters/anthropic-messages/src/stream.rs:280-294 | A stop is accepted exactly when its block is open and, for a tool block, the fragments since its start concatenate to JSON |
| `MessagesHistory.BlocksStep` | adapters/anthropic-messages/src/stream.rs:210-294 | One event more keeps the block table the summary of open blocks and their concatenated fragments |
| `MessagesHistory.AcceptedIsLegal` | adapters/anthropic-messages/src/stream.rs:132-208 | From a summarising state an event is accepted if and only if it is legal, and then the state summarises the longer history |
| `MessagesHistory.RejectionEffect` | adapters/anthropic-messages/src/stream.rs:132-294 | Exactly what a rejection changes: nothing, except that a duplicate start replaces the open block and an unparsable tool block is dropped |
| `MessagesHistory.RefusedFor` | adapters/anthropic-messages/src/stream.rs:132-294 | A refused event gets its own error: malformed when a field it needs is missing or a tool's text is no JSON, otherwise out of its lifecycle |
| `MessagesHistory.AcceptedIffLegal` | adapters/anthropic-messages/src/stream.rs:132-208 | A new decoder accepts every event of a sequence if and only if the sequence is a legal history; the state is its summary |
| `MessagesHistory.RunRefinesRecord` | adapters/anthropic-messages/src/stream.rs:132-294 | Every run, with any rejections in it: the state is the summary of the legal events together with the rejected starts of open blocks and rejected stops, and exactly what is legal after those is accepted next |
| `MessagesHistory.DecodedStreamIsLegal` | adapters/anthropic-messages/src/stream.rs:92-130 | Whatever the bytes, the JSON decoder and the chunks: a stream decoded without error emits a legal history |
| `MessagesStream.HandleExactly` | adapters/anthropic-messages/src/stream.rs:92-130 | After a history a frame emits an event exactly when its data is an object with that event, its name is the object's type or absent, and the event is legal |
| `MessagesStream.FramesDecode` | adapters/anthropic-messages/src/stream.rs:92-130 | A new decoder handles frames without error and emits `es` if and only if the frames carry exactly `es` in order under their own names and `es` is a legal history |
| `MessagesStream.FirstRefused` | adapters/anthropic-messages/src/stream.rs:92-130 | When frames are not handled, the frames before some frame decode and the error is the reason against that frame |
| `MessagesStream.StreamDecodes` | adapters/anthropic-messages/src/stream.rs:92-130 | The same over bytes, however they arrive |
| `MessagesStream.PushRefused` | adapters/anthropic-messages/src/stream.rs:92-99 | One push of a whole stream reports a bad frame before anything the lifecycle has against earlier frames |
| `MessagesStream.SentDecodes` | adapters/anthropic-messages/src/stream.rs:92-130 | What a producer sends, with any line endings, spacing and comments and in any chunks, decodes to `es` if and only if its frames do |
| `MessagesStream.AnnouncedStream` | adapters/anthropic-messages/src/stream.rs:92-130 | Round trip: every legal history sent as named frames, in any chunks, is emitted exactly |
| `MessagesHistory.InsideBlock` | adapters/anthropic-messages/src/stream.rs:242-294 | Every delta and stop lies behind a start of its block with no start or stop between, of a compatible kind; a tool block's text parses at its stop |
| `MessagesHistory.StartsAreSeparated` | adapters/anthropic-messages/src/stream.rs:224-238 | Between two starts of one index lies a stop |
| `MessagesHistory.EndIsLast` | adapters/anthropic-messages/src/stream.rs:137-141 | No event follows an error or a message stop |
| `MessagesHistory.OneMessageDelta` | adapters/anthropic-messages/src/stream.rs:179-196 | No message delta precedes another |
| `MessagesHistory.FinishedStream` | adapters/anthropic-messages/src/stream.rs:101-108 | A stream that may finish ends with an error or message stop, stopped every block it started, and has at most one message delta, which precedes a message stop |
| `DigestEncoding.BigEndian` | Sources/GariveProcessProtocol/ProcessDigest.swift:174-180 | A number written in a fixed width has that width, and reads back as itself |
| `DigestEncoding.PieceInjective` | Sources/GariveProcessProtocol/ProcessDigest.swift:173-176 | Two pieces of one shape, each followed by anything, encode alike only if pieces and remainders agree |
| `DigestEncoding.CollectInjective` | Sources/GariveProcessProtocol/ProcessDigest.swift:170-182 | The same for lists of pieces under any encoder that can be read back piece by piece |
| `DigestEncoding.DigestInput.Append` | Sources/GariveProcessProtocol/ProcessDigest.swift:173-180 | The buffer stays the label followed by the encoded pieces, with this piece last |
| `DigestEncoding.DigestInput.Finish` | Sources/GariveProcessProtocol/ProcessDigest.swift:181-181 | The digest is the hash of the label and the encoding of everything appended |
| `Preimages.HashWorkload` | Sources/GariveProcessProtocol/ProcessDigest.swift:29-48 | The sequence of appends hashes exactly the workload preimage |
| `Preimages.WorkloadWritten` | Sources/GariveProcessProtocol/ProcessDigest.swift:28-48 | The bytes a workload digest is taken of, written out: label, each field with its eight-byte length, counts before the lists, the mode byte and the limits |
| `Preimages.WorkloadPreimageInjective` | Sources/GariveProcessProtocol/ProcessDigest.swift:29-48 | Equal workload preimages mean equal fields: all identity texts, arguments, environment entries, mode and limits, whatever their lengths |
| `Preimages.HashReceipt` | Sources/GariveProcessProtocol/ProcessDigest.swift:64-80 | The sequence of appends hashes exactly the receipt preimage |
| `Preimages.ReceiptWritten` | Sources/GariveProcessProtocol/ProcessDigest.swift:64-81 | The bytes a receipt digest is taken of, written out: label, workload digest, exit class with its four-byte value, outputs, truncation and the closing byte |
| `Preimages.ReceiptPreimageInjective` | Sources/GariveProcessProtocol/ProcessDigest.swift:64-80 | Equal receipt preimages mean equal workload digest, exit, outputs and truncation mark |
| `Preimages.DomainsSeparated` | Sources/GariveProcessProtocol/ProcessDigest.swift:29-64 | No workload and receipt share a preimage |
| `ProcessDigest.SumArguments` | Sources/GariveProcessProtocol/ProcessDigest.swift:103-110 | The loop with its overflow checks yields the true total exactly for arguments that are all valid and do not overflow |
| `ProcessDigest.SumEntries` | Sources/GariveProcessProtocol/ProcessDigest.swift:111-125 | The loop yields the true total when keys ascend and every entry is valid, and stops only for a bad entry, a key out of order or overflow |
| `ProcessDigest.Validate` | Sources/GariveProcessProtocol/ProcessDigest.swift:96-138 | The loops with their early exits accept exactly the valid workloads, with the mode's byte |
| `ProcessDigest.KeysDistinct` | Sources/GariveProcessProtocol/ProcessDigest.swift:116-120 | A valid workload never names an environment key twice, though only neighbours are compared |
| `ProcessLimits.IdentityExactly` | Sources/GariveProcessProtocol/ProcessDigest.swift:87-94 | An identity is valid exactly with this revision, three printable texts, two 32-byte digests, and no workload digest or a 32-byte one |
| `ProcessLimits.ExecutableExactly` | Sources/GariveProcessProtocol/ProcessDigest.swift:150-155 | An executable is valid exactly when its path is absolute, longer than the root, without NUL, and no stretch between slashes is empty, a dot or two dots |
| `ProcessLimits.DirectoryExactly` | Sources/GariveProcessProtocol/ProcessDigest.swift:157-162 | A working directory is valid exactly when it is a dot or a relative path of such stretches, without NUL |
| `ProcessLimits.EnvironmentIsValid` | Sources/GariveProcessProtocol/ProcessDigest.swift:112-127 | An environment is valid exactly with at most 128 bindings of identifiers to single lines, every key before all later ones, and 256 KiB in all |
| `ProcessLimits.WorkloadExactly` | Sources/GariveProcessProtocol/ProcessDigest.swift:96-138 | A workload is valid exactly within these limits, written out |
| `ProcessLimits.ReceiptExactly` | Sources/GariveProcessProtocol/ProcessDigest.swift:55-76 | A receipt is valid exactly for a bound identity whose process tree ended by a code, a positive signal or a confirmed timeout, with at most 1 MiB of output in all |
| `ProcessDigest.WorkloadDigest` | Sources/GariveProcessProtocol/ProcessDigest.swift:23-53 | Invalid identity before invalid workload; otherwise the digest of the bound fields, refused when the identity carries another one |
| `ProcessDigest.FieldsBound` | Sources/GariveProcessProtocol/ProcessDigest.swift:28-48 | Each field of identity and workload is bound in its own place |
| `ProcessDigest.ReceiptDigest` | Sources/GariveProcessProtocol/ProcessDigest.swift:56-85 | The digest of the bound fields of a valid receipt, refused when the receipt carries another one |
| `ProcessDigest.DigestBindsWorkload` | Sources/GariveProcessProtocol/ProcessDigest.swift:22-53 | Two valid workloads have the same digest if and only if every bound field agrees or their two preimages collide under SHA-256 |
| `ProcessDigest.DigestBindsReceipt` | Sources/GariveProcessProtocol/ProcessDigest.swift:55-85 | The same for receipts |
| `ProcessDigest.SealedReceipt` | Sources/GariveProcessProtocol/ProcessDigest.swift:81-85 | A receipt without a digest gets its own; one with a digest is accepted exactly when that is its own |
| `ProcessDigest.TamperedReceipt` | Sources/GariveProcessProtocol/ProcessDigest.swift:81-85 | Changing a bound field of a sealed receipt makes it refused, unless the two preimages collide |
| `ProcessFrame.DeclaredLength` | Sources/GariveProcessProtocol/ProcessFrame.swift:131-131 | The shift-and-or loop reads the big-endian value of the first four bytes |
| `ProcessFrame.ReadFrame` | Sources/GariveProcessProtocol/ProcessFrame.swift:126-150 | Reading a frame step by step, its declared length first, is the decoding that `DecodeExact` characterises |
| `ProcessFrame.DecodeExact` | Sources/GariveProcessProtocol/ProcessFrame.swift:126-150 | A frame decodes to a message if and only if it is that message's encoded frame, the message is admitted, and the parser reads the message back |
| `ProcessFrame.CanonicalFrame` | Sources/GariveProcessProtocol/ProcessFrame.swift:14-23 | Two frames that decode to one message are the same bytes |
| `ProcessFrame.EncodeRefused` | Sources/GariveProcessProtocol/ProcessFrame.swift:14-23 | Encoding fails exactly when the message cannot be serialised or its payload is too long, each with its own failure |
| `ProcessFrame.DecodeRefused` | Sources/GariveProcessProtocol/ProcessFrame.swift:126-150 | A frame that does not decode is out of bounds exactly when it declares too long a payload, and malformed otherwise |
| `ProcessState.ProcessStateReducer.StartProcess` | Sources/GariveProcessProtocol/ProcessState.swift:41-48 | Start as `Step` has it: the sole start authority is consumed, or nothing changes and the failure says whether identity or state was wrong |
| `ProcessState.ProcessStateReducer.MarkProcessRunning` | Sources/GariveProcessProtocol/ProcessState.swift:51-55 | Running as `Step` has it: only from starting, otherwise no change |
| `ProcessState.ProcessStateReducer.Retain` | Sources/GariveProcessProtocol/ProcessState.swift:58-69 | Retention as `Step` has it: the receipt is kept with its computed digest, checks in the order identity, state, receipt |
| `ProcessState.ProcessStateReducer.QueryStatus` | Sources/GariveProcessProtocol/ProcessState.swift:72-88 | The owning identity reads the status of the present state; any other is refused |
| `ProcessState.ProcessStateReducer.TerminateProcess` | Sources/GariveProcessProtocol/ProcessState.swift:91-99 | Termination as `Step` has it: absent afterwards, refused while a receipt is retained |
| `ProcessState.ProcessStateReducer.AcknowledgeReceipt` | Sources/GariveProcessProtocol/ProcessState.swift:102-116 | Acknowledgement as `Step` has it: only the retained receipt's exact digest erases it |
| `ProcessState.CreateReducer` | Sources/GariveProcessProtocol/ProcessState.swift:33-38 | A reducer exists exactly for a valid identity with a 32-byte workload digest |
| `ProcessState.StateIsHistory` | Sources/GariveProcessProtocol/ProcessState.swift:41-116 | In every run the state is a function of the last successful command that was not a query and of whether a start ever succeeded |
| `ProcessState.SucceedsIffAllowed` | Sources/GariveProcessProtocol/ProcessState.swift:27-121 | In every run a command succeeds if and only if the successful commands before it allow it, and otherwise fails with the reason they give |
| `ProcessState.RunsAreSound` | Sources/GariveProcessProtocol/ProcessState.swift:41-116 | In every run a retained receipt is valid, belongs to the owner and carries its own digest |
| `ProcessState.StepAdvances` | Sources/GariveProcessProtocol/ProcessState.swift:41-116 | No command moves the lifecycle back, a successful one moves it one step on from its own phase, and a failed one changes nothing |
| `ProcessState.OneShot` | Sources/GariveProcessProtocol/ProcessState.swift:41-116 | In every run each stage succeeds at most once and stages succeed only in order |
| `ProcessState.NeedsPredecessor` | Sources/GariveProcessProtocol/ProcessState.swift:51-116 | Before every successful stage the previous one succeeded, with only queries succeeding in between |
| `ProcessState.RetainedUntilAcknowledged` | Sources/GariveProcessProtocol/ProcessState.swift:58-116 | An acknowledged digest is the digest of one retained receipt, which was held unchanged from its retention to the acknowledgement |
| `ProcessState.StartNeverReturns` | Sources/GariveProcessProtocol/ProcessState.swift:41-48 | After one successful start no start ever succeeds again |
| `ProcessState.QueriedStatusIsValid` | Sources/GariveProcessProtocol/ProcessFrame.swift:94-108 | In every run the status a query returns passes the frame validator's checks |
| `ProcessState.QueryAnswers` | Sources/GariveProcessProtocol/ProcessState.swift:72-89 | In every run a query answers with the state the last successful command left, and with the retained receipt under its own digest |
| `CdpTransport.CallOutcome` | adapters/browser-cdp/src/transport.rs:158-203 | A call ends at the first message that decides it, at the first event without room, at its deadline or at the end of input, with exactly the result each means; success only from a reply with its own id and session |
| `CdpTransport.WaitOutcome` | adapters/browser-cdp/src/transport.rs:205-264 | The same for a wait: success only from the first event of its key that satisfies the predicate |
| `CdpTransport.OperationAccounted` | adapters/browser-cdp/src/transport.rs:139-264 | Every operation receives a prefix of the input, keeps or drops exactly the events in it, drops only when it reports overflow, and keeps the queue within its bound |
| `CdpTransport.OperationBalanced` | adapters/browser-cdp/src/transport.rs:64-137 | For one key, what an operation hands out followed by what stays queued is what was queued followed by what arrived, if and only if it is no matching wait on that key that passes over its first event, said over the state before the call; otherwise the first event handed out is not the first that was there |
| `CdpTransport.HandedOut` | adapters/browser-cdp/src/transport.rs:214-235 | When the first deciding message to come is a wanted event in time and the queue has room until then, the wait hands it out after keeping the events before it |
| `CdpTransport.WhatWasHandedOut` | adapters/browser-cdp/src/transport.rs:214-235 | A wait that hands out an arriving event does so only then |
| `CdpTransport.MatchingWaitOrder` | adapters/browser-cdp/src/transport.rs:105-137 | A matching wait keeps its own key's order if and only if, in the queue and the messages to come, the wanted event it takes is the first event of its key |
| `CdpTransport.MatchingWaitReorders` | adapters/browser-cdp/src/transport.rs:119-129 | Two queued events of one key that a matching wait hands out in reverse |
| `CdpTransport.OperationConserves` | adapters/browser-cdp/src/transport.rs:64-236 | Every operation, matching waits included, conserves events as a bag |
| `CdpTransport.OrderPerKey` | adapters/browser-cdp/src/transport.rs:50-137 | In every run, per key: events handed out, then those queued, are the kept ones in arrival order if and only if every matching wait on the key took its first event; one that did not is never made up for |
| `CdpTransport.NothingLost` | adapters/browser-cdp/src/transport.rs:50-137 | In every run no kept event is lost or duplicated |
| `CdpTransport.KeptIsArrived` | adapters/browser-cdp/src/transport.rs:194-199 | In every run the queue stays within its bound, and without overflow the kept events are exactly those that arrived |
| `CdpTransport.ArrivalOrder` | adapters/browser-cdp/src/transport.rs:50-137 | In every run without overflow, per key: events handed out, then those queued, are exactly those that arrived, in order, if and only if every matching wait on the key took its first event |
| `CdpTransport.OperationReturns` | adapters/browser-cdp/src/transport.rs:64-137 | A pop, take or wait that returns a value handed out exactly one event, and the value is that event's parameters; otherwise it handed out none |
| `CdpTransport.CallersSee` | adapters/browser-cdp/src/transport.rs:64-137 | In every run the values pops, takes and waits returned are, in order, the parameters of the handed-out events that were not discarded |
| `CdpTransport.IdsIncrease` | adapters/browser-cdp/src/transport.rs:266-273 | Command ids of a run strictly increase and stay safe JavaScript integers |
| `CdpTransport.IdsCountCalls` | adapters/browser-cdp/src/transport.rs:266-273 | The ids of a run count its calls from one; calls beyond 2^53-1 are refused |
| `CdpTransport.RepliesAreOwn` | adapters/browser-cdp/src/transport.rs:139-203 | In every run a successful call returns the last message it received, a reply to its own id, which no earlier call of the run had |
| `CdpTransport.Transport.CallCommand` | adapters/browser-cdp/src/transport.rs:139-203 | The loop's result, queue, input and next id are those of `Do` |
| `CdpTransport.Transport.Take` | adapters/browser-cdp/src/transport.rs:69-81 | The oldest queued event of the key is removed and returned |
| `CdpTransport.Transport.Pop` | adapters/browser-cdp/src/transport.rs:64-66 | The oldest queued event is removed and returned |
| `CdpTransport.Transport.Discard` | adapters/browser-cdp/src/transport.rs:84-92 | Exactly the events of the key are removed, the others stay in order |
| `CdpTransport.Transport.AllocateId` | adapters/browser-cdp/src/transport.rs:266-273 | An id is granted exactly from 1 to 2^53-1, and the next one follows; otherwise nothing changes |
| `CdpTransport.Transport.WaitMatching` | adapters/browser-cdp/src/transport.rs:105-137 | The queue is searched before the loop receives; result, queue and input are those of `WaitFor` |
| `FrameTree.PushChildren` | adapters/browser-cdp/src/client.rs:1161-1163 | Pushing the children in reverse puts their preorder in front of what the stack still had to visit |
| `FrameTree.PreorderInPlace` | adapters/browser-cdp/src/client.rs:1106-1173 | In the preorder the first node is the root and every other one is a child of an earlier node, a level deeper and under its id |
| `FrameTree.SiblingsInOrder` | adapters/browser-cdp/src/client.rs:1158-1160 | Every child of a node is visited, and siblings in their order |
| `FrameTree.AcceptableIsDescribed` | adapters/browser-cdp/src/client.rs:1112-1157 | A tree is acceptable exactly when frames describe its nodes: each member by member, under its structural parent, within depth, count and text bounds, with distinct ids; there is one such description |
| `FrameTree.CheckNode` | adapters/browser-cdp/src/client.rs:1113-1146 | A node is refused only if no completion of the traversal could be accepted |
| `FrameTree.ParseStack` | adapters/browser-cdp/src/client.rs:1106-1173 | The explicit stack accepts exactly when the recursive preorder meets every bound, and then returns its frames in that order |
| `FrameTree.ParseFrameTree` | adapters/browser-cdp/src/client.rs:1106-1173 | The stack loop succeeds exactly when the recursive preorder of the tree has a description, and returns it |
| `HostReducer.ReduceHostEvents` | clients/host-rs/src/reducer.rs:17-80 | The loop over a view it owns computes `Reduce`, errors included |
| `HostReducer.ReplayIsNoOp` | clients/host-rs/src/reducer.rs:38-48 | Any replay of events from a reduced batch, in any order and with repeats, leaves the view unchanged, also after a terminal |
| `HostReducer.SplitBatch` | clients/host-rs/src/reducer.rs:33-79 | A batch that reduces can be split anywhere and reduced in two calls to the same view |
| `HostReducer.JoinBatches` | clients/host-rs/src/reducer.rs:33-52 | Two batches that reduce one after the other reduce as one if and only if they fit the limit together and the second holds no unseen event at or below the first one's cursor; then to the same view |
| `HostReducer.JoinCanFail` | clients/host-rs/src/reducer.rs:46-52 | Two batches of one event each that reduce one after the other but not together |
| `HostReducer.AppliedAscend` | clients/host-rs/src/reducer.rs:46-55 | Applied positions strictly ascend above the starting cursor, and the cursor is the last of them |
| `HostReducer.OneTerminal` | clients/host-rs/src/reducer.rs:49-68 | At most one terminal is applied, as the last applied event; nothing is applied to a view that has one |
| `HostReducer.ViewRecalls` | clients/host-rs/src/reducer.rs:54-77 | Seen events, text and unknown names are exactly those of the applied events, each unknown name once |
| `HostReducer.ActivitiesAreLatest` | clients/host-rs/src/reducer.rs:125-126 | Every activity is as the last applied event about it has it |
| `HostReducer.RankGrows` | clients/host-rs/src/reducer.rs:166-175 | Every accepted update of an activity raises its rank, so activity lifecycles cannot cycle |
| `HostReducer.ActivityRuns` | clients/host-rs/src/reducer.rs:82-175 | Over any number of batches: every activity stays filed under its id with a known state and the matching terminal flag, keeps kind and label, stays as it is once terminal, and rises by a rank with every update |
| `HostReducer.UpdatesPerActivity` | clients/host-rs/src/reducer.rs:82-175 | Over any number of batches activity updates number at most five per activity |
| `HostHistory.NewEventJudged` | clients/host-rs/src/reducer.rs:34-128 | A new event is applied exactly when header, position, openness of the turn, its own activity and the step from that activity's last state allow it, and otherwise refused for the first reason against it |
| `HostHistory.FoldExactly` | clients/host-rs/src/reducer.rs:33-80 | A batch reduces if and only if each of its events is passed over or legal in turn, and the view is then the summary of the applied events |
| `HostHistory.BatchesExactly` | clients/host-rs/src/reducer.rs:17-80 | Any batches reduce from an empty view if and only if they fit the limit and all their events are legal in turn |
| `HostHistory.LegalReduces` | clients/host-rs/src/reducer.rs:17-80 | Every legal history reduces from an empty view, to the view of exactly that history |
| `HostHistory.PathsReduce` | clients/host-rs/src/reducer.rs:82-175 | Every path of the activity machine, from a first state through listed steps, is accepted and leaves its last state |
| `GoalPage.AscendingIsDistinct` | clients/host-rs/src/client.rs:1412-1415 | Ids that ascend from neighbour to neighbour are all distinct |
| `GoalPage.EndingChainsRank` | clients/host-rs/src/client.rs:1425-1438 | When every parent chain ends inside the page, the parents form a forest |
| `GoalPage.WalkParents` | clients/host-rs/src/client.rs:1426-1437 | The walk from a goal succeeds only if its chain ends, and fails only if the page is no forest |
| `GoalPage.ValidGoalPage` | clients/host-rs/src/client.rs:1406-1463 | A page is valid if and only if its header matches, every goal passes every check of its fields, ids ascend and the parents form a forest within the page |
| `RustPackages.PushDependencies` | desktop/release/build-release-materials.py:211-214 | Exactly the packages of normal dependencies are added to the worklist |
| `RustPackages.RootIsFirst` | desktop/release/build-release-materials.py:196-201 | The root is the id of the first package of the desktop's name; there is none exactly without such a package |
| `RustPackages.IndexIsLast` | desktop/release/build-release-materials.py:195-195 | Every package id is indexed, with the last package of that id |
| `RustPackages.ClosedHoldsPaths` | desktop/release/build-release-materials.py:205-214 | A set closed under normal dependencies holds every path that starts in it |
| `RustPackages.ReachableFrom` | desktop/release/build-release-materials.py:203-214 | The worklist returns exactly the packages a path of normal dependencies reaches, and fails exactly when it would reach an unknown one |
| `RustPackages.SelectPlatform` | desktop/release/build-release-materials.py:195-214 | One platform contributes exactly the packages reachable from the desktop package, as its metadata has them, or the error for a missing root or a missing package |
| `RustPackages.MergeIsLatest` | desktop/release/build-release-materials.py:210-210 | Among platforms that select an id, the last one's package is kept |
| `RustPackages.MergeIsUnion` | desktop/release/build-release-materials.py:210-210 | An id is selected exactly when some platform selects it |
| `RustPackages.MergeHasLatest` | desktop/release/build-release-materials.py:210-210 | A package is merged exactly when it is the one the last platform that selects its id has |
| `RustPackages.ListPackages` | desktop/release/build-release-materials.py:215-215 | The list holds exactly the selected packages, strictly ordered by name, version and id |
| `RustPackages.ReachableRustPackages` | desktop/release/build-release-materials.py:186-215 | The list is sorted, names exactly the ids some platform's desktop package reaches, and holds exactly the packages that the last platform reaching their id has; it fails exactly when some platform is incomplete, with the first such platform's error |
| `Evaluation.SummaryCounts` | engine/eval/src/result.rs:35-50 | Every result is counted in exactly one class, and there is a score, never above one, exactly when some case got a verdict |
| `Evaluation.SummaryMeans` | engine/eval/src/result.rs:35-104 | Each number of a summary is the multiplicity of its outcome among the results; the score is passed over passed and failed, and absent exactly without a verdict |
| `Evaluation.SummaryIgnoresOrder` | engine/eval/src/result.rs:53-106 | Permuted results have equal summaries |
| `Evaluation.OneMorePassed` | engine/eval/src/result.rs:53-106 | Turning one failed case into a passed one raises the score's numerator by one and keeps its denominator |
| `Evaluation.PerfectScore` | engine/eval/src/result.rs:53-106 | The score is one exactly when some case passed and none failed |
| `Evaluation.SummarisesExactly` | engine/eval/src/result.rs:53-95 | Results summarise exactly within both limits, with distinct ids, bounded durations, and no use claimed for a case never attempted |
| `Evaluation.FaultExactly` | engine/eval/src/result.rs:70-92 | Why a result is refused: a repeated id, then too long a case, then use claimed for one never attempted |
| `Evaluation.Summarize` | engine/eval/src/result.rs:53-113 | The loop summarises exactly the lists within their limits of distinct ids, bounded durations and unattempted cases without use, with the count of each outcome; no counter overflows; otherwise the error of the first faulty result |
| `ResultSink.DescriptorExactly` | bench/src/tracking.rs:244-270 | A run may be tracked exactly with seven texts of 1 to 256 bytes, a hexadecimal digest, 1 to 64 jobs and some case, in a known environment; a publishable one must be official, concurrent and clean |
| `ResultSink.BaselineExactly` | engine/eval/src/baseline.rs:43-75 | A baseline is admitted exactly for a clean checkout, three texts of 1 to 256 bytes and a hexadecimal digest; identities exactly of 1 to 256 bytes |
| `ResultSink.DescriptorCompletes` | bench/src/tracking.rs:112-130 | A descriptor that can open a sink is never refused at the end: a publishable run yields a baseline of its summary with each of its own provenance fields and its digest in lower case, any other its summary |
| `ResultSink.Open` | bench/src/tracking.rs:65-77 | A sink opens exactly for a descriptor that passes every check and a writable start record |
| `ResultSink.JsonlResultSink.Append` | bench/src/tracking.rs:167-194 | A result is logged exactly when the sink is open, the index is the next one and the write succeeds; complete records stay start, results in order |
| `ResultSink.JsonlResultSink.Finish` | bench/src/tracking.rs:80-130 | The run is ended, once, exactly when its results summarise within their limits, every case was appended and the write succeeds; the end record and the result hold the summary of the results |
| `ResultSink.LogIsPrefix` | bench/src/tracking.rs:167-194 | Whatever failed when, the complete records of a valid sink that appended a prefix of a run's results are a prefix of the run's log, and all of it with the end record once finished |
| `BenchRunner.ValidateRun` | bench/src/runner.rs:225-246 | A run is valid exactly with cases of distinct ids, one to 64 jobs and, when published, more than one job within warm capacity |
| `BenchRunner.RunCase` | bench/src/runner.rs:182-223 | A case passes or fails by its verdict exactly when it is leased under its own id and commit, the agent is instructed for its repository and commit in that workspace, and every port answers; otherwise the infrastructure failed; usage is the agent's, field by field; an accepted lease is released once, whatever failed |
| `BenchRunner.RunsKeepInvariant` | bench/src/runner.rs:159-223 | Every interleaving keeps: at most `jobs` cases active, phases that match their lease events, each case active or completed once |
| `BenchRunner.LeasesAreBounded` | bench/src/runner.rs:164-167 | At every moment of every run the accepted leases held number at most `jobs`, in published mode at most the warm capacity |
| `BenchRunner.LeasesAreReleased` | bench/src/runner.rs:206-208 | In every run a completed case accepted no lease, or accepted one and released that one exactly once |
| `BenchRunner.FinishedRunPermutes` | bench/src/runner.rs:164-171 | The completions of a finished run are a permutation of the cases |
| `BenchRunner.RunsAreShort` | bench/src/runner.rs:164-171 | Every run takes at most eight steps a case, whatever its interleaving |
| `BenchRunner.SomeStep` | bench/src/runner.rs:164-171 | With at least one job every run that is not finished has an enabled step, with the answer the ports give |
| `BenchRunner.CanFinish` | bench/src/runner.rs:164-171 | With at least one job every run can be continued to a finished one, with the answers the ports give |
| `BenchRunner.ScheduleIndependence` | bench/src/runner.rs:164-180 | When the ports answer each case from its script, every finished schedule yields the same results in case order |
| `BenchRunner.Reorder` | bench/src/runner.rs:168-180 | For every completion order the buffer returns and logs the results in case order; without write failures all of them, otherwise a prefix |
| `BenchRunner.ResultsAreScripted` | bench/src/runner.rs:164-180 | When the ports answer from scripts, the results in case order are the scripted ones for every interleaving |
| `BenchRunner.RunBenchmark` | bench/src/runner.rs:159-180 | Over any finished interleaving of a valid configuration each case's own result is returned and logged at its place, or a write failed and the log is a prefix of that log; an invalid configuration is refused and logs nothing |
| `BenchRunner.RunSummarises` | bench/src/main.rs:183-192 | The results of a run summarise under its own limits exactly when every case kept to the duration limit: ids are distinct and no case is unattempted |
| `BenchRunner.EndsWhenAgentsInTime` | bench/src/runner.rs:182-223 | Whether every result is within the duration limit is decided by the durations of the agents that run, before the run and whatever its schedule |
| `BenchRunner.LateRun` | engine/eval/src/result.rs:73-75 | Whenever some agent that runs takes longer than the limit, there is a finished run of these cases whose results are refused |
| `BenchRunner.RunAndFinish` | bench/src/main.rs:163-193 | With a writer that does not fail, such a run succeeds and logs every result; it is ended, with the summary of its results and a baseline when publishable, exactly when every case kept to the duration limit, and otherwise the log stops before its end record |
| `ArtifactExport.Utf8Lengths` | desktop/backend/src/artifact_export.rs:403-411 | Lengths of names in bytes add up, with one to four bytes a character by its code point |
| `ArtifactExport.TempInjective` | desktop/backend/src/artifact_export.rs:326-328 | Temporary names of different ids differ |
| `ArtifactExport.NameIsNotTemp` | desktop/backend/src/artifact_export.rs:403-411 | No admitted destination name is a temporary name |
| `ArtifactExport.ExportService.PersistPending` | desktop/backend/src/artifact_export.rs:354-393 | The journal changes as a whole or not at all, through exactly one recorded durable state, and only to one that can be read back; result and journal for each way the write can end |
| `ArtifactExport.ExportService.Begin` | desktop/backend/src/artifact_export.rs:220-232 | Result, state and durable states are those of `BeginPending`: a known id or a full set is refused unwritten; the pending set follows only a reported success |
| `ArtifactExport.ExportService.Finish` | desktop/backend/src/artifact_export.rs:234-244 | Result, state and durable states are those of `FinishPending` |
| `ArtifactExport.ExportService.AtomicCreate` | desktop/backend/src/artifact_export.rs:282-319 | The file goes through exactly the durable states of `Created`, each write, link and unlink one of them, with the result for each fault |
| `ArtifactExport.ExportService.ExportArtifact` | desktop/backend/src/artifact_export.rs:180-218 | Result, state and durable states are those of `Export`: the target is consumed before any check, the id journalled before the file is made, and struck whatever happened to it; `ExportSteps.ExportExactly` and `ExportRefused` say when it succeeds |
| `ArtifactExport.ExportService.RemoveTemps` | desktop/backend/src/artifact_export.rs:253-262 | The loop unlinks in the set's order through exactly the durable states of `RemovedAll`, and keeps exactly the ids whose file was there and cannot be unlinked |
| `ArtifactExport.ExportService.CleanupPending` | desktop/backend/src/artifact_export.rs:247-268 | Result, state and durable states are those of `Cleanup`: the journal is rewritten only when the pending set shrank |
| `ArtifactExport.ExportService.AdmitSelected` | desktop/backend/src/artifact_export.rs:115-176 | Result, state and durable states are those of `Admit`, errors in the source's order |
| `ExportJournal.ReadIsValid` | desktop/backend/src/artifact_export.rs:330-352 | Whatever the file holds, a pending set read from it is within the bounds the service writes |
| `ExportJournal.ReadExactly` | desktop/backend/src/artifact_export.rs:330-352 | Which journal files are read, as what, and which error any other one gives |
| `ExportJournal.RenderedInjective` | desktop/backend/src/artifact_export.rs:354-368 | No two pending sets are written alike |
| `ExportJournal.ParserExists` | desktop/backend/src/artifact_export.rs:330-352 | There is a parser that reads every journal the service writes back, so what is asked of JSON can be met |
| `ExportJournal.JournalRoundTrip` | desktop/backend/src/artifact_export.rs:330-368 | Every pending set the service writes fits the byte bound of the file and is read back as it was written |
| `ExportJournal.ReopenedAgrees` | desktop/backend/src/artifact_export.rs:105-112 | A journal without repeated ids is read as a restart from a disk with those ids: the same state or the same error |
| `ExportJournal.Durable` | desktop/backend/src/artifact_export.rs:105-112 | A service restarts exactly from a missing journal, or one that can be read, parses and is within its bounds, with what it lists pending and no target; otherwise the error of the first check that fails |
| `ExportSteps.BeginExactly` | desktop/backend/src/artifact_export.rs:220-232 | An id enters journal and pending set together exactly when it is new, valid and within the bound and the write succeeds; on failure the pending set stays and the journal is the old one or the larger one |
| `ExportSteps.BeginResult` | desktop/backend/src/artifact_export.rs:220-232 | An id that is known, one too many or not one the service issues is invalid; any other fails only when the write does |
| `ExportSteps.CreatedAllowed` | desktop/backend/src/artifact_export.rs:282-319 | In every durable state of the file work only the temporary file and an absent destination differ from before; it succeeds exactly without fault on an absent destination, which then holds the bytes; the temporary file stays exactly when it cannot be unlinked |
| `ExportSteps.LinkedAfterFilled` | desktop/backend/src/artifact_export.rs:289-316 | The destination appears only after the temporary file held all the bytes, and never when their write failed |
| `ExportSteps.ExportTouches` | desktop/backend/src/artifact_export.rs:180-218 | A known target is consumed, and every durable state of the whole export differs from before only in the temporary file and the absent destination, which goes to the exported or a racing program's bytes |
| `ExportSteps.ExportRefused` | desktop/backend/src/artifact_export.rs:190-204 | Unless the target is there, belongs to the owner and is alive, and the bytes have the requested digest, are within the bound and name an artifact and revision, the export is refused with nothing written |
| `ExportSteps.ExportExactly` | desktop/backend/src/artifact_export.rs:180-218 | An export succeeds exactly when it is permitted by owner, lifetime, digest, size, artifact and revision, its id enters the journal, the file opens, the destination is absent and nothing fails; the destination then holds exactly the verified bytes; otherwise the error of each fault |
| `ExportSteps.ExportSafe` | desktop/backend/src/artifact_export.rs:180-218 | An export keeps every durable state restartable and its temporary files known, but for its own when it creates one, cannot unlink it and strikes its id; it loses that one with its last durable write |
| `ExportSteps.ExportCovers` | desktop/backend/src/artifact_export.rs:205-208 | When journal and pending set covered the temporary files before, the journal covers them after an export if and only if it did not create a file it could not unlink and then strike its id |
| `ExportSteps.ExportForgotten` | desktop/backend/src/artifact_export.rs:205-208 | When every temporary file was known before an export, its own escapes the journal exactly when it is created, cannot be unlinked and its id is struck; it is forgotten exactly when the journal's write also reported success |
| `ExportSteps.RemovedUnlessRestarted` | desktop/backend/src/artifact_export.rs:234-268 | A file lost while the journal's write reported a failure is removed by the next admission that can unlink it, and forgotten when a restart comes first |
| `ExportSteps.CleanedFiles` | desktop/backend/src/artifact_export.rs:247-268 | After the cleanup exactly the stuck temporary files of pending ids remain, and nothing else in the directory changed |
| `ExportSteps.AdmitSucceeds` | desktop/backend/src/artifact_export.rs:115-176 | An admission ends with the first thing against it, and succeeds exactly when its checks pass, the cleanup is persisted or has nothing to strike, and there is room; the targets are then the living ones as they were and this one for 300 seconds |
| `ExportLives.LivesAreSafe` | desktop/backend/src/artifact_export.rs:103-279 | In every life the service can restart from every durable state ever passed, and each temporary file there belongs to its journal or to an export that created it, could not unlink it and struck its entry |
| `ExportLives.JournalCovers` | desktop/backend/src/artifact_export.rs:103-279 | In every life whose exports can unlink, the journal of every durable state covers every temporary file there |
| `ExportLives.RestartsSucceed` | desktop/backend/src/artifact_export.rs:330-352 | In every life every restart, after a stop at any durable state, succeeds |
| `ExportLives.AdmissionCleans` | desktop/backend/src/artifact_export.rs:149-149 | In every life a successful admission that can unlink leaves no temporary file but those that such exports created and lost |
| `ExportLives.CleanAfterRestart` | desktop/backend/src/artifact_export.rs:543-570 | Stop anywhere in a life, restart and admit a free name: the admission succeeds and no temporary file is left but the lost ones |
| `ExportLives.NothingOverwritten` | desktop/backend/src/artifact_export.rs:305-316 | In every life, across stops and restarts, no file but temporary ones is ever changed or removed |
| `ExportLives.ExportedStays` | desktop/backend/src/artifact_export.rs:206-217 | In every life what a successful export created holds exactly its bytes in every later durable state |
| `ExportLives.ExportsAreVerified` | desktop/backend/src/artifact_export.rs:190-218 | In every life a successful export wrote, under the name its own owner selected less than 300 seconds before, bytes with the requested digest; a request that is not verified or not admitted so is refused with nothing written |
| `ExportLives.OneExport` | desktop/backend/src/artifact_export.rs:190-195 | In every life, across stops and restarts, at most one export of an id succeeds |
| `ExportLives.LostForever` | desktop/backend/src/artifact_export.rs:247-268 | A temporary file whose id is in neither journal, pending set nor targets stays through every continuation of the life that does not admit the id again |
| `ExportLives.LeakExample` | desktop/backend/src/artifact_export.rs:205-208 | A life of one admission and one export that cannot unlink: the export succeeds and its temporary file escapes the journal |
| `ExportLives.Live` | desktop/backend/src/artifact_export.rs:103-279 | The service's methods, run over any life and restarted from the journal file's bytes, reach exactly its state, pass exactly its durable states and return exactly its results |

## Left out

- JSON, UTF-8, protobuf and SHA-256 are function parameters. What is proved holds for every such function; the wire round trip asks of UTF-8 only that it reads back, encodes character by character, and uses the bytes 10 and 13 for line feed and carriage return alone. Lives of the export service ask of JSON only that it reads back the journals the service writes.
- Reason texts of errors. Error classes are modelled where the source distinguishes them.
- `event_kind` and `delta_kind` of the Messages decoder, and the shape checks of the message snapshot and the error envelope, are part of the JSON parameter.
- The Anthropic copy of the SSE decoder is line for line the OpenAI one and is not modelled twice.
- SSE scanning in the Host client (`find_sse_boundary`) prefers any LF pair over an earlier CRLF pair; nothing proved here is claimed for it.
- Preimages.WorkloadPreimageInjective: field lengths and counts are taken to fit 64 bits, as they do in the source's types.
- Swift string comparison (the protocol revision, `contains("\0")`) is on UTF-8 bytes, without canonical equivalence.
- The four request and response validators of the process frames are the `admits` parameter; only the status check is modelled.
- The WebSocket, and time: a deadline is the number of messages an operation may still receive, and a timeout falls between messages.
- Typed wrappers of the browser client other than the frame tree.
- JSON decoding of a frame-tree node and of a Goal: each is a value with its fields.
- BenchRunner.RunBenchmark: when the log fails, the cases still in flight are abandoned and nothing is said about their leases.
- Concurrent exports and several destination directories; one service works on one directory, one operation at a time.
- Loss of unsynced data at power failure: a crash is a stop of the process, and what it wrote stays.
- ExportLives.OneExport: asks that no id is given to two selections; in the source an id is a new random one each time.
- Clock failures and lock poisoning.
- The desktop shell, provider configuration, HTTP clients, the Swift virtual machine host, and other Host endpoints.
