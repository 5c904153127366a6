# agnt streaming client: a Dafny model

This project models the core of `agnt`, a terminal client for the Anthropic Messages API with
server-side code execution. It covers three parts:

- **The stream task** that `send_message_stream` spawns (`StreamTask`, `Framing`, `Anthropic`).
  The task sends two connection notices and builds the request. A failed request or a
  non-success status becomes one terminal error text. On success, the task appends each readable
  chunk of the response body to a buffer and takes `"\n\n"`-terminated frames off the front of
  it. It decodes the first `data: ` line of each frame and dispatches on the decoded event. On
  the way it collects the `input_json_delta` fragments of a `code_execution` tool block and
  turns them into one `CodeInput` when the block stops. It maps tool results to `CodeOutput`,
  with `(id, id)` file pairs, or to `CodeError`.
- **Saving generated files** (`Downloads`). The metadata lookup retries once and otherwise falls
  back to `{id}.bin`. The name is reduced to its last path component, with `unnamed_file` when
  there is none, and cleaned character by character. A failed download writes a placeholder
  text. Only ids starting with `file_` are downloaded.
- **Conversation state** (`Ui`, `Conversation`). This covers the slash-command autocomplete and
  the `App` record's methods: streamed-text coalescing, `finish_streaming`, scroll clamping,
  the tool-mode toggles, in-place file renaming and `/clear`. It also covers the history the
  interactive loop sends and the message pipe mode sends.

The framing is the program's own subset of Server-Sent Events. Frames end only at `"\n\n"`.
Only the first `data: ` line of a frame counts, and multi-line data is never joined. The model
follows the code, not the WHATWG HTML Living Standard's event-stream algorithm.

The library routines are not re-implemented. UTF-8 validation, serde decoding of an event, and
the lookup of the `"code"` string in the accumulated JSON are function-valued fields of a
`Decoders` value, and every property is proved for every choice of them.
`char::is_alphanumeric` is a parameter `isAlnum`. The network's answers (request outcome,
metadata, content) are parameters. The consumer's channel is the sequence `delivered` plus a
`receiverOpen` flag: once the receiver is dropped, every send fails.

Some behaviours of the code worth knowing:
- `char::is_alphanumeric` accepts Unicode letters and digits, so name cleaning keeps them.
- The terminal error text carries the response body after the label (`"Bad request: " + body`).
- A `content_block_stop` with `collecting_code` set and an empty accumulator changes nothing: it
  does not switch collection off. `EmptyBlockKeepsCollecting` states this.
- A failed Text send leaves only the loop over the current buffer. The task goes on reading the
  body, and the frames left in the buffer are scanned again after the next chunk.
  `ClosedDrainKeepsLaterFrames` and `StreamSession.Next` state this.

## Model

| member | source | states |
|---|---|---|
| `Anthropic.RequestTools` | src/anthropic.rs:205-212 | the request names a tool exactly when code execution is enabled, and then exactly one: `code_execution` of type `code_execution_20250522` |
| `Anthropic.BuildRequest` | src/anthropic.rs:214-223 | the request carries the given messages, streams, asks for 4096 tokens, uses `ANTHROPIC_MODEL` when set and the default model otherwise, and its tools are exactly the tool selection of `RequestTools` (the single code-execution tool when enabled, none otherwise) |
| `Anthropic.RequestHeaders` | src/anthropic.rs:225-236 | the API key header is always sent; the beta header (code execution and files API) is sent exactly when code execution is enabled |
| `Anthropic.FilePairs` | src/anthropic.rs:351-359 | one pair per file output, in order, each `(file_id, file_id)` |
| `Anthropic.InterpretResult` | src/anthropic.rs:347-372 | a success result becomes a `CodeOutput` with stdout, stderr and return code copied and the file ids paired with themselves in order; an error result becomes `CodeError(error_code)` |
| `Anthropic.Classify` | src/anthropic.rs:272-291 | each error class holds exactly under its condition (401; 400 with "model" in the body; other 400; 429; 5xx; anything else), so the classes partition the non-success statuses |
| `Anthropic.StatusDisplay` | src/anthropic.rs:290 | the status prints as its decimal string: three digit characters with no leading zero, denoting the code; then a space, then the reason phrase or "<unknown status code>" |
| `Anthropic.ApiErrorMessage` | src/anthropic.rs:264-291 | the message is exactly "{label}: {text}": it starts with the class label and ": ", ends with the body text ("Failed to read error response" when the body could not be read), and is exactly as long as the two together, so nothing else stands between them |
| `Anthropic.ApiErrorMessageNamesKind` | src/anthropic.rs:262-291 | the terminal message starts with the label of the class the status chose, so the class can be read back from it; for an unclassified status it starts with "API error (", the printed status code and reason, then "): " |
| `Anthropic.Preamble` | src/anthropic.rs:196-297 | two connection notices come first; the task streams exactly on a success status; otherwise exactly one `"\n\nError: ..."` text follows, for a transport failure or for the status's message |
| `Framing.FindSeparator` | src/anthropic.rs:318 | the result is the first position of `"\n\n"`, and None exactly when there is none |
| `Framing.SplitFrames` | src/anthropic.rs:318-320 | the frames, each followed by `"\n\n"`, then the remainder, give back the whole buffer; no frame and not the remainder contains a separator |
| `Framing.SplitJoinRoundTrip` | src/anthropic.rs:318-320 | splitting is the inverse of joining: well-formed frames and a separator-free remainder are recovered exactly from their join |
| `Framing.Lines` | src/anthropic.rs:324 | no line of `str::lines` contains a newline |
| `Framing.LinesCons` | src/anthropic.rs:324 | `lines` takes off one newline-ended line at a time, dropping a trailing carriage return |
| `Framing.FirstDataLine` | src/anthropic.rs:324 | the index of the first line that starts with `data: `, or None exactly when no line does |
| `Framing.LinesLast` | src/anthropic.rs:324 | a last line without a newline is kept whole |
| `Framing.FramePayload` | src/anthropic.rs:323-326 | the payload is the FIRST line of the frame that starts with `data: `, without that prefix and without a newline; None exactly when no line starts with `data: ` |
| `StreamTask.Dispatch` | src/anthropic.rs:329-404 | a `message_start` with a container sends `ContainerInfo(id, expires_at)` and one without sends nothing; a tool-result start sends the interpreted result; `message_delta`, `message_stop`, a text block start and a start of any other tool send nothing and change nothing; a `Text` is sent exactly for a text delta and carries its text; a code-tool start sets collecting and clears the accumulator; a JSON delta is appended only while collecting; a stop with a non-empty accumulator goes idle and sends `CodeInput` exactly when the code decodes; other stops change nothing; events other than start, delta and stop leave the collector alone; the accumulator stays empty while not collecting |
| `StreamTask.TextsPreserved` | src/anthropic.rs:377-383 | the concatenated texts of the events sent equal the concatenated texts of the text deltas, in order |
| `StreamTask.AccumulatesFragments` | src/anthropic.rs:384-388 | inside a block the accumulator is its old content followed by every JSON fragment in order while collecting, is untouched otherwise, and no `CodeInput` is sent |
| `StreamTask.ToolBlockSendsOneCodeInput` | src/anthropic.rs:339-401 | a code-execution block, whatever its tool-use id, sends at most one `CodeInput`: the code decoded from the concatenation of all its fragments; how the input was fragmented does not matter |
| `StreamTask.StopEndsBlock` | src/anthropic.rs:391-401 | a stop after collecting `json` sends `CodeInput(code)` exactly when `json` is non-empty and decodes, and goes idle exactly when `json` is non-empty |
| `StreamTask.EmptyBlockKeepsCollecting` | src/anthropic.rs:391-401 | a stop with collecting set and an empty accumulator sends nothing and leaves collecting set |
| `StreamTask.HandleFrame` | src/anthropic.rs:323-329 | a frame without a data line, or whose payload does not decode, sends nothing and leaves the collector unchanged; any other frame is the dispatch of its event |
| `StreamTask.AdvanceStops` | src/anthropic.rs:379-382 | the frame loop stops exactly when a Text send fails (the receiver is gone and the frame carries text); with the receiver open the frame's event is delivered, with it gone nothing is |
| `StreamTask.DrainShape` | src/anthropic.rs:318-406 | the frame loop only cuts text off the front of the buffer; with the receiver open it leaves no complete frame behind; with it gone it delivers nothing; it keeps the accumulator empty while no tool input is collected |
| `StreamTask.OpenDrainTakesAllFrames` | src/anthropic.rs:318-406 | with the receiver open, every complete frame is taken, the buffer keeps only the separator-free remainder, and the events sent are those of dispatching the frames' events in order |
| `StreamTask.ClosedDrainKeepsLaterFrames` | src/anthropic.rs:318-382 | with the receiver gone, nothing is delivered; the loop ends right after the first frame that carries text, and the frames after it stay in the buffer unprocessed |
| `StreamTask.ChunkingIrrelevant` | src/anthropic.rs:313-320 | with the receiver open, feeding two pieces of text one after the other gives the same buffer, collector and events as feeding their concatenation at once |
| `StreamTask.StreamSession.Spawn` | src/anthropic.rs:196-303 | the task starts with the request and headers built from its inputs, the preamble delivered, an empty buffer, no tool input, and goes on streaming exactly on a success status |
| `StreamTask.StreamSession.Send` | src/anthropic.rs:380 | a send succeeds exactly while the receiver is open, and only then appends the event to what was delivered |
| `StreamTask.StreamSession.DropReceiver` | src/anthropic.rs:380-381 | after the consumer drops its receiver, every send fails |
| `StreamTask.StreamSession.Cancel` | src/anthropic.rs:305-309 | once the cancellation token wins the race, the task stops |
| `StreamTask.StreamSession.DispatchEvent` | src/anthropic.rs:330-404 | the collector fields move as `Dispatch` says, its event is delivered while the receiver is open, and a failed Text send is reported |
| `StreamTask.StreamSession.ProcessFrame` | src/anthropic.rs:322-406 | one frame moves the state and the delivered events as one step of the frame loop says |
| `StreamTask.StreamSession.TakeFrame` | src/anthropic.rs:318-320 | the frame before the separator is cut off the buffer, separator included, and processed |
| `StreamTask.StreamSession.Feed` | src/anthropic.rs:315-407 | the buffer, the collector and the delivered events end as draining the old buffer plus the new text says, with the collector invariant kept |
| `StreamTask.StreamSession.Next` | src/anthropic.rs:311-411 | a valid UTF-8 chunk is fed; an invalid chunk is dropped whole and nothing changes; a read error or the end of the body stops the task with nothing else changed; nothing happens after the task has stopped |
| `Conversation.FullMessage` | src/main.rs:110-113 | the message ends with standard input; with a leading message it is that message, one space, then the input |
| `Conversation.PipeMessages` | src/main.rs:115-119 | pipe mode sends exactly one user message carrying the joined text |
| `Conversation.EntryMessage` | src/main.rs:397-417 | an entry yields a message exactly when its role is not "system" and its text parts are non-empty together, and then keeps the role and the concatenated text |
| `Conversation.History` | src/main.rs:396-418 | at most one message per entry, none with the "system" role and none with empty content |
| `Conversation.HistoryAppend` | src/main.rs:396-418 | the history of a longer conversation extends the history of its start, so order is preserved |
| `Conversation.HistoryMessagesFromEntries` | src/main.rs:396-418 | every message sent is non-system, non-empty, and is the role and concatenated text of one of the entries |
| `Conversation.CollectText` | src/main.rs:400-410 | the loop collects the concatenation of the Text parts, in order |
| `Conversation.BuildHistory` | src/main.rs:396-418 | the loop builds exactly the history that the entries define |
| `Conversation.RenamingKeepsHistory` | src/ui.rs:280-304 | renaming files in the conversation never changes the history sent to the API |
| `Conversation.RenamingKeepsText` | src/ui.rs:283-291 | renaming files changes no text of a message |
| `Downloads.Segments` | src/main.rs:520-521 | a path has at least one segment and no segment contains '/' |
| `Downloads.SegmentsSnoc` | src/main.rs:520-521 | a further '/'-separated piece adds one last segment |
| `Downloads.FileName` | src/main.rs:520-521 | the final path component, when there is one, is non-empty, not "." or "..", and has no '/' |
| `Downloads.JoinPath` | src/main.rs:540 | `Path::join` of a relative name: the path starts with the directory and ends with the name. Between them stands exactly one '/', or nothing when the directory is empty or already ends in '/'. The length makes this exact, so nothing else is inserted |
| `Downloads.JoinPathFileName` | src/main.rs:540 | a valid component joined to any directory is the final component of the joined path |
| `Downloads.SafeFileName` | src/main.rs:520-523 | the name is the final component of the resolved name, or "unnamed_file" when there is none, and never contains '/' |
| `Downloads.CleanFileName` | src/main.rs:526-538 | the cleaned name has as many characters as its input; every character is alphanumeric, '.', '-' or '_'; such characters are kept and every other one, space included, becomes '_' |
| `Downloads.CleanIdempotent` | src/main.rs:526-538 | cleaning a cleaned name returns it unchanged |
| `Downloads.CleanKeepsComponentValid` | src/main.rs:519-538 | cleaning a valid component keeps it a valid component |
| `Downloads.ResolvedNameCases` | src/main.rs:487-517 | the first successful metadata filename is the name; the second answer matters only after the first failed; `{id}.bin` is used only when both failed |
| `Downloads.FinalName` | src/main.rs:519-538 | whatever the metadata says, the name a file is saved under is a single valid path component |
| `Downloads.SavedInsideOutputDir` | src/main.rs:519-540 | the file is saved directly inside the output directory, under its cleaned name |
| `Downloads.PlaceholderNamesIdAndError` | src/main.rs:550-567 | the placeholder text contains the file id and the error |
| `Downloads.FetchFilename` | src/main.rs:487-517 | metadata is requested once, or twice after a failure; the name is the first successful filename, else `{id}.bin`; an update is sent exactly after a successful fetch, never for the fallback |
| `Downloads.DownloadAndSaveFile` | src/main.rs:478-576 | the metadata behaviour of `FetchFilename`; the path is the output directory joined with the cleaned final name; a successful download writes its bytes, a failed one writes the placeholder naming the id and the error |
| `Downloads.DownloadJobs` | src/main.rs:150-156 | downloads go into the given directory or "output", only for ids that start with "file_", and only for ids of the output's files |
| `Downloads.DownloadJobsComplete` | src/main.rs:283-285 | every file whose id starts with "file_" gets a download |
| `Downloads.DownloadJobsAppend` | src/main.rs:152-156 | downloads are started in the order of the files |
| `Ui.FilterByPrefix` | src/ui.rs:61-66 | exactly the commands whose name starts with the input are suggested |
| `Ui.FilterByPrefixAppend` | src/ui.rs:61-66 | filtering keeps the commands' original order |
| `Ui.FilterByEmptyPrefix` | src/ui.rs:306-310 | an empty input suggests every command |
| `Ui.NextIndex` | src/ui.rs:70-74 | on a non-empty list the selection moves one forward and wraps from the last to the first, staying in range; on an empty list it does not move |
| `Ui.PrevIndex` | src/ui.rs:76-84 | on a non-empty list the selection moves one back and wraps from the first to the last, staying in range; on an empty list it does not move |
| `Ui.NextPrevInverse` | src/ui.rs:70-84 | on an index in range, a move forward and a move back undo each other |
| `Ui.NextCycles` | src/ui.rs:70-74 | after k moves forward from the first suggestion, the selection is suggestion k mod n |
| `Ui.SlashCommandState.constructor` | src/ui.rs:53-59 | a new autocomplete has no input, no suggestions and index 0 |
| `Ui.SlashCommandState.UpdateSuggestions` | src/ui.rs:61-68 | the suggestions become the commands matching the input, and the index resets to 0 |
| `Ui.SlashCommandState.NextSuggestion` | src/ui.rs:70-74 | the index moves as `NextIndex` says |
| `Ui.SlashCommandState.PrevSuggestion` | src/ui.rs:76-84 | the index moves as `PrevIndex` says |
| `Ui.SlashCommandState.GetSelected` | src/ui.rs:86-88 | None exactly when the index is out of range; otherwise the suggestion at the index |
| `Ui.TextOfAppend` | src/main.rs:400-410 | the text of the Text parts of a concatenation is the concatenation of their texts |
| `Ui.AppendText` | src/ui.rs:169-177 | a trailing Text part is extended, otherwise one Text part is pushed; the earlier parts are kept and the result ends with Text |
| `Ui.AppendTextKeepsText` | src/ui.rs:169-177 | no streamed text is lost or reordered: the text of the parts grows by exactly the appended text |
| `Ui.AppendRun` | src/ui.rs:169-177 | a run of appends leaves one Text part holding their concatenation after the earlier, unchanged parts |
| `Ui.ScrollBounds` | src/ui.rs:236-252 | the position never exceeds total minus visible (saturating); with auto-scroll it is that maximum; otherwise it is clamped; auto-scroll ends on exactly when it was on or the position is at the maximum |
| `Ui.ScrollBoundsIdempotent` | src/ui.rs:236-252 | recomputing the bounds for the same text and window changes nothing |
| `Ui.ToggledCode` | src/ui.rs:258-265 | the code-execution flag is flipped and the web-search flag kept |
| `Ui.ToggledWeb` | src/ui.rs:267-274 | the web-search flag is flipped and the code-execution flag kept |
| `Ui.TogglesInvolutiveAndCommute` | src/ui.rs:258-274 | each toggle undoes itself and the two toggles commute |
| `Ui.RenamedPairs` | src/ui.rs:285-289 | the list keeps its length; each pair gets the new name exactly when its id matches |
| `Ui.RenamedParts` | src/ui.rs:283-291 | every part of a content list is renamed in place and the list keeps its length |
| `Ui.RenamedMessages` | src/ui.rs:282-292 | every message keeps its role and has its parts renamed; the list keeps its length |
| `Ui.RenamedPartShape` | src/ui.rs:284-289 | renaming changes only the names of the pairs whose id matches; ids, list lengths, the other fields and other kinds of part are unchanged |
| `Ui.RenamedPartsIdempotent` | src/ui.rs:280-304 | renaming twice with the same name is renaming once |
| `Ui.RenameInPairs` | src/ui.rs:285-289 | the pair loop computes the renamed pairs |
| `Ui.RenameInParts` | src/ui.rs:283-291 | the part loop computes the renamed parts |
| `Ui.App.Default` | src/ui.rs:111-141 | the initial state: empty conversation, scroll 0 with auto-scroll on, no tools, the one `/clear` command and the default system prompt |
| `Ui.App.AddMessage` | src/ui.rs:144-148 | one message with a single Text part is appended |
| `Ui.App.ClearInput` | src/ui.rs:150-152 | the input becomes empty |
| `Ui.App.StartStreaming` | src/ui.rs:154-159 | the streaming content is emptied and the animation restarts |
| `Ui.App.AppendStreamingText` | src/ui.rs:169-177 | the streaming content becomes `AppendText` of the old content |
| `Ui.App.AddStreamingCode` | src/ui.rs:179-182 | a Code part is appended to the streaming content |
| `Ui.App.AddStreamingOutput` | src/ui.rs:184-197 | a CodeOutput part is appended to the streaming content |
| `Ui.App.AddStreamingError` | src/ui.rs:199-202 | a CodeError part is appended to the streaming content |
| `Ui.App.AddApiError` | src/ui.rs:204-207 | a "system" message holding the ApiError is appended |
| `Ui.App.SetContainerInfo` | src/ui.rs:209-211 | the container info becomes the given id and expiry |
| `Ui.App.SetConnectionStatus` | src/ui.rs:213-215 | the connection status becomes the given value |
| `Ui.App.FinishStreaming` | src/ui.rs:217-223 | one assistant message holding the streamed parts is appended exactly when there were any; afterwards the streaming content is empty and the status is cleared |
| `Ui.App.ScrollUp` | src/ui.rs:225-228 | the position decreases, saturating at 0, and auto-scroll is switched off |
| `Ui.App.ScrollDown` | src/ui.rs:230-234 | the position increases, saturating at the usize maximum, and auto-scroll is switched off |
| `Ui.App.UpdateScrollBounds` | src/ui.rs:236-252 | the total is recorded and the position and auto-scroll become what `ScrollBounds` says |
| `Ui.App.ToggleSelectionMode` | src/ui.rs:254-256 | selection mode is flipped |
| `Ui.App.ToggleCodeExecution` | src/ui.rs:258-265 | the tool mode moves as `ToggledCode` says |
| `Ui.App.ToggleWebSearch` | src/ui.rs:267-274 | the tool mode moves as `ToggledWeb` says |
| `Ui.App.ToggleHelp` | src/ui.rs:276-278 | the help overlay is flipped |
| `Ui.App.UpdateFileMetadata` | src/ui.rs:280-304 | the messages and the streaming content become their renamed versions; no other field changes |
| `Ui.App.StartSlashCommand` | src/ui.rs:306-310 | a new autocomplete opens with empty input, every command suggested and the first selected |
| `Ui.App.UpdateSlashCommand` | src/ui.rs:312-317 | an open autocomplete takes the new input and suggests exactly the matching commands, first selected |
| `Ui.App.CancelSlashCommand` | src/ui.rs:319-321 | the autocomplete closes |
| `Ui.App.ExecuteSlashCommand` | src/ui.rs:323-336 | `/clear` empties messages and streaming content, sets scroll 0, auto-scroll on, total 0 and no container; in every case the autocomplete closes and the input is cleared |
| `Prelude.SaturatingSub` | src/ui.rs:226 | `usize::saturating_sub`: never below 0, and 0 exactly when the subtrahend is not smaller |
| `Prelude.SaturatingAdd` | src/ui.rs:231 | `usize::saturating_add`: never below the first operand, and the exact sum whenever it fits |
| `Prelude.DecimalString` | src/anthropic.rs:290 | the number printed as decimal digits that denote it, with no leading zero |

## Left out

- Concurrency is left out: `tokio::spawn`, the `tokio::select!` race and the bounded mpsc channels (capacity 100, blocking sends). The event channel is the `delivered` sequence plus the `receiverOpen` flag. Cancellation is the `Cancel` step between two reads. A receiver dropped while a chunk is being processed is not modelled: `receiverOpen` changes only between chunks.
- HTTP is left out: the request, `get_file_metadata`, `download_file` and `list_files`. Their answers are parameters (`RequestOutcome`, `MetaResult`, `DownloadResult`). The reason phrase printed with an unclassified status comes from reqwest's fixed `StatusCode::canonical_reason` table. The model does not include that table: the phrase is a free parameter of the response.
- serde decoding of `StreamEventData`, the `serde_json::Value` lookup of `"code"` and `std::str::from_utf8` are uninterpreted functions of `Decoders`. A multi-byte character split across two chunks therefore makes the chunk invalid, and the chunk is dropped whole, as in the code.
- `Path::file_name` is approximated on the Unix reading of '/'-separated components, skipping empty and "." components and giving None for "..". `to_string_lossy` changes nothing because the names are already strings. `char::is_alphanumeric` is the parameter `isAlnum`.
- Downloads.DownloadAndSaveFile: does not return the function's `Result`. `create_dir_all`, `File::create` and `write_all` are assumed to succeed, so the errors they raise through `?` are not modelled. The 500 ms sleep before the retry is not modelled.
- The metadata update is recorded as sent. In pipe mode the receiver is dropped at once, so that send fails silently; that is not modelled.
- `update_loading_animation` and `last_animation_update` are not modelled because they read the wall clock.
- Rendering is not modelled: `ui`, `render_*`, `build_message_lines` and `centered_rect`. Nor are terminal set-up, key and mouse dispatch in `run_tui_mode`/`run_app`, or the printing in `run_pipe_mode`. The event loops in `run_app` and `run_pipe_mode` that hand each `StreamEvent` to `App` methods are not modelled; their pieces are (`DownloadJobs`, the `App` methods).
- `src/logger.rs` is not modelled: it only writes timestamped lines to a file. The `log_debug!` calls, including the classification of transport errors by their text, only log, and are not modelled either.
- `src/main.rs` reads `app.code_execution_enabled`, a field that `App` (src/ui.rs:91-109) does not declare. Which flag the interactive loop passes to the client is therefore not modelled.
- The `StreamEvent` matches in `src/main.rs` have no arm for `ConnectionStatus`, which the stream task does send. How the consumer treats that event is not modelled.
- Return codes are Rust `i32` (`Int32`) and scroll values `usize` on a 64-bit target (`Usize`). Nothing in the modelled code does arithmetic on return codes. Scrolling saturates explicitly.
