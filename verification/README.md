# Model of the OpenClaw daemon

This project models the stateful core of the OpenClaw daemon and proves what its pieces promise each other. The daemon
sits between a cloud service and a local OpenClaw gateway: it forwards chat messages to the gateway and turns the
gateway's event stream into numbered reply chunks, it applies configuration the cloud sends, and it generates videos
through a provider.

`dafny verify dfyconfig.toml` checks everything. Each file is one module.

* **Chat replies.** `ChatEvents` reads single gateway frames; `EventFields` and `MarkdownTexts` say what it finds in
  them and where. `ReplyText` merges delta texts, `Attachments` builds, deduplicates and uploads media references.
  `Collector` is the turn collector as a fold over frames, with the transcript, the media backend and the URL rewriting
  as functions it is given. The theorems about it are in `CollectorRuns` (whole runs), `Freshness` (which snapshots are
  taken), `TurnEnd` (the text and shape of a finished turn) and `TurnVerdict` (what ends a turn, with which reason and
  error). `CollectReplies` is the collector in the code's own form, with local variables updated frame by frame, proved
  equal to the fold. `ChatSession` is one gateway connection: handshake, subscription, request, collection. `Router` is
  what one `chat_msg` makes the daemon send.
* **Transcript.** `Transcript` is the one-pass reader of the session log, proved equal to a declarative "last turn";
  `TranscriptEntries` says what each entry of the log contributes to it.
  `TranscriptPoller` is growth of the log and the bounded wait for a reply; `TranscriptRecovery` puts log, poll and
  collector together.
* **Configuration.** `JsonEdits` is a small theory of edits of single places in a JSON object and of when they
  commute. `JsonAbsorbed` says when edits leave nothing of the document they are applied to. `Settings` says which
  edits a payload asks for, `JsonPatch` what patching guarantees and `PatchedConfig` what the patched file says,
  setting by setting; `JsonDocument` and `JsonConfig` are the in-place patch of mutable maps through aliased child
  references, proved to give the patched document. `EnvFile` prints .env and reads it back in three ways,
  `EnvContents` says what is in it. `Store` is the directory, the atomic write and the state file. `ConfigMachine` is
  a delivery as four commits and the crash/retry theorem, `ConfigCauses` says what a delivery changes and answers in
  terms of what was there and what fails, `ConfigVersions` serial runs of everything that writes the state file,
  `ConfigManager` the method `Apply` on real files, proved to go through exactly those commits; `TextFormats` shows
  that the file formats it relies on exist.
* **Video.** `SingleFlight` is the mutex, map and channel protocol as a state machine over the steps of any number of
  callers; `VideoTask` is polling and the way from a prompt to one final reply; `VideoReplies` puts router, gate, single
  flight and generation together.
* **Mishaps.** `Mishaps` has inputs as they come in from outside (frames, logs, values) on which something unexpected
  happens.

`GoText`, `Json`, `Protocol` and `Sorting` are shared: the Go string functions, decoded JSON, the reply type, and
`sort.Strings`.

Files, the clock, network answers, Go's regular expressions and provider calls are parameters. A parameter that stands
for something failing says at which call it fails, so theorems quantified over it cover every combination of failures.

## What turned out not to hold

Where a natural expectation fails, the code is modelled as it is; there is a lemma with a concrete input, and one that
says exactly when the expectation is met.

* A recovered transcript is not always what the chunks add up to: it can be sent twice (`Mishaps.TranscriptSentTwice`,
  a run of the collector), without its beginning, or not at all (`TurnEnd.TranscriptMishaps`).
  `TurnEnd.FinalTextIsTranscript` is the exact condition.
* Deltas that are increments can be lost (`ReplyText.IncrementsMayBeLost`). They never are if and only if each one is
  empty, or has no newline at an end and does not begin with everything before it (`ReplyText.IncrementalStream`).
* A reply read from the transcript can be lost when the user speaks again while the poll is waiting
  (`Mishaps.ReadingMayBeLost`, with two logs); it is if and only if the last read finds a complete but blank reply that
  is late enough (`TranscriptPoller.ReadingLostIff`).
* A value with a single quote does not come back from .env as it was (`Mishaps.QuoteComesBackEscaped`). The video
  service reads everything back unchanged if and only if no value contains a single quote or a newline or has a double
  quote at an end, and keys are clean (`EnvFile.RoundTripIff`).
* Redelivering a configuration can lose settings: an openclaw.json that cannot be read counts as empty
  (`ConfigMachine.UnreadableLosesSettings`). It converges if and only if no attempt replaced the file unread, or the
  file had nothing a patch would keep (`ConfigMachine.ConvergesIff`, `JsonPatch.ReplaceableIff`).
* A failed delivery may have replaced .env although the old version stays stored (`ConfigVersions.FailedMayChangeEnv`);
  it has, if and only if everything up to .env went through, something after that failed, and the content is new
  (`ConfigVersions.FailedChangesEnvIff`).
* Two calls of one video request can be answered differently (`SingleFlight.GateMayDivide`); they are if and only if
  `Enabled` said different things in their first turns (`SingleFlight.SameAnswerIff`).
* On the video path the chunk number 1 can be used twice (`VideoReplies.NumberOneTwice`); the numbers go up if and only
  if `Enabled` still holds in the caller's first turn and a provider key is found (`VideoReplies.VideoNumbersIff`).

## Model

| member | source | states |
|---|---|---|
| `Collector.AbsorbKeepsStreaming` | internal/gateway/adapter.go:541-581 | one matched event keeps the streaming invariant: chunks numbered 1..n, non-empty, open, adding up to the assembled text; a snapshot held exactly when verified; attachments deduplicated and built from references |
| `Collector.ObserveKeepsStreaming` | internal/gateway/adapter.go:495-581 | so does every run of frames that do not end the turn, and no chunk already emitted changes |
| `CollectorRuns.CollectAtFirstTerminal` | internal/gateway/adapter.go:495-706 | the collection is decided by the first frame that ends the turn and the state it finds; without one the connection is lost with the chunks so far |
| `CollectorRuns.IrrelevantFramesChangeNothing` | internal/gateway/adapter.go:503-541 | undecodable, control, foreign and non-chat frames, wherever they come in, change neither the state nor the outcome |
| `EventFields.ConcernsIff` | internal/gateway/adapter.go:955-1000 | the collector looks at a frame if and only if it is one of three events and names the run, or the session or the gateway's name for it, or there is neither to name |
| `EventFields.SessionIsFound` | internal/gateway/adapter.go:1002-1024 | the session looked up is one the event names, however deeply wrapped, other than the cloud's; none is found only if it names none |
| `EventFields.TextIsFound` | internal/gateway/adapter.go:1058-1095 | the text of an event is that of something in it, however deeply wrapped; it has none only if nothing in it has |
| `EventFields.WrappedTextFirst` | internal/gateway/adapter.go:1062-1068 | what is wrapped comes before the event's own text |
| `EventFields.DeltaIs` | internal/gateway/adapter.go:1069-1075 | a delta is exactly what the field of that name holds, a structure only on the assistant's stream |
| `EventFields.SnapshotIs` | internal/gateway/adapter.go:1072-1095 | a snapshot is exactly the first text in a fixed order of places |
| `EventFields.MessageTextIs` | internal/gateway/adapter.go:1097-1119 | a message gives a text only if it is by the assistant or nobody: what the user says never comes back |
| `MarkdownTexts.DeepStringOfObject` | internal/gateway/adapter.go:1225-1245 | a structure stands for the first text among five fields |
| `MarkdownTexts.DeepStringOfList` | internal/gateway/adapter.go:1235-1242 | a list for its items' texts one after the other |
| `MarkdownTexts.DeepStringOfOne` | internal/gateway/adapter.go:1225-1245 | a list of one item for that, a string for itself, and other values for nothing |
| `MarkdownTexts.CodeBlock` | internal/gateway/adapter.go:1148-1206 | a code block is its first non-blank code, fenced, with its language; without code it is nothing |
| `MarkdownTexts.TextBlock` | internal/gateway/adapter.go:1148-1174 | any other block is its text, or its value if its kind is not one of plain text |
| `MarkdownTexts.ContentFirst` | internal/gateway/adapter.go:1121-1131 | the content of a block comes before what else it says |
| `MarkdownTexts.BlocksAppend` | internal/gateway/adapter.go:1133-1142 | the blocks of a list are those of its items in order |
| `MarkdownTexts.OneBlock` | internal/gateway/adapter.go:1133-1140 | a blank block is left out |
| `CollectorRuns.FloorRises` | internal/gateway/adapter.go:545-547 | the timestamp floor never decreases and is the latest user time seen so far, or 0 |
| `Freshness.HeldIsLastFresh` | internal/gateway/adapter.go:563-574 | no snapshot is held if and only if no frame offered a fresh one; otherwise the one held is the last fresh one: it names this run, or its message is by the assistant or nobody and dated later than every user message seen by then, one of which is dated |
| `Freshness.ReplacedIffFresh` | internal/gateway/adapter.go:708-727 | a frame replaces the held snapshot if and only if what it offers is fresh in that sense |
| `Freshness.LastSessionWins` | internal/gateway/adapter.go:542-544 | the session whose transcript is looked up is the one named last |
| `Freshness.UserTimeIsFound` | internal/gateway/adapter.go:1026-1048 | the user time of an event is that of a dated user message in it, however deeply wrapped, its own first; it is 0 only if there is none |
| `Freshness.DateIs` | internal/gateway/adapter.go:1506-1528 | times are numbers cut off to whole ones, or texts that parse as a time; all else is none |
| `Freshness.TruncatesTowardZero` | internal/gateway/adapter.go:1512-1513 | the conversion of a number drops its fraction, whatever the sign |
| `CollectorRuns.AttachmentsOfRun` | internal/gateway/adapter.go:576-581 | deduplicating after every event equals one first-occurrence deduplication of everything the events brought |
| `CollectorRuns.BroughtAt` | internal/gateway/adapter.go:576-581 | an event brings what it and the text known by then refer to, the snapshot before the streamed text |
| `CollectorRuns.AssembledFromDeltas` | internal/gateway/adapter.go:549-552 | the assembled text is the merge of the run's delta texts alone, in order |
| `CollectorRuns.CumulativeRun` | internal/gateway/adapter.go:549-562 | if each delta repeats and possibly extends the one before, assembled text and chunks are the last delta without surrounding newlines |
| `CollectorRuns.IncrementalRun` | internal/gateway/adapter.go:549-562 | for incremental deltas the chunks are their concatenation if and only if no delta has a newline at an end or begins with everything before it |
| `ReplyText.CumulativeStream` | internal/gateway/adapter.go:1208-1223 | a cumulative stream assembles to its last text without surrounding newlines, because trimming them is monotone for the prefix order |
| `ReplyText.NewlinesDoNotMatter` | internal/gateway/adapter.go:1208-1212 | newlines around a delta never matter |
| `ReplyText.AppendsIff` | internal/gateway/adapter.go:1208-1223 | one delta is appended unchanged exactly when it is empty, or has no newline at an end and does not begin with the text so far |
| `ReplyText.IncrementalStream` | internal/gateway/adapter.go:1208-1223 | a stream of deltas is concatenated if and only if every one of them is appended unchanged; it never becomes longer than the concatenation |
| `ReplyText.IncrementsMayBeLost` | internal/gateway/adapter.go:1208-1223 | an input on which a repeated increment disappears |
| `TurnEnd.SettledText` | internal/gateway/adapter.go:583-668 | for all streamed texts, snapshots and transcripts: what the chunks add up to at the end of the turn, and the streamed chunks stay an unretracted prefix |
| `TurnEnd.FinalTextWithoutTranscript` | internal/gateway/adapter.go:631-657 | without a transcript the text is the snapshot if nothing was streamed or it extends that, both in a row if not, and a blank streamed text hides the snapshot |
| `TurnEnd.FinalTextIsTranscript` | internal/gateway/adapter.go:596-657 | the final text is the recovered transcript if and only if the streamed text is not blank and a prefix of it, or nothing was streamed and the snapshot is blank or equal to it |
| `TurnEnd.TranscriptMishaps` | internal/gateway/adapter.go:596-657 | three values of streamed text, snapshot and transcript for which the final text has the transcript twice, without its beginning, or not at all |
| `Mishaps.TranscriptSentTwice` | internal/gateway/adapter.go:583-668 | two frames and a transcript for which the collector's chunks add up to the streamed text followed by the transcript twice |
| `TurnEnd.SealedChunk` | internal/gateway/adapter.go:670-703 | sealing changes only the last chunk's ending, error, attachments and text; "stop" is claimed only with text or an attachment to show; if every upload failed the reason is "error" |
| `TurnVerdict.EndsTurnIff` | internal/gateway/adapter.go:1247-1275 | an agent event ends the turn only by its lifecycle, any other also by one of eleven statuses or a flag |
| `TurnVerdict.ReasonIs` | internal/gateway/adapter.go:1277-1297 | the reason is what the lifecycle says, or else the status |
| `TurnVerdict.FailsIff` | internal/gateway/adapter.go:670-695 | the last chunk's reason is "error" if and only if the gateway says so, all attachments failed, or it would stop with nothing to show; otherwise it is the gateway's |
| `TurnVerdict.ErrorCodeIs` | internal/gateway/adapter.go:674-702 | a failed turn has the gateway's code, or else one for what failed; any other has none |
| `TurnVerdict.ErrorMessageIs` | internal/gateway/adapter.go:674-702 | and so with the message |
| `TurnVerdict.LastTextIs` | internal/gateway/adapter.go:674-687 | the last text is rewritten only with attachments, and if they all failed it shows the notice and keeps what it had |
| `TurnVerdict.TranscriptMatters` | internal/gateway/adapter.go:584-616 | what a turn comes to is independent of the transcript if and only if there is no session to look up, or text and snapshot are there and no user message was dated |
| `TurnEnd.CollectedStream` | internal/gateway/adapter.go:484-706 | a collection finishes exactly if some frame ends the turn, and then with one closed stream: numbers 1..n, only the last chunk final and ended, "stop" only with something to show |
| `TurnEnd.TurnText` | internal/gateway/adapter.go:583-706 | the text of a whole turn in terms of its frames: merged deltas, held snapshot and transcript; attachments touch the last chunk only |
| `TurnEnd.TurnAttachments` | internal/gateway/adapter.go:578-674 | the last chunk carries all references brought by the turn's events and its transcript, each once, as uploaded |
| `CollectReplies.AbsorbEvent` | internal/gateway/adapter.go:541-581 | the loop body on its local variables computes the fold's step |
| `CollectReplies.RecoverTranscript` | internal/gateway/adapter.go:584-621 | the transcript is looked up, and merged, exactly when the fold says so |
| `CollectReplies.FlushPending` | internal/gateway/adapter.go:631-668 | the pending snapshot is flushed, and a turn without chunks gets an empty one |
| `CollectReplies.CompleteChunk` | internal/gateway/adapter.go:670-703 | the last chunk, completed field by field, is the sealed chunk |
| `CollectReplies.FinishTurn` | internal/gateway/adapter.go:583-704 | what the code returns for the turn is the fold's conclusion |
| `ChatEvents.JoinMarkdownBlocks` | internal/gateway/adapter.go:1176-1194 | the builder loop gives the blocks with the missing newlines, up to two, between neighbours |
| `MarkdownTexts.GapIsLeast` | internal/gateway/adapter.go:1182-1190 | between two blocks come just as many newlines as are missing for a blank line |
| `ChatSession.FirstResponse` | internal/gateway/adapter.go:336-359 | the frame a phase waits for is the first response with the request's id; everything before is skipped |
| `ChatSession.Acked` | internal/gateway/adapter.go:233-260 | a phase is passed only if its request was written and its first response is an OK, and reading goes on behind that |
| `ChatSession.Connection.HandleControlFrame` | internal/gateway/adapter.go:362-397 | a hello-ok's token is stored unless blank or not storable; only hello-ok and non-chat events are kept from the caller |
| `ChatSession.Connection.CompleteHandshake` | internal/gateway/adapter.go:263-360 | the connect request is written only after a challenge as first frame; the handshake succeeds exactly on an OK connect response; no token is stored meanwhile |
| `ChatSession.Connection.AwaitResponse` | internal/gateway/adapter.go:234-260 | succeeds exactly if the first response is an OK; tokens of the hello-ok frames read meanwhile are stored |
| `ChatSession.Connection.CollectChatReplies` | internal/gateway/adapter.go:484-706 | the loop over the connection returns what the fold over the remaining frames gives, and reads no frame behind the one that ends the turn |
| `ChatSession.Connection.RequestRun` | internal/gateway/adapter.go:147-170 | the requests written, the position reached and the stored state after the three phases, for every sequence of frames |
| `ChatSession.Connection.Chat` | internal/gateway/adapter.go:147-186 | there is a turn exactly after three OK responses, and it is collected from the frames behind the chat.send response only |
| `ChatSession.TurnIff` | internal/gateway/adapter.go:147-170 | a turn is collected if and only if the first frame is a challenge that can be signed, the three requests can be written, and each is accepted by the first response to it, one behind the other; it is collected from behind the last |
| `ChatSession.SendsAfterAcks` | internal/gateway/adapter.go:147-168 | chat.send is written only after an OK connect response and, after that, an OK subscribe response |
| `ChatSession.WritesOnce` | internal/gateway/adapter.go:147-170 | each request is written at most once, in this order, with frames read in between |
| `ChatSession.EarlierFramesDoNotCount` | internal/gateway/adapter.go:399-452 | two inboxes with the same responses to the requests in the same order, and the same frames behind the chat.send response, have the same scope and outcome, whatever and however many other frames come before |
| `ChatSession.SentInserted` | internal/gateway/adapter.go:336-359 | a frame inserted behind the challenge that answers none of the requests only moves the position behind the chat.send response by one |
| `ChatSession.ReplacedFramesDoNotCount` | internal/gateway/adapter.go:399-452 | replacing such frames changes neither the requests and when they are written, nor the frames left to collect from |
| `ChatSession.LastTokenWins` | internal/gateway/adapter.go:391-397 | the stored device token is that of the last hello-ok that has one and whose saving succeeded; without one it is unchanged, and nothing else of the state ever changes |
| `ChatSession.ConsumedUpToEnd` | internal/gateway/adapter.go:495-704 | the collector reads up to and including the first frame that ends the turn |
| `ChatSession.ScopeIs` | internal/gateway/adapter.go:416-452 | a turn is collected for the run the chat.send response names, and the request's own session and message |
| `Router.ChatWithGateway` | internal/gateway/adapter.go:147-186 | the adapter answers exactly for a finished turn, with a closed stream; its "no chat events" fallback cannot be reached |
| `Router.StampedStream` | internal/router/router.go:214-222 | stamping keeps a closed stream closed, puts the request id, session and a role on every reply, and changes nothing else |
| `Router.ErrorIsOneReply` | internal/router/router.go:199-213 | an error is delivered as one final reply with its code and message, by the assistant |
| `Router.RolesAreSupplied` | internal/router/router.go:214-220 | a reply without a role is delivered as the assistant's |
| `Router.RequestNamesMessage` | internal/router/router.go:120-123 | what is written to the gateway names the payload's session, and the cloud's message id unless that is blank |
| `Router.MessageRouter.Deliver` | internal/router/router.go:147-166 | what is sent for an answer: its replies in order, stamped, or one final error reply |
| `Router.MessageRouter.HandleGatewayChat` | internal/router/router.go:199-222 | on the gateway path the replies are a closed stream numbered 1..n, those of the collected turn or one CHAT_EXECUTION_FAILED; "stop" only with something to show |
| `Router.MessageRouter.HandleChat` | internal/router/router.go:111-223 | every chat_msg produces at least one reply, all with the request's id, of which the last alone is final and ended |
| `Router.VideoStream` | internal/router/router.go:136-167 | on the video path the notice and one final reply are one stream |
| `Router.MessageRouter.HandleVideoChat` | internal/router/router.go:125-167 | on the video path the notice is sent first, then what the service answered, and the two are one stream |
| `VideoReplies.VideoNumbers` | internal/video/service.go:72-110 | for every interleaving of calls: a finished caller gets one stream, numbered 1, 1 if the gate was closed in its first turn, and otherwise 1, 2 exactly if the one caller that generated for the request found a provider key |
| `VideoReplies.VideoNumbersIff` | internal/router/router.go:125-167 | with the same configuration for all calls of a request, the numbers go up, 1 and 2, if and only if the gate is open in the caller's first turn and a provider key is found |
| `VideoReplies.NumberOneTwice` | internal/video/service.go:72-99 | two runs in which number 1 is used twice: the gate closes after routing, and no provider key is found |
| `VideoReplies.SharedAnswer` | internal/video/service.go:79-91 | a caller that returned got the single final reply of the caller that generated for its request |
| `Router.VideoRequestHasPrompt` | internal/video/prompt_parser.go:14-32 | a text taken for a video request is not blank, so the empty-prompt error is unreachable from the router |
| `Router.VideoRequestIff` | internal/video/prompt_parser.go:5-28 | a text is a video request if and only if it mentions one of six words, or two others, in any case |
| `Transcript.LastTurnIsSuffix` | internal/gateway/adapter.go:1405-1440 | the last turn is exactly what follows the last user entry |
| `Transcript.ReadTranscriptAssistantReply` | internal/gateway/adapter.go:1388-1461 | for every log the one-pass reader that starts over at user entries returns the declarative last-turn reply |
| `TranscriptEntries.LastEntryCounts` | internal/gateway/adapter.go:1438-1448 | the time of the reply and whether it is complete are those of the turn's last assistant entry: dated, and not stopping for a tool |
| `TranscriptEntries.NoEntryNoReply` | internal/gateway/adapter.go:1415-1448 | without an assistant entry after the last user entry there is no text, no time, and nothing complete |
| `TranscriptEntries.EveryTextCounts` | internal/gateway/adapter.go:1429-1437 | every assistant entry of the turn contributes its text, at its place, set off by blank lines |
| `TranscriptEntries.ToolsAloneIfLocal` | internal/gateway/adapter.go:1478-1494 | an attachment is in the reply if and only if a tool found it, or an assistant entry has it and no tool found a local file |
| `TranscriptEntries.RolesAreRead` | internal/gateway/adapter.go:1405-1446 | the lines that count as user, assistant and tool entries |
| `TranscriptEntries.EntrySays` | internal/gateway/adapter.go:1429-1439 | an assistant entry says its content, or else its first text that is not blank, and brings what it and that text refer to |
| `TranscriptEntries.EntryIsDated` | internal/gateway/adapter.go:1496-1504 | an entry has its message's time, or else its own |
| `TranscriptEntries.ToolFinds` | internal/gateway/adapter.go:1463-1476 | what a tool found is what its message, its details and the media among these refer to |
| `Transcript.PreferredAttachments` | internal/gateway/adapter.go:1478-1494 | tool attachments alone if one of them is local, otherwise both lists, deduplicated |
| `TranscriptPoller.OnlyLastTurnMatters` | internal/gateway/adapter.go:1415-1425 | everything before the last user entry is irrelevant |
| `TranscriptPoller.ReplyGrows` | internal/gateway/adapter.go:1397-1461 | on an append-only log, whose torn last line may get completed, without a new user entry, the reply text only gets longer |
| `TranscriptPoller.ReadingIsSound` | internal/gateway/adapter.go:1397-1461 | a reading's text has no newline around it and its attachments come from media references |
| `TranscriptPoller.LoadTranscriptAssistantReply` | internal/gateway/adapter.go:1350-1386 | the poll stops at the first read after which it is over, with that read's outcome, after at most timeout / 100 ms + 2 reads |
| `TranscriptPoller.OutcomeIsOneReading` | internal/gateway/adapter.go:1357-1386 | a non-blank outcome takes text and attachments from one single read that is later than the floor if there is one |
| `TranscriptPoller.OutcomeIs` | internal/gateway/adapter.go:1357-1386 | when the wait is over, and what it gives: a complete late enough reply once a usable one was read, at the deadline the last usable one, an error if the log is unreadable or the wait cancelled |
| `TranscriptPoller.OutcomeExtendsReadings` | internal/gateway/adapter.go:1357-1386 | if every later reading extends the earlier ones, the outcome extends every acceptable reading made |
| `TranscriptPoller.ReadingLostIff` | internal/gateway/adapter.go:1357-1386 | after an acceptable reading the outcome is blank if and only if the read that ends the wait finds a complete reply that is late enough and blank |
| `Mishaps.ReadingMayBeLost` | internal/gateway/adapter.go:1357-1386 | two logs, the second the first with a new user entry and an empty reply appended, for which the poll ends with nothing although a reply had been read |
| `TranscriptPoller.PolledRecoveryIsSound` | internal/gateway/adapter.go:1350-1386 | if every reading is free of surrounding newlines and built from references, so is the outcome |
| `TranscriptRecovery.NothingLostInOneTurn` | internal/gateway/adapter.go:1350-1461 | polling a log that is only appended to, in which the user does not speak again, gives an outcome that extends every acceptable reply read on the way |
| `TranscriptRecovery.LogsAreSound` | internal/gateway/adapter.go:1350-1461 | for all logs: what polling hands the collector has no newline around it and attachments from references, as the collector's theorems require |
| `TranscriptRecovery.TextFromLog` | internal/gateway/adapter.go:583-668 | the text of a turn whose transcript was polled, in terms of the streamed text, the snapshot and the last log read |
| `TranscriptRecovery.StreamedTurnEndsAsLog` | internal/gateway/adapter.go:583-668 | if what was streamed is the reply as the log had it earlier in the turn, the chunks add up to the reply in the last log read |
| `TranscriptPoller.StreamedPartIsCompleted` | internal/gateway/adapter.go:596-657 | if what was streamed is what the log said at some moment of the turn, recovering from the log later gives exactly the transcript's text |
| `Attachments.Deduplicate` | internal/gateway/adapter.go:1846-1861 | the loop with its set of seen keys keeps the first item of every key |
| `Attachments.DedupIncremental` | internal/gateway/adapter.go:576-581 | deduplicating early and again with more gives what deduplicating once gives |
| `Attachments.DedupDistinct` | internal/gateway/adapter.go:1846-1861 | no key is left twice |
| `Attachments.KeyInjective` | internal/gateway/adapter.go:1658-1672 | on attachments built from references, equal keys mean equal attachments |
| `Attachments.RefIs` | internal/gateway/adapter.go:1658-1672 | a reference is shown as a URL if and only if it parses and has an http or https scheme in any case; otherwise it is a local path to upload |
| `Attachments.DedupKeepsEveryItem` | internal/gateway/adapter.go:1846-1861 | so deduplication loses none of them |
| `Attachments.UploadLocalAttachments` | internal/gateway/adapter.go:1674-1687 | the items are replaced in place, one by one |
| `Attachments.UploadKeepsItems` | internal/gateway/adapter.go:1674-1748 | order and count are kept, nothing stays pending, and every item is a URL, an uploaded medium, or a local file whose upload failed |
| `Attachments.UploadIs` | internal/gateway/adapter.go:1700-1738 | an upload fails exactly if the backend refuses or does not say where to; otherwise the medium replaces the path, shown at the last URL given |
| `Attachments.SummarizeFailures` | internal/gateway/adapter.go:1863-1886 | the loop raises a failure, with the first message, exactly for a non-empty list in which everything failed |
| `Attachments.FailureIffAllUploadsFailed` | internal/gateway/adapter.go:1863-1886 | after uploads the failure is raised if and only if there are items and each is a failed local upload |
| `Settings.CollectConfiguredModelRefs` | internal/manager/config_manager.go:317-328 | the loop collects the configured references in key order, without repeats |
| `Settings.RefsAreConfigured` | internal/manager/config_manager.go:317-328 | a reference is collected if and only if some model key is set to it, and none twice |
| `Settings.GroupByProvider` | internal/manager/config_manager.go:268-280 | the loop groups the models of the splittable references by provider |
| `Settings.SplitModelRefIff` | internal/manager/config_manager.go:309-315 | a reference splits into provider and model if and only if it is the two with a slash between, neither empty, and the provider has no slash |
| `Settings.ModelsAreConfigured` | internal/manager/config_manager.go:268-280 | a model is listed under a provider if and only if some reference is `provider/model`, and each once |
| `JsonEdits.Commute` | internal/manager/config_manager.go:131-178 | edits of places neither of which leads to or through the other commute |
| `JsonEdits.AllPermuted` | internal/manager/config_manager.go:281-305 | a list of pairwise independent edits has the same effect in every order |
| `JsonEdits.AllIdempotent` | internal/manager/config_manager.go:131-178 | and applied again it changes nothing |
| `JsonEdits.AllFrame` | internal/manager/config_manager.go:131-178 | and every place none of them leads to or through is preserved |
| `JsonAbsorbed.AbsorbedIff` | internal/manager/config_manager.go:131-178 | pairwise independent edits make the same of a document as of an empty one if and only if it has nothing where no edit leads, and nothing else where an edit only supplies a default |
| `JsonPatch.ConfigEditsIndependent` | internal/manager/config_manager.go:131-178 | the edits a payload asks for are pairwise independent and touch four top-level sections only |
| `JsonPatch.PatchOrder` | internal/manager/config_manager.go:281-305 | the patched document does not depend on the order in which the provider map is iterated |
| `JsonPatch.PatchIdempotent` | internal/manager/config_manager.go:131-178 | patching twice with one payload is patching once |
| `JsonPatch.PatchKeepsGatewaySettings` | internal/manager/config_manager.go:139-153 | gateway mode, bind address and token reference are kept if present and supplied if missing |
| `JsonPatch.PatchTakesEffect` | internal/manager/config_manager.go:154-171 | every value the payload dictates is in the patched document and every stale one is gone |
| `JsonPatch.PatchFrame` | internal/manager/config_manager.go:131-178 | every path outside the touched places is preserved |
| `JsonPatch.PatchKeepsOtherSections` | internal/manager/config_manager.go:131-178 | in particular every other top-level section |
| `JsonPatch.PatchKeepsOtherProviders` | internal/manager/config_manager.go:281-305 | and every provider the payload does not name, with all its settings |
| `JsonPatch.PatchKeepsOtherSettings` | internal/manager/config_manager.go:281-305 | and the settings of a provider it does name that it says nothing about, base URL and key included |
| `JsonPatch.ReplaceableIff` | internal/manager/config_manager.go:131-178 | patching a document gives what patching an empty one gives if and only if there is nothing in it that a patch would keep |
| `PatchedConfig.ChatModelIsSet` | internal/manager/config_manager.go:159-164 | CHAT_MODEL, or else LLM_MODEL, is the agents' primary model in the patched file |
| `PatchedConfig.CapabilityModels` | internal/manager/config_manager.go:242-255 | image and image generation models are there as sent, or gone; the video generation model is gone |
| `PatchedConfig.WithoutChatModel` | internal/manager/config_manager.go:155-171 | the stale root setting is gone in any case; without a chat model only the gateway section is touched besides |
| `PatchedConfig.ProviderModels` | internal/manager/config_manager.go:264-305 | a provider named by a model setting lists exactly the models the settings name for it, each once, under its own name, with image input for two known ones |
| `PatchedConfig.ProviderSettings` | internal/manager/config_manager.go:257-290 | its API type is set, its base URL and key reference if the payload has them, and kept otherwise |
| `PatchedConfig.OtherProviders` | internal/manager/config_manager.go:257-307 | no other provider changes, and none at all without a base URL or key |
| `PatchedConfig.ModelsMode` | internal/manager/config_manager.go:269-272 | the merge mode is kept or supplied |
| `PatchedConfig.TokenReference` | internal/manager/config_manager.go:146-153 | the token reference supplied is to the configured key, or to the default one |
| `JsonDocument.EnsureMap` | internal/manager/config_manager.go:360-373 | a reference to the child map, made if it is missing or not a map, with the document otherwise unchanged |
| `JsonDocument.Exposed` | internal/manager/config_manager.go:360-373 | holding a reference to a child map, everything else in the parent can be accounted for |
| `JsonDocument.Restored` | internal/manager/config_manager.go:360-373 | after changes through the reference, the parent reads as before with the changed child |
| `JsonDocument.Decode` | internal/manager/config_manager.go:132-137 | a decoded document is a tree of fresh maps that reads as the value |
| `JsonDocument.Encode` | internal/manager/config_manager.go:173 | encoding gives back what the maps read as |
| `JsonConfig.ApplyCapabilityModels` | internal/manager/config_manager.go:242-255 | image and image generation models are set or removed, the video generation model removed |
| `JsonConfig.PatchProviders` | internal/manager/config_manager.go:281-305 | visiting the providers in any order applies their edits in that order |
| `JsonConfig.ApplyProviderConfig` | internal/manager/config_manager.go:257-307 | the provider section, in place |
| `JsonConfig.EnsureJSONConfig` | internal/manager/config_manager.go:131-172 | after the in-place changes the document is the patched document |
| `Sorting.SortStrings` | internal/manager/config_manager.go:111-118 | sorting gives the one sorted enumeration of the keys |
| `Sorting.LessIff` | internal/manager/config_manager.go:118-118 | the order is the dictionary order |
| `EnvFile.WriteEnv` | internal/manager/config_manager.go:90-129 | the content written is the effective values, minus what only the daemon is to know, one quoted line a key in sorted order |
| `EnvContents.VisibleIs` | internal/manager/config_manager.go:90-117 | every setting but five is printed as sent; the two provider keys fall back on API_KEY exactly if absent while that is there; nothing else is printed |
| `EnvFile.LoadEnvFile` | internal/video/service.go:401-425 | the loop reads the last assignment of every key |
| `EnvContents.LastAssignmentCounts` | internal/video/service.go:401-425 | in any file the video service takes the last assignment of a key |
| `EnvContents.AssignmentIs` | internal/video/service.go:407-420 | an assignment is `key=value` cut at the first equals sign, blanks around either not counted, and no comment |
| `EnvFile.LoadGatewayTokenFromEnvFile` | internal/manager/config_manager.go:390-413 | the loop finds the first assignment of the key |
| `EnvContents.FirstAssignmentCounts` | internal/manager/config_manager.go:398-412 | and the token readers the first |
| `EnvFile.LoadOfPrint` | internal/video/service.go:401-425 | under clean keys and values without newlines, what is read back is every value with all quotes around its quoted form taken off |
| `EnvFile.RoundTripIff` | internal/manager/config_manager.go:90-129 | for every map: the video service reads back exactly what was printed if and only if every key and value is clean |
| `EnvFile.PayloadRoundTripIff` | internal/manager/config_manager.go:90-129 | for every payload: it reads back the effective values minus the daemon-only keys if and only if those are clean |
| `EnvContents.ServiceReads` | internal/video/service.go:401-425 | for a clean payload the video service reads exactly that back |
| `Mishaps.QuoteComesBackEscaped` | internal/video/service.go:401-425 | a value with a single quote that is read back with the quote still escaped |
| `EnvFile.UnprintedIsNotFound` | internal/manager/config_manager.go:390-413 | a key that was not printed is found by neither token reader |
| `EnvFile.ManagerFindsToken` | internal/manager/config_manager.go:375-413 | the manager's reader finds a printed value if and only if it has no single quote |
| `EnvFile.AdapterFindsToken` | internal/gateway/adapter.go:740-757 | the adapter's reader also needs it not to start or end with a double quote |
| `EnvFile.ReadersAgree` | internal/video/service.go:401-425 | on clean values all three readers agree |
| `Store.WriteAtomically` | internal/store/state_store.go:65-85 | the file gets all of the data or stays as it was; so it is at every moment in between, and nothing else changes but a temporary file |
| `Store.FileStore.Load` | internal/store/state_store.go:33-49 | a missing file is the zero state; an unreadable or unparsable one an error |
| `Store.FileStore.Save` | internal/store/state_store.go:51-63 | the state is replaced or kept, in the end and at every moment in between |
| `Store.FileStore.PersistGatewayDeviceToken` | internal/gateway/adapter.go:793-803 | only the token changes, and only for a non-blank one that could be saved |
| `Store.FileStore.LoadOrCreateGatewayIdentity` | internal/gateway/adapter.go:805-832 | a complete identity is never replaced, and only a stored one is used |
| `ConfigMachine.Progress` | internal/manager/config_manager.go:39-88 | success is answered exactly after all four commits; none is made for a version not above the stored one |
| `ConfigCauses.AnswersByCause` | internal/manager/config_manager.go:39-88 | which failures, and which state of the disk, lead to each answer, and to none |
| `ConfigCauses.EffectsByCause` | internal/manager/config_manager.go:54-78 | what a delivery leaves of the URL, .env, openclaw.json and the state, each under its own condition on the disk and the failures, crashes included |
| `ConfigCauses.MemoryByCause` | internal/manager/config_manager.go:222-231 | and in memory: the new URL, even if it could not be persisted |
| `ConfigCauses.PendingIff` | internal/manager/config_manager.go:44-52 | a version is pending exactly if delivering it can do anything |
| `ConfigCauses.JsonChangesOnlyIf` | internal/manager/config_manager.go:132-137 | openclaw.json changes only if it could not be read, was missing or empty, or is an object |
| `ConfigCauses.NoObjectStays` | internal/manager/config_manager.go:132-137 | a malformed openclaw.json, or a null, stays as it is over every run of readable deliveries; none succeeds, and the stored version stays |
| `ConfigCauses.NoObjectAnswers` | internal/manager/config_manager.go:135-140 | a new version is answered with a failure then, or not at all for a null |
| `ConfigCauses.MalformedIsNeverOverwritten` | internal/manager/config_manager.go:132-137 | so redelivering one payload never overwrites such a file, nor stores its version |
| `ConfigMachine.Convergence` | internal/manager/config_manager.go:54-78 | after any sequence of attempts that failed or died at any commit: once the version is stored, the disk is that of one uninterrupted Apply, unless openclaw.json was replaced unread |
| `ConfigMachine.ConvergesIff` | internal/manager/config_manager.go:132-137 | it is the disk of an uninterrupted Apply that could read the file if and only if no attempt replaced openclaw.json unread, or there was nothing in it that a patch would keep |
| `ConfigMachine.SuccessIsStored` | internal/manager/config_manager.go:73-86 | a success means that the version is stored, then and after every later delivery of the payload |
| `ConfigMachine.RetryUntilSuccess` | internal/manager/config_manager.go:54-86 | redelivering until it succeeds, through any failures and crashes, leaves daemon URL, .env, openclaw.json and stored state as one Apply that can read openclaw.json does, if and only if no attempt replaced that file unread or it had nothing to keep |
| `ConfigMachine.RetryUntilSuccessInMemory` | internal/manager/config_manager.go:222-231 | in any case the cloud URL in memory is as after one Apply, if the payload has one or memory and disk agreed to begin with |
| `ConfigMachine.UnreadableLosesSettings` | internal/manager/config_manager.go:132-137 | a disk, a payload and two attempts (a read error and a failed health check, then a clean retry) after which a setting is gone that the retry alone would have kept |
| `ConfigMachine.ReadableIsNotOverwritten` | internal/manager/config_manager.go:132-137 | without a read error no attempt replaces openclaw.json unread |
| `ConfigVersions.VersionNeverDecreases` | internal/manager/config_manager.go:44-78 | over every serial run of deliveries, crashes, token and identity writes the stored version never decreases |
| `ConfigVersions.SuccessesIncrease` | internal/manager/config_manager.go:44-86 | acknowledged successes have strictly increasing versions, above what was stored before and at most what is stored after |
| `ConfigVersions.UnparsableStateIsStuck` | internal/manager/config_manager.go:40-43 | with an unparsable state file nothing is ever written or acknowledged as a success |
| `ConfigVersions.NoSuccessKeepsState` | internal/manager/config_manager.go:39-88 | failed and ignored deliveries leave the stored state as it was, ignored ones everything |
| `ConfigVersions.FailedMayChangeEnv` | internal/manager/config_manager.go:60-77 | a disk and a payload for which a failing health check leaves a new .env with the old state |
| `ConfigVersions.FailedChangesEnvIff` | internal/manager/config_manager.go:40-77 | a delivery answered with a failure has changed .env if and only if the version was pending, nothing failed up to .env, something after it did, and the content differs |
| `ConfigVersions.DeliveriesKeepCredentials` | internal/manager/config_manager.go:73-75 | device token and identity end up as if no delivery had been made |
| `ConfigVersions.CredentialsKeepConfig` | internal/gateway/adapter.go:793-832 | everything else, and every success, is as if the credentials had never been written |
| `ConfigVersions.IdentityStays` | internal/gateway/adapter.go:805-832 | a complete identity, once stored, is kept over every run |
| `ConfigVersions.IdentityIs` | internal/gateway/adapter.go:805-832 | an identity is replaced if and only if it is incomplete and another can be stored |
| `ConfigVersions.URLStaysPersisted` | internal/config/config.go:269-278 | a delivery leaves the cloud URL in memory and on disk equal, unless it fails to persist a new one |
| `ConfigMachine.SuccessSetsURL` | internal/manager/config_manager.go:222-231 | after a success with a URL it is in memory and on disk; without one both are as before |
| `ConfigManager.ConfigManager.Write` | internal/manager/config_manager.go:416-439 | one atomic write: at every moment the disk is as before or as after |
| `ConfigManager.ConfigManager.UpdateDaemonCloudWSURL` | internal/manager/config_manager.go:222-231 | the URL is changed in memory, then on disk |
| `ConfigManager.ConfigManager.UpdateJson` | internal/manager/config_manager.go:131-178 | openclaw.json is patched, from nothing if it is missing, empty or unreadable; a malformed one is an error, null a panic, and neither changes anything |
| `ConfigManager.ConfigManager.Apply` | internal/manager/config_manager.go:39-88 | the acknowledgement, the disk and the URL for every combination of failures; a malformed openclaw.json is never replaced; and every disk a crash during the call could leave is one of the commits made |
| `ConfigManager.ApplyIsAttempt` | internal/manager/config_manager.go:39-88 | what Apply leaves on disk and in memory is what a delivery of the retry theorem leaves |
| `ConfigManager.CrashIsAttempt` | internal/manager/config_manager.go:39-88 | every disk a crash during Apply could leave is that of an attempt the retry theorem speaks about |
| `TextFormats.FormatsExist` | internal/manager/config_manager.go:132-178 | what Apply relies on when it reads back a file it wrote can be met: there are formats in which every document, state and URL reads back as written |
| `SingleFlight.StepKeepsInv` | internal/video/service.go:79-91 | every step of every caller keeps the invariant that ties lock, map, entries and callers together |
| `SingleFlight.GeneratesOnce` | internal/video/service.go:79-91 | in every interleaving at most one caller of a request starts a generation, and once |
| `SingleFlight.ClosesOnce` | internal/video/service.go:82-91 | no channel is closed twice, and a request that returned has its channel closed |
| `SingleFlight.NeverReadsUnwritten` | internal/video/service.go:80-91 | a result is read only when both its parts are written |
| `SingleFlight.SameAnswer` | internal/video/service.go:79-91 | all callers of one request that got past the gate return the same replies and error |
| `SingleFlight.NobodyRefused` | internal/video/service.go:74-77 | with Enabled constantly true nobody is refused |
| `SingleFlight.EqualRequestsEqualAnswers` | internal/video/service.go:72-92 | so then all finished callers of one request have one and the same answer |
| `SingleFlight.GateDecides` | internal/video/service.go:74-77 | a caller is refused if and only if Enabled was false in its first turn |
| `SingleFlight.SameAnswerIff` | internal/video/service.go:72-92 | two finished callers of one request are answered alike if and only if Enabled said the same in their first turns |
| `SingleFlight.GateMayDivide` | internal/video/service.go:74-77 | an interleaving in which the gate closes between two calls of one request and they are answered differently |
| `SingleFlight.AnswersAreGenuine` | internal/video/service.go:79-91 | what a caller returns is what one generation for the same request returned, both parts from the same call |
| `SingleFlight.StepDecreases` | internal/video/service.go:72-92 | every step lowers a measure |
| `SingleFlight.RunIsBounded` | internal/video/service.go:72-92 | no run has more than nine steps a caller |
| `SingleFlight.NeverStuck` | internal/video/service.go:79-91 | in no reachable state with an unfinished caller is everybody stuck |
| `VideoTask.PollTask` | internal/video/service.go:212-242 | at most timeout / interval + 1 queries; the first settled answer is returned; otherwise the deadline has passed, with the last status, or the wait was cancelled |
| `VideoTask.SettledIff` | internal/video/service.go:341-357 | the words that settle a task, as success or failure and never both |
| `VideoTask.Generate` | internal/video/service.go:94-201 | a created task, and only that, is polled to its end; the provider calls are exactly those whose predecessor gave what they need, a file being retrieved only after the poll ended with a success and a non-blank file id; one final reply in any case, with the uploaded attachment exactly on success; the timeout code exactly if the poll timed out or was cancelled |
| `VideoTask.CodesByCause` | internal/video/service.go:94-201 | which answer of the provider each error code stands for |
| `VideoTask.Fetch` | internal/video/service.go:144-201 | the part after a success status: error code and calls tell how far it got |

## Left out

- The image generation route of the router: the service behind it is not part of this model.
- The remote command runner, the cloud client with its reconnect backoff, and `cmd/wsprobe`: separate, and mostly straight-line.
- Creating the device identity and signing the challenge: foreign cryptography; a parameter says whether it succeeds.
- Extracting media references with regular expressions and rewriting markdown URLs: functions the model is given; text properties are stated before rewriting.
- JSON as text: frames, documents and files are decoded values. That what was written reads back as written is required of the formats (`ConfigManager.Faithful`, `Store.RoundTrips`); frames whose envelope fields have unexpected types count as undecodable. Numbers are the finite float64 values, negative zero being taken as zero; nesting deeper than Go's decoder accepts is not modelled.
- Building the message sent to the gateway (`buildGatewayMessage`), media types, file sizes and upload URLs: they do not influence the reply stream.
- Reading the API key and model of the video service from its environment: whether a key is found is a parameter.
- Process environment variables, which the token readers consult before .env.
- Configuration defaults and the rest of the daemon's own file: only its cloud URL is modelled, and environment overrides of that URL at a restart are not.
- Handlers overlapping after a reconnect: everything that writes the state file is taken as one serial run.
- Failing sends to the cloud, logging, and the wording of error messages.
- Timestamps given as numbers too large for 64 bits, where Go's conversion is not specified.
- Stored invalid UTF-8, which Go's encoder replaces.
- Store.WriteAtomically: takes the rename as atomic and durable, and requires that `os.CreateTemp` picks a name that is not in use and not that of a file of the daemon.
- VideoTask.PollTask: (and `VideoTask.Generate`, which polls) requires a positive interval, which the configuration guarantees; with none the number of queries has no bound.
- ConfigManager.ConfigManager.Apply: the token the health check reads and sends is not modelled, as it only decides whether the check fails.
- SingleFlight.StepKeepsInv: a panic inside a generation, which would leave its channel open, is not a step of the model.
- Router.MessageRouter.HandleChat: takes what the video service answers as a parameter, of which it requires a single final reply or an error, as proved for one generation in `VideoTask.Generate` and for shared and refused calls in `VideoReplies.VideoNumbers`.
