# zakuro-rs

A verified model of zakuro, a load tester for WebRTC (Sora) and for Media over QUIC Transport (MOQ).

- **JSONC formatter** (`Jsonc*.dfy`): a printer over a value tree, with a map of pending comments. `JsoncLexer` is an
  independent lexer that says what "changes only whitespace" means; `JsoncSpec` is the printer as functions of its state,
  with `None` where the code panics; `JsoncFormatter` is the printer with its four state variables. `JsoncLayout` is an
  independent account of line breaks, blank lines and indentation: the pieces the output consists of, read off the input
  and its value tree.
- **Media sources** (`Y4mReader`, `Mp4Audio`, `RiffWave`, `WavReader`, `Downmix`, `Planes`): looping readers over
  files, and the copies between packed and strided pictures. A file is a sequence of bytes; a decoder is any
  state-transition function with a reset.
- **Virtual clients, channel and aggregator** (`MoqClient`, `MoqSystem`, `SoraClient`, `SoraSystem`,
  `SoraConnected`, `Stats`, `LiveCounts`, `InstanceShutdown`, `InstanceHangs`): step machines from await to await. A
  `select!` is a choice made from outside, and a system is any interleaving of its parts. `MoqRun` and `SoraRun` are the
  client loops as written, run against a script of choices and proved to follow the step machines. `MoqScript`,
  `MoqAwaits`, `SoraScript` and `SoraAwaits` say what a script comes to, without the machines: what is awaited, what is
  reported, where the client goes and what stops it.
- **Verdicts** (`MediaObserver`, `ConnectionLifecycle`, `Threshold`, `Sorting`): what a trace of samples and a run of
  events say, and the incremental state that decides it.
- **Configuration and codecs** (`Argv`, `ArgvSplit`, `ArgvLayers`, `IceServer`, `DataChannel`, `Xorshift`).

`dafny verify dfyconfig.toml` checks everything.

Six places where the code falls short of what is promised, each with its exact condition: the formatter loses its way
on inputs that do not fit (`FormatChangesOnlyWhitespace`, with an input of each kind); it keeps a blank line only before
what starts a line, and none before a closing bracket (`FormatLaysOut`, `BlankLineDropped`); `is_stalled` counts idle
samples before media first flowed, against its comment (`StalledVersusDocumented`, `StalledBeforeFlow`); shutting down
waits forever if a worker's runtime fails with an instance in its inbox and another worker starts (`ShutdownEnds`,
`HangReached`); `connected` is not the number of connected Sora clients when an attempt fails before it is established or
a client is cancelled while connected (`ConnectedExactly`, with a run of each kind); and `retrying` is not the number of
clients waiting to reconnect when one fails twice in a row, or another connects at once (`RetryingExactly`, with a run of
each kind).

## Model

| member | source | states |
|---|---|---|
| `JsoncTheorem.FormatChangesOnlyWhitespace` | zakuro/src/jsonc_fmt.rs:15-325 | for every well-formed input: the output exists and lexes to exactly the input's sequence of tokens (trailing commas included) and comments, if and only if the input `Fits`: a scalar root has no comment before it, no block comment stands at the start of the text, and where a symbol is searched only its gap's last comment may end in that symbol |
| `JsoncTheorem.ArrivedFormats` | zakuro/src/jsonc_fmt.rs:51-57 | after a root that came through, the remaining comments are written, none is left pending, and the text lexes to the input's sequence |
| `JsoncTheorem.LeafWithCommentPanics` | zakuro/src/jsonc_fmt.rs:59-66 | every scalar root with a comment before it stops the formatter |
| `JsoncTheorem.BlockFirstPanics` | zakuro/src/jsonc_fmt.rs:163-170 | every input that starts with a block comment stops the formatter |
| `JsoncTheorem.CommentBeforeScalar` | zakuro/src/jsonc_fmt.rs:59-66 | a concrete well-formed input without output: a line comment before a number |
| `JsoncTheorem.BlockCommentFirst` | zakuro/src/jsonc_fmt.rs:165-169 | a concrete well-formed input without output: a block comment before an empty array |
| `JsoncTheorem.CommaInComment` | zakuro/src/jsonc_fmt.rs:113-136 | a concrete well-formed input whose comments and comma come out in another order |
| `JsoncSymbols.SymbolPrinted` | zakuro/src/jsonc_fmt.rs:113-136 | in a gap that fits, searching the symbol finds the real one: the comments before it and the symbol are written once, in order, and reading resumes behind it |
| `JsoncSymbols.SymbolMisplaced` | zakuro/src/jsonc_fmt.rs:113-136 | in a gap that does not fit, whatever is written diverges from the input for good |
| `JsoncSymbols.CommaTest` | zakuro/src/jsonc_fmt.rs:93-111 | the trailing-comma test answers yes exactly if the next token is a comma |
| `JsoncGaps.LeadingInv` | zakuro/src/jsonc_fmt.rs:148-198 | leading comments up to a token are all written, in order, leaving exactly those behind the token pending; no slice is out of range |
| `JsoncGaps.TrailingInv` | zakuro/src/jsonc_fmt.rs:200-222 | trailing comments keep the run invariant: the position never passes the next pending comment or the token |
| `JsoncGaps.IndentInv` | zakuro/src/jsonc_fmt.rs:313-325 | after indentation a new token can be read on: the run invariant holds, and a line comment that was open has ended; `FormatLaysOut` says how deep it is |
| `JsoncGaps.BlankLineInv` | zakuro/src/jsonc_fmt.rs:297-311 | the blank-line test stays in range and adds at most one newline |
| `JsoncBlock.RenderedBlock` | zakuro/src/jsonc_fmt.rs:165-193 | a re-indented block comment is still one block comment with the same lines, up to indentation and trailing blanks |
| `JsoncOutcome.ValueOutcome` | zakuro/src/jsonc_fmt.rs:59-91 | a value comes through with all its tokens and comments if and only if it fits; otherwise the output has diverged |
| `JsoncOutcome.ItemsOutcome` | zakuro/src/jsonc_fmt.rs:224-279 | the same for the items of an array or object, closing bracket and trailing comma included |
| `JsoncFormatter.FormatJsonc` | zakuro/src/jsonc_fmt.rs:15-35 | the formatter as it runs returns a text with exactly the input's tokens and comments if and only if the input fits, and on these the text consists of its pieces, each at the place its lead says |
| `JsoncLayoutTheorem.FormatLaysOut` | zakuro/src/jsonc_fmt.rs:4-325 | on every input that fits, the output is exactly the pieces that `JsoncLayout.Pieces` reads off the input, its comments and the value tree, and a newline; a piece with a line of its own stands behind a newline and exactly 2 * depth blanks, and another newline before these exactly if the input has a blank line there; the others are glued or stand behind one blank, never at the start of a line |
| `JsoncLayoutNested.ContainerStands` | zakuro/src/jsonc_fmt.rs:224-325 | wherever a container with a newline or a comment in it lies in an input that fits: in the output each of its items starts a line behind exactly two blanks for each container around it, with a blank line before it exactly if the input has one between it and the bracket, comma or comment before it; its closing bracket starts a line, one level less deep, without a blank line |
| `JsoncLayoutFacts.ItemsHaveLines` | zakuro/src/jsonc_fmt.rs:224-259 | among the pieces of a container on several lines is each item's first token on a line of its own, one level deeper, with its blank line |
| `JsoncLayoutFacts.BracketIsLast` | zakuro/src/jsonc_fmt.rs:256-325 | the closing bracket is the last piece of its container: on its own line, as deep as the container, without a blank line; or glued |
| `JsoncLayoutFacts.CommentsHaveLines` | zakuro/src/jsonc_fmt.rs:148-222 | comment i of a gap has a line of its own, with a blank line before it exactly if the input has one there, if and only if a newline stands in or before one of the comments up to it; else it follows on the line |
| `JsoncLayoutFacts.BlankLineDropped` | zakuro/src/jsonc_fmt.rs:297-325 | a concrete input that fits and whose blank line, before a closing bracket, is not kept |
| `JsoncOneLine.ValueOneLine` | zakuro/src/jsonc_fmt.rs:224-295 | a value with neither a newline nor a comment in it is written on one line: items separated by a comma and a blank, keys and values by a colon and a blank, a trailing comma kept |
| `JsoncOneLine.OneLineDocument` | zakuro/src/jsonc_fmt.rs:15-325 | an array or object without comment and newline is formatted, whatever its spacing, as that line and a newline |
| `JsoncLayoutGaps.CommentsIs` | zakuro/src/jsonc_fmt.rs:138-222 | the comments of a gap are written as the pieces say: on the line as long as no newline comes in between, each of the others on a line of its own at the current depth |
| `JsoncLayoutGaps.SymbolIs` | zakuro/src/jsonc_fmt.rs:113-136 | a bracket, comma or colon is glued to what comes before it, unless comments come before it |
| `JsoncLayoutGaps.OwnTextIs` | zakuro/src/jsonc_fmt.rs:163-198 | the later lines of a block comment on its own line move as far as its first line does |
| `JsoncFormatter.Formatter.FormatSymbol` | zakuro/src/jsonc_fmt.rs:113-136 | updates output, position, pending comments as specified |
| `JsoncFormatter.Formatter.FormatLeadingComments` | zakuro/src/jsonc_fmt.rs:148-198 | updates output, position, pending comments as specified |
| `JsoncFormatter.Formatter.FormatTrailingComments` | zakuro/src/jsonc_fmt.rs:200-222 | updates output, position, pending comments as specified |
| `JsoncFormatter.Formatter.FormatContainer` | zakuro/src/jsonc_fmt.rs:224-279 | updates output, position, level and mode as specified |
| `Y4mReader.Play` | zakuro/src/y4m_reader.rs:86-129 | over every non-decreasing sequence of times on a well-formed file, no call fails; each call delivers the picture of record n mod N, or nothing if n was delivered last, where n * 1000 * den <= elapsed * num < (n + 1) * 1000 * den |
| `Y4mReader.Reader.GetFrame` | zakuro/src/y4m_reader.rs:86-129 | the frame due is the n with n * 1000 * den <= elapsed * num < (n + 1) * 1000 * den; nothing is delivered exactly if it is the last one; otherwise, in step with the file, it fails exactly if time ran backwards or the buffer is short; a delivery fills the buffer with the due record's picture, leaves the rest of it alone and stays in step |
| `Y4mReader.Reader.SkipFrame` | zakuro/src/y4m_reader.rs:268-289 | skipping moves to the next record, around the end of the file |
| `Y4mReader.Reader.ReadFrameHeader` | zakuro/src/y4m_reader.rs:242-266 | reads exactly the FRAME line, of any length up to the limit |
| `Y4mReader.Reader.RecordHere` | zakuro/src/y4m_reader.rs:243-266 | at the offset of record `f mod N` stand its tag, parameters, newline and picture, and behind them the next record or the end |
| `Y4mReader.FrameNumberIsDue` | zakuro/src/y4m_reader.rs:87 | for every time the frame number is the n with n * 1000 * den <= elapsed * num < (n + 1) * 1000 * den; before the start frames are counted backwards |
| `Y4mReader.FrameNumberMonotone` | zakuro/src/y4m_reader.rs:87 | later times never ask for an earlier frame |
| `Mp4Audio.LapDrops` | zakuro/src/mp4_audio.rs:232-251 | a lap is its PCM with exactly the first pre-skip frames missing, however many packets they span |
| `Mp4Audio.LapsRepeat` | zakuro/src/mp4_audio.rs:204-214 | when a reset decoder always starts alike, the looped stream is the same lap over and over |
| `Mp4Audio.StreamSplits` | zakuro/src/mp4_audio.rs:204-251 | decoding m and then n packets is decoding m + n |
| `Mp4Audio.Source.DecodeNextPacket` | zakuro/src/mp4_audio.rs:204-290 | one packet is decoded, and its samples are appended to the queue |
| `Mp4Audio.Source.ReadSamples` | zakuro/src/mp4_audio.rs:174-195 | for any sizes of reads the samples delivered, padding aside, followed by the queue are the looped stream; a call decodes at most packets + 1 times, and zeros are delivered only after that many with an empty queue |
| `Downmix.DownmixToMono` | zakuro/src/wav_reader.rs:193-204 | the loop mixes every complete frame, and drops an incomplete one |
| `Downmix.MonoAverages` | zakuro/src/wav_reader.rs:193-204 | each sample is the mean of its frame without its fraction |
| `Downmix.MonoOfTwo` | zakuro/src/wav_reader.rs:193-204 | of two channels it is half the sum of the two, without its fraction |
| `Downmix.MonoDrop` | zakuro/src/mp4_audio.rs:245-250 | dropping whole frames before or after mixing is the same |
| `MoqClient.RunKeeps` | zakuro-moq/src/moq_client.rs:150-371 | over every run: the session is polled only while unfinished, the count of turns since the last reset is the retry count, and the loop stays within its retry budget |
| `MoqClient.NeverPollsFinished` | zakuro-moq/src/moq_client.rs:216-232 | in every run the session future is never polled after it was marked as completed |
| `MoqAwaits.NeverAwaitsFinished` | zakuro-moq/src/moq_client.rs:216-232 | after every script: once an input completed the session of the last connection, no input that would complete it again is awaited |
| `MoqAwaits.RunsExactly` | zakuro-moq/src/moq_client.rs:150-376 | a client goes through a script exactly if each input is one of those awaited after the inputs before it, as told from these alone |
| `MoqScript.EndpointIsFold` | zakuro-moq/src/moq_client.rs:290-399 | in every run, read off the script: as long as the New Session URIs that ended a session, and were not overtaken by a cancellation, lead somewhere, the client's endpoint is where they lead, an empty one keeping it; one that does not parse stops the client |
| `MoqScript.StopsExactly` | zakuro-moq/src/moq_client.rs:150-371 | in every run, read off the script: the client stops exactly if it was cancelled, its duration passed without a repeat interval, a URI led nowhere, or it failed more than max_retry times since a migration or the duration let it start afresh; until then its retry count is that number of failures |
| `MoqScript.EventsFromScript` | zakuro-moq/src/moq_client.rs:150-376 | in every run the events reported, retry counts included, are those read off the script |
| `MoqClient.RetriesCountUp` | zakuro-moq/src/moq_client.rs:156-376 | in every run, cut where a migration or the duration sets the count back to zero, the reported retry counts are exactly 1, 2, ..., k with k <= max_retry in every piece; since the last cut they go up to the client's own count, and only a client that stops has max_retry + 1 |
| `MoqClient.RetryBudget` | zakuro-moq/src/moq_client.rs:150-371 | in every run the loop turns at most max_retry + 1 times between resets |
| `MoqAwaits.TurnsBounded` | zakuro-moq/src/moq_client.rs:150-371 | after every script: the loop has turned at most max_retry + 1 times for each time the client started afresh, and without a repeat interval that took a New Session URI |
| `MoqRun.Runner.Pass` | zakuro-moq/src/moq_client.rs:150-371 | one turn of the loop as written follows the step model |
| `MoqRun.Runner.Finish` | zakuro-moq/src/moq_client.rs:290-371 | the end of a session as written follows the step model and hands on the new endpoint and retry count |
| `MoqRun.Runner.Run` | zakuro-moq/src/moq_client.rs:150-376 | the loop as written reaches only states of the step model; it ends stopped, or waits for what was not offered |
| `MoqSystem.ConnectedIsExact` | zakuro-core/src/stats.rs:106-154 | for any number of clients in every interleaving: `connected` is the number of clients up by the events delivered, connected + stopped <= total, and with an empty channel both counts are those of the clients themselves |
| `MoqSystem.GuardNeverDecides` | zakuro-core/src/stats.rs:110-125 | in every interleaving, whenever the aggregator takes a disconnect off the channel, `connected` is positive, so its guard masks nothing |
| `MoqSystem.WarmupExcludesNothing` | zakuro-core/src/stats.rs:385-415 | in every interleaving the aggregator with totals and any warm-up has the same live counts, and excludes nothing |
| `MoqSystem.RetryingExactly` | zakuro-core/src/stats.rs:106-142 | in every interleaving of MOQ clients: `retrying` has been the number of clients waiting to reconnect by the events delivered, at every point, if and only if no waiting client reported a retry again, and no other client connected or stopped while `retrying` was positive |
| `MoqSystem.RetryingTooLow` | zakuro-core/src/stats.rs:108-113 | a run in which one client waits, another connects at once, and `retrying` is 0 |
| `MoqSystem.RetryingTooHigh` | zakuro-core/src/stats.rs:132 | a run in which one client fails twice in a row, and `retrying` is 2 |
| `MoqSystem.EventsAlternate` | zakuro-moq/src/moq_client.rs:156-376 | in every interleaving each client's connects and disconnects alternate, and its one stop comes last |
| `MoqSystem.CountsExact` | zakuro-core/src/stats.rs:106-154 | over any events in order the live counts are exact |
| `Stats.CountsAgree` | zakuro-core/src/stats.rs:235-267 | over any events every ending is counted once, as a verdict or as excluded by the warm-up; live counts and totals agree; the failure reasons are distinct and add up to the failures |
| `Stats.AddReasonCounts` | zakuro-core/src/stats.rs:254-263 | one more reason adds one to the histogram and keeps its keys distinct |
| `Stats.FoldObserves` | zakuro-core/src/stats.rs:385-415 | without warm-up or without endings, the live counts are those of all events |
| `Stats.Aggregator.ApplySnapshot` | zakuro-core/src/stats.rs:106-154 | updates the live counts as specified |
| `Stats.Aggregator.CountReason` | zakuro-core/src/stats.rs:254-263 | finds the reason's entry or adds one |
| `Stats.Aggregator.Run` | zakuro-core/src/stats.rs:385-415 | the loop computes the live counts and totals of the events it receives; `WarmupMeans` says which of them count |
| `SoraSystem.AttemptsConserved` | zakuro/src/virtual_client.rs:101-415 | in every interleaving: attempts = open + success + failure + unjudged + excluded by warm-up + refused by try_send + queued; live counts and totals agree; reasons add up to the failures |
| `SoraConnected.ConnectedExactly` | zakuro/src/virtual_client.rs:195-421 | in every interleaving: `connected` has been the number of clients up by the events delivered, at every point, if and only if no disconnect of a client that was not up was delivered while `connected` was positive and no stop of a client that was up; with an empty channel, up by the events is up |
| `SoraConnected.OrderlyIsExact` | zakuro/src/virtual_client.rs:199-306 | it is exact throughout every run in which an attempt ends before it is established only by cancellation, and no client is cancelled while up |
| `SoraConnected.ConnectedIsNotExact` | zakuro/src/virtual_client.rs:370-375 | too low: for any two clients there is a run in which one is up, everything is delivered and nobody cancelled, and `connected` is 0 |
| `SoraConnected.StoppedStaysConnected` | zakuro/src/virtual_client.rs:296-306 | too high: for any two clients there is a run in which the one that was up is cancelled and done, everything is delivered, and `connected` stays 1 |
| `SoraConnected.RetryingExactly` | zakuro-core/src/stats.rs:106-142 | in every interleaving of Sora clients: `retrying` has been the number of clients waiting to reconnect by the events delivered, at every point, if and only if no waiting client reported a retry again, and no other client connected or stopped while `retrying` was positive |
| `LiveCounts.ExactIffHarmless` | zakuro-core/src/stats.rs:106-142 | for any events in any order: the live count of connected (or of retrying) clients is the number of clients that last reported so, at every point, if and only if every event was harmless when it came |
| `SoraClient.OneEndingPerAttempt` | zakuro/src/virtual_client.rs:123-148 | in every run each attempt that is over was reported ended exactly once |
| `SoraClient.RetriesCountUp` | zakuro/src/virtual_client.rs:165-414 | in every run, cut where the duration or a scenario reconnect sets the count back to zero, the reported retry counts are exactly 1, 2, ..., k with k <= max_retry in every piece; since the last cut they go up to the client's own count, and only a client that stops has max_retry + 1 |
| `SoraClient.EndingVerdicts` | zakuro/src/virtual_client.rs:696-745 | what is reported of an ended attempt, from its samples: build-failed and connect-failed exactly where never built or never established; else unjudged exactly if no kind is enabled, there are no media samples or it lasted less than the grace period; else no-media-sent, no-delivery-report, no-media-received, unexpected-disconnect, each exactly if it is the first of these to hold; success exactly if none does; stalled exactly if some sample was active and three in a row were idle |
| `SoraAwaits.RunsExactly` | zakuro/src/virtual_client.rs:101-421 | a client goes through a script exactly if each input is one of those awaited after the inputs before it, as told from these alone |
| `SoraScript.StopsExactly` | zakuro/src/virtual_client.rs:101-421 | in every run, read off the script: the client stops exactly if it was cancelled, its scenario exited, its duration passed without a repeat interval, or it failed more than max_retry times since a scenario's reconnect or the duration let it start afresh; until then its retry count is that number of failures; attempts are those the script began |
| `SoraScript.EventsFromScript` | zakuro/src/virtual_client.rs:101-421 | in every run the events reported are those read off the script: endings with their reason, the time to connect measured from the attempt's own beginning, retry counts, connects, disconnects and the stop |
| `SoraRun.Runner.Pass` | zakuro/src/virtual_client.rs:101-415 | one turn of the loop as written follows the step model |
| `SoraRun.Runner.Connection` | zakuro/src/virtual_client.rs:271-366 | waiting for the end of a connection, disconnecting and recording follow the step model |
| `SoraRun.Runner.Ended` | zakuro/src/virtual_client.rs:295-415 | what follows each of the five disconnect reasons follows the step model |
| `SoraRun.Runner.Run` | zakuro/src/virtual_client.rs:101-421 | the loop as written reaches only states of the step model; it ends stopped, or waits for what was not offered |
| `InstanceHangs.ShutdownEnds` | zakuro/src/main.rs:593-764 | no run is longer than its budget; where it can go no further main is done, if and only if not both some worker started and some worker's runtime failed with an instance in its inbox; once both have happened, main is still dispatching or collecting |
| `InstanceHangs.HangReached` | zakuro/src/main.rs:656-669 | two instances on two processors and three steps after which main waits for a lost instance |
| `InstanceHangs.ReachesHangForever` | zakuro/src/main.rs:656-669 | after those steps main is never done, whatever follows |
| `InstanceHangs.HangsForever` | zakuro/src/main.rs:656-669 | once an instance is lost while another worker serves, main waits for its result forever |
| `InstanceShutdown.SharedEvenly` | zakuro/src/main.rs:625-640 | of the first n instances worker w is given n / workers, and one more if w < n mod workers |
| `InstanceShutdown.OneResultEach` | zakuro/src/main.rs:619-669 | in every run no instance is dispatched twice, none reports twice or undispatched, taking an instance never panics; after the joins every dispatched instance that was not lost has reported once, panics included |
| `InstanceShutdown.SummaryComplete` | zakuro-core/src/stats.rs:363-383 | when main is done uncancelled, no event sender is left and every event sent was delivered |
| `InstanceHangs.StuckMeansDone` | zakuro/src/main.rs:648-764 | a state in which nothing can happen of itself is the end, or the hang above |
| `InstanceHangs.StepSpends` | zakuro/src/main.rs:593-914 | every step of main, a worker, an instance or the aggregator uses up some of a finite budget |
| `MediaObserver.FirstSeen` | zakuro/src/media_observer.rs:70-164 | over any trace in which ids keep their kind, a kind's first time is that of the first sample in which some stream of that kind has a nonzero counter, whatever resets and new ids occur |
| `MediaObserver.DecreaseIsIdle` | zakuro/src/media_observer.rs:31-47 | a decrease in every counter is no activity |
| `MediaObserver.TraceMirrors` | zakuro/src/media_observer.rs:31-68 | over any trace, what the observer knows of a stream are the counters of its last entry in the trace |
| `MediaObserver.StalledOverTrace` | zakuro/src/media_observer.rs:83-142 | over any trace, with a sample active exactly if some entry is above the last entry of its stream (or above zero, if the first): `max_idle_samples` is the longest run of idle media samples, and the connection is stalled exactly if some sample was active and some run has three |
| `MediaObserver.StalledBeforeFlow` | zakuro/src/connection_lifecycle.rs:309-315 | a trace that the code calls stalled and its documentation does not |
| `MediaObserver.ReportOverTrace` | zakuro/src/media_observer.rs:70-142 | a delivery report is recorded exactly if some sample shows one |
| `MediaObserver.SuccessMeans` | zakuro/src/connection_lifecycle.rs:331-378 | of an established connection over a trace, the verdict is unjudged, one of the four failures, or success, each exactly in its case: it lasted the grace period, ended as it should, had media samples, and in each expected direction every enabled kind flowed (and was reported, when sending), tested in the order of the code |
| `MediaObserver.UnjudgedMeans` | zakuro/src/connection_lifecycle.rs:331-350 | unjudged exactly if built and established, and no kind is enabled, there are no media samples, or it lasted less than the grace period |
| `MediaObserver.Observer.ObserveSample` | zakuro/src/media_observer.rs:70-142 | the observer's loops over a sample update its maps and the lifecycle as specified |
| `ConnectionLifecycle.SampleTracks` | zakuro/src/connection_lifecycle.rs:299-307 | one more sample keeps the record the summary of the whole trace |
| `ConnectionLifecycle.StalledMeans` | zakuro/src/connection_lifecycle.rs:309-315 | stalled exactly if some sample was active and three in a row were idle, anywhere |
| `ConnectionLifecycle.StalledVersusDocumented` | zakuro/src/connection_lifecycle.rs:309-315 | the code differs from its comment in exactly one case: three idle samples before media first flowed |
| `ConnectionLifecycle.StallStays` | zakuro/src/connection_lifecycle.rs:299-315 | a stall is never taken back |
| `Threshold.RunPasses` | zakuro/src/threshold.rs:74-101 | for every run: all thresholds are satisfied exactly if, among the endings with no warm-up or at or after its end, enough of those judged succeeded (and there is one), at least 95 in 100 connect times are within the limit (and there is one), and not too many stalled |
| `Threshold.WarmupMeans` | zakuro-core/src/stats.rs:285-415 | for every run: the endings excluded are those before the warm-up has passed; the live counts are those of all other events, and the totals those of the other endings, each failure under its reason |
| `Threshold.PercentilesMean` | zakuro-core/src/stats.rs:270-315 | p50, p95 and p99 are each within a limit exactly if at least 50, 95 or 99 in 100 of the connect times are |
| `Threshold.ViolationsMean` | zakuro/src/threshold.rs:74-101 | each violation names the limit that was set and the value found, which is on the wrong side of it or missing; at most one of each kind, in order |
| `Threshold.PercentileGate` | zakuro-core/src/stats.rs:304-315 | the nearest-rank percentile is within a limit exactly if that part of the values, rounded up, is |
| `Threshold.PercentilesOrdered` | zakuro-core/src/stats.rs:270-287 | p50 <= p95 <= p99, all present or all absent |
| `Threshold.FailureTableStrict` | zakuro-core/src/stats.rs:270-273 | the failure table is a permutation of the histogram in strict order |
| `Threshold.Evaluate` | zakuro/src/threshold.rs:74-101 | the violations, in order, are those specified |
| `Sorting.SortSorts` | zakuro-core/src/stats.rs:270-275 | sorting yields an ordered permutation |
| `Argv.ParsedWellFormed` | zakuro-moq/src/args.rs:297-317 | for every argument vector, flattening its units gives it back |
| `Argv.FlattenParses` | zakuro-moq/src/args.rs:297-317 | units that only at the end may lack a value parse back from their flattening |
| `Argv.DedupedUnits` | zakuro-moq/src/args.rs:297-337 | for every argument vector, deduplicating keeps one unit per key, the last, and all positionals in order; again changes nothing |
| `Argv.UnitsJoin` | zakuro-moq/src/args.rs:287-291 | joined vectors parse separately exactly if the first leaves no key without its value or the second is empty |
| `Argv.Dedupe` | zakuro/src/args.rs:892-936 | the loops over tokens and units compute the deduplicated vector |
| `ArgvSplit.StrictSplits` | zakuro/src/args.rs:818-880 | each side parses into its own units in order, every key's last setting is on its own side, positionals are the instance's |
| `ArgvSplit.SplitStrict` | zakuro/src/args.rs:824-880 | fails exactly if some option is given another option for its value; otherwise computes the split |
| `ArgvSplit.LenientAgrees` | zakuro-moq/src/args.rs:784-813 | the lenient split sees the same units exactly if no option is given another option for its value |
| `ArgvSplit.LenientSplits` | zakuro-moq/src/args.rs:777-817 | then, and with no value on a common flag, splitting changes no setting |
| `ArgvSplit.SplitLenient` | zakuro-moq/src/args.rs:780-817 | the loop over tokens computes the split |
| `ArgvLayers.EffectiveSetting` | zakuro-moq/src/args.rs:282-291 | whatever values common flags are given: each key is set once after merging; a valued option has the command line's value, else that of `instances[i]`, else the top level's; flags combine by "or" |
| `ArgvLayers.ExpandInstances` | zakuro-moq/src/args.rs:873-927 | each instance is the template followed by its own members; the errors are exactly: none or more than 64 instances, a common or reserved key, a placeholder |
| `Planes.CopyPacked` | zakuro/src/fake_video_capturer.rs:213-255 | the rows of the three planes are the three parts of the packed frame, for any dimensions and any strides at least the row width |
| `Planes.CopiedPadding` | zakuro/src/fake_video_capturer.rs:224-255 | bytes between and behind the rows stay as they were |
| `Planes.ExtractPlanes` | zakuro/src/openh264_video_codec.rs:101-144 | both branches extract exactly the rows |
| `Planes.ContiguousRows` | zakuro/src/openh264_video_codec.rs:119-124 | where strides equal widths the rows are the data itself |
| `Planes.ThroughBuffer` | zakuro/src/openh264_video_codec.rs:101-144 | copied in and extracted again, a packed frame is itself |
| `RiffWave.ParseWritten` | zakuro/src/wav_reader.rs:80-187 | parsing undoes writing for any list of chunks: any order, unknown, repeated, odd-sized and padded or not at the end; the result is what the chunks say one after another |
| `RiffWave.ParseMeans` | zakuro/src/wav_reader.rs:80-187 | for every file: the last format chunk and the last data chunk count; it is read exactly if the fields written there are PCM, 16 bits, one or two channels and a rate, and there is data; else the first of these that is missing is the error |
| `RiffWave.ParseWav` | zakuro/src/wav_reader.rs:80-187 | the chunk loop computes the specified result or error, and ends on every input |
| `RiffWave.SamplesOfPcm` | zakuro/src/wav_reader.rs:175-180 | samples written as a data chunk are read back |
| `WavReader.ResampleMeans` | zakuro/src/wav_reader.rs:206-231 | floor(n * out / in) samples, each between its two neighbours, equal to the input where it falls on a sample |
| `WavReader.ResampleOnLine` | zakuro/src/wav_reader.rs:206-231 | sample i is the value, without its fraction, of the straight line between the input samples around i * in / out; behind the last sample, it is the last |
| `WavReader.ResampleAll` | zakuro/src/wav_reader.rs:210-231 | the loop computes the resampled sequence |
| `WavReader.Reader.ReadSamples` | zakuro/src/wav_reader.rs:54-66 | for any sizes of reads, sample k of all ever delivered is `samples[k mod n]` |
| `WavReader.FromBytes` | zakuro/src/wav_reader.rs:40-52 | a reader over the parsed, mixed and resampled samples, or an error if there are none |
| `Xorshift.NextPermutes` | zakuro/src/data_channel.rs:186-193 | the step is a bijection of 32-bit words, and only zero steps to zero |
| `Xorshift.NextOfBits` | zakuro/src/data_channel.rs:186-193 | the words behind 1 and behind 2^31 |
| `Xorshift.NeverZero` | zakuro/src/data_channel.rs:183-193 | a generator that does not start at zero never reaches it |
| `Xorshift.MixInjective` | zakuro/src/data_channel.rs:221-237 | before zero is corrected, seeds differ for different instances, and for different clients |
| `Xorshift.SeedsDiffer` | zakuro/src/data_channel.rs:221-237 | no seed is zero; two instances share one exactly if one has the corrected zero and the other the word it is corrected to |
| `DataChannel.MessagesRight` | zakuro/src/data_channel.rs:242-308 | in every run each message has its channel's label, a size within the channel's bounds, the header layout, and as counter the number of earlier messages of its label; the generator never reaches zero |
| `DataChannel.MessagesDrawn` | zakuro/src/data_channel.rs:145-308 | in every run the messages are drawn one after the other from the words of the generator: where the sizes leave a choice, the next word modulo their number decides; the payload is four bytes from each of the words behind it, and no word is used twice |
| `DataChannel.CounterReadBack` | zakuro/src/data_channel.rs:145-181 | read back from a message, the counter is itself |
| `DataChannel.BuildMessage` | zakuro/src/data_channel.rs:145-181 | header and random payload, and the generator behind it, as specified |
| `DataChannel.Configure` | zakuro/src/data_channel.rs:96-126 | the sizes are those given, 48 where none is, and a maximum below the minimum is raised to it, so 48 <= min <= max <= 256000; an error exactly if a given size is out of range |
| `DataChannel.PayloadSizeFrom` | zakuro/src/data_channel.rs:201-219 | header and payload together are within the bounds |
| `DataChannel.Messenger.Run` | zakuro/src/data_channel.rs:242-308 | the loop sends what the schedule of turns says |
| `IceServer.ParseMeans` | zakuro/src/ice_server.rs:75-117 | a URL parses exactly if it is some URL written out with or without brackets, and then to that one |
| `IceServer.PortNumberMeans` | zakuro/src/ice_server.rs:100-117 | a port is read exactly if it is a number up to 65535 in decimal, perhaps after a plus sign and zeros, and then as that number |
| `IceServer.SelectMeans` | zakuro/src/ice_server.rs:149-168 | nothing is selected exactly if the URL does not parse, is for TLS, or has no address of the family; what is selected is the same URL with the first such address as host, in brackets exactly for IPv6 |
| `IceServer.SelectTwice` | zakuro/src/ice_server.rs:170-175 | selecting from what was selected is the identity |
| `IceServer.SelectAllMeans` | zakuro/src/ice_server.rs:214-237 | whatever is announced, only non-TLS URLs with an address of the family are used |
| `IceServer.ConfigureUrls` | zakuro/src/ice_server.rs:223-237 | the loop adds the selected URLs in order |

## Left out

- JSON parsing itself: the formatter starts from the text, the value tree with positions and the comment ranges, and `InputOk` says what the parser guarantees about them.
- UTF-8: positions in texts count characters, where the code counts bytes; no position it computes falls inside a character.
- Formatter idempotence: re-indenting a block comment measures the previous line of the output, so formatting twice may move it.
- Y4M header line (`read_header`): the reader starts from its fields, which are positive as the code checks.
- Files that are not well formed: for Y4M the model says only that such calls may fail, and that a short buffer leaves the reader inside a record.
- AAC: packets of the AAC branch, which are mixed and resampled by the functions modelled here.
- Mp4Audio.LapsRepeat: assumes that resetting the decoder succeeds; the code only warns and goes on.
- Reading packets that change on disk: a packet of the file is readable or not, the same every lap.
- Opus, FDK AAC, OpenH264 and libwebrtc, rendering and audio synthesis.
- Floating point: ratios, times and rates are exact numbers, and frame counts are unbounded.
- Counter overflow: counts are natural numbers; only message fields, seeds and words have their width.
- When a Sora connection counts as established: the one-shot notification from the event handler is a choice made from outside.
- Poisoned mutexes, and lifecycle rows skipped because of them.
- SoraSystem.AttemptsConserved: takes what the lifecycle had observed at an end as given; `SoraClient.EndingVerdicts` relates it to the samples.
- Parsing of New Session URIs, endpoints and addresses: parameters of the model.
- Biased `select!`: the model also allows the choices that the bias would pass over, so what it proves holds for either order.
- InstanceHangs.ShutdownEnds: instances are given by the finite list of events they send; one that never ends keeps the program running, as it should.
- Failing to start a worker's thread, which ends the program before anything is dispatched.
- Tasks a panicking instance leaves behind: they are dropped with it, senders included.
- The DuckDB writer, its own shutdown handshake, the periodic report, logging and summaries.
- Track lists in the configuration file (`tracks`, `subscribe-tracks`), which become one ordinary option each.
- ArgvLayers.EffectiveSetting: flags in the file are booleans and keys hold no `=`, as the options are documented; other values of a flag become positional arguments.
- `zakuro/src/args.rs` pushes a bare key for a true boolean, also for keys that take a value; `UnitsJoin` says when that swallows what follows.
- The cache of resolved host names, and name resolution itself.
- Wall-clock scheduling of messages and frames: schedules are arbitrary.
- Network, TLS, QUIC, HTTP and QMux wrappers, command-line help and option range checks.
