# NebulaMind core, modelled in Dafny

NebulaMind is a browser notebook app. A notebook holds sources: pasted text, web pages, YouTube
links, and uploaded PDF, audio or image files. A hosted model answers questions about the sources
and generates artifacts: flashcards, quizzes, slide decks, infographics and two-host audio
overviews. This project models the parts of the app that hold logic of their own and proves
properties about them:

- **Live conversation session** (`live_session.dfy`, `resampler.dfy`, `pcm.dfy`).
  - The status machine: `idle`, `connecting`, `live`, `error`.
  - The microphone capture step. It resamples each frame to 24 kHz with a box filter (an
    imperative method over arrays), then sends one `audio/pcm;rate=24000` frame.
  - The capture processors. Each open callback builds one, and the close callback leaves it
    running, so several can feed the same session.
  - PCM16 decoding of downlink chunks.
  - The playback scheduler. It keeps a cursor (`nextStartTime`) and a set of playing nodes, and
    handles interruption and `onended`.
- **Background jobs** (`app.dfy`, module `Jobs`).
  - Starting a job puts a "Generating..." placeholder at the front of the notebook's artifacts.
  - Finishing a job completes or fails that placeholder, sets the job status, and posts a
    notification.
  - Notifications are appended and dismissed.
  - The notebook store is a map from id to notebook.
- **Dashboard** (`app.dfy`, module `Dashboard`): the blank-title guard of notebook creation.
- **AI service helpers** (`ai.dfy`).
  - `formatContext`.
  - The web-page text cleanup: whitespace collapse, trim, and a 50 000-character cut.
  - The data-URL payload split.
  - The choice of ingestion prompt, and the length instruction of the audio overview.
  - The update stream of `generateAnswer`.
  - The guard-and-throw logic of speech, audio overview, infographic and text artifacts.
- **Notebook page** (`notebook_view.dfy`): adding and deleting sources, and saving the title.
- **Chat tab** (`chat_tab.dfy`): a class with the message list, the input box and the loading
  flag. Submitting streams the answer into the last message.
- **Sources tab** (`sources_tab.dfy`): a class with the add-source modal's fields.
  - `handleAddSource` is an imperative method checked against a pure specification, `Intake`.
  - Also modelled: reset, file selection, and the rule that enables the add button.
- **Studio tab** (`studio_tab.dfy`):
  - `isGenerating` and the `handleGenerate` guard;
  - the slide player's clamped arrows;
  - the `m:ss` clock text;
  - the split of a podcast script line into speaker and words.

`js.dfy` states the JavaScript built-ins the code relies on, over exact reals and Dafny strings:
`Math.round`, `Math.trunc`, `%` on numbers, the `\s` class with `trim()`, `startsWith`,
`includes`, `split` and `join` on a one-character separator, `filter`, and decimal rendering.
`types.dfy` holds the record types: notebooks, sources, artifacts, jobs and notifications.

Clocks, random ids, the rendered time of day, and every remote call are parameters of the
operations that use them. Remote calls are the model's replies, the fetched page, the oEmbed
title and the decoded base64. The audio clock is a real number.

Three behaviours of the code that the model keeps as written:
- A source title is defaulted only when the title box is empty (`!finalTitle`). A title of spaces
  is kept.
- A completed audio overview is always titled "Podcast - *time*". `generateAudioOverview`
  returns no `title` field.
- The "Short" length instruction asks for 5 to 8 minutes. The default, used for "Medium", asks
  for about 2 minutes. The model keeps these values as written.

## Model

| member | source | states |
|---|---|---|
| Resampler.DownsampleBuffer | components/LiveSession.tsx:14-35 | equal rates return the same buffer; otherwise a fresh array whose contents are the resampling specification `Downsample` of the input |
| Resampler.FillWindows | components/LiveSession.tsx:21-33 | the outer loop fills every output slot k with the average of input window k |
| Resampler.AverageWindow | components/LiveSession.tsx:25-30 | the inner loop returns the mean of the window clipped to the input, or 0 when it is empty |
| Resampler.Downsample | components/LiveSession.tsx:14-35 | the reference definition: equal rates give the input back; otherwise round(n / ratio) samples, sample k the average of window k |
| Resampler.DownsampleLength | components/LiveSession.tsx:15-19 | equal rates keep the length; otherwise the output has round(n·out/in) samples |
| Resampler.WindowContaining | components/LiveSession.tsx:24-32 | every covered input index lies in exactly one window |
| Resampler.WeightedTotalIsPrefixSum | components/LiveSession.tsx:21-33 | the windows partition the covered input: each covered sample is counted once |
| Resampler.DownsampleBounded | components/LiveSession.tsx:26-30 | output samples stay within any range [a, b] with a ≤ 0 ≤ b that holds the input |
| Resampler.DownsampleWindowNonEmpty | components/LiveSession.tsx:24-30 | when downsampling, every output window holds at least one input sample |
| Resampler.DownsampleConstant | components/LiveSession.tsx:14-35 | a constant input downsamples to the same constant |
| Resampler.HalfRateFrame | components/LiveSession.tsx:112-120 | a 4096-sample frame at 48 kHz becomes 2048 samples at 24 kHz |
| Pcm16.Int16LE | components/LiveSession.tsx:153-156 | the little-endian signed 16-bit value is in [-32768, 32767] and is negative exactly when the high byte's top bit is set |
| Pcm16.Int16RoundTrip | components/LiveSession.tsx:156 | reading back the bytes of a 16-bit value gives the value |
| Pcm16.Int16BytesOfDecoded | components/LiveSession.tsx:156 | every byte pair is the encoding of the value it decodes to |
| Pcm16.SampleAt | components/LiveSession.tsx:156 | a decoded sample (value / 32768) lies in [-1, 1) |
| Pcm16.DecodeShape | components/LiveSession.tsx:151-157 | floor(n / 2) samples; a trailing odd byte is ignored; all samples in [-1, 1) |
| Pcm16.DecodeOfEncoded | components/LiveSession.tsx:155-156 | sample i depends only on bytes 2i and 2i+1 |
| Pcm16.DecodeChunk | components/LiveSession.tsx:151-157 | the decoding loop fills a fresh array equal to `Decode` of the bytes |
| LiveAudio.ScheduleStart | components/LiveSession.tsx:167-168 | a chunk starts no earlier than the clock and no earlier than the cursor, at one of the two |
| LiveAudio.NewChunk | components/LiveSession.tsx:151-170 | the new node starts at or after both clock and cursor; it lasts (bytes / 2) / 24000 seconds; its samples are in [-1, 1) |
| LiveAudio.SuccessiveArePairwiseDisjoint | components/LiveSession.tsx:168-170 | chunks that do not overlap their successors do not overlap at all |
| LiveAudio.IdsAppend | components/LiveSession.tsx:172 | scheduling a node adds exactly its id |
| LiveAudio.LiveSession.ActiveChunksDisjoint | components/LiveSession.tsx:168-173 | nodes scheduled since the last interruption never overlap, and every playing node is one of them |
| LiveAudio.LiveSession.constructor | components/LiveSession.tsx:38-48 | idle, no error, unmuted, no context, no processor, cursor 0, nothing playing |
| LiveAudio.OffContext | components/LiveSession.tsx:220-223 | closing a context stops exactly the processors built on it; the others keep running |
| LiveAudio.Released | components/LiveSession.tsx:210-223 | after the teardown, the survivors are running processors not on the closed context; every processor other than the one in processorRef that is on another context survives; when every processor is on the closed context, none survives |
| LiveAudio.LiveSession.Connect | components/LiveSession.tsx:54-74 | `connecting` with the error cleared; any setup failure gives `error` with "Failed to access microphone or API."; a created context is a new one (the count goes up) with the given rate, and replaces the old one without closing it; the mute flag the next processor closes over is the current one; processors, cursor and playing set are kept (the catch is at lines 198-202) |
| LiveAudio.LiveSession.ConnectFreshTimeline | components/LiveSession.tsx:54-66 | as `Connect`, and a new audio context also resets the cursor to 0 and empties the playing set (the catch is at lines 198-202) |
| LiveAudio.LiveSession.OnOpen | components/LiveSession.tsx:100-141 | `live` and connected; when a context is held, one more processor is appended, on that context, with its rate and the mute flag of `connect`, and processorRef holds it; earlier processors are kept; with no context nothing is built |
| LiveAudio.LiveSession.OnSessionResolved | components/LiveSession.tsx:106 | the session is held from then on |
| LiveAudio.LiveSession.OnClose | components/LiveSession.tsx:184-189 | `idle`, not connected, no session held; processors and context are not in its frame, so they are kept |
| LiveAudio.LiveSession.OnError | components/LiveSession.tsx:190-194 | only the message changes, to "Connection unstable." |
| LiveAudio.LiveSession.Disconnect | components/LiveSession.tsx:205-226 | no session, processorRef and context cleared; the processors left are `Released`: the one processorRef holds (the last built) is disconnected, those on the held context stop, those on earlier contexts keep running; when all ran on the held context, none is left; `idle` and not connected |
| LiveAudio.LiveSession.ReleaseCapture | components/LiveSession.tsx:210-223 | the capture half of `disconnect`: processorRef and the context are cleared and the processors left are `Released` |
| LiveAudio.LiveSession.ToggleMute | components/LiveSession.tsx:351 | the mute flag flips and nothing else changes |
| LiveAudio.LiveSession.CaptureFrame | components/LiveSession.tsx:114-135 | for any running processor: nothing is sent when its closed-over mute flag is set, no session is held, or the send throws; otherwise exactly one 24 kHz frame, resampled from that processor's context rate, is appended |
| LiveAudio.LiveSession.CaptureFrameHonoringMute | components/LiveSession.tsx:114-135 | as `CaptureFrame`, but reading the current mute flag (the flag toggled at line 351) |
| LiveAudio.LiveSession.OnMessage | components/LiveSession.tsx:143-183 | audio with a context is decoded and scheduled at max(clock, cursor); the cursor moves to its end; on interruption every playing node is stopped, the set is emptied, and the cursor moves to the clock; audio of fewer than two bytes throws at createBuffer (line 151), so nothing is scheduled, stopped or moved, even for an interruption |
| LiveAudio.LiveSession.ScheduleAudio | components/LiveSession.tsx:147-173 | throws exactly when the payload has fewer than two bytes, and then changes nothing; otherwise the decoded chunk, of positive length, is appended to the schedule and the playing set, and the cursor moves to its end |
| LiveAudio.LiveSession.Interrupt | components/LiveSession.tsx:176-182 | every playing node is stopped; the set is empty; the cursor is the clock when a context exists |
| LiveAudio.ScheduleExtendsTimeline | components/LiveSession.tsx:168-172 | a chunk placed at or after the cursor, added to the playing set with the cursor moved to its end, keeps the timeline invariant: the current run does not overlap, the cursor is at or after its end, and every playing node belongs to it |
| LiveAudio.LiveSession.OnEnded | components/LiveSession.tsx:173 | the ended node leaves the playing set |
| LiveAudio.StaleMuteScenario | components/LiveSession.tsx:115 | connect unmuted, open, mute, capture: a frame is still sent while the UI shows muted (the flag is captured at line 39 and toggled at line 351) |
| LiveAudio.MuteHonoredScenario | components/LiveSession.tsx:115 | the same run with the mute flag read per frame sends nothing (the flag toggled at line 351) |
| LiveAudio.OrphanProcessorScenario | components/LiveSession.tsx:184-189 | connect, open, server close, go live again: two processors run, and one microphone frame is sent twice to the new session (processors built at lines 110-141, the context replaced at line 65) |
| LiveAudio.OrphanOutlivesDisconnectScenario | components/LiveSession.tsx:205-226 | the same run ended with `disconnect`: the processor of the first connection still runs, though no context is held |
| LiveAudio.OnCloseReleasingCapture | components/LiveSession.tsx:184-189 | the close callback that also releases capture: `idle`, no session, no processorRef, no context; when every processor ran on the held context, none is left |
| LiveAudio.ReleasedCaptureScenario | components/LiveSession.tsx:184-189 | the same run with the releasing close: the frame is sent once, and after `disconnect` no processor runs |
| LiveAudio.StaleCursorScenario | components/LiveSession.tsx:168-226 | after one second of playback, disconnect and reconnect: the first chunk on the new clock starts at 1.0, not 0 |
| LiveAudio.FreshTimelineScenario | components/LiveSession.tsx:168-226 | with the cursor reset on connect, the first chunk on the new clock starts at 0 |
| LiveAudio.TimelineOrdered | components/LiveSession.tsx:167-170 | for a run of arrivals: no chunk starts before it arrives or before the previous chunk ends; it starts at the previous end when it arrives by then, else on arrival; the final cursor is the last end |
| LiveAudio.InstantArrivals | components/LiveSession.tsx:167-170 | chunks arriving together on an idle timeline play back to back from that instant |
| LiveAudio.QueuedArrivals | components/LiveSession.tsx:167-170 | chunks arriving while the cursor is ahead queue from the cursor |
| LiveAudio.BackToBackScenario | components/LiveSession.tsx:167-170 | two one-second chunks arriving at 0 s and 0.1 s start at 0 and 1, leaving the cursor at 2 |
| Jobs.Placeholder | App.tsx:529-536 | a `generating` artifact with empty content, the given id, kind and time, titled "<label> (Generating...)" with "Podcast" for audio overviews |
| Jobs.PlaceholderTitlesDistinct | App.tsx:532 | placeholders of different kinds never share a title |
| Jobs.FindArtifact | App.tsx:562-581 | `findIndex`: the first artifact with the id, or none when no artifact has it |
| Jobs.CompleteArtifact | App.tsx:560-572 | only the placeholder changes: completed, with the content and the "<label> - <time>" title; nothing happens when it is gone |
| Jobs.FailArtifact | App.tsx:579-586 | only the placeholder changes, to `failed`; nothing happens when it is gone |
| Jobs.FinishRewritesPlaceholder | App.tsx:537-583 | the placeholder just put in front is the one rewritten |
| Jobs.FinishKeepsIds | App.tsx:562-583 | completing or failing keeps every artifact's id in place |
| Jobs.SetJobStatus | App.tsx:574-587 | jobs with the id get the status; the others are unchanged |
| Jobs.SetJobStatusLastWins | App.tsx:574-587 | setting a status twice equals setting the second |
| Jobs.WithoutNotification | App.tsx:519-521 | no notification with the id remains; every other one stays, as many times as it occurred |
| Jobs.DismissKeepsOrder | App.tsx:519-521 | dismissing from a + b is dismissing from a followed by dismissing from b, so the kept entries keep their order |
| Jobs.DismissIdempotent | App.tsx:519-521 | dismissing twice is dismissing once; dismissing an absent id changes nothing |
| Jobs.DismissAfterAppend | App.tsx:511-521 | dismissing after a post is dismissing before it and then appending the new notification unless it has the id |
| Jobs.JobProvider.constructor | App.tsx:507-509 | no jobs, no notifications, the saved notebooks |
| Jobs.JobProvider.AddNotification | App.tsx:511-513 | the notification is appended |
| Jobs.JobProvider.DismissNotification | App.tsx:519-521 | the notification list loses exactly that id |
| Jobs.JobProvider.StartJob | App.tsx:523-547 | the placeholder goes in front of the stored notebook's artifacts, if the notebook exists; one `processing` job is appended |
| Jobs.JobProvider.FinishJob | App.tsx:549-590 | success completes the placeholder, marks the job completed and posts "Your <kind> is ready to view."; failure fails it, marks the job failed and posts "Something went wrong. Please try again." |
| Dashboard.HandleCreate | App.tsx:361-367 | a notebook is created exactly when the title has a non-space character, with the title as typed |
| Ai.Blocks | services/ai.ts:18-20 | one "SOURCE/CONTENT/---" block per source, in order |
| Ai.FormatContext | services/ai.ts:18-20 | the context is empty exactly when there are no sources, and starts with the first source's block |
| Ai.FormatContextConcat | services/ai.ts:18-20 | the context of two runs of sources is their contexts joined by a newline |
| Ai.FormatContextSingle | services/ai.ts:19 | the exact block of a single source |
| Ai.CollapseWhitespace | services/ai.ts:83 | empty exactly for empty input; leaves no two adjacent spaces and no whitespace but ' ' |
| Ai.CollapseRun | services/ai.ts:83 | a whitespace run between visible characters (or a text end) becomes exactly one space: the text on either side is collapsed on its own and joined by " " |
| Ai.CollapseTwoWords | services/ai.ts:83 | "a  b" collapses to "a b": the words stay apart, separated by one space |
| Ai.CollapseKeepsVisible | services/ai.ts:83 | collapsing keeps every non-space character, in order |
| Ai.CollapseIdempotent | services/ai.ts:83 | collapsing twice is collapsing once |
| Ai.CleanWebsiteText | services/ai.ts:83 | a prefix of the collapsed and trimmed text: all of it when it fits, exactly its first 50 000 characters otherwise; no leading whitespace, single plain spaces only |
| Ai.TidyKeepsVisible | services/ai.ts:83 | collapse-then-trim keeps every non-space character, in order |
| Ai.CleanKeepsVisiblePrefix | services/ai.ts:83 | the cut keeps a prefix of the visible text, all of it when the tidied text fits |
| Ai.TrailingSpaceAfterCut | services/ai.ts:83 | the cut runs after `trim()`, so the result can end in a space |
| Ai.DataUrlPayload | services/ai.ts:30 | `split(',')[1]` is missing exactly when there is no comma, and never holds a comma |
| Ai.DataUrlRoundTrip | services/ai.ts:30 | a header without commas, a comma and a comma-free payload give back the payload |
| Ai.ChoosePrompt | services/ai.ts:44-49 | the audio prompt exactly for "audio/" types, the image prompt exactly for "image/" types, the document prompt otherwise |
| Ai.ExtractedText | services/ai.ts:61 | the reply when non-empty, else "No text extracted.", never empty |
| Ai.DurationInstruction | services/ai.ts:307-309 | each length maps to its own instruction, Medium to the default |
| Ai.StreamUpdates | services/ai.ts:120-127 | one update per chunk that has text or grounding, in stream order, carrying that chunk's text (or "") and grounding flag; every other chunk is skipped |
| Ai.AnswerUpdates | services/ai.ts:99-140 | no sources: one "Please add sources..." update; otherwise the stream's updates, followed by the error update when the stream throws |
| Ai.UpdateTextsAppend | services/ai.ts:124-126 | the accumulated text grows by each update's text |
| Ai.StreamKeepsText | services/ai.ts:120-127 | the passed-on updates carry all the streamed text |
| Ai.SpeechAudio | services/ai.ts:157-158 | speech succeeds exactly when inline data is present, else "Failed to generate speech" |
| Ai.AudioOverview | services/ai.ts:334-381 | succeeds exactly with a script and audio data; a missing script throws first, then missing audio |
| Ai.FirstInlineIndex | services/ai.ts:202-209 | the first part with inline data, or none |
| Ai.PickInlineImage | services/ai.ts:201-209 | the loop returns the first part's inline data, or nothing |
| Ai.Infographic | services/ai.ts:190-216 | succeeds exactly with an image; `{ imageUrl, prompt }` with a PNG data URL around that image and the prompt reply or the default prompt |
| Ai.TextArtifact | services/ai.ts:296 | fails exactly when the reply is non-empty and does not parse; null for an empty reply; otherwise the parsed object |
| Jobs.OutcomeOf | App.tsx:550-558 | a generator that throws reaches the catch block; one that returns hands its content on |
| Jobs.MalformedReplyFailsJob | App.tsx:550-589 | a text artifact's job completes exactly when the reply is empty or parses; a malformed reply fails it |
| NotebookView.AddSource | components/NotebookView.tsx:40-47 | the source is appended; earlier sources, id, title and artifacts are kept; updatedAt is now |
| NotebookView.DeleteSource | components/NotebookView.tsx:49-56 | every source with the id goes and every other one stays, as many times as it occurred |
| NotebookView.DeleteKeepsOrder | components/NotebookView.tsx:49-56 | deleting from front + back is deleting from front followed by deleting from back, so the kept sources keep their order |
| NotebookView.DeleteUndoesAdd | components/NotebookView.tsx:40-56 | deleting a source just added under a new id restores the sources |
| NotebookView.DeleteIdempotent | components/NotebookView.tsx:49-56 | deleting twice is deleting once |
| NotebookView.SaveTitle | components/NotebookView.tsx:33-38 | an update happens exactly when the title has a non-space character and differs; stored untrimmed; editing ends |
| NotebookView.SaveTitleSettles | components/NotebookView.tsx:33-38 | saving the saved title again makes no update |
| ChatTab.WithText | components/ChatTab.tsx:57-59 | only messages with the id get the text |
| ChatTab.Settled | components/ChatTab.tsx:62-64 | only messages with the id stop streaming |
| ChatTab.UpdatesReachOnlyLast | components/ChatTab.tsx:57-64 | with unique ids, the updates touch only the model message |
| ChatTab.StreamingStep | components/ChatTab.tsx:57-64 | while the model message is the last one and streaming, a chunk replaces its text alone, and the ids stay distinct |
| ChatTab.AppendFreshKeepsIds | components/ChatTab.tsx:35-51 | the user message and the model placeholder, under new and different ids, keep every id in the list distinct |
| ChatTab.ChatPanel.constructor | components/ChatTab.tsx:11-20 | one welcome message naming the source count; empty input; not loading |
| ChatTab.ChatPanel.SetInput | components/ChatTab.tsx:19 | the input box holds the text |
| ChatTab.ChatPanel.Submit | components/ChatTab.tsx:31-51 | accepted exactly when the input has a non-space character and nothing is loading; appends the user message and an empty streaming model message, clears the input, sets loading |
| ChatTab.ChatPanel.OnChunk | components/ChatTab.tsx:55-59 | the model message shows all text so far |
| ChatTab.ChatPanel.Finish | components/ChatTab.tsx:62-65 | the model message stops streaming and loading ends |
| ChatTab.ChatPanel.HandleSubmit | components/ChatTab.tsx:31-66 | an accepted question ends with the model message holding the concatenated update texts, not streaming, and loading off |
| ChatTab.ChatShowsStreamedText | components/ChatTab.tsx:55-60 | the chat shows exactly the text of the answer stream |
| SourcesTab.Intake | components/SourcesTab.tsx:36-97 | URL and YouTube checks fail with their messages; a failed fetch gives the fetch message; empty text or page content gives "No content could be extracted."; a file error's message is passed on and a file reply always succeeds; per kind: the title default, the content, the type and the metadata |
| SourcesTab.ErrorText | components/SourcesTab.tsx:101-102 | the error message, or "Failed to add source." for an empty one |
| SourcesTab.BuildSource | components/SourcesTab.tsx:40-97 | the step-by-step try block computes exactly `Intake` |
| SourcesTab.SourceModal.constructor | components/SourcesTab.tsx:14-21 | every modal field starts empty |
| SourcesTab.SourceModal.Open | components/SourcesTab.tsx:170-220 | the chosen modal opens; a file button also sets the file type |
| SourcesTab.SourceModal.ResetModal | components/SourcesTab.tsx:26-34 | every field is reset, so "Add Source" is disabled (the button rule is at line 361) |
| SourcesTab.SourceModal.HandleFileSelect | components/SourcesTab.tsx:109-361 | the file is kept; the title becomes its name only when empty; the add button is enabled |
| SourcesTab.SourceModal.HandleAddSource | components/SourcesTab.tsx:36-107 | success: one source handed on and the modal reset; failure: the message shown, the form kept, processing off |
| StudioTab.IsGenerating | components/StudioTab.tsx:26-28 | true exactly when an artifact of the kind is generating |
| StudioTab.StartedJobIsGenerating | components/StudioTab.tsx:26-28 | a started job's placeholder disables its button |
| StudioTab.FinishedJobIsNotGenerating | components/StudioTab.tsx:26-28 | completing or failing the placeholder leaves the button's state to the other artifacts |
| StudioTab.HandleGenerate | components/StudioTab.tsx:30-39 | no sources: only the alert; otherwise exactly one job with the sources and the length, and the options close |
| StudioTab.GenerateDisablesButton | components/StudioTab.tsx:26-39 | generating with sources disables that kind's button |
| StudioTab.NextSlide | components/StudioTab.tsx:254 | stays on the deck; moves one forward except on the last slide |
| StudioTab.PrevSlide | components/StudioTab.tsx:255 | never below 0; moves one back except on the first slide |
| StudioTab.DisabledExactlyWhenStuck | components/StudioTab.tsx:254-294 | an arrow is disabled exactly when pressing it would not move |
| StudioTab.NextThenPrev | components/StudioTab.tsx:254-255 | forward then back returns to the slide |
| StudioTab.AdvanceStopsAtLast | components/StudioTab.tsx:254 | k presses of next reach min(cur + k, n - 1) |
| StudioTab.RetreatStopsAtFirst | components/StudioTab.tsx:255 | k presses of previous reach max(cur - k, 0) |
| StudioTab.Clock | components/StudioTab.tsx:205 | "m:ss" text reads back as the minutes and the seconds within the minute |
| StudioTab.FormatTimeIsClock | components/StudioTab.tsx:202-206 | for t ≥ 0 the text is the clock of the whole seconds elapsed: seconds "00".."59" |
| StudioTab.ParseScriptLine | components/StudioTab.tsx:332-336 | a line is shown exactly when it holds ':'; the speaker has no ':'; speaker + ":" + words is the line |
| StudioTab.ScriptLineRoundTrip | components/StudioTab.tsx:333-334 | a colon-free speaker and any words are read back unchanged |
| Js.Round | components/LiveSession.tsx:19-24 | Math.round: the nearest integer, halves upward |
| Js.Rem | components/StudioTab.tsx:204 | `%` on numbers: the remainder has the dividend's sign and is smaller than the divisor |
| Js.NatToStringValue | components/StudioTab.tsx:205 | the decimal text of n reads back as n |
| Js.BlankIffAllSpace | App.tsx:363 | `!s.trim()` exactly when every character is whitespace |
| Js.JoinSplit | components/StudioTab.tsx:333-334 | joining the pieces of a split with the separator gives back the string |
| Js.FilterIdempotent | components/NotebookView.tsx:52 | filtering twice is filtering once |

## Left out

- Web Audio and the microphone are represented only by state flags, context numbers, the
  processors' closed-over rate and mute flag, the clock `now` and node ids. Not modelled: the
  audio graph itself, the analyser, `getUserMedia`, and `source.start`/`stop`. These are platform
  I/O. Each processor has its own stream source. Disconnecting `inputSourceRef` changes nothing
  the model sends, because its processor is disconnected in the same step.
- Base64, `convertFloat32ToInt16` and `createWavUrl` are function parameters, because their
  code is not part of this model. So is the local notebook storage, which is a map.
- The Gemini and Live client calls are left out. These are `client.connect`, the `ai.models.*`
  calls, and the session config and system instruction with its source context. They are remote
  and opaque; their replies are parameters.
- Network and DOM work: `fetch`, the CORS proxy, `DOMParser` and the oEmbed request. They are
  I/O. Their results are parameters: the page text or a failed fetch, and the oEmbed title.
- LiveAudio.LiveSession.Connect: only a synchronous throw from setup is modelled. A rejection of
  the `client.connect` promise is not caught in the source and is not modelled.
- LiveAudio.LiveSession.CaptureFrame: the uplink payload is an abstract encoding of the
  resampled frame. Float32 storage rounding and PCM16 conversion are not modelled.
- Resampler.DownsampleBuffer: computes on exact reals, not IEEE-754 floats, so rounding in
  `accum` and `Float32Array` storage is not modelled.
- StudioTab.FormatTime: the clock is characterised for t ≥ 0 only. Media times are never
  negative.
- StudioTab.NextSlide: a deck with no slides is not given meaning. The player indexes
  `slides[0]` before any arrow is pressed.
- The canvas visualizers, theming, routing and the splash screen are presentation only.
- Timers are not modelled: the 5-second notification auto-dismiss and the `setTimeout(…, 0)` job
  kick-off. Transport callbacks are treated as a sequential stream of events, not as
  concurrency.
- `startJob` passes `config?.mode` where `generateAudioOverview` expects `onProgress`. The studio
  tab's config has no mode, so nothing is called, and progress reporting is not modelled.
- Progress and seek fractions of the audio player are floating-point UI.
- Ai.CleanWebsiteText: strings are sequences of Unicode code points, while JavaScript counts
  UTF-16 code units. So the 50 000 cut of `substring` counts characters outside the Basic
  Multilingual Plane once instead of twice, and a cut through a surrogate pair cannot occur. The
  same holds for every length and index in the `js.dfy` string helpers (`Js.Trim`, `Js.IndexOf`,
  `Js.Split`, `Js.PadStart2`).

## Findings

| source | as written | input that shows it | evidently intended | confidence | as-written member | corrected member |
|---|---|---|---|---|---|---|
| components/LiveSession.tsx:115 | the capture callback reads the `muted` value captured when `connect` ran (39, 351) | connect unmuted, open, press mute, then a microphone frame arrives: it is still sent | muting stops the uplink at once | not executed | LiveAudio.StaleMuteScenario | LiveAudio.MuteHonoredScenario |
| components/LiveSession.tsx:184-189 | the close callback clears only status, connection and session; the processor and the context stay, and a later `connect` replaces the context ref without closing it (65) | connect, open, server closes, go live again: two processors feed the new session, so each frame is sent twice, and `disconnect` leaves the first one running | a closed connection releases its capture, so one processor runs per session | not executed | LiveAudio.OrphanProcessorScenario | LiveAudio.ReleasedCaptureScenario |
| components/LiveSession.tsx:168-170, 205-226 | `disconnect` closes the audio context but keeps `nextStartTimeRef`; a new context's clock starts at 0 | play one second of audio, disconnect, reconnect; the next chunk arrives at clock 0 and is scheduled at 1.0, a second of silence | a new audio context starts a fresh timeline with the cursor at 0 | not executed | LiveAudio.StaleCursorScenario | LiveAudio.FreshTimelineScenario |
