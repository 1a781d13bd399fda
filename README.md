# soulsooth, modelled in Dafny

soulsooth generates guided meditations. A signed-in user describes how they feel and picks a
length and a background-music volume. The endpoint `POST /api/generate-meditation` then does
the following:

- asks a language model for a JSON script of speech and pause segments;
- renders every speech segment with text-to-speech and every pause as silence;
- joins the segment files in script order and mixes them with trimmed background music;
- stores the finished meditation as a database row.

While this runs, it streams newline-delimited JSON progress events to the browser.

The browser side is covered as follows:

- a form turns those events into a step label and a smoothly animated progress bar;
- two players highlight the segment being heard, one driven by an `<audio>` element and one
  by a WebAudio schedule;
- a dashboard lists the user's meditations ten to a page.

The model also covers three small pieces: a personal OpenAI key kept in a cookie, its input
field, and the credit counter.

The project is a set of Dafny modules, one per source file, plus a few shared helpers.

| module | file | models |
|---|---|---|
| `Wrappers` | wrappers.dfy | `Option`, `Result`, and the `ActionState` answer every server action returns |
| `Text` | text.dfy | decimal rendering of integers, `padStart`, `split`/`join` on one separator, whitespace |
| `Sorting`, `Sequences` | sorting.dfy, sequences.dfy | a stable sort by an integer key and the multiset facts about it |
| `Schema` | schema.dfy | `db/schema/meditations-schema.ts`: the segment union, the script, the row |
| `Protocol` | protocol.dfy | the events of the generation stream and the step names |
| `GenerationPlan` | generation_plan.dfy | the pure rules of `route.ts`: clamping, budgets, script validation, partition, progress formula, file names, sort, concat list |
| `GenerationRoute` | generation_route.dfy | `route.ts` as a `Generator` class: the response stream and the files in the audio directory, step by step |
| `MeditationsActions` | meditations_actions.dfy | `actions/db/meditations-actions.ts` over an in-memory table (`MeditationStore`) |
| `UserInputForm` | user_input_form.dfy | `user-input-form.tsx`: target/progress animation, submit, stream reader (`Form`) |
| `MeditationPlayer` | meditation_player.dfy | `meditation-player.tsx`: `formatTime`, the segment timeline, the audio event handlers (`Player`) |
| `MeditationDisplay` | meditation_display.dfy | `meditation-display.tsx`: the word-count schedule and its timers (`Display`) |
| `ApiKeyActions` | api_key_actions.dfy | `actions/api-key-actions.ts` over a cookie jar (`CookieStore`) |
| `ApiKeyInput` | api_key_input.dfy | `api-key-input.tsx` (`KeyInput`) |
| `MeditationHistory` | meditation_history.dfy | `meditation-history.tsx` |
| `Pagination` | pagination.dfy | `components/ui/pagination.tsx` |
| `CreditsDisplay` | credits_display.dfy | `components/ui/credits-display.tsx` (`Counter`) |

Several parts of the system are given as parameters instead of being modelled:

- The language model, text-to-speech, ffmpeg and ffprobe are the fields of
  `GenerationRoute.Collaborators`. Each is a function that yields a value or fails with a
  message.
- Files are tracked by name as a set of strings. Their bytes are not modelled.
- The authenticated user id, the clock reading, the random row id and whether the database is
  reachable are method parameters.
- The credit check is a `Result<bool>` parameter.
- The streamed response is a sequence of chunks, plus a flag saying whether the transport
  broke.
- The line decoder (`JSON.parse`) is a function parameter.

The speech tasks run concurrently in the source. In the model each round picks any task that
has not finished yet, so the order of completion is arbitrary. The proofs hold for every such
order.

JavaScript numbers are modelled in two ways:

- durations, volumes and progress values are `real`;
- counts, indices, percentages sent by the server and timestamps are `int`.

The remainder operator in `formatTime` is modelled with JavaScript's sign rule: the result
takes the sign of the dividend.

Some facts about the code that the model keeps as they are:

- the code renders pauses at their declared duration, with no reconciliation against the
  silence budget;
- the word rate is always 150 per minute;
- nothing checks how a script ends, so a script may end with a pause;
- the background music is only trimmed, never looped;
- the error path deletes no file.

## Model

| member | source | states |
|---|---|---|
| Schema.InsertedRow | db/schema/meditations-schema.ts:3-14 | an inserted row carries the supplied user, input, script and audio path, the given key as `id`, and `now` as both timestamps |
| GenerationPlan.ValidatedVolume | app/api/generate-meditation/route.ts:52-63 | the gain lies in [0,1]; it is 0.3 when the body has no volume, and otherwise the volume clamped into [0,1] |
| GenerationPlan.ValidatedDuration | app/api/generate-meditation/route.ts:52-67 | the length lies in [1,10] minutes; it is 5 when absent, and otherwise the value clamped into [1,10] |
| GenerationPlan.BudgetShape | app/api/generate-meditation/route.ts:69-72 | for a clamped length d: 150 words per minute of total time, total = 60·d seconds, silence = half of the total, with the ranges [150,1500], [60,600] and [30,300] |
| GenerationPlan.Admit | app/api/generate-meditation/route.ts:44-72 | a request is admitted exactly when there is a user id, the body parses, and `userInput` is non-empty; each refusal carries its own message ("Unauthorized", the parse error, "User input is required"); an admitted request carries the clamped volume and the budget of the clamped length |
| GenerationPlan.ValidateScript | app/api/generate-meditation/route.ts:134-143 | a script is accepted exactly when the completion is non-empty, parses, and has a title and a segment array; otherwise the failure is the call's error, "Failed to generate meditation script", the parse error, or "Invalid script format" |
| GenerationPlan.Tagged | app/api/generate-meditation/route.ts:168-185 | every entry of the speech (or pause) list carries its original index and segment and has the right kind; indices strictly ascend |
| GenerationPlan.TaggedCovers | app/api/generate-meditation/route.ts:168-185 | an index is in the speech (pause) list exactly when that segment is a speech (pause) segment |
| GenerationPlan.PartitionComplete | app/api/generate-meditation/route.ts:168-185 | the speech and pause lists hold disjoint indices, together every index below the segment count, and exactly one entry per segment |
| GenerationPlan.RoundRatio | app/api/generate-meditation/route.ts:214-215 | `Math.round(num/den)` for non-negative operands: the integer nearest the ratio, halves rounded up |
| GenerationPlan.SpeechProgressRange | app/api/generate-meditation/route.ts:214-215 | the progress sent when the speech task at position i of the speech list finishes lies in [20,60], and is 60 for the last position |
| GenerationPlan.SpeechProgressMonotone | app/api/generate-meditation/route.ts:214-215 | the progress does not decrease as the position i grows (the events themselves arrive in completion order) |
| GenerationPlan.SegmentPathInjective | app/api/generate-meditation/route.ts:188-237 | two segment file names are equal only for the same index |
| GenerationPlan.SegmentPathIsNotTemp | app/api/generate-meditation/route.ts:190-206 | no segment file name is a temporary file name |
| GenerationPlan.FinalIsNotIntermediate | app/api/generate-meditation/route.ts:280-308 | the final file `<base>.mp3` is none of the files the request deletes |
| GenerationPlan.PartitionArtifacts | app/api/generate-meditation/route.ts:168-260 | the artifacts of the speech tasks and of the pause tasks together are, as a multiset, one artifact per segment index |
| GenerationPlan.SortRestoresScriptOrder | app/api/generate-meditation/route.ts:257-260 | whatever order the tasks finished in, sorting their artifacts by index gives the artifacts in script order, so the file list names segment 0, 1, … in turn |
| GenerationPlan.ConcatListLines | app/api/generate-meditation/route.ts:262-264 | reading the concat list back line by line gives exactly one `file '<path>'` line per segment file, in order |
| GenerationRoute.SpeechProgressEvents | app/api/generate-meditation/route.ts:213-220 | one "generating-speech" event per finished task, in completion order, carrying that task's percentage |
| GenerationRoute.SynthesisEvents | app/api/generate-meditation/route.ts:162-254 | the events from the "generating-speech" checkpoint to "combining-audio": 20, 65, the per-task percentages, then 75, with no terminal event among them |
| GenerationRoute.AudioEvents | app/api/generate-meditation/route.ts:162-278 | the synthesis events followed by the "adding-music" 85 event |
| GenerationRoute.Terminal | app/api/generate-meditation/route.ts:324-344 | the closing event is "complete" with the row on success and "error" with the message on failure; it always ends the stream |
| GenerationRoute.Gathered | app/api/generate-meditation/route.ts:245-260 | the finished speech and pause artifacts, sorted by index, are the segment files in script order |
| GenerationRoute.SegmentFilesPartition | app/api/generate-meditation/route.ts:168-242 | the speech segment files and the pause segment files together are the segment files of every index |
| GenerationRoute.RemoveIntermediates | app/api/generate-meditation/route.ts:304-308 | deleting the temporaries, the segment files, the list, the voice track and the music leaves the initial files plus the final file |
| GenerationRoute.Generator.constructor | app/api/generate-meditation/route.ts:35-38 | a request starts with an empty, open stream over the existing files |
| GenerationRoute.Generator.Send | app/api/generate-meditation/route.ts:20-28 | `sendUpdate` appends one event to the stream and changes nothing else |
| GenerationRoute.Generator.Abort | app/api/generate-meditation/route.ts:332-344 | the error path appends exactly one "error" event with the message and closes the stream, touching no file |
| GenerationRoute.Generator.SpeechTask | app/api/generate-meditation/route.ts:188-223 | on success: the segment file exists, the temporary file is gone, one progress event with that task's percentage was sent, and the artifact names the segment file at the original index; on failure nothing was sent and no file was deleted |
| GenerationRoute.Generator.RunSpeechTasks | app/api/generate-meditation/route.ts:188-248 | for any completion order, the stream gains exactly the per-task progress events in that order; on success every task finished once, its artifacts are the speech artifacts, and the files are the segment files with every temporary gone |
| GenerationRoute.Generator.RunPauseTasks | app/api/generate-meditation/route.ts:233-242 | on success there is one silence artifact per pause, in pause order, and each pause's segment file exists; on failure no file was deleted |
| GenerationRoute.Generator.SpeechStage | app/api/generate-meditation/route.ts:162-231 | the 20 and 65 checkpoints are sent before any per-task event, then the per-task events in completion order |
| GenerationRoute.Generator.Synthesize | app/api/generate-meditation/route.ts:162-260 | on success the events are the synthesis events, every speech task finished exactly once, the sorted artifacts are in script order, and the directory holds every segment file and no temporary |
| GenerationRoute.Generator.Assemble | app/api/generate-meditation/route.ts:262-302 | the concat list is the joined `file '<path>'` lines; on success the 85 event is sent, the list, voice track, trimmed music and final file exist, and the voice and the music were mixed at the `volume` given; on failure no file was deleted |
| GenerationRoute.Generator.RemoveAll | app/api/generate-meditation/route.ts:305-305 | the `forEach` deletes exactly the named files |
| GenerationRoute.Generator.Cleanup | app/api/generate-meditation/route.ts:304-308 | after cleanup the segment files, the list, the voice track and the trimmed music are gone and every other file is untouched |
| GenerationRoute.Generator.Produce | app/api/generate-meditation/route.ts:154-331 | after the "script" event: on success the stream holds the audio events and then "complete", only the final file is left of the request's files, the mix used the admitted (clamped) volume, and the table gains the row recording `/audio/<base>.mp3`; on failure the table is unchanged and one "error" closes the stream, a failure before the cleanup deleted nothing but the request's temporary speech files, and a failed insert leaves the final file and nothing else of the request |
| GenerationRoute.Generator.Draft | app/api/generate-meditation/route.ts:118-331 | a rejected completion or script sends one "error" and touches no file; otherwise the "script" event (with no audio path) comes before the audio events, an audio-stage failure deleted nothing but the temporary speech files, and a failed insert leaves only the final file of the request |
| GenerationRoute.Generator.Process | app/api/generate-meditation/route.ts:41-344 | the stream is the progress events followed by exactly one terminal event, with no terminal event among the progress events; a refused request sends only "error" and touches no file; a rejected script sends 5 then "error"; success sends 5, "script", the audio events and "complete", leaves only the final file, mixes at the clamped volume, and adds exactly one row; the table is unchanged on every failure; an audio-stage failure deletes nothing but the temporary speech files, and a failed insert ("Failed to create meditation") leaves only the final file |
| MeditationsActions.Lookup | actions/db/meditations-actions.ts:32-34 | finds a row with the id exactly when the table holds one |
| MeditationsActions.UserRows | actions/db/meditations-actions.ts:62-72 | the user's rows: each row of the user as often as in the table, and no other row |
| MeditationsActions.UserRowsMembers | actions/db/meditations-actions.ts:62-72 | every listed row is in the table, and every row of the user is listed |
| MeditationsActions.NewestFirst | actions/db/meditations-actions.ts:64-64 | a permutation of the rows with `createdAt` non-increasing |
| MeditationsActions.Window | actions/db/meditations-actions.ts:60-66 | at most `limit` rows, each the row `offset + k` of the ordered list; a full window when enough rows remain, the rest otherwise |
| MeditationsActions.PageHolds | actions/db/meditations-actions.ts:60-66 | every row of the ordered history is on the page its position selects |
| MeditationsActions.MeditationStore.constructor | actions/db/meditations-actions.ts:8-26 | an empty table |
| MeditationsActions.MeditationStore.Create | actions/db/meditations-actions.ts:8-26 | a reachable insert with a fresh key appends exactly the inserted row and returns it; otherwise it fails with "Failed to create meditation" and the table is unchanged |
| MeditationsActions.MeditationStore.Get | actions/db/meditations-actions.ts:28-52 | a failed query gives "Failed to get meditation"; otherwise it fails with "Meditation not found" exactly when no row has the id, and else returns a row of the table with that id |
| MeditationsActions.MeditationStore.ListByUser | actions/db/meditations-actions.ts:54-86 | fails with "Failed to get meditations" exactly for a failed query or a negative offset or limit; otherwise at most `limit` of the user's rows, newest first, skipping `(page-1)·limit`, with `total` the count of all the user's rows |
| UserInputForm.TargetFor | app/meditate/_components/user-input-form.tsx:52-78 | "complete" targets 100; each generation step targets the larger of its floor and the current target; any other step targets 0 |
| UserInputForm.TargetForSettles | app/meditate/_components/user-input-form.tsx:52-78 | re-running the effect for the same step leaves the target where it is |
| UserInputForm.TargetForKeepsHigherTarget | app/meditate/_components/user-input-form.tsx:45-78 | during a generation step the form is loading and the target never drops below its floor or below the previous target |
| UserInputForm.Absorb | app/meditate/_components/user-input-form.tsx:141-163 | "script" moves the step to script-ready and shows the draft; "progress" takes the event's step and raises the target to the larger of the old target and the percentage, keeping the meditation; "complete" sets the step to complete, the target to 100 and shows the row's script and audio path; other events change nothing; the animated value is untouched |
| UserInputForm.TargetCoversEveryProgress | app/meditate/_components/user-input-form.tsx:139-168 | after a chunk, the target is at least every percentage carried by a progress line before the first "complete" |
| UserInputForm.AbsorbLinesRaisesTarget | app/meditate/_components/user-input-form.tsx:136-168 | a chunk's lines keep the target between its old value and 100 and leave the animated value alone |
| UserInputForm.AbsorbChunksRaisesTarget | app/meditate/_components/user-input-form.tsx:132-169 | the same over a whole stream of chunks |
| UserInputForm.IgnoredLineChangesNothing | app/meditate/_components/user-input-form.tsx:140-167 | an unparsable line, an "error" event, or an event of an unknown type changes nothing |
| UserInputForm.CompleteEndsChunk | app/meditate/_components/user-input-form.tsx:152-163 | the first "complete" line ends the chunk: the lines after it are not read, and the form is complete at 100 showing that row |
| UserInputForm.Form.constructor | app/meditate/_components/user-input-form.tsx:34-43 | idle, with progress, target and meditation cleared |
| UserInputForm.Form.SettleTarget | app/meditate/_components/user-input-form.tsx:52-78 | the effect sets the target to the step's target |
| UserInputForm.Form.Tick | app/meditate/_components/user-input-form.tsx:81-88 | a tick adds 0.5 exactly when the result stays within the target; progress never decreases and never passes the target |
| UserInputForm.Form.Submit | app/meditate/_components/user-input-form.tsx:93-109 | a request starts exactly when the input is not blank and the credit check reports credits; a refusal changes nothing; a start resets to "generating-script" with progress, target and meditation cleared |
| UserInputForm.Form.HandleLine | app/meditate/_components/user-input-form.tsx:140-167 | one line: an unparsable one changes nothing, a parsed one applies its event, and the loop stops exactly on "complete" |
| UserInputForm.Form.ReadChunk | app/meditate/_components/user-input-form.tsx:136-168 | one chunk: the non-empty lines, in order, up to and including the first "complete" |
| UserInputForm.Form.ReadStream | app/meditate/_components/user-input-form.tsx:111-174 | a refused response or a broken transport returns the step to idle, so the form is not loading; an intact stream applies every chunk in order |
| MeditationPlayer.Trunc | app/meditate/_components/meditation-player.tsx:20-20 | truncation toward zero, used for JavaScript's `%` |
| MeditationPlayer.FormatTimeReadsBack | app/meditate/_components/meditation-player.tsx:18-22 | for a non-negative time, the `m:ss` text has digits, one colon and two-digit seconds, and reads back as the whole seconds of the time |
| MeditationPlayer.Timeline | app/meditate/_components/meditation-player.tsx:41-69 | one timing per segment |
| MeditationPlayer.ElapsedSplits | app/meditate/_components/meditation-player.tsx:44-66 | the time used by a run of segments is its pause seconds plus its character share of the speech time |
| MeditationPlayer.TimelineCoversAudio | app/meditate/_components/meditation-player.tsx:54-61 | when there is speech text, the segment lengths add up to the audio's duration |
| MeditationPlayer.TimelineContiguous | app/meditate/_components/meditation-player.tsx:44-66 | each segment starts where the previous one ends |
| MeditationPlayer.StartsAscend | app/meditate/_components/meditation-player.tsx:44-66 | with non-negative pauses and speech time, a later segment never starts before an earlier one ends |
| MeditationPlayer.FirstCovering | app/meditate/_components/meditation-player.tsx:97-101 | `findIndex`: the first timing whose interval holds the time, or none when none does |
| MeditationPlayer.LookupFindsSegment | app/meditate/_components/meditation-player.tsx:95-104 | a time inside segment k's interval highlights segment k |
| MeditationPlayer.SeekHighlights | app/meditate/_components/meditation-player.tsx:173-179 | seeking to the start of a segment of positive length highlights that segment |
| MeditationPlayer.ComputeTimings | app/meditate/_components/meditation-player.tsx:44-66 | the running-time `map` computes the timeline |
| MeditationPlayer.Player.constructor | app/meditate/_components/meditation-player.tsx:27-34 | no timings, segment 0, paused, at time 0 |
| MeditationPlayer.Player.LoadedMetadata | app/meditate/_components/meditation-player.tsx:41-137 | the timings become the timeline for the audio's duration and the duration is recorded; the highlighted index is kept, and still names a timed segment or is 0 |
| MeditationPlayer.Player.TimeUpdate | app/meditate/_components/meditation-player.tsx:95-132 | the time is recorded; the index becomes the first covering segment, and stays unchanged when there is none |
| MeditationPlayer.Player.Played | app/meditate/_components/meditation-player.tsx:108-108 | the "play" event marks the player playing |
| MeditationPlayer.Player.Paused | app/meditate/_components/meditation-player.tsx:109-109 | the "pause" event marks it paused |
| MeditationPlayer.Player.Ended | app/meditate/_components/meditation-player.tsx:110-147 | "ended" stops playback and resets the index and the time to 0 |
| MeditationPlayer.Player.TogglePlayPause | app/meditate/_components/meditation-player.tsx:162-171 | asks to play exactly when the player is paused |
| MeditationPlayer.Player.PlayFromSegment | app/meditate/_components/meditation-player.tsx:173-179 | plays exactly when the index has a timing, seeking to that segment's start; otherwise the play head is unchanged |
| MeditationDisplay.WordCount | app/meditate/_components/meditation-display.tsx:88-88 | `split(/\s+/).length`: at least one |
| MeditationDisplay.WordCountOfWords | app/meditate/_components/meditation-display.tsx:88-88 | text made of n words separated by single spaces counts n words |
| MeditationDisplay.SpeechSeconds | app/meditate/_components/meditation-display.tsx:89-89 | `Math.ceil(words/2)`: the least whole number of seconds that is at least half the word count |
| MeditationDisplay.Schedule | app/meditate/_components/meditation-display.tsx:72-117 | one timer per segment and a final one |
| MeditationDisplay.HighlightAtSegmentEnd | app/meditate/_components/meditation-display.tsx:95-107 | the highlight of segment i fires at the end of segment i: the offset of the segments before it plus its own length |
| MeditationDisplay.FinishAfterLastHighlight | app/meditate/_components/meditation-display.tsx:101-117 | the final reset fires with the last highlight; once it has fired the display is stopped at index 0 |
| MeditationDisplay.ScheduleInOrder | app/meditate/_components/meditation-display.tsx:95-117 | with non-negative pauses, the timers fire in segment order and the reset fires last |
| MeditationDisplay.FiredEndsWithFinish | app/meditate/_components/meditation-display.tsx:110-117 | whatever fired before, once the final timer has fired the display is stopped at index 0 |
| MeditationDisplay.Display.constructor | app/meditate/_components/meditation-display.tsx:17-22 | loading, with no context, no buffer and nothing scheduled |
| MeditationDisplay.Display.LoadAudio | app/meditate/_components/meditation-display.tsx:25-54 | loading ends; a context and a buffer exist exactly when there is an audio path and it decoded |
| MeditationDisplay.Display.Play | app/meditate/_components/meditation-display.tsx:57-118 | without a context and a buffer nothing changes; otherwise playing from index 0 with the whole schedule added |
| MeditationDisplay.Display.ScheduleSegments | app/meditate/_components/meditation-display.tsx:72-117 | the loop adds exactly the schedule's timers and the sources' start times |
| MeditationDisplay.Display.Fire | app/meditate/_components/meditation-display.tsx:102-117 | a highlight sets the index; the final timer stops playback at index 0 |
| MeditationDisplay.Display.Stop | app/meditate/_components/meditation-display.tsx:120-127 | always leaves the display stopped at index 0 |
| ApiKeyActions.StoredKey | actions/api-key-actions.ts:49-54 | the cookie's value when it is present and non-empty, and null otherwise |
| ApiKeyActions.SetThenGet | actions/api-key-actions.ts:14-55 | after removing, the key reads back as null; after a stored key it reads back as that key; after a rejected key it reads back as before |
| ApiKeyActions.SetTouchesOnlyTheKey | actions/api-key-actions.ts:14-36 | the action succeeds exactly for a missing, empty or `sk-` key, and no other cookie is touched |
| ApiKeyActions.SetIdempotent | actions/api-key-actions.ts:8-44 | setting the same key twice is the same as setting it once |
| ApiKeyActions.CookieStore.constructor | actions/api-key-actions.ts:12-12 | the store holds the request's cookies |
| ApiKeyActions.CookieStore.SetApiKey | actions/api-key-actions.ts:8-36 | the jar and answer are the removal, the rejection "Invalid API key format" with the jar unchanged, or the store |
| ApiKeyActions.CookieStore.GetApiKey | actions/api-key-actions.ts:46-55 | succeeds with the stored key, or null |
| ApiKeyInput.Report | app/meditate/_components/api-key-input.tsx:23-29 | the field reports the typed value exactly when it is non-empty and starts with `sk-`, and null otherwise |
| ApiKeyInput.ReportAccepted | app/meditate/_components/api-key-input.tsx:23-29 | whatever the field reports, the server action accepts it and reads it back |
| ApiKeyInput.FlaggedMeansRefused | app/meditate/_components/api-key-input.tsx:23-27 | a value the field flags is one the server action refuses, and the field reports null for it |
| ApiKeyInput.KeyInput.constructor | app/meditate/_components/api-key-input.tsx:15-17 | toggle off, empty key, no error |
| ApiKeyInput.KeyInput.HandleApiKeyChange | app/meditate/_components/api-key-input.tsx:19-30 | the text is always the typed value; the prefix error is set exactly for a non-empty value without `sk-`, and cleared otherwise |
| ApiKeyInput.KeyInput.HandleToggleChange | app/meditate/_components/api-key-input.tsx:32-38 | the flag follows the toggle; switching off clears the key and reports null; switching on changes only the flag |
| MeditationHistory.CeilDiv | app/dashboard/_components/meditation-history.tsx:35-35 | `Math.ceil(n/d)`: the least q with q·d ≥ n |
| MeditationHistory.TotalPages | app/dashboard/_components/meditation-history.tsx:35-35 | no page exactly when there is no row; more than one exactly when there are more than ten |
| MeditationHistory.EveryRowHasAPage | app/dashboard/_components/meditation-history.tsx:17-35 | every row's page lies between 1 and the page count |
| MeditationHistory.Render | app/dashboard/_components/meditation-history.tsx:21-47 | the empty state exactly when the action failed; otherwise the returned rows in order, with controls exactly when there are more than ten rows |
| MeditationHistory.Show | app/dashboard/_components/meditation-history.tsx:13-50 | the empty state exactly for a page below 1 or a failed query; otherwise the page's ten newest-first rows of the user, with controls exactly when the user has more than ten |
| MeditationHistory.PagesInRange | app/dashboard/_components/meditation-history.tsx:35-47 | a page in range is non-empty, and full unless it is the last |
| Pagination.Render | components/ui/pagination.tsx:16-32 | previous is disabled exactly when page ≤ 1, and next exactly when page ≥ totalPages |
| Pagination.CaptionStatesPage | components/ui/pagination.tsx:22-24 | the caption is the words "Page", the page, "of", the page count, and both numbers read back as themselves |
| Pagination.ReadIntToString | components/ui/pagination.tsx:17-32 | a rendered page number reads back as itself |
| Pagination.LinksLeadToNeighbours | components/ui/pagination.tsx:17-32 | the links lead to the page before and the page after |
| Pagination.EnabledLinksStayInRange | components/ui/pagination.tsx:16-32 | from a page in range, an enabled link leads to a page in range |
| CreditsDisplay.Render | components/ui/credits-display.tsx:30-67 | nothing while the count is unknown; otherwise the text is the count's label, "No credits" for 0; destructive styling exactly for 0; a warning exactly when warnings are on and one or no credit is left, "no credits" exactly for 0 |
| CreditsDisplay.LabelStatesCount | components/ui/credits-display.tsx:43-45 | a non-zero label is the count, then "credit" for one or "credits" otherwise |
| CreditsDisplay.LabelInjective | components/ui/credits-display.tsx:43-45 | different counts never share a label |
| CreditsDisplay.Counter.constructor | components/ui/credits-display.tsx:17-17 | the count starts unknown |
| CreditsDisplay.Counter.Fetched | components/ui/credits-display.tsx:19-28 | a successful check stores its count; a failed one changes nothing |
| Sorting.SortRearrangement | app/api/generate-meditation/route.ts:257-259 | sorting any rearrangement of a list with strictly ascending keys gives that list |

## Left out

- The language model, text-to-speech, ffmpeg and ffprobe are not modelled. Each becomes a
  function that returns a value or fails. File contents, audio lengths and sample formats are
  not modelled.
- Authentication is a user-id parameter. The credit check and the credit deduction are outside
  the core. The `cookies()` call and its exceptions are not modelled: the actions work on a
  cookie jar they are given, so "Failed to store API key" and "Failed to retrieve API key" are
  not modelled. The database driver is an in-memory table.
- Toasts, console logging and React rendering are not modelled. The timers `setInterval` and
  `setTimeout` appear only as the timers they schedule.
- The audio directory's creation (`mkdirSync`) is not modelled.
- The concurrency of the speech and pause tasks is not modelled. The speech tasks finish in
  an arbitrary order, one at a time. The pause tasks then run after all of them, in list
  order. Pause tasks send no event and write files of their own, so a successful request
  produces the same events and files in every interleaving. Failure traces are another
  matter. The model cannot express a pause's ffmpeg call failing before any speech progress
  event. Nor can it express a pause failure's message winning over a later text-to-speech
  failure.
- After the first failing task, the model stops. In the source, tasks that are still running
  may go on writing or deleting files.
- A segment whose `type` is neither "speech" nor "pause" cannot be expressed, since
  `Schema.Segment` has only those two cases. The source's two filters both skip such a
  segment, so its index is missing from the concat list. `GenerationPlan.PartitionComplete`
  holds partly because such segments are excluded.
- `content.length` counts UTF-16 code units. `MeditationPlayer.SpeechChars` and
  `MeditationPlayer.Length` count characters. Text outside the Basic Multilingual Plane
  therefore gets a different speech share in the source.
- No modelled action updates a row, so the refresh of `updatedAt` on update is not modelled.
- The form keeps only the script and the audio path of a "complete" event's row
  (`Protocol.ViewOf`). The source stores the whole row, but it reads only those two fields.
- NaN is not modelled. `Number(...)` of a non-numeric volume or length cannot be expressed,
  and neither can `parseFloat` of unreadable ffprobe output.
- Floating-point rounding is not modelled: numbers are exact reals.
- Whitespace is modelled as the ASCII whitespace characters and the no-break space. The other
  Unicode spaces matched by `\s` are not modelled.
- The gain ramps of the WebAudio schedule are not modelled. Neither are the buffer sources
  themselves: only their start times are kept.
- The replacement of the audio context in `stopAudio` is not modelled.
- The stale target that the `setInterval` callback captures in the form is not modelled.
- The autoplay timer and `audio.play()` are not modelled. The player's "play", "pause" and
  "ended" handlers are separate methods.
- `app/dashboard/page.tsx` is not part of this model. It reads the `page` parameter with
  `parseInt`, so a page that is not a number is not modelled.
- MeditationsActions.MeditationStore.ListByUser: the default `page = 1` and `limit = 10` are
  not modelled. Callers pass both, as the history component does. Rows with equal `createdAt`
  are listed in table order. PostgreSQL may return them in any order, so the page is exact only
  up to the order of such ties.
- MeditationsActions.MeditationStore.Get: which ids PostgreSQL refuses as a uuid is not
  modelled. The `reachable` parameter is false for every failed query, a malformed id
  included.
- MeditationPlayer.Player.LoadedMetadata: requires that there is speech text, or that there is
  no speech segment. With speech segments whose text is all empty, the source divides by zero
  and the timings are NaN.
- MeditationPlayer.FormatTimeReadsBack: stated for non-negative times only. A negative time
  renders with a minus sign and cannot be read back as a clock.
- MeditationPlayer.Player.TogglePlayPause: returns whether it asks the element to play. The
  `playing` flag changes only when the element reports "play" or "pause" (Played, Paused).
- UserInputForm.AbsorbLinesRaisesTarget: assumes the server's percentages lie in [0,100], as
  every percentage the route sends does. A larger one would lift the target above 100.
- UserInputForm.Form.ReadStream: a transport failure is a flag saying that the stream broke
  after the given chunks.
- UserInputForm.Form.ReadStream: no effect runs between two chunks. In the source, each
  `await reader.read()` lets React render, and the progress effect then lifts the target to
  the floor of the current step. The model's target stays at the largest percentage received
  until a caller runs `SettleTarget`. For example, after a chunk holding only the 65
  "generating-silence" event, the source's target is 70 but the model's is 65.
- The model reads each chunk on its own, as the source does. A JSON line that is split across
  two chunks is dropped as unparsable.
- GenerationRoute.Generator.Assemble: the ffprobe duration is passed on to the trimming call
  without any check on it.
