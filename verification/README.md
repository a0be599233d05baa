# Cricket batting biomechanics assistant — a Dafny model of its core

The system is a chat assistant for cricket batting videos. The user uploads a
video, then chats with a language-model agent. The agent runs pose estimation
over the video, rates the injury risk of the back, knees and shoulders frame by
frame, and recommends exercises. A React page shows the conversation, the
annotated video and the analysis report.

This project models four parts of that system as pure Dafny functions and
methods and proves properties of them:

- **Risk** (`risk.dfy`) covers the rating logic of the back end:
  - the angle bands that rate each joint and the notes they produce;
  - the swing-speed adjustment, as written and as intended;
  - the exercise recommendation;
  - the peak-risk fold over all frames.
- **Frames** (`frames.dfy`) covers the loop that builds at most 100 frame
  records, and the video summary that folds those records into a peak rating
  and an exercise list.
- **LlmMessages** (`llm_messages.dfy`) covers message preparation in the
  language-model node. The system prompt goes first when the history has none,
  and the last user message is tagged with the video path. The node answers
  with exactly one assistant message.
- **Reply**, **Normalize** and **Controller** (`reply.dfy`, `normalize.dfy`,
  `controller.dfy`) cover the browser client:
  - the shapes the page works with;
  - the normaliser that turns a chat reply into transcript messages and state
    writes;
  - the send, upload and reset handlers, as transitions of the page state.

`wrappers.dfy` holds the `Option` type.

Three modelling choices apply throughout:

- **JavaScript truthiness** is explicit. A field the page only tests for
  truthiness is a `string`, and `""` stands for every falsy value. The
  session's video path and processed-video URL (which start as `null`) and a
  transcript message's optional `video` are `Option<string>`. The
  output video's `url` and the results' `output_video_path` are passed on only
  after a truthiness test, so they are strings too; the output video's
  `message` is a string (see "## Left out").
- **Parameters stand in for things outside the model.** `JSON.parse` is a
  function parameter, the HTTP responses are datatypes, and the language model
  is a function parameter.
- **React state updates.** A handler reads the state it was created with. The
  state setters it calls are applied in order, and the last call to a field
  wins.

## Model

| member | source | states |
|---|---|---|
| Risk.BackRating | backend/tools.py:58-65 | The back is High exactly above 30 degrees, Moderate exactly in (20, 30], and Low at or below 20. |
| Risk.KneeRating | backend/tools.py:72-79 | The knees are High exactly below 120 degrees, Moderate exactly in [120, 140), and Low at or above 140. |
| Risk.ShoulderRating | backend/tools.py:86-93 | The shoulders are High exactly above 90 degrees, Moderate exactly in (70, 90], and Low at or below 70. |
| Risk.BandsMonotone | backend/tools.py:58-93 | A larger spine or shoulder angle never lowers the rating. A larger knee angle never raises it. |
| Risk.LabelOfKnownRank | backend/tools.py:251-252 | A string ranked above Low is "Moderate" or "High", the label of its rank. |
| Risk.LexLessStrict | backend/tools.py:101 | Python's string ordering, used by `max` on two ratings, is a strict order: no string precedes itself, and of two strings at most one precedes the other. |
| Risk.LexMax | backend/tools.py:101 | Python's `max` of two strings returns one of them. |
| Risk.LexMaxIsMax | backend/tools.py:101 | Neither argument follows the result of `max` in Python's string order. |
| Risk.ShouldersAfterSwingAsWritten | backend/tools.py:100-101 | As written, the fast-swing `max(rating, "High")` returns the rating unchanged for every rating, because "Low" and "Moderate" sort after "High" as strings. |
| Risk.MaxRating | backend/tools.py:101 | The greater of two ratings by rank is one of them and ranks at least as high as both. |
| Risk.ShouldersAfterSwing | backend/tools.py:100-101 | The intended adjustment: a fast swing raises the shoulder rating to High whatever it was. |
| Risk.AssessInjuryRisk | backend/tools.py:58-102 | As the back end computes it. The back, knee and shoulder ratings come from their angle bands, and a fast swing (at least two bat positions and speed above 50) leaves the stored shoulder rating as its band set it. Every stored rating is a canonical label. The stored swing speed is the given speed when two bat positions are known, and absent otherwise. The shoulder note gains the fast-swing sentence exactly on a fast swing. |
| Risk.AssessInjuryRiskIntended | backend/tools.py:95-102 | With the adjustment as intended, a fast swing stores "High" for the shoulders; otherwise the shoulder band's rating is stored. |
| Risk.IntendedDiffersOnlyInShoulders | backend/tools.py:95-102 | The back end and the intended adjustment agree on every note and on the back and knee ratings. Their shoulder ratings differ exactly on a fast swing whose shoulder band is below High. |
| Risk.FastSwingKeepsLowAsWritten | backend/tools.py:86-101 | For shoulder angle 60, two bat positions and speed 60, the back end stores "Low" and the intended adjustment "High". |
| Risk.SuggestExercises | backend/tools.py:110-133 | Each joint exercise is recommended exactly when its joint's rating is "Moderate" or "High". The warm-up is recommended exactly when none is, and then it is recommended alone. Nothing but these four exercises is ever recommended. The list has one to three entries, in back, knees, shoulders order. |
| Risk.PeakStep | backend/tools.py:250-253 | A joint takes the frame's rating only when that rating ranks strictly higher than the one held. |
| Risk.PeakStepRank | backend/tools.py:252-253 | After a fold step, the held rank is at least the previous rank and at least the frame's rank. |
| Risk.PeakOf | backend/tools.py:248-253 | The fold of the first n frames, starting from all "Low", holds one of the three labels for every joint. |
| Risk.PeakRisk | backend/tools.py:248-253 | The fold over all frames holds one of the three labels for every joint, and is all "Low" when there are no frames. |
| Risk.PeakOfAllLow | backend/tools.py:248-253 | Folding frames that are all "Low" leaves the peak all "Low". |
| Risk.PeakBoundsFrame | backend/tools.py:248-253 | No frame among those folded ranks higher than the peak. |
| Risk.PeakAttained | backend/tools.py:248-253 | A peak above Low is the rating of some folded frame. |
| Risk.PeakCanonical | backend/tools.py:248-253 | The peak is always "Low", "Moderate" or "High": a string the fold does not rank is never adopted. |
| Risk.PeakIsMaximum | backend/tools.py:248-253 | The peak of each joint is the maximum rank over all frames, held as its canonical label, and attained by a frame unless it is Low. |
| Risk.PeakIgnoresNoHigher | backend/tools.py:252-253 | A later frame ranking no higher than the peak so far leaves the peak unchanged, so ties keep the earlier value. |
| Risk.PeakOfPrefix | backend/tools.py:249-253 | Frames after the first n do not change the fold of the first n. |
| Frames.PosesBefore | backend/tools.py:154-183 | The number of bat positions held when frame k is assessed never exceeds k. |
| Frames.PosesBeforeCounts | backend/tools.py:154-183 | No bat position is held exactly when no earlier frame showed a pose, and k are held exactly when every earlier frame did. |
| Frames.PosesBeforeMonotone | backend/tools.py:154-183 | The count never falls as frames are read, and grows across every frame that shows a pose. |
| Frames.RecordOf | backend/tools.py:166-213 | A frame record carries its index. A frame with no pose gets all-Low ratings and a "No pose detected" entry. A frame with a pose gets the ratings and notes of its assessment, made with the bat positions seen so far. All stored ratings are canonical labels. |
| Frames.BuildFrames | backend/tools.py:155-214 | The loop reads min(n, 100) frames. Frame i gets the record for index i, assessed with the number of earlier frames that showed a pose as its bat-position count. |
| Frames.PeakOverRecords | backend/tools.py:248-253 | The peak over the frame records bounds every record, is a canonical label, and is attained by a record unless it is Low. |
| Frames.NoPosePeak | backend/tools.py:248-253 | When no frame shows a pose, the peak is all "Low". |
| Frames.Summarise | backend/tools.py:248-253 | The report over a non-empty list of records: the peak bounds every record, is a canonical label and, above Low, is the rating of some record. The exercises are those for the peak. All-Low records give an all-Low peak and the warm-up alone. |
| Frames.SummariseVideo | backend/tools.py:152-290 | A video with no frames reports an error. Otherwise the summary holds the frame records, the peak that bounds them, the exercises for that peak, and a frame count equal to the number of records. A video with no pose anywhere gets an all-Low peak and the warm-up alone. |
| LlmMessages.LastUserBelow | backend/graph.py:54-57 | Returns the index of the last "user" message among the first n messages, or None exactly when there is none. |
| LlmMessages.LastUser | backend/graph.py:54-57 | Returns the index of the last "user" message: no later message is a user message, and None means there is none. |
| LlmMessages.WithSystemPrompt | backend/graph.py:50-51 | The result always has a system message. A history that has one is unchanged. Otherwise the prompt is prepended and the history follows unchanged. |
| LlmMessages.PrepareMessages | backend/graph.py:48-60 | The prepared list is the history with the system prompt first when the history has no system message, so the history starts at offset 0 or 1. Roles are kept. The last user message of the history gains exactly "\nVideo path: " and the path when the path is truthy and its content does not contain "video_path"; otherwise, and for every other message, the content is unchanged. |
| LlmMessages.TagLastUser | backend/graph.py:53-60 | Tagging keeps length and roles. The last user message gains exactly the tag when the path is truthy and its content does not contain "video_path"; in every other case, and for every other message, the content is unchanged. |
| LlmMessages.TagAppliesAfterPrompt | backend/graph.py:50-60 | Putting the system prompt in front does not change whether the tag applies to a history message. |
| LlmMessages.TagAfterPrompt | backend/graph.py:50-60 | Tagging after the prompt is put in front tags the same message, with the same conditions, as tagging the history itself. |
| LlmMessages.LastUserIs | backend/graph.py:54-57 | A user message with no user message after it is the one the scan finds. |
| LlmMessages.LastUserAfterPrepend | backend/graph.py:50-57 | Putting a non-user message in front shifts the last user index by one, and keeps "none" as none. |
| LlmMessages.LastUserShift | backend/graph.py:50-57 | Prepending the system prompt shifts the last user index by one. |
| LlmMessages.PrepareWithoutTagKeepsContents | backend/graph.py:53-60 | With a falsy path, or no user message, preparation only adds the prompt. |
| LlmMessages.ContainsAroundSeparator | backend/graph.py:59 | A word that lacks a separator character and occurs in `a + [x] + b` occurs in `a` or in `b`. |
| LlmMessages.TagAddsNoMarker | backend/graph.py:59-60 | The tag itself never contains "video_path". A tagged content mentions it only if the content or the path did. |
| LlmMessages.TaggedCopyKeepsLastUser | backend/graph.py:50-60 | A tagged copy, behind messages that are not user messages, keeps the last user message at its shifted index. |
| LlmMessages.PreparedHasSystem | backend/graph.py:50-51 | The prepared list always has a system message. |
| LlmMessages.PrepareIsNotIdempotent | backend/graph.py:50-60 | Preparing twice tags twice, with or without a system message in the history, because the tag says "Video path" and not "video_path". |
| LlmMessages.CallLlmModel | backend/graph.py:47-71 | The node answers with exactly one assistant message: the model's content, or the error text when the call raises. The video path defaults to "". |
| Normalize.VideoUrl | my-app/app/page.tsx:244-246 | The video URL is the fixed base followed by the path, so it is never empty. |
| Normalize.StepEmits | my-app/app/page.tsx:214-227 | An intermediate output yields zero to two assistant messages: the prefixed thought if truthy, then the output if truthy. |
| Normalize.RunSteps | my-app/app/page.tsx:213-227 | The forEach throws exactly when the array holds null. Every message it pushes is an assistant message without a video. |
| Normalize.RunStepsAppend | my-app/app/page.tsx:214-227 | Running the steps of `xs + ys` is running `xs`, then `ys` when `xs` did not throw. |
| Normalize.RunStepsOne | my-app/app/page.tsx:214-227 | One intermediate output pushes exactly its own messages, and null throws before pushing anything. With RunStepsAppend this fixes the run over every array. |
| Normalize.CaptionVideo | my-app/app/page.tsx:284-295 | Sets the URL, and pushes the analysis caption only when no earlier message of the turn carries a video. |
| Normalize.Complete | my-app/app/page.tsx:297-300 | Records the results and sets the completion flag, without pushing a message. |
| Normalize.Keep | my-app/app/page.tsx:302-315 | Appends the raw entry verbatim as one assistant message. |
| Normalize.PushRun | my-app/app/page.tsx:269-282 | Appends a step run's messages without changing the writes. |
| Normalize.StateTail | my-app/app/page.tsx:284-300 | A truthy video path sets the URL to the video base plus the path, and pushes that URL's caption exactly when no video was pushed before. Truthy results become the written results and complete the analysis. Nothing else is pushed or written. |
| Normalize.StepsOf | my-app/app/page.tsx:268-283 | A nested state's intermediate outputs push the run over the array when they are one. Absent outputs push nothing and do not throw. Outputs that are not an array push nothing and throw. The run throws exactly when the state is not readable, and pushes only assistant messages without a video. |
| Normalize.ApplyState | my-app/app/page.tsx:268-315 | A nested state's intermediate-output messages are pushed first. If reading them throws, the raw entry follows them and nothing is written. Otherwise the rest of the state is read as StateTail states. Completion and keeping the raw entry follow from that. |
| Normalize.NestedEntry | my-app/app/page.tsx:260-317 | Non-assistant or empty entries, and payloads that are not a non-empty array, are skipped. Content not starting with "[" is kept verbatim. A payload that throws before its state is read is kept as a fallback. A readable state is applied. The results and URL written are the entry's own when it writes them, and the previous ones otherwise. |
| Normalize.PayloadEntry | my-app/app/page.tsx:262-315 | The same cases for an entry whose content starts with "[". |
| Normalize.NestedAll | my-app/app/page.tsx:259-319 | The messages array completes the analysis exactly when some entry does. Earlier pushes are never changed. |
| Normalize.NestedAllOne | my-app/app/page.tsx:260 | A one-element array is read as that element. |
| Normalize.NestedAllAppend | my-app/app/page.tsx:260 | Entries are read in array order: reading `a + b` is reading `b` after `a`. |
| Normalize.NestedResults | my-app/app/page.tsx:297-300 | The nested messages write results exactly when some entry completes the analysis. |
| Normalize.NestedUrl | my-app/app/page.tsx:284-287 | The nested messages write a URL exactly when some entry's readable state names a video. |
| Normalize.NestedAllWrites | my-app/app/page.tsx:259-319 | Last write wins: after the nested messages, the results and the URL are those of the last entry that wrote them, or the earlier values when none did. |
| Normalize.OutputVideoStep | my-app/app/page.tsx:231-238 | An output video with a URL sets the URL to that URL and pushes exactly one announcement carrying it. Otherwise nothing changes. |
| Normalize.ResultsStep | my-app/app/page.tsx:241-256 | Results with keys become the written results and complete the analysis. When they name a video and the URL held before the turn is falsy, the URL becomes the video base plus the path, and its caption is pushed exactly when no video was pushed before. Otherwise nothing is pushed and the URL is unchanged. |
| Normalize.TopRun | my-app/app/page.tsx:213-228 | The top-level intermediate outputs push the run over the array when they are one, and nothing otherwise. They throw exactly when they are an array holding null. |
| Normalize.TopLevel | my-app/app/page.tsx:212-256 | The top-level part pushes the intermediate-output messages, then the video announcement when there is an output video, or else the analysis caption when the results write a URL. It writes the top-level results, and the URL of the last top-level writer. |
| Normalize.NormalizeReply | my-app/app/page.tsx:210-319 | The normaliser throws exactly on a null top-level step. Otherwise its result is the nested messages read in array order after the top-level part, so the top-level messages come first and are never changed. All pushed messages are assistant messages, and captions come first among video messages. The turn completes the analysis exactly when the reply's results have keys or some nested state has truthy results. The final results and URL are those of the last writer: nested entries, then top-level results, then the output video. |
| Normalize.AtMostOneCaption | my-app/app/page.tsx:244-295 | At most one analysis caption is pushed per turn, and no earlier message of the turn carries a video. |
| Normalize.OutputVideoSuppressesCaptions | my-app/app/page.tsx:231-254 | When the reply has an output video with a URL, no analysis caption is pushed. |
| Controller.Rejection | my-app/app/page.tsx:171-184 | The send is refused exactly when the input is blank, the video path is falsy, or the analysis is complete, with the first failing guard's message. |
| Controller.TrimStart | my-app/app/page.tsx:171 | Trimming the front drops only white space and leaves a suffix that is empty or starts with a non-white-space character. |
| Controller.TrimEnd | my-app/app/page.tsx:171 | Trimming the back drops only white space and leaves a prefix that is empty or ends with a non-white-space character. |
| Controller.BlankIffTrimmedEmpty | my-app/app/page.tsx:171 | The trimmed input is empty exactly when every character is white space, which is the guard's Blank test. |
| Controller.TurnFailure | my-app/app/page.tsx:204-325 | A non-OK status fails with `error`, else `details`, else "Processing failed". A thrown error fails with its message or the generic one. A delivered reply fails exactly when a top-level step is null. |
| Controller.FailTurn | my-app/app/page.tsx:322-332 | A failed turn appends the user message and one error message and sets the error. Results, URL, completion and the upload flag are untouched. |
| Controller.DeliverTurn | my-app/app/page.tsx:186-321 | A delivered turn appends the user message, then the normalised messages in order. The last write to URL and results wins, and completion is set if any write set it. The upload flag is untouched. Coherence is kept. |
| Controller.SendMessage | my-app/app/page.tsx:170-336 | A refused send only sets the error. An accepted one keeps the old transcript as a prefix, then the user message, then only assistant messages. A failed turn is exactly the failure state for the turn's error, with one error message added. A delivered turn is the delivery of the normalised reply, read against the processed-video URL held before the turn: the normalised messages are appended and the URL and results the normaliser wrote are set. It completes the analysis exactly when the reply does. No send starts or ends an upload. Coherence is kept. |
| Controller.CompleteBlocksSend | my-app/app/page.tsx:181-184 | Once the analysis is complete, a send leaves the transcript as it is and keeps the flag. |
| Controller.SendAppendOnly | my-app/app/page.tsx:187-332 | A send never removes or changes earlier transcript messages. |
| Controller.UploadError | my-app/app/page.tsx:110-123 | A failed upload shows the response's error or "Upload failed", or the thrown message or "Failed to upload video". The text is never empty. |
| Controller.BeginUpload | my-app/app/page.tsx:89-104 | With no file, or during an upload, nothing changes. Otherwise the previous session's transcript, results, completion and processed video are dropped. |
| Controller.FinishUpload | my-app/app/page.tsx:110-132 | A success sets the video path and a single system message. A failure sets the error, drops the selection and keeps the old video path. Both end the upload. |
| Controller.SelectVideo | my-app/app/page.tsx:89-134 | The whole upload handler. With no file, or during an upload, nothing changes. Otherwise the result is the reset before the request followed by the response handling: either a fresh session with only the system message and the new path, or a fresh session with the upload error text, no selection and the old path. Either way the upload and loading flags end cleared and the typed input is kept. Coherence is kept. |
| Controller.UploadIgnoredWhileUploading | my-app/app/page.tsx:90 | A second selection made while an upload runs changes nothing. |
| Controller.UploadEnablesSend | my-app/app/page.tsx:115-181 | After a successful upload with a non-empty path, any non-blank message is accepted. |
| Controller.ResetForNewVideo | my-app/app/page.tsx:157-168 | The reset empties the transcript, path, selection, results, URL, completion and error, and leaves the input and loading flags. |
| Controller.ResetBlocksSend | my-app/app/page.tsx:157-179 | After a reset, a send is refused with "Please enter a message" or "Please upload a video first". |
| Controller.OnlyUploadOrResetClearsCompletion | my-app/app/page.tsx:157-184 | A send never clears the completion flag, and a reset always does. |

## Left out

- **I/O.** The network calls (`fetch`, `FormData`, reading a body as JSON),
  console logging, clearing the file input, and `handleDownloadVideo` are not
  modelled. Responses and `JSON.parse` are parameters instead.
- **Rendering.** The page's JSX, its styling helpers (`getRiskColor`) and its
  scroll effects are display only.
- **Concurrency.** The handlers are `async`. The model treats each turn as one
  atomic transition, so interleavings of two handlers are not modelled. The
  send handler itself has no `loading` guard.
- **Number formatting.** The file-size text is taken as given
  (`VideoFile.sizeText`). The two-decimal swing-speed text is kept as the
  number.
- **Geometry and vision.** Joint angles from landmarks (`calculate_angle`), the
  bat-position distance and frame rate, MediaPipe, OpenCV drawing, the video
  writer and its codec fallbacks, the output file name and the analysis cache
  are foreign calls. A frame enters the model as its angles and swing speed.
  A writer that fails to open returns an error string, which is not modelled.
- **Report wording.** The free-text report `video_pose_estimation_tool`
  returns is not modelled.
- **Other back-end components.** `advanced_image_processor`, the LangGraph
  wiring and the Flask app are not part of this model.
- Risk.AssessInjuryRisk: an exception inside the assessment (a missing
  landmark) records an error note and keeps the ratings already set. This is
  not modelled, because pose detection always supplies every landmark here.
- Frames.BuildFrames: the loop is modelled as reading until the reader runs
  out or 100 frames are read. A capture that closes mid-read is a reader
  that runs out.
- LlmMessages.CallLlmModel: the model call and any exception raised while
  preparing are one `Raised` outcome. `state.get("video_path", "")` is modelled
  for an absent key; a key present with `None` is not distinguished.
- **In-place mutation.** The node appends the tag to a message dictionary in
  place. Prepending the prompt builds a new list but copies references to the
  same dictionaries, so in both cases the tagged dictionary is the graph
  state's own, and the state is changed as a side effect. The model returns a
  new list and does not model the aliasing.
- **Message objects.** The graph's messages are read through `msg.get('role')`
  as dictionaries; roles other than "system", "user" and "assistant" are one
  `OtherRole` case.
- **Non-string content.** In the page, a `msg.content` that is truthy but not a
  string would make `startsWith` throw and the entry be kept verbatim. Content
  is a string in this model. Likewise an `output_video` without a `message`
  field would be captioned with the text "undefined"; the message is a string
  here.
- **Turn and upload races.** The page has no guard against a stale chat
  response arriving after a new upload. A failed upload keeps the previous video path. There is no explicit phase
  enumeration: the phase is the combination of `videoPath`, `isUploading` and
  `analysisComplete`.

## Findings

| source | as written | input that shows it | evidently intended | confidence | as-written member | corrected member |
|---|---|---|---|---|---|---|
| backend/tools.py:101 | `max(injury_risk["shoulders"], "High")` compares the rating strings lexicographically. "Low" and "Moderate" both sort after "High", so the maximum is always the existing rating. | Shoulder angle 60 degrees (Low), two earlier frames with a pose, swing speed 60: the stored shoulder rating stays "Low" although the analysis note says high swing speed increases shoulder strain. | A fast swing raises the shoulder rating to "High". | not executed; high, follows from Python's string ordering | Risk.FastSwingKeepsLowAsWritten | Risk.AssessInjuryRiskIntended |

The as-written half is Risk.ShouldersAfterSwingAsWritten, used by
Risk.AssessInjuryRisk, with the concrete frame in Risk.FastSwingKeepsLowAsWritten.
The corrected half is Risk.ShouldersAfterSwing, used by
Risk.AssessInjuryRiskIntended. Risk.IntendedDiffersOnlyInShoulders states
exactly where the two assessments differ. The frame loop and the video summary
use the assessment as written, because they model what the back end stores
and reports.
