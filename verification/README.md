# Text-to-video task pipeline: a Dafny model

This project models the core of a text-to-video web service written in Go. A
client posts a story text. The handler validates it and creates a task in an
in-memory registry. A background run then takes the task through four fixed
steps: parse the script, generate the storyboard, generate the shot images (or,
in the "qiniu" direct mode, the whole video in one remote request), and render
the video with ffmpeg. Every intermediate state of the task is stored back in
the registry, so clients can poll progress, download the finished video and
delete a task.

The model is functional. The registry is a `map<string, Task>`. A task is an
immutable datatype, and every operation that mutates a Go struct returns the
new value. The language model, Stable Diffusion, the remote video API, ffmpeg,
the file system and the clock are collaborators. What they return is an
*input* to the model: an `Outcome` (success value or error text), an `Option`
error, a set of existing files, or a clock function `nat -> nat`.

Modules, following the program's packages:

| file | module | Go source |
|---|---|---|
| wrappers.dfy | `Wrappers` | `Outcome`, `Option`, `Pending` |
| text.dfy | `Text` | `%d`, `%03d`, `len` on UTF-8 strings, `%v` of a string slice, `filepath.Join` on clean paths |
| model.dfy | `Model` | internal/model/types.go |
| manager.dfy | `TaskManager` | internal/task/manager.go |
| config.dfy | `Config` | pkg/config/config.go |
| logger.dfy | `Logger` | pkg/logger/logger.go |
| ffmpeg.dfy | `Ffmpeg` | pkg/ffmpeg/ffmpeg.go |
| qiniu_client.dfy | `QiniuClient` | internal/client/qiniu_video_client.go |
| qiniu_video.dfy | `QiniuVideo` | internal/service/qiniu_video_service.go |
| parser.dfy | `ParserService` | internal/service/parser_service.go |
| storyboard.dfy | `StoryboardService` | internal/service/storyboard_service.go |
| image.dfy | `ImageService` | internal/service/image_service.go |
| render.dfy | `RenderService` | internal/service/render_service.go |
| server.dfy | `Server` | cmd/server/main.go |
| handler.dfy | `Handler` | internal/handler/video_handler.go |
| handler_proofs.dfy | `HandlerProofs` | properties of `processTask` |

The background run (`processTask`) is split in two parts:

- `Handler.StagesOf` reads each service's outcome from the collaborators.
  These are the parsed script, the storyboard, the direct video, the image
  loop's progress callbacks and error, and the render result.
- `Handler.Events` turns those outcomes into the list of edits the run makes
  to its task. `Handler.Replay` applies the edits one by one, giving one
  stored snapshot per `taskManager.Update` call.

`Handler.EndingOf` is an independent, stage-by-stage statement of how a run
ends. `HandlerProofs.RunEndsAsExpected` proves that the stored task agrees
with it.

Points where the code's behaviour is easy to misread:

- Task and step statuses are matched exactly, with no case folding.
- `SetTaskError` keeps a result the task already had.
- The text-length check counts UTF-8 bytes (`len` of a Go string), although
  its message says "characters".
- The metadata word count is the number of runes, not words.

## Model

| member | source | states |
|---|---|---|
| Model.NewTask | internal/model/types.go:160-177 | a new task is queued at 0% with no result or error, carries the given ID, input and time, and has the four named steps, all pending |
| Model.EditFirst | internal/model/types.go:180-210 | an edit touches only the first step with the given name; every other step, and the names of all steps, are unchanged |
| Model.UpdateStep | internal/model/types.go:180-198 | the first matching step gets the new status; "processing" stamps the start time; "completed" and "failed" stamp the end time, and set the duration only when a start time exists; the current step and update time are set; nothing else in the task changes |
| Model.SetStepProgress | internal/model/types.go:201-210 | only the matching step's progress and detail text, and the update time, change |
| Model.UpdateShapedStep | internal/model/types.go:180-198 | in a task with the four fixed steps, updating step k keeps the step list's shape and changes step k alone |
| TaskManager.Create | internal/task/manager.go:24-28 | the task is stored under its ID, replacing any previous entry; all other entries are kept |
| TaskManager.Get | internal/task/manager.go:31-36 | a task is found exactly when its ID is a key, and it is the stored one |
| TaskManager.Update | internal/task/manager.go:39-47 | an unknown ID is rejected with "task not found" and nothing changes; otherwise only that entry is replaced |
| TaskManager.Delete | internal/task/manager.go:50-58 | an unknown ID is rejected; otherwise exactly that key is removed and every other entry is kept |
| TaskManager.List | internal/task/manager.go:61-70 | every stored task is listed exactly once, as many tasks as keys |
| TaskManager.UpdateTaskStatus | internal/task/manager.go:73-85 | an absent ID is rejected; otherwise only that task's status changes |
| TaskManager.UpdateTaskProgress | internal/task/manager.go:87-99 | an absent ID is rejected; otherwise only that task's progress changes |
| TaskManager.SetTaskError | internal/task/manager.go:101-114 | an absent ID is rejected; otherwise that task becomes failed with the message, and its result is kept |
| TaskManager.SetTaskResult | internal/task/manager.go:116-129 | an absent ID is rejected; otherwise that task is completed at 100% with the result; the error text is kept |
| TaskManager.CreateAllRetrievable | internal/task/manager.go:24-36 | after creating tasks with distinct IDs, each is found unaltered under its ID, and every earlier entry under another ID is still found |
| TaskManager.DeleteThenGet | internal/task/manager.go:31-58 | after a successful delete the ID is no longer found and the registry holds one task fewer |
| Config.KindListed | pkg/config/config.go:133-143 | the scan over the valid back-end names finds a name exactly when it is in the list |
| Config.Validate | pkg/config/config.go:126-154 | a missing OpenAI key is reported first; any error is one of the four validation messages |
| Config.ValidateIsFirstFailure | pkg/config/config.go:126-154 | validation reports exactly the first requirement that fails, in the code's order, and passes exactly the valid configurations |
| Config.Load | pkg/config/config.go:88-116 | a configuration is returned exactly when the file was read, decoded and is valid; a reading error is wrapped with "failed to read config file: ", a decoding error with "failed to unmarshal config: ", and a rejection is "invalid config: " followed by the first failure |
| Logger.ParseLevel | pkg/logger/logger.go:64-78 | "debug", "warn" and "error" select their level exactly; every other name, including "info", "" and other spellings, gives Info |
| Logger.ParseLevelInvertsName | pkg/logger/logger.go:64-78 | every level's name parses back to that level, and a level other than Info comes only from its own name |
| Logger.Init | pkg/logger/logger.go:15-62 | the logger writes to a file exactly when the output is "file" and a path is given, and then uses JSON; it fails exactly when that file cannot be opened, and then returns the open error unchanged; the level is the parsed one |
| Ffmpeg.ConcatArgs | pkg/ffmpeg/ffmpeg.go:38-96 | the concat input comes first; the background track is a second input only when given, with the AAC audio options and `-shortest`; the H.264 options carry the frame rate; the output is last and overwritten |
| Ffmpeg.TrackAddsOnlyAudio | pkg/ffmpeg/ffmpeg.go:47-75 | a background track adds only its input and the audio options; without them the arguments are those used when no track is given |
| Ffmpeg.SubtitleArgs | pkg/ffmpeg/ffmpeg.go:98-123 | the subtitles filter names the subtitle file, audio is copied, and the output is overwritten |
| QiniuClient.GetVideoURL | internal/client/qiniu_video_client.go:86-91 | the URL is the first video's when the response carries any video, otherwise empty |
| QiniuClient.BuildRequest | internal/client/qiniu_video_client.go:94-112 | one instance with the prompt, audio on, one sample, the requested length and the client's model |
| QiniuClient.Classify | internal/client/qiniu_video_client.go:245-262 | success exactly for "Completed", "completed" and "success"; failure exactly for "Failed", "failed" and "error" |
| QiniuClient.ClassifyIsCaseSensitive | internal/client/qiniu_video_client.go:245-262 | other spellings, such as "COMPLETED", "Success" and "Error", and "Queued" keep the loop polling |
| QiniuClient.Poll | internal/client/qiniu_video_client.go:210-275 | each tick counts itself; a query is sent only before the deadline; a timeout reports a count that includes the tick that found it; a returned success has a recognised status and a non-empty URL; an unfinished loop saw no cancellation |
| QiniuClient.DecidingTickEndsLoop | internal/client/qiniu_video_client.go:244-263 | a tick before the deadline whose status is recognised ends the loop: a failure status with "video generation failed: " and the provider's message, or "unknown error" when it has none; a success without a URL with the no-URL error; a success with a URL with that response |
| QiniuClient.TransientTicksOnlyAdvance | internal/client/qiniu_video_client.go:224-271 | ticks with a failed query or an unrecognised status before the deadline only count themselves and record their queries; what follows them is decided as if the loop had started there |
| QiniuClient.CancelAfterTransientTicks | internal/client/qiniu_video_client.go:220-236 | a cancellation after any number of such ticks ends the wait with the context's error, with one check per earlier tick |
| QiniuClient.WaitForCompletion | internal/client/qiniu_video_client.go:210-275 | the same, starting from no checks, with the deadline start + maximum wait |
| QiniuClient.PollIgnoresLaterEvents | internal/client/qiniu_video_client.go:218-273 | once the loop has returned, later ticks and cancellations change nothing |
| QiniuClient.CancelReturnsContextError | internal/client/qiniu_video_client.go:219-220 | a cancellation ends the wait at once with the context's error |
| QiniuClient.LateReplyIrrelevant | internal/client/qiniu_video_client.go:221-225 | a tick past the deadline ends the loop, whatever its query would have returned |
| QiniuClient.TransientTickContinues | internal/client/qiniu_video_client.go:227-271 | a failed query, or an unrecognised status, before the deadline continues the loop with one more check |
| QiniuVideo.DialogueLine | internal/service/qiniu_video_service.go:102-105 | the dialogue line is present exactly when the shot has a dialogue |
| QiniuVideo.CharactersLine | internal/service/qiniu_video_service.go:107-109 | the characters line is present exactly when the shot lists characters |
| QiniuVideo.SceneBlockFrame | internal/service/qiniu_video_service.go:98-112 | a shot's block opens with its 1-based scene number and closes with its transition line |
| QiniuVideo.SceneBlocks | internal/service/qiniu_video_service.go:97-113 | one block per shot, in order; block i opens with scene number first + i + 1 and closes with its shot's transition line |
| QiniuVideo.BlocksAppend | internal/service/qiniu_video_service.go:97-113 | splitting the shot list splits the prompt, and the second part's numbering continues where the first stops |
| QiniuVideo.BuildVideoPrompt | internal/service/qiniu_video_service.go:94-118 | the prompt is the fixed header, the shots' blocks in order, then the fixed style footer |
| QiniuVideo.SubmitAndFetch | internal/service/qiniu_video_service.go:46-91 | each failure is wrapped with its step: submit ("failed to start video generation: "), wait ("video generation failed: "), download, directory creation and save; a pending wait leaves the run pending; after a successful wait the found URL is downloaded; the result is the project's output.mp4 exactly when the download and both file operations succeed |
| QiniuVideo.GenerateFromStoryboard | internal/service/qiniu_video_service.go:34-92 | the request carries the storyboard prompt and always asks for 8 seconds |
| QiniuVideo.GenerateSimple | internal/service/qiniu_video_service.go:120-172 | the request carries the story prompt and asks for 8 seconds, whatever duration was requested |
| QiniuVideo.NoURLCheckIsUnreachable | internal/service/qiniu_video_service.go:64-69 | after a successful wait the service always downloads the URL the poll loop found, so its own empty-URL check never fires |
| ParserService.FillMetadata | internal/service/parser_service.go:40-46 | a zero word count becomes the text's rune count, and a zero scene count the number of scenes; counts the model gave are kept; nothing else changes |
| ParserService.FillMetadataIdempotent | internal/service/parser_service.go:40-46 | filling twice is filling once |
| ParserService.FilledZeroMeansEmpty | internal/service/parser_service.go:40-46 | after filling, a zero count means the text or the scene list is empty |
| ParserService.Parse | internal/service/parser_service.go:30-73 | each failure is wrapped with the step that failed, in order; failing to save the original text is only a warning; success returns the filled script |
| StoryboardService.KindFragment | internal/service/storyboard_service.go:71-81 | close-up, medium and long shots get their own fragment; any other shot type gets the plain medium fragment |
| StoryboardService.CharactersFragment | internal/service/storyboard_service.go:86-89 | the character count is mentioned exactly when the shot lists characters |
| StoryboardService.EmotionFragment | internal/service/storyboard_service.go:91-94 | the atmosphere is mentioned exactly when the shot has a dialogue with a non-empty emotion |
| StoryboardService.ImagePrompt | internal/service/storyboard_service.go:67-100 | the prompt is the style prefix, then the type, description, characters and emotion fragments, then the quality suffix |
| StoryboardService.WithPrompt | internal/service/storyboard_service.go:44-49 | a shot that has a prompt keeps it; a shot without one gets the generated prompt; either way the prompt is non-empty |
| StoryboardService.FillPrompts | internal/service/storyboard_service.go:44-49 | every shot, in order, is completed as `WithPrompt` says |
| StoryboardService.FillPromptsFrame | internal/service/storyboard_service.go:44-49 | filling changes no field but the prompt, keeps prompts that were set, and leaves no prompt empty |
| StoryboardService.FillPromptsIdempotent | internal/service/storyboard_service.go:44-49 | filling the prompts twice is filling them once |
| StoryboardService.Generate | internal/service/storyboard_service.go:30-65 | a model failure and a save failure are wrapped with their step; success returns the storyboard with its prompts filled and its duration unchanged |
| ImageService.ImagePathShape | internal/service/image_service.go:85 | an image path is the images directory, "/shot_", the zero-padded shot ID, then ".png"; three digits for IDs below 1000 |
| ImageService.FirstUnsaved | internal/service/image_service.go:57-101 | the loop stops at the first shot whose image was not saved; every shot before it was saved |
| ImageService.SaveOneMore | internal/service/image_service.go:83-101 | saving shot i records its path, adds the callback (i+1, total), and adds its prompt to the images requested |
| ImageService.Loop | internal/service/image_service.go:57-101 | every shot is kept in place; the loop succeeds exactly when every shot's attempt saves, and then it has one callback and one prompt per shot |
| ImageService.GenerateAll | internal/service/image_service.go:40-117 | a directory failure returns "failed to create images directory: " with the shots untouched and no callback; success exactly when the directory exists and every attempt saves |
| ImageService.RunLoop | internal/service/image_service.go:57-101 | the loop, written as a loop with its invariants, computes the run its functional definition describes |
| ImageService.RunGenerateAll | internal/service/image_service.go:40-117 | the method computes the functional run, including the early return when the images directory cannot be created |
| ImageService.CallbacksCountUp | internal/service/image_service.go:99-101 | the progress callbacks report 1, 2, … out of the total shot count, at most one per shot, and none for an empty storyboard |
| ImageService.SuccessSavesEveryShot | internal/service/image_service.go:57-116 | a successful run gives every shot its image path and reports a callback for each |
| ImageService.FailureStopsAtFirstUnsaved | internal/service/image_service.go:57-101 | a failed run stops at the first unsaved shot with that shot's error; earlier shots have their paths and later ones are untouched |
| ImageService.FindShot | internal/service/image_service.go:133-144 | the first shot with the ID is found, and no shot is found exactly when no shot has that ID |
| ImageService.RegenerationPrompt | internal/service/image_service.go:146-150 | a custom prompt replaces the shot's own prompt when it is non-empty |
| ImageService.RegenerateShot | internal/service/image_service.go:119-172 | load and lookup failures give their messages; the image is requested with the chosen prompt; success exactly when every step succeeds, at the shot's padded image path |
| RenderService.Entries | internal/service/render_service.go:110-122 | one "file" line per shot, with a "duration" line after every shot but the last |
| RenderService.FirstWithoutImage | internal/service/render_service.go:110-113 | the first shot without an image path is found, and none is found exactly when every shot has one |
| RenderService.ConcatFileAsWritten | internal/service/render_service.go:98-133 | the concat writer as written; defined only where it returns, which excludes a storyboard without shots |
| RenderService.ConcatFailsOnlyWithoutShots | internal/service/render_service.go:101-126 | the written writer fails to return exactly when the file was created and there are no shots |
| RenderService.ConcatFile | internal/service/render_service.go:98-133 | the corrected writer: creation failure, the first shot without an image, and an empty storyboard are errors; otherwise the list has every shot's file line, a duration after all but the last, and the last file repeated |
| RenderService.ConcatFileAgrees | internal/service/render_service.go:98-133 | wherever the written code returns, the corrected writer gives the same outcome |
| RenderService.ResolveBgm | internal/service/render_service.go:48-58 | the background track is used, under the assets directory, exactly when it is named and that file exists |
| RenderService.Render | internal/service/render_service.go:33-95 | render succeeds exactly when the concat file is written, every shot has an image, the storyboard has shots and ffmpeg succeeds; ffmpeg is run only on a written concat file; the result carries the output path, the storyboard's duration and shot count, 1080p, the file size (0 if unreadable), and a thumbnail exactly when one was made |
| RenderService.Speakers | internal/service/render_service.go:156-157 | the shots that get a subtitle are speaking shots, listed in increasing order |
| RenderService.SpeakersComplete | internal/service/render_service.go:156-157 | every shot with non-empty dialogue gets a subtitle |
| RenderService.ScanIsCuesBySpeaker | internal/service/render_service.go:153-176 | the scan emits one cue per speaking shot, numbered consecutively |
| RenderService.CuesBySpeaker | internal/service/render_service.go:153-176 | cue m is numbered m+1, starts at the summed durations of all earlier shots (speaking or not), lasts its shot's duration, and carries that shot's speaker and text |
| RenderService.GenerateSubtitles | internal/service/render_service.go:136-184 | it fails exactly when the file cannot be created; the path is the project's subtitles.srt |
| RenderService.RenderWithSubtitles | internal/service/render_service.go:197-236 | a render failure is returned unchanged; a subtitle failure falls back to the plain result; on success only the path and size change, to the subtitled file |
| Server.ParseResolution | cmd/server/main.go:113-123 | the three named resolutions map to their sizes; anything else gives 1920x1080 |
| Server.ChooseClient | cmd/server/main.go:61-98 | "qiniu" chooses the direct video client, "local_sd" the image client, and any other name is unsupported |
| Server.Start | cmd/server/main.go:23-138 | the server starts only with a valid configuration; the direct mode, the video service and the qiniu client come together; the image size is the parsed resolution; a missing ffmpeg gives a warning |
| Server.FfmpegFatalOnlyForLocalSd | cmd/server/main.go:39-46 | with a valid configuration and a working logger, startup stops exactly when ffmpeg is missing and the back end is "local_sd" |
| Server.UnsupportedTypeUnreachable | cmd/server/main.go:96-97 | the unsupported-type stop can never happen, because loading already rejects every type but the two supported ones |
| Text.DecimalRoundTrip | internal/service/image_service.go:85 | the decimal digits written for a number read back as that number |
| Text.PadZero3 | internal/service/image_service.go:85 | `%03d`: at least three characters, exactly three below 1000, the digits of the number, and a leading minus for negative numbers |
| Text.Utf8Length | internal/handler/video_handler.go:72-90 | a string's UTF-8 byte length is between its character count and four times it, and is zero only for the empty string |
| Text.AsciiUtf8Length | internal/handler/video_handler.go:82 | for ASCII text the byte length is the character count |
| Handler.WithDefaults | internal/handler/video_handler.go:93-104 | options the request set are kept; an unset style becomes "anime", an unset (zero) duration 60 and an unset aspect ratio "16:9"; an unset background track becomes the configured default |
| Handler.SettingsOf | internal/handler/video_handler.go:43-54 | the direct video mode is chosen exactly when the back end is "qiniu"; the limits, data directory, background track, frame rate and model are the configured ones; a negative wait limit becomes zero |
| Handler.Submit | internal/handler/video_handler.go:59-129 | a request is accepted exactly when it decoded and its text is non-empty and within the byte limit; a rejection is 400 with the matching error and creates nothing; an acceptance stores exactly one fresh task under the new ID, with the defaulted input, and replies with the ID |
| Handler.EmptyTextCheckIsUnreachable | internal/handler/video_handler.go:72-80 | when decoding enforces the `required` tag on the text (internal/model/types.go:32), the handler's "Text is required" reply never occurs |
| Handler.StagesOf | internal/handler/video_handler.go:151-255 | the image loop's progress callbacks seen by the run count up from 1 out of the storyboard's shots |
| Handler.ImageProgress | internal/handler/video_handler.go:220-232 | the callbacks a run receives report i of the total after the i-th saved shot |
| Handler.GetTask | internal/handler/video_handler.go:288-308 | the stored task with 200 when the ID exists; 404 naming the ID otherwise |
| Handler.ListTasks | internal/handler/video_handler.go:400-412 | every stored task exactly once, with their number as the total |
| Handler.Download | internal/handler/video_handler.go:311-357 | the video is served exactly when the task exists, has completed with a result, and the file is present; an unfinished task gives 400 with its status |
| Handler.DeleteTask | internal/handler/video_handler.go:360-397 | an unknown ID gives 404 and changes nothing; otherwise exactly that task is removed, and the project directory only when it exists and removal succeeds |
| Handler.EndingOf | internal/handler/video_handler.go:151-255 | the run fails at the parse step exactly when parsing failed; it stalls exactly in direct mode with a pending remote video; a success has a parsed script and a storyboard within the limit, and the remote video or the render's result |
| Handler.Events | internal/handler/video_handler.go:147-255 | the run first marks parsing as processing; its last edit is the failure of the failing step, or the completion with the result, as `EndingOf` says, and neither when the run stalls |
| Handler.ProcessTask | internal/handler/video_handler.go:132-267 | an unknown ID changes nothing, and the run never adds or removes registry keys |
| HandlerProofs.RunEndsAsExpected | internal/handler/video_handler.go:132-285 | the stored task ends as the stages say: failed at the first failing step with its message, the steps before it completed and the rest untouched; or completed at 100% with the result, with direct mode never starting the render step; or still processing at the images step while the remote video is pending. The final task is the last stored snapshot |
| HandlerProofs.ParseStage | internal/handler/video_handler.go:147-158 | a parse failure fails step 0 with "Failed to parse script"; otherwise the run moves to the storyboard step and ends as the later stages say |
| HandlerProofs.StoryboardStage | internal/handler/video_handler.go:160-179 | a storyboard failure, or too many shots, fails step 1 with its message; otherwise the run moves to the images step |
| HandlerProofs.DirectStage | internal/handler/video_handler.go:184-211 | direct mode waits, fails step 2, or completes steps 2 and 3 together with the direct result |
| HandlerProofs.ImageStage | internal/handler/video_handler.go:214-240 | image mode reports progress while step 2 stays in flight, then fails step 2 or moves to the render step |
| HandlerProofs.RenderStage | internal/handler/video_handler.go:242-261 | a render failure fails step 3; a render success completes step 3 and the task with the result |
| HandlerProofs.FailedRunShape | internal/handler/video_handler.go:270-285 | a failed run from a fresh task has exactly one failed step, completed steps before it and pending steps after it; it carries an error message and no result |
| HandlerProofs.CompletedRunShape | internal/handler/video_handler.go:184-261 | a completed run has all four steps completed, 100% progress, a result and no error; in direct mode the render step was never started |
| HandlerProofs.ShotLimit | internal/handler/video_handler.go:171-179 | once the storyboard exists, its step fails exactly when the shot count exceeds the limit, with the "Too many shots" message; exactly the maximum goes on |
| HandlerProofs.SnapshotsKeepIdentity | internal/handler/video_handler.go:132-285 | every stored snapshot keeps the task's ID, input, creation time and four named steps |
| HandlerProofs.PercentMonotone | internal/handler/video_handler.go:222 | the integer percentage never falls as more shots are done, stays within 0..100, and is 100 when all are done |
| HandlerProofs.ProgressNeverFalls | internal/handler/video_handler.go:217-261 | along the stored snapshots of a run the overall progress never falls and stays within 0..100 |
| HandlerProofs.ImagesReachFullProgress | internal/handler/video_handler.go:216-244 | in image mode, when every shot is saved, the last progress report is n of n shots, which is 100%, and it comes before any edit of the render step |
| HandlerProofs.ImagesDoneReportEveryShot | internal/service/image_service.go:57-116 | an image loop that succeeds reports progress once per shot |
| HandlerProofs.ProcessTaskStoresFinal | internal/handler/video_handler.go:132-267 | after the run, only the task's registry entry has changed, and it holds the run's final state: no update is refused |
| HandlerProofs.ZeroShotStoryboardReachesRender | internal/handler/video_handler.go:171-249 | in image mode a storyboard with no shots passes the limit and the empty image loop, and reaches a concat writer that, as written, cannot return; with the corrected writer the task fails at the render step |

## Left out

- HTTP routing, JSON binding and the gin response writer are not modelled. Each endpoint is a function from the registry and request to a reply record, with a status, message, error text and payload.
- The OpenAI and Stable Diffusion clients, the HTTP layer of the video client, and ffmpeg/ffprobe execution are not modelled. Their results are inputs: `Outcome` values, error options, and per-shot image attempts.
- File-system effects are inputs. These are directory creation, JSON saving, file writes and removal, size lookup and existence checks. `existing: set<string>` stands for the files present.
- The registry mutex and the goroutine per task are not modelled. Each task's run is modelled on its own. A task deleted, or updated by another request, while its run is in flight is not modelled: the Go code keeps a pointer to it.
- The ticker of the poll loop is not modelled. The loop reads a finite sequence of observed events, and `Waiting` stands for a loop that has not returned.
- Floating-point formatting (`%.1f`, `%.2f`, and the SRT clock format) is a parameter of type `real -> string`.
- The thumbnail is not modelled beyond whether it was made. The file's metadata read (`GetVideoInfo`) is not modelled.
- The health checks and log messages are not modelled.
- Configuration file reading, environment-variable expansion and YAML decoding are not modelled. `Config.Load` takes their outcome: the reading error, the decoding error, or the decoded configuration.
- Text.PathJoin: joins with a single "/" and does not clean the result as `filepath.Join` does. Paths agree with Go's only for a clean data directory, such as "data" or "/srv/data". A directory such as "./data", "data/" or "" gives a path that Go would clean. These paths reach the result's video path, the image paths, downloads and deletion.
- UUID generation is not modelled. The new task's ID is a parameter of `Handler.Submit`.
- The Content-Disposition and Content-Type headers of a download are not modelled. `Handler.Download` returns the served path.
- Server.Start: the check that the qiniu client exists (cmd/server/main.go:101-103) is not a separate outcome, because the model always builds that client for "qiniu".
- Handler.ProcessTask: the direct mode stamps steps 2 and 3 with one clock reading. The Go code reads the clock once per `UpdateStep` call, so the two end times may differ by the time between those two calls.
- Handler.SettingsOf: a negative maximum wait time is read as zero. In Go the deadline then lies in the past, and the first tick times out, just as it does with a zero wait.
- ImageService.Loop: the negative prompt sent with every image request is the constant `StoryboardService.NegativePrompt`. It is not recorded among the requested prompts.
- RenderService.Render: it is built on the corrected concat writer `RenderService.ConcatFile`. On a storyboard with no shots it returns "failed to generate concat file: storyboard has no shots", where the Go code panics at internal/service/render_service.go:125 (see Findings). `Handler.ProcessTask` inherits this, so such a run fails at the render step instead of ending the process.
- RenderService.GenerateSubtitles: states only the file path and the creation error. The subtitle content is stated by `RenderService.CuesBySpeaker`. The SRT time formatting is a parameter.
- The `RegenerateShot` and `GenerateSimple` services and the `RenderWithSubtitles` call are modelled. No handler reaches the first two.
- Model.ShapedFirstMatch, TaskManager.OperationsKeepKeying, TaskManager.SettersKeepKeying: these state the keying invariant that every task is stored under its own ID. They follow from the contracts of the operations without further proof.

## Findings

| source | as written | input that shows it | evidently intended | confidence | as-written member | corrected member |
|---|---|---|---|---|---|---|
| internal/service/render_service.go:125 | after the shot loop the writer reads `Shots[len(Shots)-1]` to repeat the last frame, with no check for an empty list | image mode, a storyboard with zero shots (the shot limit only bounds the count from above, and the image loop does nothing), concat file created; the index is -1, which panics; nothing recovers in the background goroutine, so the server process exits and the task is lost | an empty storyboard is an error of the render step, which fails the task | not executed | RenderService.ConcatFileAsWritten (with RenderService.ConcatFailsOnlyWithoutShots and HandlerProofs.ZeroShotStoryboardReachesRender) | RenderService.ConcatFile |
