# MNML screen recorder core, modelled in Dafny

This project models the core logic of the MNML screen recorder for Android, a Kotlin app. It covers seven components.

- **The capture engine** (`RealCaptureEngine`). This is the state machine behind a recording.
  - It holds two flags, `isStarted` and `paused`.
  - It holds three platform handles: the recorder, the projection and the virtual display.
  - It holds the pending output file and the max-duration timer.
  - It emits four kinds of events: start, stop(file), cancel and error.
- **The trimmer** (`VideoTrimmer.trim`). It copies the samples of a time window from every audio and video track of a container into a new container.
- **The background service.** It covers intent dispatch, the guards in front of starting, and the rule for leaving the foreground when stopping. It also covers the periodic auto-stop check on free storage and battery, and the handler queue of its runnable.
- **The quality settings screen.** It covers the preset table, the fallback to the screen resolution, the `isApplyingPreset` guard, the switch to "custom" on a hand edit, and the labels and summaries.
- **The presets screen.** It exports and applies a fixed list of preferences as a JSON object. It saves, deletes and lists named presets, trims preset names and sorts the chooser by name.
- **The trim editor.** It covers the two seek bars that clamp each other, the play-position rule, the export guard, the output file next to the recording, and the `m:ss` labels.
- **The watermark overlay.** It is a show/hide machine over one nullable view.

## How the model is built

- Android objects are opaque handles.
- The calls the code makes to the platform are appended to a call log.
- What a component emits or asks of its collaborators is appended to an event or effect log.
- Values the code reads from the platform are parameters of an operation. These include the engine's state, the battery and storage readings, the display size, the player's duration and the metadata duration.
- The same goes for whether a platform call throws: a thrown exception is an input, and every exit path can be followed.
- Objects whose fields the code updates are Dafny classes: `CaptureEngine`, `BackgroundService`, `QualityScreen`, `PresetsScreen`, `TrimEditor` and `WatermarkOverlay`.
- The trimmer's loops are methods with loop invariants. Each is proved against a pure specification of what a trim writes.

Files:

| file | module |
|---|---|
| `wrappers.dfy` | `Wrappers` |
| `decimal.dfy` | `Decimal` |
| `capture_engine.dfy` | `Capture` |
| `video_trimmer.dfy` | `Trimmer` |
| `background_service.dfy` | `Service` |
| `settings_quality.dfy` | `QualitySettings` |
| `settings_presets.dfy` | `PresetSettings` |
| `editor.dfy` | `Editing` |
| `watermark_overlay.dfy` | `Overlay` |

### Behaviour worth knowing

- **The trimmer's end bound is inclusive.** The copy loop stops only at a sample later than `endUs` (app/src/main/java/com/afollestad/mnmlscreenrecord/ui/editor/VideoTrimmer.kt:87), so a sample exactly at `endUs` is copied. `Trimmer.EndBoundInclusive` states this.
- **`cancel()` without a pending file only emits a cancel.** Even when a recorder is held, nothing is torn down (engine/src/main/java/com/afollestad/mnmlscreenrecord/engine/capture/CaptureEngine.kt:213-216).
- **`stop()` catches faults only while stopping the streams.** Only the projection's and the recorder's `stop()` are inside the `try`. A `recorder.release()` or `display.release()` that throws escapes `stop()`, and every handle after it stays held (engine/src/main/java/com/afollestad/mnmlscreenrecord/engine/capture/CaptureEngine.kt:233-245).
- **A trim that fails before its `try` leaks the input extractor.** Such failures are opening the input, creating the muxer and adding a track (app/src/main/java/com/afollestad/mnmlscreenrecord/ui/editor/VideoTrimmer.kt:43-56). `Trimmer.Trim` states that the input is released exactly when the `try` is entered.

## Model

| member | source | states |
|---|---|---|
| Capture.CaptureEngine.constructor | engine/src/main/java/com/afollestad/mnmlscreenrecord/engine/capture/CaptureEngine.kt:144-151 | A new engine is not started or paused, holds no handle, file or timer, and has emitted and called nothing. |
| Capture.CaptureEngine.Start | engine/src/main/java/com/afollestad/mnmlscreenrecord/engine/capture/CaptureEngine.kt:163-185 | If already started, nothing changes. With no projection, the only change is one permission-activity launch (no event, no recorder). With a projection, the whole new state is `SetupEffect` of the old one: a throwing setup adds exactly one error event, a declining recorder changes nothing, and a successful setup installs recorder, display and file, sets `isStarted`, emits one start event and arms the timer. |
| Capture.CaptureEngine.RunSetup | engine/src/main/java/com/afollestad/mnmlscreenrecord/engine/capture/CaptureEngine.kt:178-184 | The shared setup step keeps the engine consistent, only extends the call log, and leaves exactly the state `SetupEffect` gives: one error event when it throws, nothing when the recorder declines, and on success recorder, display and file installed, `isStarted` set, one start event and the max-duration timer rescheduled. |
| Capture.SetupStartedShape | engine/src/main/java/com/afollestad/mnmlscreenrecord/engine/capture/CaptureEngine.kt:178-184 | A successful setup leaves the engine consistent and started, with the outcome's recorder, display and file, the projection and paused flag kept, exactly one more event (the start), and a timer armed iff the maximum is positive, for that many minutes in ms. |
| Capture.CaptureEngine.RequestPermission | engine/src/main/java/com/afollestad/mnmlscreenrecord/engine/capture/CaptureEngine.kt:187-190 | The only change is one request for the capture intent's result, with the given request code. |
| Capture.CaptureEngine.OnActivityResult | engine/src/main/java/com/afollestad/mnmlscreenrecord/engine/capture/CaptureEngine.kt:192-210 | A refused grant throws (the callback is registered on null) and changes nothing. A grant is stored and its callback registered before setup runs, and the whole new state is then `SetupEffect` of that: one error event on a throw, nothing more on a decline, and on success the started session with recorder, display, file, start event and timer. |
| Capture.CaptureEngine.Stop | engine/src/main/java/com/afollestad/mnmlscreenrecord/engine/capture/CaptureEngine.kt:223-255 | Satisfies `StopSpec`, whose cases are these. Without a recorder: only one cancel event, and `isStarted` is untouched. Otherwise: flags down, timer removed, projection then recorder stopped (a fault there is swallowed), recorder then display released, and exactly one event, stop(file) or cancel. A release that throws escapes with later handles still held and no event. The engine stays consistent. |
| Capture.CaptureEngine.Teardown | engine/src/main/java/com/afollestad/mnmlscreenrecord/engine/capture/CaptureEngine.kt:233-254 | The teardown calls, in order, given which handles were held and which call throws, and which handles, file and event remain afterwards. |
| Capture.CaptureEngine.StopStreams | engine/src/main/java/com/afollestad/mnmlscreenrecord/engine/capture/CaptureEngine.kt:233-239 | The `try` block: the projection is stopped if held. The recorder is stopped unless the projection's stop threw, and nothing escapes. |
| Capture.CaptureEngine.ReleaseRest | engine/src/main/java/com/afollestad/mnmlscreenrecord/engine/capture/CaptureEngine.kt:243-254 | Releases the display if held. A throwing release escapes before anything else changes. Otherwise the display, projection and file are cleared, and one stop(file) or cancel event is emitted. |
| Capture.StopKeepsConsistent | engine/src/main/java/com/afollestad/mnmlscreenrecord/engine/capture/CaptureEngine.kt:223-255 | `stop()` leaves the engine consistent, whichever release throws, even when called from `cancel()` after the file was dropped. |
| Capture.StopTearsDown | engine/src/main/java/com/afollestad/mnmlscreenrecord/engine/capture/CaptureEngine.kt:228-254 | When nothing escapes, `stop()` with a recorder leaves the flags down, the timer cleared and all three handles and the file null. It appends exactly one event, which is stop(file) exactly when a file was pending, and carries that file. |
| Capture.StartThenStopEmitsFile | engine/src/main/java/com/afollestad/mnmlscreenrecord/engine/capture/CaptureEngine.kt:223-255 | After a successful start, a stop in which no release throws emits exactly a start and then a stop carrying the file that was being recorded, and leaves nothing held: not started, no recorder, display, file or timer. |
| Capture.StopSwallowsStopFaults | engine/src/main/java/com/afollestad/mnmlscreenrecord/engine/capture/CaptureEngine.kt:233-239 | A fault stopping the projection or the recorder never escapes `stop()`. |
| Capture.StopAfterStopOnlyCancels | engine/src/main/java/com/afollestad/mnmlscreenrecord/engine/capture/CaptureEngine.kt:224-227 | A second `stop()` after a complete one (as the projection callback causes) changes no field, makes no call and adds one cancel event. |
| Capture.CaptureEngine.Cancel | engine/src/main/java/com/afollestad/mnmlscreenrecord/engine/capture/CaptureEngine.kt:212-221 | Satisfies `CancelSpec`. Without a pending file there is one cancel event and nothing else. Otherwise the file is deleted and forgotten before `stop()` runs. |
| Capture.CancelOnlyCancels | engine/src/main/java/com/afollestad/mnmlscreenrecord/engine/capture/CaptureEngine.kt:212-221 | `cancel()` always leaves no pending file and never emits a stop event. If nothing escapes, it emits exactly one cancel, whether or not a file or a recorder existed. |
| Capture.CaptureEngine.Pause | engine/src/main/java/com/afollestad/mnmlscreenrecord/engine/capture/CaptureEngine.kt:257-269 | No-op unless started and not paused. Below API 24 it adds one unsupported-operation error and leaves `paused` as it was. A throwing recorder pause adds that error and leaves `paused`. Otherwise `paused` becomes true. |
| Capture.CaptureEngine.Resume | engine/src/main/java/com/afollestad/mnmlscreenrecord/engine/capture/CaptureEngine.kt:271-283 | No-op unless started and paused. Below API 24 it adds one unsupported-operation error and leaves `paused` as it was. A throwing recorder resume adds that error. Otherwise `paused` becomes false. |
| Capture.CaptureEngine.ClearMaxDurationTimer | engine/src/main/java/com/afollestad/mnmlscreenrecord/engine/capture/CaptureEngine.kt:287-290 | The armed runnable, if any, is removed from the handler and the slot is cleared. Nothing else changes. |
| Capture.CaptureEngine.ScheduleMaxDurationStop | engine/src/main/java/com/afollestad/mnmlscreenrecord/engine/capture/CaptureEngine.kt:292-302 | The new state is `ScheduleEffect`: any armed timer is removed first. Nothing is armed for minutes <= 0. Otherwise one fresh runnable is posted with a delay of minutes * 60000 ms. |
| Capture.CaptureEngine.OnMaxDurationElapsed | engine/src/main/java/com/afollestad/mnmlscreenrecord/engine/capture/CaptureEngine.kt:299-301 | The timer's runnable stops the session only if it is still started; otherwise nothing changes. |
| Capture.CaptureEngine.OnProjectionStop | engine/src/main/java/com/afollestad/mnmlscreenrecord/engine/capture/CaptureEngine.kt:304-309 | The projection callback's `onStop` is exactly `stop()`. |
| Trimmer.Trim | app/src/main/java/com/afollestad/mnmlscreenrecord/ui/editor/VideoTrimmer.kt:29-113 | An invalid range fails before any call: no directory and no output. A success writes exactly `ExpectedOutput` for the window in µs. For a valid range, the trim succeeds exactly when the `try` is entered, the muxer starts and no copied track fails (`CopiesClean`). A track fails on a reader fault, on a write fault within its output, or on a sample too large for its buffer. So a fault before the `try`, at the muxer's start or in a copied track fails the trim. Whatever happens, each output track holds a prefix of what it should, and every reader is released by the next call. The input is released, and the muxer stopped, exactly when the `try` is entered; the stop needs the muxer to have started. The muxer's release is the last call. |
| Trimmer.FaultsFailTrim | app/src/main/java/com/afollestad/mnmlscreenrecord/ui/editor/VideoTrimmer.kt:29-113 | For every input with a copied track, a failure to open the input fails the trim, and so does a reader fault on any copied track. |
| Trimmer.Prepare | app/src/main/java/com/afollestad/mnmlscreenrecord/ui/editor/VideoTrimmer.kt:43-56 | The calls before the `try`. It fails exactly when opening the input, creating the muxer or adding a copied track throws. The muxer then holds one empty track per copied source track registered so far. |
| Trimmer.AddTracks | app/src/main/java/com/afollestad/mnmlscreenrecord/ui/editor/VideoTrimmer.kt:48-56 | The track loop registers, in source order, exactly the copied tracks, each mapped to the next output index. It fails exactly when a copied track's `addTrack` throws. |
| Trimmer.MediaTracks | app/src/main/java/com/afollestad/mnmlscreenrecord/ui/editor/VideoTrimmer.kt:49-52 | Every selected index is a source track whose MIME type starts with `audio/` or `video/`. |
| Trimmer.MediaTracksIncreasing | app/src/main/java/com/afollestad/mnmlscreenrecord/ui/editor/VideoTrimmer.kt:48-56 | The selected tracks are in strictly ascending source order, so each is copied once. |
| Trimmer.MediaTracksComplete | app/src/main/java/com/afollestad/mnmlscreenrecord/ui/editor/VideoTrimmer.kt:51-52 | Every audio and video track is selected. |
| Trimmer.SeekIndex | app/src/main/java/com/afollestad/mnmlscreenrecord/ui/editor/VideoTrimmer.kt:70 | The seek lands on the last keyframe at or before `startUs`, or on the first sample when there is none. |
| Trimmer.SeekToZeroIsFirst | app/src/main/java/com/afollestad/mnmlscreenrecord/ui/editor/VideoTrimmer.kt:70 | For non-negative, strictly increasing timestamps, seeking to 0 lands on the first sample. |
| Trimmer.CopySamples | app/src/main/java/com/afollestad/mnmlscreenrecord/ui/editor/VideoTrimmer.kt:80-98 | The `while (true)` loop always writes a prefix of `Emitted`. Without an error it writes all of it; then no write fault fell inside it and every emitted sample fits the buffer. A write fault happens at the write it names. A too-small buffer is reported only when the next sample to write is larger than the buffer. |
| Trimmer.EmittedFromWindow | app/src/main/java/com/afollestad/mnmlscreenrecord/ui/editor/VideoTrimmer.kt:81-96 | Every written sample comes from a source sample with startUs <= t <= endUs, with bytes and flags unchanged and presentation time t - startUs. |
| Trimmer.EmittedTimesRebased | app/src/main/java/com/afollestad/mnmlscreenrecord/ui/editor/VideoTrimmer.kt:93 | Written presentation times lie in [0, endUs - startUs]; a pre-roll keyframe before the start is never written. |
| Trimmer.EmittedStopsAtFirstBreak | app/src/main/java/com/afollestad/mnmlscreenrecord/ui/editor/VideoTrimmer.kt:81-91 | The copy ends at the first sample with a negative time, a time past `endUs` or a negative read size; nothing after it is written. |
| Trimmer.EndBoundInclusive | app/src/main/java/com/afollestad/mnmlscreenrecord/ui/editor/VideoTrimmer.kt:87 | A readable sample exactly at `endUs` is written. |
| Trimmer.FullRangeReproduces | app/src/main/java/com/afollestad/mnmlscreenrecord/ui/editor/VideoTrimmer.kt:80-98 | Trimming from 0 a stream whose samples all lie in the window and are readable writes every sample with the same time, flags and bytes. |
| Trimmer.ExpectedOutput | app/src/main/java/com/afollestad/mnmlscreenrecord/ui/editor/VideoTrimmer.kt:65-102 | A successful trim has one output track per copied source track, in source order. |
| Trimmer.CopyTrack | app/src/main/java/com/afollestad/mnmlscreenrecord/ui/editor/VideoTrimmer.kt:65-101 | One pass of the `for` loop always keeps every track a prefix of its expected output, and fills output track k completely when it returns no error. It returns an error exactly when the track fails (`TrackFails`): a reader fault on it, a write fault within its output, or a sample larger than its buffer. |
| Trimmer.CopyTracks | app/src/main/java/com/afollestad/mnmlscreenrecord/ui/editor/VideoTrimmer.kt:59-102 | The `try` block: starting the muxer comes first. On any fault, every track holds a prefix. It ends without an error exactly when the muxer starts and no copied track fails, and then it holds the expected output. Each reader is released by the very next call. |
| Trimmer.ReaderSessionReleased | app/src/main/java/com/afollestad/mnmlscreenrecord/ui/editor/VideoTrimmer.kt:99-101 | A reader opened for a track is released by the next call, which is its `finally`. |
| Trimmer.TrimLogReaders | app/src/main/java/com/afollestad/mnmlscreenrecord/ui/editor/VideoTrimmer.kt:99-112 | The whole call log of an entered `try`, with its `finally` calls, keeps every reader released. |
| Trimmer.TrimLogReleases | app/src/main/java/com/afollestad/mnmlscreenrecord/ui/editor/VideoTrimmer.kt:103-112 | The `finally` releases the input, stops the muxer exactly when it started, and releases the muxer last. |
| Service.BackgroundService.constructor | engine/src/main/java/com/afollestad/mnmlscreenrecord/engine/service/BackgroundService.kt:102-103 | No runnable is tracked and nothing is pending. |
| Service.BackgroundService.OnStartCommand | engine/src/main/java/com/afollestad/mnmlscreenrecord/engine/service/BackgroundService.kt:107-131 | Record runs `startRecording`. Delete deletes the recording, cancels the post-record notification and leaves the foreground. Any other action only refreshes the notification when the engine is not started. The result is always `START_STICKY`. |
| Service.BackgroundService.StartRecording | engine/src/main/java/com/afollestad/mnmlscreenrecord/engine/service/BackgroundService.kt:192-206 | Adds exactly the effects of `StartRecordingEffects`, whose guards `StartRecordingGuards` states; past the guards that is the countdown, whose block is `OnCountdownFinished`. |
| Service.StartRecordingGuards | engine/src/main/java/com/afollestad/mnmlscreenrecord/engine/service/BackgroundService.kt:193-201 | Nothing happens when started or counting down. The countdown starts exactly when not started, not counting down, storage is allowed, and the overlay is allowed or no countdown will run. The overlay screen opens only after the storage check passed and only when a countdown will run. |
| Service.BackgroundService.OnCountdownFinished | engine/src/main/java/com/afollestad/mnmlscreenrecord/engine/service/BackgroundService.kt:164-166 | When the countdown ends, the service asks the engine to start. If the engine starts, its start event runs the subscribers: they ask to start the shake listener and they start the limit checks, tracking a fresh runnable posted with no delay. Last, the foreground notification is updated as recording. Nothing else changes. |
| Service.BackgroundService.OnEngineStarted | engine/src/main/java/com/afollestad/mnmlscreenrecord/engine/service/BackgroundService.kt:160-166 | The subscribers to the engine's start ask to start the shake listener, then start the limit checks: the old runnable's posts are removed and a fresh runnable is tracked and posted with no delay. |
| Service.BackgroundService.OnEngineFinished | engine/src/main/java/com/afollestad/mnmlscreenrecord/engine/service/BackgroundService.kt:168-185 | The subscribers to the engine's cancel and stop events stop the limit checks, so no runnable is tracked and its posts are gone. They then stop the shake listener and show the idle notification, and for a stop with a file they scan it. |
| Service.FinishedEffectsQuiet | engine/src/main/java/com/afollestad/mnmlscreenrecord/engine/service/BackgroundService.kt:168-185 | Those subscribers neither stop the engine nor report an error. |
| Service.EngineStartsOnlyAfterCountdown | engine/src/main/java/com/afollestad/mnmlscreenrecord/engine/service/BackgroundService.kt:160-166 | `startRecording()` never starts the engine itself. The countdown's block starts the engine first and updates the foreground last. The shake listener is asked to start exactly when the engine started. |
| Service.BackgroundService.StopRecording | engine/src/main/java/com/afollestad/mnmlscreenrecord/engine/service/BackgroundService.kt:208-216 | Adds exactly the effects of `StopRecordingEffects`. The engine's stop or cancel event runs the `onCreate` subscribers at once, so afterwards no limit runnable is tracked and its pending posts are gone. A queue that held only that runnable ends up empty. |
| Service.BackgroundService.StopEngine | engine/src/main/java/com/afollestad/mnmlscreenrecord/engine/service/BackgroundService.kt:168-185 | `captureEngine.stop()` as the service sees it: the engine stop, then the stop or cancel subscribers, run at once. Afterwards no limit runnable is tracked and its posts are gone. |
| Service.BackgroundService.CancelEngine | engine/src/main/java/com/afollestad/mnmlscreenrecord/engine/service/BackgroundService.kt:168-174 | `captureEngine.cancel()` as the service sees it: the engine cancels, and its cancel event runs the subscribers without a file. Afterwards no limit runnable is tracked and its posts are gone. |
| Service.EngineStopOnce | engine/src/main/java/com/afollestad/mnmlscreenrecord/engine/service/BackgroundService.kt:168-185 | Stopping the engine stops it once and the shake listener once, and does not leave the foreground. |
| Service.BackgroundService.OnBroadcast | engine/src/main/java/com/afollestad/mnmlscreenrecord/engine/service/BackgroundService.kt:138-156 | The four broadcast handlers. Permission denied cancels the engine, then shows the idle notification. Screen off stops the engine directly when its preference is set, and otherwise does nothing. Stop runs `stopRecording` with the extra. Exit cancels the engine, then leaves the foreground and stops the service. Every handler except a disabled screen-off leaves no runnable tracked, with its posts removed. |
| Service.ScreenOffSkipsForegroundRule | engine/src/main/java/com/afollestad/mnmlscreenrecord/engine/service/BackgroundService.kt:143-150 | A screen-off stop with the preference set stops the engine exactly once but never leaves the foreground, even in the case where a `stopRecording(false)` broadcast would. Without the preference it does nothing. |
| Service.PermissionDeniedOnlyCancels | engine/src/main/java/com/afollestad/mnmlscreenrecord/engine/service/BackgroundService.kt:139-142 | The permission-denied handler cancels the engine exactly once and never stops it. It does not leave the foreground, and ends on the idle notification. |
| Service.ExitOnlyCancels | engine/src/main/java/com/afollestad/mnmlscreenrecord/engine/service/BackgroundService.kt:151-155 | The exit handler cancels the engine exactly once and never stops it. It leaves the foreground and then stops the service, as its last two effects. |
| Service.BackgroundService.OnDestroy | engine/src/main/java/com/afollestad/mnmlscreenrecord/engine/service/BackgroundService.kt:218-225 | The service's teardown stops the limit checks and the shake listener, then the engine, whose event still runs the subscribers. Afterwards no runnable is tracked; its posts are removed, and a queue that held only it is empty. |
| Service.DestroyStopsOnce | engine/src/main/java/com/afollestad/mnmlscreenrecord/engine/service/BackgroundService.kt:218-225 | The teardown stops the engine once and the shake listener twice, once itself and once through the engine's event. It does not leave the foreground. |
| Service.StopRecordingEffects | engine/src/main/java/com/afollestad/mnmlscreenrecord/engine/service/BackgroundService.kt:208-216 | The engine is stopped first. The service leaves the foreground, and stops itself, exactly when the notification is not always shown and the app is open or the caller forces it. |
| Service.StopRecordingStopsOnce | engine/src/main/java/com/afollestad/mnmlscreenrecord/engine/service/BackgroundService.kt:168-185 | `stopRecording` stops the engine exactly once, and neither it nor the subscribers that the stop runs report an error. |
| Service.BackgroundService.StopLimitChecks | engine/src/main/java/com/afollestad/mnmlscreenrecord/engine/service/BackgroundService.kt:257-260 | No runnable is tracked afterwards, and every pending post of the old one is removed. A queue that held only that runnable ends up empty. |
| Service.BackgroundService.StartLimitChecks | engine/src/main/java/com/afollestad/mnmlscreenrecord/engine/service/BackgroundService.kt:246-255 | The old runnable's posts are removed before a fresh runnable is tracked and posted with no delay. If only the tracked runnable was pending before, only the fresh one is pending after. |
| Service.Without | engine/src/main/java/com/afollestad/mnmlscreenrecord/engine/service/BackgroundService.kt:258 | `removeCallbacks` drops exactly the posts of that runnable and keeps every other post. |
| Service.WithoutAppend | engine/src/main/java/com/afollestad/mnmlscreenrecord/engine/service/BackgroundService.kt:258 | Removal works post by post: removing from two queues joined is removing from each and joining the results. So the posts kept stay in their order. |
| Service.WithoutTracked | engine/src/main/java/com/afollestad/mnmlscreenrecord/engine/service/BackgroundService.kt:257-260 | Removing the tracked runnable empties a queue that holds only it. |
| Service.BackgroundService.CheckAutoStopLimits | engine/src/main/java/com/afollestad/mnmlscreenrecord/engine/service/BackgroundService.kt:262-288 | If the engine is not started, the checks are stopped and neither limit is read. Otherwise it adds exactly the effects of `LimitCheckEffects`. The checks are stopped exactly when a limit trips; otherwise the tracked runnable and the queue are unchanged. The single-tracked-runnable invariant is kept. |
| Service.BackgroundService.CheckStartedLimits | engine/src/main/java/com/afollestad/mnmlscreenrecord/engine/service/BackgroundService.kt:268-287 | Past the engine guard: exactly the effects of `LimitCheckEffects`. A tripped limit stops the checks and removes their posts; otherwise the runnable and the queue are unchanged. |
| Service.BackgroundService.StopOnLimit | engine/src/main/java/com/afollestad/mnmlscreenrecord/engine/service/BackgroundService.kt:269-276 | A tripped limit stops the checks, then the recording (without forcing), then reports its message. |
| Service.LimitCheckShape | engine/src/main/java/com/afollestad/mnmlscreenrecord/engine/service/BackgroundService.kt:268-287 | The effects of one check, spelled out: read storage; on low storage stop and report; otherwise read the battery; on low battery stop and report. |
| Service.LimitCheckStopsOnce | engine/src/main/java/com/afollestad/mnmlscreenrecord/engine/service/BackgroundService.kt:269-287 | A check stops the engine exactly once when a limit trips, and never otherwise. |
| Service.LimitCheckReports | engine/src/main/java/com/afollestad/mnmlscreenrecord/engine/service/BackgroundService.kt:269-287 | An error is reported only when a limit trips. On low storage the battery is not read and the low-storage message comes last. On low battery alone, the message with the percentage comes last. |
| Service.UnreadableNeverTrips | engine/src/main/java/com/afollestad/mnmlscreenrecord/engine/service/BackgroundService.kt:290-307 | A failed reading (-1) or zero free bytes never trips a limit. |
| Service.BackgroundService.RunLimitRunnable | engine/src/main/java/com/afollestad/mnmlscreenrecord/engine/service/BackgroundService.kt:249-254 | The runnable as written. The delivered post leaves the queue, the check runs, and the runnable always reposts itself 15000 ms later. A check that is not started changes no effects; a started one adds `LimitCheckEffects`. The runnable is untracked afterwards exactly when the engine is not started or a limit trips, and is otherwise unchanged. The queue is the rest of the old queue, with the tracked runnable's posts removed on a stop, followed by the repost. When the check stopped the checks, one untracked post is therefore left pending. |
| Service.BackgroundService.RunLimitRunnableCorrected | engine/src/main/java/com/afollestad/mnmlscreenrecord/engine/service/BackgroundService.kt:249-254 | The runnable as evidently intended: it reposts only while still tracked. The effects and the tracked runnable are as in the runnable as written. The queue is the rest of the old queue, with the tracked runnable's posts removed on a stop, followed by the repost exactly when the runnable is still the tracked one. Stopping the checks from inside leaves nothing pending, and the single-tracked-runnable invariant is kept. |
| Service.OrphanedRepostExample | engine/src/main/java/com/afollestad/mnmlscreenrecord/engine/service/BackgroundService.kt:246-288 | A recording with 1024 free bytes: after one run of the limit runnable as written, no runnable is tracked, yet a post of it is still pending. |
| QualitySettings.PresetTable | app/src/main/java/com/afollestad/mnmlscreenrecord/ui/settings/sub/SettingsQualityFragment.kt:224-229 | Exactly low, medium and high are presets; custom is not. Every preset is portrait (width below height), at 30 or 60 fps, with a positive bit rate. |
| QualitySettings.AppliedResolution | app/src/main/java/com/afollestad/mnmlscreenrecord/ui/settings/sub/SettingsQualityFragment.kt:235-237 | A preset writes either (0, 0), meaning the screen's own resolution, or its own size. |
| QualitySettings.ScreenFallbackRule | app/src/main/java/com/afollestad/mnmlscreenrecord/ui/settings/sub/SettingsQualityFragment.kt:231-235 | The fallback does not depend on how the device is held. A kept preset fits the display in one orientation. A display at least as large in both directions never falls back where a smaller one did not. |
| QualitySettings.FallbackIff | app/src/main/java/com/afollestad/mnmlscreenrecord/ui/settings/sub/SettingsQualityFragment.kt:231-237 | For a portrait display w by h, the resolution is (0, 0) exactly when the preset is wider than w or taller than h, and the same when held in landscape. |
| QualitySettings.IndexOf | app/src/main/java/com/afollestad/mnmlscreenrecord/ui/settings/sub/SettingsQualityFragment.kt:260 | `indexOf`: the first position of the value, or -1 exactly when it is absent. |
| QualitySettings.PresetLabelFor | app/src/main/java/com/afollestad/mnmlscreenrecord/ui/settings/sub/SettingsQualityFragment.kt:256-262 | The label at the value's position, or the first label when the value is not listed. |
| QualitySettings.PresetDialogIndex | app/src/main/java/com/afollestad/mnmlscreenrecord/ui/settings/sub/SettingsQualityFragment.kt:70-72 | The preset dialog selects the current value's first position, or 0 when it is not listed. |
| QualitySettings.ResolutionOptionsMatchPresets | app/src/main/java/com/afollestad/mnmlscreenrecord/ui/settings/sub/SettingsQualityFragment.kt:290-297 | The first option is the screen's own (0, 0). Each preset's size is one of the fixed options. |
| QualitySettings.FirstMatchingOption | app/src/main/java/com/afollestad/mnmlscreenrecord/ui/settings/sub/SettingsQualityFragment.kt:135 | `indexOfFirst`: the first option with the given size, with no earlier match. |
| QualitySettings.ResolutionDialogIndex | app/src/main/java/com/afollestad/mnmlscreenrecord/ui/settings/sub/SettingsQualityFragment.kt:134-136 | The resolution dialog selects the first option with the current size: no earlier option matches, and when none matches at all the selection is the first option. |
| QualitySettings.ResolutionSummaryFor | app/src/main/java/com/afollestad/mnmlscreenrecord/ui/settings/sub/SettingsQualityFragment.kt:264-271 | The summary reads "current screen" exactly when the width or the height is 0, and otherwise shows both. |
| QualitySettings.PresetSummary | app/src/main/java/com/afollestad/mnmlscreenrecord/ui/settings/sub/SettingsQualityFragment.kt:264-271 | After a preset, the summary shows the preset's size, or "current screen" when it fell back. |
| QualitySettings.QualityScreen.constructor | app/src/main/java/com/afollestad/mnmlscreenrecord/ui/settings/sub/SettingsQualityFragment.kt:87-98 | Opening the screen runs every observer once with the stored value, the preset's first. A stored named preset is applied again: the resolution (or the screen's on fallback), frame rate and video bit rate become the preset's. Otherwise the stored values stay. The custom entries are enabled exactly when the preset is custom, and the summaries match the resulting values. |
| QualitySettings.ReopenReappliesPreset | app/src/main/java/com/afollestad/mnmlscreenrecord/ui/settings/sub/SettingsQualityFragment.kt:87-98 | Opening the screen over a stored "medium" preset whose values were stored as 1080x1920, 60 fps and 10 000 000 b/s, on a 1080x2340 display, ends with 720x1280, 30 fps and 5 000 000 b/s. |
| QualitySettings.QualityScreen.SetResolution | app/src/main/java/com/afollestad/mnmlscreenrecord/ui/settings/sub/SettingsQualityFragment.kt:154-162 | Width and height are set, and their observers refresh the resolution summary. |
| QualitySettings.QualityScreen.ApplyPreset | app/src/main/java/com/afollestad/mnmlscreenrecord/ui/settings/sub/SettingsQualityFragment.kt:223-241 | A value that is not a preset changes nothing. A preset sets the resolution by the fallback rule, the table's frame rate and the table's bit rate. |
| QualitySettings.QualityScreen.OnPresetChanged | app/src/main/java/com/afollestad/mnmlscreenrecord/ui/settings/sub/SettingsQualityFragment.kt:89-98 | The observer always refreshes the label and enables the custom entries exactly for custom. It applies a preset only when not already applying and the value is not custom; otherwise the settings stay. |
| QualitySettings.QualityScreen.SetPreset | app/src/main/java/com/afollestad/mnmlscreenrecord/ui/settings/sub/SettingsQualityFragment.kt:87-98 | Setting the preset keeps the screen consistent. An unchanged value (filtered by `distinctUntilChanged`) or an unknown preset leaves the settings. A new preset applies its table values. |
| QualitySettings.QualityScreen.MaybeSetPresetCustom | app/src/main/java/com/afollestad/mnmlscreenrecord/ui/settings/sub/SettingsQualityFragment.kt:243-248 | While a preset is being applied, nothing changes. Otherwise, after a hand edit, the preset is custom and the custom entries are enabled. When it was custom already, nothing changes. The entries keep showing the preferences either way. |
| QualitySettings.QualityScreen.SelectPreset | app/src/main/java/com/afollestad/mnmlscreenrecord/ui/settings/sub/SettingsQualityFragment.kt:79-81 | Choosing a preset in the dialog stores it and leaves the audio bit rate as it was. When the preset changed and is named, its table values are applied. When it is unchanged or not a named preset, the resolution, frame rate and video bit rate are kept. |
| QualitySettings.QualityScreen.SelectFrameRate | app/src/main/java/com/afollestad/mnmlscreenrecord/ui/settings/sub/SettingsQualityFragment.kt:114-117 | A hand-picked frame rate is stored and turns the preset to custom. |
| QualitySettings.QualityScreen.SelectResolution | app/src/main/java/com/afollestad/mnmlscreenrecord/ui/settings/sub/SettingsQualityFragment.kt:143-148 | A hand-picked resolution option stores its size and turns the preset to custom. |
| QualitySettings.QualityScreen.SelectVideoBitRate | app/src/main/java/com/afollestad/mnmlscreenrecord/ui/settings/sub/SettingsQualityFragment.kt:177-180 | A hand-picked video bit rate is stored and turns the preset to custom. |
| QualitySettings.QualityScreen.SelectAudioBitRate | app/src/main/java/com/afollestad/mnmlscreenrecord/ui/settings/sub/SettingsQualityFragment.kt:208-210 | The audio bit rate is stored; it is not part of a preset, so the preset stays. |
| PresetSettings.ExportedKeysAreDistinct | app/src/main/java/com/afollestad/mnmlscreenrecord/ui/settings/sub/SettingsPresetsFragment.kt:233-253 | The 19 exported keys are distinct as `PrefKey` values, and all are known preferences. The distinctness of their preference-name strings is not stated, because the names are not modelled. |
| PresetSettings.JsonRoundTrip | app/src/main/java/com/afollestad/mnmlscreenrecord/ui/settings/sub/SettingsPresetsFragment.kt:125-152 | For the export as a value, before it is stored as text, every exported value type (boolean, int, long, string) survives export followed by apply unchanged, and exactly string sets are omitted. The narrowing of a stored preset's numbers is listed under Left out. |
| PresetSettings.DoubleToInt | app/src/main/java/com/afollestad/mnmlscreenrecord/ui/settings/sub/SettingsPresetsFragment.kt:150 | `Double.toInt()` truncates toward zero and saturates at the bounds of `Int`. |
| PresetSettings.ExportFromContents | app/src/main/java/com/afollestad/mnmlscreenrecord/ui/settings/sub/SettingsPresetsFragment.kt:120-137 | The export holds exactly the exported keys that have a value of an exported type, each with that value. |
| PresetSettings.PresetsScreen.ExportCurrentSettings | app/src/main/java/com/afollestad/mnmlscreenrecord/ui/settings/sub/SettingsPresetsFragment.kt:120-137 | The loop over `EXPORTED_KEYS` builds exactly that export: the keys are a subset of the list, and absent keys and unsupported types are omitted. |
| PresetSettings.ApplyFromContents | app/src/main/java/com/afollestad/mnmlscreenrecord/ui/settings/sub/SettingsPresetsFragment.kt:139-157 | Applying writes exactly the exported keys that the preset holds with an applicable type. Every other preference is left as it was. |
| PresetSettings.PresetsScreen.ApplyPreset | app/src/main/java/com/afollestad/mnmlscreenrecord/ui/settings/sub/SettingsPresetsFragment.kt:139-157 | The loop writes exactly those keys, with their converted values (a double becomes a truncated int), and leaves every other preference untouched. |
| PresetSettings.PresetsScreen.PutJson | app/src/main/java/com/afollestad/mnmlscreenrecord/ui/settings/sub/SettingsPresetsFragment.kt:145-152 | One key: stored by its JSON type; null, arrays and objects are skipped. |
| PresetSettings.ExportApplyRoundTrip | app/src/main/java/com/afollestad/mnmlscreenrecord/ui/settings/sub/SettingsPresetsFragment.kt:120-157 | Exporting and then applying the export, as a value before it is stored as text, onto any preferences, restores every exported preference whose type is supported. |
| PresetSettings.LoadObject | app/src/main/java/com/afollestad/mnmlscreenrecord/ui/settings/sub/SettingsPresetsFragment.kt:201-209 | A missing or unparsable store loads as the empty object; a parsed one as itself. |
| PresetSettings.PresetsScreen.SavePreset | app/src/main/java/com/afollestad/mnmlscreenrecord/ui/settings/sub/SettingsPresetsFragment.kt:178-185 | The store maps the name to the new preset, replacing any earlier entry, and is written back. |
| PresetSettings.PresetsScreen.DeletePreset | app/src/main/java/com/afollestad/mnmlscreenrecord/ui/settings/sub/SettingsPresetsFragment.kt:172-176 | The store loses the preset's name and is written back. |
| PresetSettings.SaveDeleteLaws | app/src/main/java/com/afollestad/mnmlscreenrecord/ui/settings/sub/SettingsPresetsFragment.kt:172-185 | Save puts the name in and keeps every other name. The listed names gain exactly the saved name. Delete removes exactly that name. Saving a new name and then deleting it restores the store. |
| PresetSettings.PresetsScreen.LoadPresets | app/src/main/java/com/afollestad/mnmlscreenrecord/ui/settings/sub/SettingsPresetsFragment.kt:187-199 | The list names exactly the entries that are objects, each once, each with its own object; other entries are skipped. |
| PresetSettings.TrimSpec | app/src/main/java/com/afollestad/mnmlscreenrecord/ui/settings/sub/SettingsPresetsFragment.kt:94 | The trimmed name is a contiguous part of the input with whitespace-only text before and after it. |
| PresetSettings.TrimEnds | app/src/main/java/com/afollestad/mnmlscreenrecord/ui/settings/sub/SettingsPresetsFragment.kt:94 | A non-empty trimmed name neither starts nor ends with whitespace. |
| PresetSettings.TrimEmptyIff | app/src/main/java/com/afollestad/mnmlscreenrecord/ui/settings/sub/SettingsPresetsFragment.kt:94-95 | A name is rejected exactly when it is whitespace only. |
| PresetSettings.PresetsScreen.PromptSavePreset | app/src/main/java/com/afollestad/mnmlscreenrecord/ui/settings/sub/SettingsPresetsFragment.kt:91-98 | A blank name changes nothing. Otherwise the current export is saved under the trimmed name. |
| PresetSettings.LexTotal | app/src/main/java/com/afollestad/mnmlscreenrecord/ui/settings/sub/SettingsPresetsFragment.kt:105 | `compareTo` on strings orders any two strings. |
| PresetSettings.LexTrans | app/src/main/java/com/afollestad/mnmlscreenrecord/ui/settings/sub/SettingsPresetsFragment.kt:105 | `compareTo` on strings is transitive. |
| PresetSettings.SortByName | app/src/main/java/com/afollestad/mnmlscreenrecord/ui/settings/sub/SettingsPresetsFragment.kt:105 | `sortedBy` on the lower-cased name returns a sorted permutation of the list. |
| PresetSettings.ChooserFor | app/src/main/java/com/afollestad/mnmlscreenrecord/ui/settings/sub/SettingsPresetsFragment.kt:105-109 | A toast exactly when there are no presets; otherwise a sorted permutation of them to choose from. |
| PresetSettings.PresetsScreen.PromptChoosePreset | app/src/main/java/com/afollestad/mnmlscreenrecord/ui/settings/sub/SettingsPresetsFragment.kt:104-118 | A toast exactly when the store holds no preset object. Otherwise a chooser sorted by name, naming exactly the stored presets, each with its stored object. |
| Decimal.Digits | app/src/main/java/com/afollestad/mnmlscreenrecord/ui/editor/EditorActivity.kt:212 | The decimal digits have no leading zero, and a single digit exactly below 10. |
| Decimal.DigitsRoundTrip | app/src/main/java/com/afollestad/mnmlscreenrecord/ui/editor/EditorActivity.kt:212 | Reading back the printed digits gives the number. |
| Decimal.Show | engine/src/main/java/com/afollestad/mnmlscreenrecord/engine/service/BackgroundService.kt:285 | A number is printed as its digits, and a negative one as `-` followed by the digits of its magnitude. |
| Decimal.ShowRoundTrip | engine/src/main/java/com/afollestad/mnmlscreenrecord/engine/service/BackgroundService.kt:285 | The printed number starts with `-` exactly when it is negative, and reading the digits back, sign first, gives the number. |
| Editing.ToInt32 | app/src/main/java/com/afollestad/mnmlscreenrecord/ui/editor/EditorActivity.kt:209 | `Long.toInt()` lands in the 32-bit range and keeps in-range values. |
| Editing.ToInt32Wraps | app/src/main/java/com/afollestad/mnmlscreenrecord/ui/editor/EditorActivity.kt:209 | The conversion changes the value by a multiple of 2^32, since only the high bits are dropped. |
| Editing.Rem | app/src/main/java/com/afollestad/mnmlscreenrecord/ui/editor/EditorActivity.kt:211 | Kotlin's `%` with `/`: a = (a / b) * b + r, the remainder taking the sign of the dividend. |
| Editing.Pad2 | app/src/main/java/com/afollestad/mnmlscreenrecord/ui/editor/EditorActivity.kt:212 | `%02d` prints at least two characters, with a leading zero below 10. |
| Editing.Pad2RoundTrip | app/src/main/java/com/afollestad/mnmlscreenrecord/ui/editor/EditorActivity.kt:212 | The two digits printed for a second within a minute read back as it. |
| Editing.FormatDurationParts | app/src/main/java/com/afollestad/mnmlscreenrecord/ui/editor/EditorActivity.kt:209-211 | For 0 <= ms with whole seconds in 32 bits, the label is the digits of (ms/1000)/60, a colon, and the padded (ms/1000)%60. |
| Editing.FormatDurationShape | app/src/main/java/com/afollestad/mnmlscreenrecord/ui/editor/EditorActivity.kt:208-213 | The label is `m:ss`: every character but the colon (third from the end) is a digit, and the seconds take two characters. |
| Editing.FormatDurationRoundTrip | app/src/main/java/com/afollestad/mnmlscreenrecord/ui/editor/EditorActivity.kt:208-213 | Reading the label back (minutes * 60 + seconds) gives the whole seconds of the time. |
| Editing.UnderASecondIsZero | app/src/main/java/com/afollestad/mnmlscreenrecord/ui/editor/EditorActivity.kt:208-213 | Any time under a second, either way, reads `0:00`. |
| Editing.Collapse | app/src/main/java/com/afollestad/mnmlscreenrecord/ui/editor/EditorActivity.kt:188 | `File` path normal form: a run of separators collapses to one, and the first character is kept. |
| Editing.CollapseKeeps | app/src/main/java/com/afollestad/mnmlscreenrecord/ui/editor/EditorActivity.kt:188 | A path without doubled separators is kept as it is. |
| Editing.Normalize | app/src/main/java/com/afollestad/mnmlscreenrecord/ui/editor/EditorActivity.kt:188 | The normal form has no doubled separator and no trailing one, except for the root. |
| Editing.NormalizeKeeps | app/src/main/java/com/afollestad/mnmlscreenrecord/ui/editor/EditorActivity.kt:188 | A path already in normal form is kept as it is. |
| Editing.LastIndexOf | app/src/main/java/com/afollestad/mnmlscreenrecord/ui/editor/EditorActivity.kt:188 | The last position of the separator, or -1; no later position holds it. |
| Editing.ParentIsNormal | app/src/main/java/com/afollestad/mnmlscreenrecord/ui/editor/EditorActivity.kt:188 | A `parentFile` path is non-empty and in normal form. |
| Editing.ParentOfChild | app/src/main/java/com/afollestad/mnmlscreenrecord/ui/editor/EditorActivity.kt:188-190 | A name without separators, put in a directory in normal form, has that directory as its parent. |
| Editing.ChildOfNormalIsNormal | app/src/main/java/com/afollestad/mnmlscreenrecord/ui/editor/EditorActivity.kt:190 | Such a child path is itself in normal form. |
| Editing.OutputNameHasNoSlash | app/src/main/java/com/afollestad/mnmlscreenrecord/ui/editor/EditorActivity.kt:190 | `MNML-<timestamp>-edited.mp4` is one path component. |
| Editing.OutputBesideRecording | app/src/main/java/com/afollestad/mnmlscreenrecord/ui/editor/EditorActivity.kt:187-191 | The exported file's parent is the recording's folder, or `filesDir` when the recording's path has none. |
| Editing.ExportGuardMatchesTrimmer | app/src/main/java/com/afollestad/mnmlscreenrecord/ui/editor/EditorActivity.kt:136-140 | For a start of at least 0, the editor lets a range through exactly when the trimmer accepts it. A negative start passes the editor and is rejected by the trimmer. |
| Editing.TrimEditor.constructor | app/src/main/java/com/afollestad/mnmlscreenrecord/ui/editor/EditorActivity.kt:42-45 | Duration, start and end start at 0, and the labels show them. |
| Editing.TrimEditor.UpdateLabels | app/src/main/java/com/afollestad/mnmlscreenrecord/ui/editor/EditorActivity.kt:193-196 | The labels show the formatted start and end. |
| Editing.TrimEditor.OnPrepared | app/src/main/java/com/afollestad/mnmlscreenrecord/ui/editor/EditorActivity.kt:70-78 | The range resets to [0, duration] with ordered ends. The bars' maximum and the end bar's progress are the duration, and the labels show the range. |
| Editing.TrimEditor.ShowWholeRange | app/src/main/java/com/afollestad/mnmlscreenrecord/ui/editor/EditorActivity.kt:83-88 | Selects [0, duration] on the labels, and sets both bars' maximum and the end bar's progress to the duration truncated to 32 bits. |
| Editing.TrimEditor.LoadDuration | app/src/main/java/com/afollestad/mnmlscreenrecord/ui/editor/EditorActivity.kt:80-90 | A known duration is kept. Otherwise the metadata duration is read, 0 when it fails. A positive one resets the range to the whole recording with its labels and bars. Whenever no reset happens, the range, the labels, `seekMax` and `endProgress` are unchanged. |
| Editing.TrimEditor.OnStartSeek | app/src/main/java/com/afollestad/mnmlscreenrecord/ui/editor/EditorActivity.kt:108-113 | A user move sets start to min(progress, end), keeps start <= end, leaves end, updates the labels and seeks the player to the start. Other moves change nothing: start, labels and player position stay. |
| Editing.TrimEditor.OnEndSeek | app/src/main/java/com/afollestad/mnmlscreenrecord/ui/editor/EditorActivity.kt:121-125 | A user move sets end to max(progress, start), keeps start <= end, leaves start and updates the labels. Other moves leave end and the labels as they were. |
| Editing.SeekKeepsOrder | app/src/main/java/com/afollestad/mnmlscreenrecord/ui/editor/EditorActivity.kt:107-125 | Whatever the bars are moved to, in either order, start <= end afterwards. |
| Editing.TrimEditor.OnPlayPause | app/src/main/java/com/afollestad/mnmlscreenrecord/ui/editor/EditorActivity.kt:92-103 | Playing pauses. Pausing plays, first seeking to the start exactly when the position is outside [start, end]. |
| Editing.TrimEditor.ExportTrimmed | app/src/main/java/com/afollestad/mnmlscreenrecord/ui/editor/EditorActivity.kt:135-162 | An empty or inverted range shows one toast and requests nothing. Otherwise the controls are disabled and the trim is requested with the range and the output path beside the recording. |
| Editing.TrimEditor.OnExportFailed | app/src/main/java/com/afollestad/mnmlscreenrecord/ui/editor/EditorActivity.kt:171-176 | A failed trim enables the controls again. |
| Overlay.OverlayType | engine/src/main/java/com/afollestad/mnmlscreenrecord/engine/overlay/WatermarkOverlay.kt:57-61 | The application overlay exactly from Android O on, the system overlay exactly before. |
| Overlay.ParamsNeverIntercept | engine/src/main/java/com/afollestad/mnmlscreenrecord/engine/overlay/WatermarkOverlay.kt:63-73 | The watermark neither takes focus nor touches, sits at the top end corner, and is inset by 16 pixels. |
| Overlay.WatermarkOverlay.constructor | engine/src/main/java/com/afollestad/mnmlscreenrecord/engine/overlay/WatermarkOverlay.kt:47 | A new overlay shows nothing. |
| Overlay.WatermarkOverlay.Show | engine/src/main/java/com/afollestad/mnmlscreenrecord/engine/overlay/WatermarkOverlay.kt:49-77 | While showing, nothing happens, and no view is inflated. Otherwise exactly one view is inflated with the text, and it is added with the overlay parameters. The overlay is showing afterwards exactly when `addView` did not throw. The field always holds exactly the view on screen. |
| Overlay.WatermarkOverlay.Hide | engine/src/main/java/com/afollestad/mnmlscreenrecord/engine/overlay/WatermarkOverlay.kt:79-86 | While hidden, nothing happens. Otherwise the view's removal is asked for once. The overlay is hidden afterwards even when the removal throws, and nothing is left on screen. |
| Overlay.ShowShowHide | engine/src/main/java/com/afollestad/mnmlscreenrecord/engine/overlay/WatermarkOverlay.kt:49-86 | Showing twice adds one view. Hiding afterwards, even with a throwing removal, leaves nothing on screen and the overlay hidden. |

## Left out

- **Android platform objects.** MediaRecorder, MediaProjection, VirtualDisplay, MediaExtractor, MediaMuxer, StatFs, WindowManager, MediaPlayer and the seek bars are represented only by handles, call logs and the readings they give. They are not modelled further.
- **The recorder setup helpers.** `createAndPrepareRecorder` and `createVirtualDisplayAndStart` are not part of this model. `SetupOutcome` stands in for them, saying only how they end: one throws, preparing returns false, or recording starts. On success they set the recorder, display, file and `isStarted`, emit the start event and arm the timer.
- **Handler scheduling and Rx subjects.** These are a pending-timer slot, a queue of posts and append-only logs; there is no real time or threading. The handler delivering a post is an explicit call, `RunLimitRunnable`.
- **The preference observers.** They are assumed to run synchronously: once with the stored value when they subscribe, which the quality screen's constructor performs, and afterwards inside `set`, only on a changed value (`distinctUntilChanged`).
- **`isStarted()` and `isPaused()`.** They read the `isStarted` and `paused` fields; the model reads the fields directly.
- **`onActivityResult` while a recording is running.** It overwrites the recorder and leaks the old one. The model does not track leaked handles.
- **Battery percent arithmetic.** The float computation `(level / scale) * 100` is floating point, so the service takes the percent as an integer reading (-1 when unreadable). The storage reading is also a parameter (-1 on failure).
- **The service's `onCreate` wiring.** Its engine subscribers are modelled as `OnEngineStarted` and `OnEngineFinished`, which the engine's events run at once. Its broadcast handlers are modelled as `OnBroadcast`. Left out are the subscription and receiver objects themselves, the shake listener's start on a change of its preference, and the error subscriber, which shows a dialog.
- **`lifecycle.onDestroy()` and `super.onDestroy()` at the end of the service's teardown.** `OnDestroy` models the teardown's own calls. Disposing the subscriptions and the platform's own teardown come after them and change nothing the model tracks.
- **Shake detection and notification content.** These are foreign objects. `updateForeground` and the shake listener's start and stop are each recorded as one effect, and so is the scan of a recorded file, without the notification it posts.
- Service.BackgroundService.CancelEngine: takes `captureEngine.cancel()` to emit exactly one cancel, which `Capture.CancelOnlyCancels` proves when no release throws. A release that throws inside it is not composed into the service model.
- Service.BackgroundService.StopEngine: assumes that `captureEngine.stop()` returns, and so do its callers `StopRecording`, `OnBroadcast` and `OnDestroy`. A release that throws inside it, which `Capture.CaptureEngine.Stop` allows, would escape the caller; in `stopRecording` that happens before the foreground is dropped. The service model does not compose with that.
- Service.BackgroundService.OnStartCommand: a Delete intent without its recording extra makes `getParcelableExtra` return null, which is a null-pointer exception at engine/src/main/java/com/afollestad/mnmlscreenrecord/engine/service/BackgroundService.kt:119. The model's Delete intent always carries a recording.
- **The `Float` branch of the preset export.** `PrefValue` has no float case, because floating point is not modelled.
- **JSON text.** org.json parsing and serialisation, number narrowing when a stored preset is parsed back (which is where doubles come from), and SharedPreferences persistence are left out. The store is a map that is either parsed or unparsable. Preference names are the `PrefKey` datatype rather than their string values.
- **`editor.apply()` and `settingsActivity.recreate()`.** Applying is one update of the preference map, and recreating the screen is left out.
- **The key order of the presets object.** `LoadPresets` returns the presets in an order the model leaves unspecified, because org.json's `keys()` order is not part of this model. The chooser sorts them anyway.
- **`sharePreset`.** It only hands the JSON text to an Android share intent. The dialogs and toasts themselves are UI; the model records only whether a toast or a chooser appears.
- **`toLowerCase()` for the sort.** It is modelled on the letters A to Z only; Unicode case mapping is not.
- **The frame-rate, video and audio bit-rate dialogs' `initialSelection`.** It is `indexOf`, which can be -1; only `IndexOf` itself is modelled. The frame-rate and bit-rate summaries (formatting such as `bitRateString()`) are left out too.
- **The resource arrays.** The preset values and labels are parameters of `QualityScreen`.
- **The editor's export coroutine, `recordingScanner`, the export dialog and `finish()`.** These are concurrency and foreign calls. Export ends in the trim request, and a failure re-enables the controls.
- Editing.TrimEditor.ExportTrimmed: the timestamp of the output name is a parameter, because the clock is not modelled.
- Editing.TrimEditor.ExportTrimmed: the request carries the output path as `File(parent, name)` normalises it, while the code passes `outputFile.absolutePath`. The two agree only when the recording path and `filesDir` are absolute, which the model takes for granted; resolving a relative path against the working directory is not modelled.
- **The seek bars' own clamping of progress to [0, max].** This is platform behaviour, so a progress value is an arbitrary input.
- Editing.TrimEditor.OnPrepared: takes the player's duration as a 32-bit value, which `MediaPlayer.getDuration()` returns. The metadata duration in `LoadDuration` is unbounded.
- Trimmer.Trim: `startMs * 1000` is computed on unbounded integers. Kotlin's `Long` would wrap for spans beyond about 292,000 years, which the model does not capture.
- Trimmer.CopySamples: `readSampleData` is taken to throw when a sample is larger than the buffer (`KEY_MAX_INPUT_SIZE`, else 1 MiB), which the model reports as `BufferTooSmall` and the trim as `SampleTooLarge`. That platform behaviour is an assumption of the model.
- Trimmer.Trim: a track's `KEY_MAX_INPUT_SIZE` is taken to be non-negative (`Option<nat>`). `ByteBuffer.allocate` would throw on a negative size (app/src/main/java/com/afollestad/mnmlscreenrecord/ui/editor/VideoTrimmer.kt:74-78), which the model does not represent.
- Trimmer.AddTracks: `muxer.addTrack(format)` is taken to return 0, 1, 2, … in call order, so each copied track's output index is the number of tracks added before it. That platform behaviour is an assumption of the model, and `ExpectedOutput`'s one output track per copied track, in source order, relies on it.
- Trimmer.SeekIndex: the platform's `SEEK_TO_PREVIOUS_SYNC` is taken to land on the last keyframe at or before the time, else on the first sample. That platform behaviour is an assumption of the model.
- Overlay.WatermarkOverlay.Hide: a `removeView` that throws is treated as having removed the view. The platform's actual state after that throw is not modelled.
- Editing.Pad2: `"%02d"` prints in the default locale's digits; the model prints ASCII `0` to `9`, that is, it assumes a locale whose zero digit is `'0'`. Locales with other digits (Arabic-Indic, for instance) are not modelled.
- Editing.FormatDurationParts: states the label in ASCII digits, under the same assumption of a default locale whose zero digit is `'0'`.
- Editing.FormatDurationShape: "every character but the colon is a digit" means an ASCII digit, under the same locale assumption.
- Editing.FormatDurationRoundTrip: reads the label back as ASCII digits, under the same locale assumption.
- Editing.UnderASecondIsZero: `0:00` is the label in a locale whose zero digit is `'0'`; other locales print their own zero.
- Decimal.Digits: Kotlin string templates print ASCII digits whatever the locale; under `%d` the same digits hold only for a locale whose zero digit is `'0'`.
- **The `Double.toInt()` of NaN (0 in Kotlin).** Dafny's reals have no NaN or infinity, so this value is not modelled.

## Findings

| source | as written | input that shows it | evidently intended | confidence | as-written member | corrected member |
|---|---|---|---|---|---|---|
| engine/src/main/java/com/afollestad/mnmlscreenrecord/engine/service/BackgroundService.kt:250-253 | The limit runnable always reposts itself 15000 ms later, even when the check it just ran called `stopLimitChecks()`. That leaves a post of a runnable no longer tracked, which `stopLimitChecks()` can never remove, so the checks go on every 15 s after the recording stopped. | Start the checks, then let the runnable run while the engine is not started or while a limit trips, for example 1024 free bytes. Afterwards `limitRunnable` is null and one post of the runnable is still pending, as `Service.OrphanedRepostExample` shows. | Repost only while the runnable is still the tracked one, so stopping from inside a check leaves nothing pending. | not executed | Service.BackgroundService.RunLimitRunnable | Service.BackgroundService.RunLimitRunnableCorrected |
