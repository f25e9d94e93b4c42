# Voice recorder session controllers, modelled in Dafny

This project models the core of a cross-platform voice-recording plugin:

- **Web.** The recording-session controller `VoiceRecorderImpl` (src/VoiceRecorderImpl.ts).
  - It keeps one session at a time: the browser's `MediaRecorder`, the audio fragments collected so far, a seconds counter, an interval timer, and the pending result promise.
  - The session is driven by the caller (start, stop, pause, resume), by the recorder's three events (error, stop, data-available), and by a once-per-second tick.
  - Two pure helpers sit beside it: the choice of a supported MIME type, and the extraction of the base64 payload from a data URL (RFC 2397, section 3).
- **Android.** The background recording service `MediaRecorderService` (MediaRecorderService.java).
  - Its state is a recording flag, a seconds counter, the device recorder and one update listener.
  - A self-reposting `Handler` runnable advances the counter.

Files:

- `options.dfy`: `Option`.
- `mime_types.dfy`: the prioritised MIME list, `getSupportedMimeType` and `canDeviceVoiceRecord`.
- `data_url.dfy`: ECMAScript `indexOf`, `split` and `trim`, the payload extraction of `blobToBase64`, and its round trip over a data URL.
- `web_recorder.dfy`: the web controller, as class `VoiceRecorderImpl`. The promise behind `pendingResult` is class `Deferred`, which settles at most once. The field itself is `NeverResolving` or `InFlight(promise)`.
- `media_recorder_service.dfy`: the Android service, as class `MediaRecorderService`.

Modelling choices:

- **Browser answers are inputs.** A `Host` value carries `getUserMedia` presence, the global `MediaRecorder` (undeclared, or declared with or without `isTypeSupported`), the permission answer and whether the stream opens. The stop event carries the `FileReader` result and the `getBlobDuration` seconds, or `None` when `getBlobDuration` rejects.
- **Recorders are values.** A recorder is a `MediaRecorder(state, result)` value. `result` is the promise its handlers settle.
- **Events act on current state.** Each event is a method taking the recorder that fired it. It acts on whatever state it finds when it runs. So a data-available event that arrives after `stopRecording` has cleaned up appends to the new, empty fragment list, as the code does.
- **Timers are counted.** The web timer is the `timerInterval` handle plus the number of intervals the host runs. A `Tick` is one interval firing. The class starts its timer as the code does; `StartRecordingCorrected` is the corrected start of the first finding below.
- **Android ticks are counted.** `postedTicks` is the number of tick runnables queued in the `Handler`.
- **Java `int` wraps.** The Android counter is a 32-bit integer with Java's wrap-around on increment.

Two behaviours of the code to note:

- The stop event runs cleanup *before* it settles the promise (VoiceRecorderImpl.ts:175-188).
- `stopRecording` stops the timer only when `mediaRecorder.stop()` does not throw. The throw skips `stopTimer` (VoiceRecorderImpl.ts:68-69). The fields are still cleared on every path.

## Model

| member | source | states |
|---|---|---|
| `MimeTypes.FindFrom` | src/VoiceRecorderImpl.ts:160 | `find` from a position: the index returned is accepted and every earlier index is not; `None` exactly when no index from there on is accepted |
| `MimeTypes.GetSupportedMimeType` | src/VoiceRecorderImpl.ts:158-162 | `None` when `isTypeSupported` is missing; otherwise the highest-priority accepted entry of `possibleMimeTypes`, and `None` exactly when no entry is accepted |
| `MimeTypes.CanDeviceVoiceRecord` | src/VoiceRecorderImpl.ts:36-42 | throws a `ReferenceError` exactly when `getUserMedia` exists and the global `MediaRecorder` is undeclared (line 159 reads it); answers true exactly when `getUserMedia` exists and a declared `MediaRecorder.isTypeSupported` accepts at least one listed type |
| `DataUrl.IndexOf` | src/VoiceRecorderImpl.ts:207 | the first occurrence at or after `from`, or `None` when there is none |
| `DataUrl.Split` | src/VoiceRecorderImpl.ts:207 | at least one piece, no piece contains the separator, and one piece exactly when the text has no separator |
| `DataUrl.JoinSplit` | src/VoiceRecorderImpl.ts:207 | joining the pieces of `split` with the separator gives back the original text |
| `DataUrl.TrimStart` | src/VoiceRecorderImpl.ts:209 | a suffix of the input; everything dropped is whitespace and the first kept code point is not |
| `DataUrl.TrimEnd` | src/VoiceRecorderImpl.ts:209 | a prefix of the input; everything dropped is whitespace and the last kept code point is not |
| `DataUrl.Trim` | src/VoiceRecorderImpl.ts:209 | a slice of the input with only whitespace outside it and no whitespace at either end |
| `DataUrl.ExtractBase64` | src/VoiceRecorderImpl.ts:206-209 | with a `base64,` marker, the trimmed first piece of the text after the first marker; without one, the whole trimmed text; never starts or ends with whitespace |
| `DataUrl.FirstMarkerOfDataUrl` | src/VoiceRecorderImpl.ts:207 | in `data:<type>;base64,<payload>` with a comma-free type, the first marker is the one ending the header |
| `DataUrl.ExtractDataUrl` | src/VoiceRecorderImpl.ts:205-211 | round trip: extracting from the data URL of a base64 payload gives back exactly that payload |
| `WebRecorder.Concat` | src/VoiceRecorderImpl.ts:179-180 | the assembled blob has size 0 exactly when every fragment is empty |
| `WebRecorder.ConcatAppend` | src/VoiceRecorderImpl.ts:190 | appending a fragment appends its bytes to the end of the assembled payload |
| `WebRecorder.StatusOf` | src/VoiceRecorderImpl.ts:134-144 | RECORDING exactly for a recording recorder, PAUSED exactly for a paused one, otherwise NONE |
| `WebRecorder.IsRecordingOf` | src/VoiceRecorderImpl.ts:146-148 | `isRecording` is true exactly when the status is RECORDING |
| `WebRecorder.Deferred.constructor` | src/VoiceRecorderImpl.ts:166 | a new promise is unsettled |
| `WebRecorder.Deferred.Resolve` | src/VoiceRecorderImpl.ts:188 | settles an unsettled promise with the data; a settled promise keeps its settlement |
| `WebRecorder.Deferred.Reject` | src/VoiceRecorderImpl.ts:170 | settles an unsettled promise with the error; a settled promise keeps its settlement |
| `WebRecorder.VoiceRecorderImpl.constructor` | src/VoiceRecorderImpl.ts:25-34 | no session, counter 0, no timer, the never-resolving placeholder |
| `WebRecorder.VoiceRecorderImpl.PrepareInstanceForNextOperation` | src/VoiceRecorderImpl.ts:215-226 | afterwards no recorder, no fragments and the placeholder, whatever came before; the counter and timer are untouched; on an already-cleared instance it changes nothing (idempotent) |
| `WebRecorder.VoiceRecorderImpl.StartTimerAsWritten` | src/VoiceRecorderImpl.ts:228-236 | counter reset to 0; one more live interval, whatever handle was held before |
| `WebRecorder.VoiceRecorderImpl.StopTimer` | src/VoiceRecorderImpl.ts:238-243 | no handle afterwards; the interval it held, if any, is no longer live |
| `WebRecorder.VoiceRecorderImpl.StartTimer` | src/VoiceRecorderImpl.ts:228-243 | corrected start: counter 0, a held handle; the interval held before, if any, is cleared first, so a single live interval stays single |
| `WebRecorder.VoiceRecorderImpl.Tick` | src/VoiceRecorderImpl.ts:230-235 | whatever the session state: while the recorder is recording, the counter grows by exactly 1 and an update carrying the new value is sent; otherwise nothing changes; the invariant is kept |
| `WebRecorder.VoiceRecorderImpl.WireRecorder` | src/VoiceRecorderImpl.ts:166-192 | a new recording recorder whose handlers settle a new, unsettled promise, which becomes `pendingResult` |
| `WebRecorder.VoiceRecorderImpl.OnSuccessfullyStartedRecording` | src/VoiceRecorderImpl.ts:164-194 | acknowledges with true; counter 0, one more live interval than before (the overwritten one is not cleared), a fresh recording session; fragments untouched |
| `WebRecorder.VoiceRecorderImpl.OnFailedToStartRecording` | src/VoiceRecorderImpl.ts:196-200 | stops the timer, cleans up, fails with FailedToRecord |
| `WebRecorder.StartRefusal` | src/VoiceRecorderImpl.ts:48-55 | the `ReferenceError` exactly when the capability check throws; DeviceCannotVoiceRecord exactly when it answers false; MissingPermission exactly when it answers true and the permission answer is an explicit "not granted"; otherwise no refusal, so a failed permission query counts as granted |
| `WebRecorder.VoiceRecorderImpl.StartRecording` | src/VoiceRecorderImpl.ts:44-61 | with a recorder present: AlreadyRecording. Otherwise the refusal `StartRefusal` names, if any. These leave every field unchanged. A stream that fails to open: FailedToRecord, session cleared, the held interval cleared. Success: true, counter 0, one more live interval than before, a fresh recording session |
| `WebRecorder.VoiceRecorderImpl.StartRecordingCorrected` | src/VoiceRecorderImpl.ts:44-61 | the same outcomes, except that success first clears a still-held interval, so a single live interval stays single |
| `WebRecorder.VoiceRecorderImpl.StopRecording` | src/VoiceRecorderImpl.ts:63-77 | without a recorder: RecordingHasNotStarted and nothing changes. Otherwise the session is cleared on every path. Success returns the promise that was pending before cleanup, still unsettled, and clears the held interval: one fewer live interval, so intervals leaked earlier keep running. A throw from `stop()` fails with FailedToFetchRecording and leaves the timer as it was. A throw from the track release fails the same way with the held interval cleared |
| `WebRecorder.VoiceRecorderImpl.PauseRecording` | src/VoiceRecorderImpl.ts:112-121 | no recorder: RecordingHasNotStarted. From `recording`: the recorder becomes `paused` and the result is true. Otherwise false and nothing changes |
| `WebRecorder.VoiceRecorderImpl.ResumeRecording` | src/VoiceRecorderImpl.ts:123-132 | no recorder: RecordingHasNotStarted. From `paused`: the recorder becomes `recording` and the result is true. Otherwise false and nothing changes |
| `WebRecorder.VoiceRecorderImpl.GetCurrentStatus` | src/VoiceRecorderImpl.ts:134-144 | RECORDING, PAUSED or NONE exactly as the recorder is recording, paused, or absent or inactive |
| `WebRecorder.VoiceRecorderImpl.IsRecording` | src/VoiceRecorderImpl.ts:146-148 | true exactly when a recorder exists and is recording, that is, when the status is RECORDING |
| `WebRecorder.VoiceRecorderImpl.GetRecordTime` | src/VoiceRecorderImpl.ts:150-152 | the current counter |
| `WebRecorder.VoiceRecorderImpl.OnDataAvailable` | src/VoiceRecorderImpl.ts:190 | whatever the session state: the fragment is appended to the end of the current list, so the payload grows by its bytes; nothing else changes |
| `WebRecorder.VoiceRecorderImpl.OnRecorderError` | src/VoiceRecorderImpl.ts:168-171 | session cleared, and the recorder's promise rejected with FailedToRecord unless already settled; counter and timer untouched |
| `WebRecorder.VoiceRecorderImpl.OnRecorderEnded` | src/VoiceRecorderImpl.ts:134-147 | the browser ends recorder `source`: if it is the current recorder it becomes inactive, so the status reads NONE and `isRecording` false; otherwise nothing changes |
| `WebRecorder.VoiceRecorderImpl.OnRecorderStop` | src/VoiceRecorderImpl.ts:172-189 | the firing recorder, if current, is inactive first. When a type is supported, the blob is not empty and `getBlobDuration` rejects: the session stays (fragments, promise and inactive recorder) and the promise stays as it was. Every other branch clears the session; an unsettled promise is then rejected with FailedToFetchRecording if no type is supported now, or with EmptyRecording if every fragment present is empty, and otherwise resolves with the extracted payload, seconds times 1000 and the type. A settled promise keeps its settlement |
| `WebRecorder.RecordThreeSeconds` | src/VoiceRecorderImpl.ts:228-236 | start, three ticks: the counter reads 3. Stop returns the unsettled promise. Afterwards the status is NONE and the counter still reads 3 |
| `WebRecorder.StopSettlesWithLateFragment` | src/VoiceRecorderImpl.ts:63-77 | a fragment, stop, then the last fragment and the stop event: the blob holds only the last fragment, and the promise stop returned resolves with the data URL's payload, 3000 ms and `audio/aac` |
| `WebRecorder.DurationFailureLeavesInactiveSession` | src/VoiceRecorderImpl.ts:185-188 | the recorder stops on its own and `getBlobDuration` rejects: status NONE, a tick does not count, pausing answers false, and a new start fails with AlreadyRecording |
| `WebRecorder.ChosenTypeDataUrl` | src/VoiceRecorderImpl.ts:158-162 | for any type `getSupportedMimeType` chooses, extraction from the data URL of a base64 payload gives back that payload |
| `WebRecorder.StartTwice` | src/VoiceRecorderImpl.ts:45-47 | a second start fails with AlreadyRecording and the first session is still recording |
| `WebRecorder.StaleIntervalAsWritten` | src/VoiceRecorderImpl.ts:168-171 | as written: start, a recorder error, start again: two intervals are live, one second counts 2, and after a stop one interval still runs |
| `WebRecorder.StaleIntervalCorrected` | src/VoiceRecorderImpl.ts:228-243 | with the corrected start: the same events leave one live interval, one second counts 1, and none runs after the stop |
| `AndroidService.WrappingIncrement` | android/src/main/java/com/tchvu3/capacitorvoicerecorder/MediaRecorderService.java:125 | one more modulo 2^32, and exactly one more below the `int` maximum |
| `AndroidService.NotificationsFor` | android/src/main/java/com/tchvu3/capacitorvoicerecorder/MediaRecorderService.java:101-105 | one call carrying the given flag and time exactly when a listener is registered, none otherwise |
| `AndroidService.MediaRecorderService.constructor` | android/src/main/java/com/tchvu3/capacitorvoicerecorder/MediaRecorderService.java:22-35 | not recording, counter 0, no recorder, no listener, nothing queued |
| `AndroidService.MediaRecorderService.AddUpdateListener` | android/src/main/java/com/tchvu3/capacitorvoicerecorder/MediaRecorderService.java:97-99 | replaces the listener; nothing else changes |
| `AndroidService.MediaRecorderService.UpdateListeners` | android/src/main/java/com/tchvu3/capacitorvoicerecorder/MediaRecorderService.java:101-105 | calls the registered listener, if any, with the current flag and counter; no field changes |
| `AndroidService.MediaRecorderService.StartRecordingAsWritten` | android/src/main/java/com/tchvu3/capacitorvoicerecorder/MediaRecorderService.java:107-139 | while recording, or when construction throws: no change. When the recorder's start throws: the new recorder is kept, the flag stays false and the counter is unchanged. Success: counter 0, flag true, listener told `(true, 0)`, one more tick queued |
| `AndroidService.MediaRecorderService.StartRecording` | android/src/main/java/com/tchvu3/capacitorvoicerecorder/MediaRecorderService.java:107-139 | corrected start: the same outcomes, but any tick left over from the previous session is removed first, so exactly one tick chain runs while recording |
| `AndroidService.MediaRecorderService.Tick` | android/src/main/java/com/tchvu3/capacitorvoicerecorder/MediaRecorderService.java:119-130 | while recording: counter plus one (Java `int`), listener notified, the tick queued again. Otherwise the counter is unchanged and the chain ends |
| `AndroidService.MediaRecorderService.StopRecording` | android/src/main/java/com/tchvu3/capacitorvoicerecorder/MediaRecorderService.java:141-150 | with a recorder and the flag set: recorder stopped, flag false, counter kept, listener notified. Otherwise nothing changes |
| `AndroidService.MediaRecorderService.OnTaskRemoved` | android/src/main/java/com/tchvu3/capacitorvoicerecorder/MediaRecorderService.java:85-95 | the listener is cleared and any recorder is stopped; flag, counter and queued ticks unchanged |
| `AndroidService.MediaRecorderService.PauseRecording` | android/src/main/java/com/tchvu3/capacitorvoicerecorder/MediaRecorderService.java:156-159 | changes no state |
| `AndroidService.MediaRecorderService.IsRecording` | android/src/main/java/com/tchvu3/capacitorvoicerecorder/MediaRecorderService.java:161-163 | the current flag |
| `AndroidService.MediaRecorderService.GetRecordingTime` | android/src/main/java/com/tchvu3/capacitorvoicerecorder/MediaRecorderService.java:165-167 | the current counter |
| `AndroidService.RestartWithinASecondAsWritten` | android/src/main/java/com/tchvu3/capacitorvoicerecorder/MediaRecorderService.java:119-132 | as written: start, stop, start before the old tick runs. Two chains are queued, and the counter reads 2 one second into the new session |
| `AndroidService.RestartWithinASecondCorrected` | android/src/main/java/com/tchvu3/capacitorvoicerecorder/MediaRecorderService.java:107-132 | corrected: the same calls leave one chain, and the counter reads 1 after one second |
| `AndroidService.StartAndTickNotifies` | android/src/main/java/com/tchvu3/capacitorvoicerecorder/MediaRecorderService.java:115-127 | a registered listener hears `(true, 0)` on start, then `(true, 1)` after the first tick |

Beyond these rows, object invariants hold throughout:

- **Web, `Valid()`.**
  - `pendingResult` is the current recorder's promise, and that promise is unsettled; with no recorder it is the placeholder.
  - The held handle names a live interval, and an open session holds a handle.
  - Every public web method and every event keeps `Valid()`.
  - `SingleInterval()` (only the held interval runs) is kept by every operation except the as-written start.
- **Android, `Valid()`.**
  - At most one tick is queued.
  - While recording, exactly one tick is queued and a recorder exists.
  - The corrected start keeps `Valid()`, and so does every other method that changes state except `StartRecordingAsWritten`, which queues a second tick when a stop's tick is still waiting (`RestartWithinASecondAsWritten`).

## Left out

- Permission handling is not modelled as operations.
  - `hasAudioRecordingPermission` and `requestAudioRecordingPermission` (src/VoiceRecorderImpl.ts:79-110) call the browser's permission and capture APIs.
  - Only their answer enters the model, as `Host.permission`.
- `FileReader.readAsDataURL` and `getBlobDuration` are browser or library calls. Their results, and a rejection of `getBlobDuration`, are inputs to `OnRecorderStop`.
  - `msDuration` is computed as exact real arithmetic; floating-point rounding is not modelled.
- Each `await` inside `startRecording` and the stop event is treated as one atomic step.
  - Interleavings at those points are not modelled. One example: two overlapping `startRecording` calls could both pass the recorder guard.
- Releasing the stream's tracks (src/VoiceRecorderImpl.ts:70) has no modelled effect beyond the throw it may cause.
- A throw from `new MediaRecorder(stream)` or `start()` inside the promise executor is not modelled.
- `console.warn` and the `try` around the inner `stop()` in cleanup are not modelled. They change no field.
- The web counter is an unbounded `nat`. A JavaScript number is exact only up to 2^53.
- Real time is not modelled. One second is each live interval, or each queued tick, running once.
- `helloWorld`, src/web.ts (delegation, `sendUpdate`, the background-recording stubs) and src/definitions.ts (types only) are not modelled. The `dist/` files are compiled copies.
- android/.../VoiceRecorder.java is plugin glue and is not part of this model. So is `CustomMediaRecorder`, whose source is not shown; only whether it was started or stopped is modelled.
- Android service plumbing is not modelled:
  - `onCreate`'s `Handler` (the tick queue stands in for it);
  - `onStartCommand`, `startForeground` and the notification channel;
  - `onBind` and the binder;
  - `onDestroy` and `stopSelf`;
  - the `System.out` prints;
  - the `getMediaRecorder` accessor.
- Android exceptions other than `IOException` from the recorder propagate to the caller. They are not modelled.

## Findings

| source | as written | input that shows it | evidently intended | confidence | as-written member | corrected member |
|---|---|---|---|---|---|---|
| src/VoiceRecorderImpl.ts:228-236 | the device error and stop events clean up the session but never call `stopTimer`; the next `startTimer` overwrites `timerInterval` without clearing the old interval, which keeps running | start, a recorder error event, start again, one second: two live intervals, `recordTime` reads 2 | at most one live interval, so the counter grows by one per second of recording | medium, not executed | `WebRecorder.StaleIntervalAsWritten` | `WebRecorder.VoiceRecorderImpl.StartRecordingCorrected` |
| android/src/main/java/com/tchvu3/capacitorvoicerecorder/MediaRecorderService.java:119-132 | `stopRecording` leaves the posted tick queued; a `startRecording` before it runs posts a second chain, and both find the service recording and repost themselves | start, stop, start within one second, then one second: two tick chains, `recordingTime` reads 2 | one tick chain per session, so the counter grows by one per second | medium, not executed | `AndroidService.RestartWithinASecondAsWritten` | `AndroidService.MediaRecorderService.StartRecording` |
