/**
 * The web recording-session controller (`VoiceRecorderImpl` in
 * VoiceRecorderImpl.ts): one session, driven by the caller (start, stop,
 * pause, resume), by the browser's `MediaRecorder` events (error, stop,
 * data-available) and by a once-per-second timer.
 *
 * Browser services are inputs: a `Host` value carries the recorder global,
 * the permission answer and whether `getUserMedia` opens a stream; the stop
 * event carries what `FileReader` and `getBlobDuration` produce. Each event
 * and each timer tick is a method the environment may call at any time; it
 * acts on the state it finds, never on a snapshot.
 */
module WebRecorder {
  import opened Options
  import MimeTypes
  import DataUrl

  /** The error taxonomy of the web implementation. */
  datatype RecorderError =
    | AlreadyRecording
    | CouldNotQueryPermissionStatus
    | DeviceCannotVoiceRecord
    | EmptyRecording
    | FailedToFetchRecording
    | FailedToRecord
    | MissingPermission
    | RecordingHasNotStarted
    /** Not one of the plugin's errors: the `ReferenceError` of an undeclared global `MediaRecorder`, passed through. */
    | UndeclaredMediaRecorder

  /** A call's outcome: a value, or the error it throws (or rejects with). */
  datatype Result<+T> = Ok(value: T) | Err(error: RecorderError)

  datatype RecordingStatus = RECORDING | PAUSED | NONE

  /** `MediaRecorder.state`. */
  datatype RecorderState = Inactive | Recording | Paused

  /** What a completed session delivers (`RecordingData.value`). */
  datatype RecordingData = RecordingData(recordDataBase64: string, msDuration: real, mimeType: string)

  datatype Settlement = Unsettled | Resolved(data: RecordingData) | Rejected(error: RecorderError)

  /**
   * A promise with its resolve and reject functions. A promise settles at
   * most once: settling a settled promise changes nothing.
   */
  class Deferred {
    var settlement: Settlement

    constructor ()
      ensures settlement == Unsettled
    {
      settlement := Unsettled;
    }

    method Resolve(data: RecordingData)
      modifies this
      ensures settlement == if old(settlement) == Unsettled then Resolved(data) else old(settlement)
    {
      if settlement == Unsettled {
        settlement := Resolved(data);
      }
    }

    method Reject(error: RecorderError)
      modifies this
      ensures settlement == if old(settlement) == Unsettled then Rejected(error) else old(settlement)
    {
      if settlement == Unsettled {
        settlement := Rejected(error);
      }
    }
  }

  /** A `MediaRecorder`: its state, and the promise its event handlers settle. */
  datatype MediaRecorder = MediaRecorder(state: RecorderState, result: Deferred)

  /** The `pendingResult` field: the never-resolving placeholder, or a session's promise. */
  datatype PendingResult = NeverResolving | InFlight(deferred: Deferred)

  newtype byte = x: int | 0 <= x < 256

  /** One audio fragment (`event.data` of a data-available event). */
  type Chunk = seq<byte>

  /** The bytes of `new Blob(chunks)`. */
  function Concat(chunks: seq<Chunk>): (payload: seq<byte>)
    ensures |payload| == 0 <==> forall i :: 0 <= i < |chunks| ==> chunks[i] == []
  {
    if chunks == [] then [] else chunks[0] + Concat(chunks[1..])
  }

  /** A fragment appended to the list ends up at the end of the assembled payload. */
  lemma {:induction false} ConcatAppend(chunks: seq<Chunk>, c: Chunk)
    ensures Concat(chunks + [c]) == Concat(chunks) + c
  {
    if chunks != [] {
      assert (chunks + [c])[1..] == chunks[1..] + [c];
      ConcatAppend(chunks[1..], c);
    }
  }

  /** `getCurrentStatus`: the status a recorder (or its absence) reports. */
  function StatusOf(recorder: Option<MediaRecorder>): (s: RecordingStatus)
    ensures s == RECORDING <==> recorder.Some? && recorder.value.state == Recording
    ensures s == PAUSED <==> recorder.Some? && recorder.value.state == Paused
  {
    match recorder
    case None => NONE
    case Some(r) =>
      match r.state
      case Recording => RECORDING
      case Paused => PAUSED
      case Inactive => NONE
  }

  /** `isRecording`: agrees with the status query. */
  function IsRecordingOf(recorder: Option<MediaRecorder>): (b: bool)
    ensures b <==> StatusOf(recorder) == RECORDING
  {
    recorder.Some? && recorder.value.state == Recording
  }

  /** The answer the permission query gives: granted or not, or an error. */
  datatype PermissionAnswer = Answered(granted: bool) | QueryFailed

  /** What the browser answers during one `startRecording`. */
  datatype Host = Host(
    hasGetUserMedia: bool,
    recorder: MimeTypes.RecorderGlobal,
    permission: PermissionAnswer,
    streamOpens: bool)

  /**
   * The checks `startRecording` makes, once no recorder is present, before
   * it asks for the stream: the error it throws, or `None` when it goes on.
   * Only an explicit "not granted" refuses; a failing permission query
   * counts as granted.
   */
  function StartRefusal(host: Host): (e: Option<RecorderError>)
    ensures e == Some(UndeclaredMediaRecorder) <==>
              MimeTypes.CanDeviceVoiceRecord(host.hasGetUserMedia, host.recorder) == MimeTypes.ReferenceError
    ensures e == Some(DeviceCannotVoiceRecord) <==>
              MimeTypes.CanDeviceVoiceRecord(host.hasGetUserMedia, host.recorder) == MimeTypes.Answer(false)
    ensures e == Some(MissingPermission) <==>
              MimeTypes.CanDeviceVoiceRecord(host.hasGetUserMedia, host.recorder) == MimeTypes.Answer(true)
              && host.permission == Answered(false)
    ensures e == None <==>
              MimeTypes.CanDeviceVoiceRecord(host.hasGetUserMedia, host.recorder) == MimeTypes.Answer(true)
              && host.permission != Answered(false)
  {
    match MimeTypes.CanDeviceVoiceRecord(host.hasGetUserMedia, host.recorder)
    case ReferenceError => Some(UndeclaredMediaRecorder)
    case Answer(canRecord) =>
      if !canRecord then Some(DeviceCannotVoiceRecord)
      else
        var havingPermission := match host.permission
          case Answered(granted) => granted
          case QueryFailed => true;
        if havingPermission then None else Some(MissingPermission)
  }

  /** Where `stopRecording`'s `try` block throws, if it does. */
  datatype StopFault = NoFault | RecorderStopThrows | TrackStopThrows

  /** One `sendUpdate(isRecording, recordTime)` call to the plugin. */
  datatype Update = Update(isRecording: bool, recordTime: nat)

  /** Every fragment is empty, so the assembled blob has size 0. */
  predicate AllEmpty(chunks: seq<Chunk>)
  {
    forall i :: 0 <= i < |chunks| ==> chunks[i] == []
  }

  /**
   * The branch of the stop event on which `getBlobDuration` rejects: a type
   * is supported and the blob is not empty, but no duration comes back.
   */
  predicate DurationFails(mimeType: Option<string>, chunks: seq<Chunk>, seconds: Option<real>)
  {
    mimeType.Some? && !AllEmpty(chunks) && seconds.None?
  }

  class VoiceRecorderImpl {
    var recordTime: nat
    /** Whether `timerInterval` holds an interval handle. */
    var timerInterval: bool
    /** How many intervals the host's timer table runs for this controller. */
    var liveIntervals: nat
    var mediaRecorder: Option<MediaRecorder>
    var chunks: seq<Chunk>
    var pendingResult: PendingResult
    /** The updates sent to the plugin so far. */
    var updates: seq<Update>

    ghost function Current(): set<object>
      reads this
    {
      if mediaRecorder.Some? then {mediaRecorder.value.result} else {}
    }

    /** `pendingResult` is the current recorder's promise, still unsettled, or the placeholder. */
    ghost predicate SessionValid()
      reads this, Current()
    {
      pendingResult == (if mediaRecorder.Some? then InFlight(mediaRecorder.value.result) else NeverResolving)
      && (mediaRecorder.Some? ==> mediaRecorder.value.result.settlement == Unsettled)
    }

    /**
     * The held handle names a live interval, and an open session holds one.
     * Intervals whose handle was overwritten may run besides it.
     */
    ghost predicate TimerValid()
      reads this
    {
      (timerInterval ==> liveIntervals >= 1) && (mediaRecorder.Some? ==> timerInterval)
    }

    /** Only the interval the handle names runs: what the corrected start keeps. */
    ghost predicate SingleInterval()
      reads this
    {
      liveIntervals == if timerInterval then 1 else 0
    }

    ghost predicate Valid()
      reads this, Current()
    {
      SessionValid() && TimerValid()
    }

    /** No session: no recorder, no fragments, the never-resolving placeholder. */
    ghost predicate Idle()
      reads this
    {
      mediaRecorder == None && chunks == [] && pendingResult == NeverResolving
    }

    constructor ()
      ensures Valid() && Idle() && SingleInterval()
      ensures recordTime == 0 && !timerInterval && liveIntervals == 0 && updates == []
    {
      recordTime := 0;
      timerInterval := false;
      liveIntervals := 0;
      mediaRecorder := None;
      chunks := [];
      pendingResult := NeverResolving;
      updates := [];
    }

    /**
     * `prepareInstanceForNextOperation`. A recorder still recording is told
     * to stop; the recorder is dropped here, and the events that stop
     * produces arrive later through `OnRecorderStop` and `OnDataAvailable`.
     */
    method PrepareInstanceForNextOperation()
      modifies this
      ensures Idle() && SessionValid()
      ensures recordTime == old(recordTime) && updates == old(updates)
      ensures timerInterval == old(timerInterval) && liveIntervals == old(liveIntervals)
      ensures old(Idle()) ==> unchanged(this)
    {
      pendingResult := NeverResolving;
      mediaRecorder := None;
      chunks := [];
    }

    /** `startTimer` as the source writes it: the handle it overwrites is never cleared. */
    method StartTimerAsWritten()
      modifies this
      ensures recordTime == 0 && timerInterval && liveIntervals == old(liveIntervals) + 1
      ensures mediaRecorder == old(mediaRecorder) && chunks == old(chunks)
      ensures pendingResult == old(pendingResult) && updates == old(updates)
    {
      recordTime := 0;
      liveIntervals := liveIntervals + 1;
      timerInterval := true;
    }

    /** `stopTimer`: clears the interval the handle names, if any. */
    method StopTimer()
      requires timerInterval ==> liveIntervals > 0
      modifies this
      ensures !timerInterval
      ensures liveIntervals == if old(timerInterval) then old(liveIntervals) - 1 else old(liveIntervals)
      ensures recordTime == old(recordTime) && mediaRecorder == old(mediaRecorder) && chunks == old(chunks)
      ensures pendingResult == old(pendingResult) && updates == old(updates)
    {
      if timerInterval {
        liveIntervals := liveIntervals - 1;
        timerInterval := false;
      }
    }

    /** `startTimer`, corrected: a still-held interval is cleared before a new one is set. */
    method StartTimer()
      requires timerInterval ==> liveIntervals > 0
      modifies this
      ensures recordTime == 0 && timerInterval
      ensures liveIntervals == (if old(timerInterval) then old(liveIntervals) - 1 else old(liveIntervals)) + 1
      ensures old(SingleInterval()) ==> SingleInterval()
      ensures mediaRecorder == old(mediaRecorder) && chunks == old(chunks)
      ensures pendingResult == old(pendingResult) && updates == old(updates)
    {
      StopTimer();
      StartTimerAsWritten();
    }

    /** One firing of a live interval: counts a second only while recording. */
    method Tick()
      requires liveIntervals > 0
      modifies this
      ensures IsRecordingOf(old(mediaRecorder)) ==>
                recordTime == old(recordTime) + 1 && updates == old(updates) + [Update(true, recordTime)]
      ensures !IsRecordingOf(old(mediaRecorder)) ==> unchanged(this)
      ensures timerInterval == old(timerInterval) && liveIntervals == old(liveIntervals)
      ensures mediaRecorder == old(mediaRecorder) && chunks == old(chunks) && pendingResult == old(pendingResult)
      ensures old(Valid()) ==> Valid()
    {
      if mediaRecorder.Some? && mediaRecorder.value.state == Recording {
        recordTime := recordTime + 1;
        updates := updates + [Update(mediaRecorder.value.state == Recording, recordTime)];
      }
    }

    /**
     * The promise executor of `onSuccessfullyStartedRecording`: a new
     * recorder, recording, whose handlers settle a new promise that becomes
     * `pendingResult`.
     */
    method WireRecorder()
      modifies this
      ensures SessionValid()
      ensures mediaRecorder.Some? && mediaRecorder.value.state == Recording && fresh(mediaRecorder.value.result)
      ensures recordTime == old(recordTime) && chunks == old(chunks) && updates == old(updates)
      ensures timerInterval == old(timerInterval) && liveIntervals == old(liveIntervals)
    {
      var d := new Deferred();
      mediaRecorder := Some(MediaRecorder(Recording, d));
      pendingResult := InFlight(d);
    }

    /** `onSuccessfullyStartedRecording` as written: one more live interval, whatever ran before. */
    method OnSuccessfullyStartedRecording() returns (ack: bool)
      modifies this
      ensures Valid() && ack
      ensures recordTime == 0 && timerInterval && liveIntervals == old(liveIntervals) + 1
      ensures mediaRecorder.Some? && mediaRecorder.value.state == Recording && fresh(mediaRecorder.value.result)
      ensures chunks == old(chunks) && updates == old(updates)
    {
      StartTimerAsWritten();
      WireRecorder();
      ack := true;
    }

    method OnFailedToStartRecording() returns (r: Result<bool>)
      requires timerInterval ==> liveIntervals > 0
      modifies this
      ensures r == Err(FailedToRecord)
      ensures Idle() && SessionValid() && !timerInterval
      ensures liveIntervals == if old(timerInterval) then old(liveIntervals) - 1 else old(liveIntervals)
      ensures recordTime == old(recordTime) && updates == old(updates)
    {
      StopTimer();
      PrepareInstanceForNextOperation();
      r := Err(FailedToRecord);
    }

    /** `startRecording`, with the browser's answers in `host`. */
    method StartRecording(host: Host) returns (r: Result<bool>)
      requires Valid()
      modifies this
      ensures Valid()
      ensures old(mediaRecorder).Some? ==> r == Err(AlreadyRecording) && unchanged(this)
      ensures old(mediaRecorder).None? && StartRefusal(host).Some? ==>
                r == Err(StartRefusal(host).value) && unchanged(this)
      ensures old(mediaRecorder).None? && StartRefusal(host).None? && !host.streamOpens ==>
                r == Err(FailedToRecord) && Idle() && !timerInterval
                && liveIntervals == (if old(timerInterval) then old(liveIntervals) - 1 else old(liveIntervals))
                && recordTime == old(recordTime) && updates == old(updates)
      ensures old(mediaRecorder).None? && StartRefusal(host).None? && host.streamOpens ==>
                r == Ok(true) && recordTime == 0 && timerInterval && liveIntervals == old(liveIntervals) + 1
                && mediaRecorder.Some? && mediaRecorder.value.state == Recording && fresh(mediaRecorder.value.result)
                && chunks == old(chunks) && updates == old(updates)
    {
      if mediaRecorder.Some? {
        return Err(AlreadyRecording);
      }
      var refusal := StartRefusal(host);
      if refusal.Some? {
        return Err(refusal.value);
      }
      if host.streamOpens {
        var ack := OnSuccessfullyStartedRecording();
        r := Ok(ack);
      } else {
        r := OnFailedToStartRecording();
      }
    }

    /**
     * `startRecording` with the corrected `StartTimer`: the same outcomes,
     * but a handle still held from an ended session is cleared first, so
     * at most one interval runs.
     */
    method StartRecordingCorrected(host: Host) returns (r: Result<bool>)
      requires Valid()
      modifies this
      ensures Valid()
      ensures old(SingleInterval()) ==> SingleInterval()
      ensures old(mediaRecorder).Some? ==> r == Err(AlreadyRecording) && unchanged(this)
      ensures old(mediaRecorder).None? && StartRefusal(host).Some? ==>
                r == Err(StartRefusal(host).value) && unchanged(this)
      ensures old(mediaRecorder).None? && StartRefusal(host).None? && !host.streamOpens ==>
                r == Err(FailedToRecord) && Idle() && !timerInterval
                && liveIntervals == (if old(timerInterval) then old(liveIntervals) - 1 else old(liveIntervals))
                && recordTime == old(recordTime) && updates == old(updates)
      ensures old(mediaRecorder).None? && StartRefusal(host).None? && host.streamOpens ==>
                r == Ok(true) && recordTime == 0 && timerInterval
                && liveIntervals == (if old(timerInterval) then old(liveIntervals) - 1 else old(liveIntervals)) + 1
                && mediaRecorder.Some? && mediaRecorder.value.state == Recording && fresh(mediaRecorder.value.result)
                && chunks == old(chunks) && updates == old(updates)
    {
      if mediaRecorder.Some? {
        return Err(AlreadyRecording);
      }
      var refusal := StartRefusal(host);
      if refusal.Some? {
        return Err(refusal.value);
      }
      if host.streamOpens {
        StartTimer();
        WireRecorder();
        r := Ok(true);
      } else {
        r := OnFailedToStartRecording();
      }
    }

    /**
     * `stopRecording`: on success, the session's promise, still unsettled;
     * the recorder's stop event settles it later. Cleanup runs on every
     * path past the guard; the timer is stopped only if the recorder's
     * `stop()` did not throw.
     */
    method StopRecording(fault: StopFault) returns (r: Result<Deferred>)
      requires Valid()
      modifies this
      ensures Valid()
      ensures old(SingleInterval()) ==> SingleInterval()
      ensures old(mediaRecorder).None? ==> r == Err(RecordingHasNotStarted) && unchanged(this)
      ensures old(mediaRecorder).Some? ==> Idle() && recordTime == old(recordTime) && updates == old(updates)
      ensures old(mediaRecorder).Some? && fault == RecorderStopThrows ==>
                r == Err(FailedToFetchRecording)
                && timerInterval == old(timerInterval) && liveIntervals == old(liveIntervals)
      ensures old(mediaRecorder).Some? && fault == TrackStopThrows ==>
                r == Err(FailedToFetchRecording) && !timerInterval && liveIntervals == old(liveIntervals) - 1
      ensures old(mediaRecorder).Some? && fault == NoFault ==>
                r.Ok? && old(pendingResult) == InFlight(r.value) && r.value.settlement == Unsettled
                && !timerInterval && liveIntervals == old(liveIntervals) - 1
    {
      if mediaRecorder.None? {
        return Err(RecordingHasNotStarted);
      }
      var pending := pendingResult;
      if fault == RecorderStopThrows {
        r := Err(FailedToFetchRecording);
      } else {
        mediaRecorder := Some(mediaRecorder.value.(state := Inactive));
        StopTimer();
        if fault == TrackStopThrows {
          r := Err(FailedToFetchRecording);
        } else {
          r := Ok(pending.deferred);
        }
      }
      PrepareInstanceForNextOperation();
    }

    method PauseRecording() returns (r: Result<bool>)
      requires Valid()
      modifies this
      ensures Valid()
      ensures old(mediaRecorder).None? ==> r == Err(RecordingHasNotStarted) && unchanged(this)
      ensures old(mediaRecorder).Some? && old(mediaRecorder).value.state == Recording ==>
                r == Ok(true) && mediaRecorder == Some(old(mediaRecorder).value.(state := Paused))
      ensures old(mediaRecorder).Some? && old(mediaRecorder).value.state != Recording ==>
                r == Ok(false) && unchanged(this)
      ensures recordTime == old(recordTime) && chunks == old(chunks) && pendingResult == old(pendingResult)
      ensures timerInterval == old(timerInterval) && liveIntervals == old(liveIntervals) && updates == old(updates)
    {
      if mediaRecorder.None? {
        r := Err(RecordingHasNotStarted);
      } else if mediaRecorder.value.state == Recording {
        mediaRecorder := Some(mediaRecorder.value.(state := Paused));
        r := Ok(true);
      } else {
        r := Ok(false);
      }
    }

    method ResumeRecording() returns (r: Result<bool>)
      requires Valid()
      modifies this
      ensures Valid()
      ensures old(mediaRecorder).None? ==> r == Err(RecordingHasNotStarted) && unchanged(this)
      ensures old(mediaRecorder).Some? && old(mediaRecorder).value.state == Paused ==>
                r == Ok(true) && mediaRecorder == Some(old(mediaRecorder).value.(state := Recording))
      ensures old(mediaRecorder).Some? && old(mediaRecorder).value.state != Paused ==>
                r == Ok(false) && unchanged(this)
      ensures recordTime == old(recordTime) && chunks == old(chunks) && pendingResult == old(pendingResult)
      ensures timerInterval == old(timerInterval) && liveIntervals == old(liveIntervals) && updates == old(updates)
    {
      if mediaRecorder.None? {
        r := Err(RecordingHasNotStarted);
      } else if mediaRecorder.value.state == Paused {
        mediaRecorder := Some(mediaRecorder.value.(state := Recording));
        r := Ok(true);
      } else {
        r := Ok(false);
      }
    }

    method GetCurrentStatus() returns (s: RecordingStatus)
      ensures s == RECORDING <==> mediaRecorder.Some? && mediaRecorder.value.state == Recording
      ensures s == PAUSED <==> mediaRecorder.Some? && mediaRecorder.value.state == Paused
      ensures s == NONE <==> mediaRecorder.None? || mediaRecorder.value.state == Inactive
    {
      s := StatusOf(mediaRecorder);
    }

    method IsRecording() returns (b: bool)
      ensures b <==> mediaRecorder.Some? && mediaRecorder.value.state == Recording
      ensures b <==> StatusOf(mediaRecorder) == RECORDING
    {
      b := IsRecordingOf(mediaRecorder);
    }

    method GetRecordTime() returns (t: nat)
      ensures t == recordTime
    {
      t := recordTime;
    }

    /** `ondataavailable`: the fragment goes to the end of whatever list is current. */
    method OnDataAvailable(data: Chunk)
      modifies this
      ensures chunks == old(chunks) + [data]
      ensures Concat(chunks) == Concat(old(chunks)) + data
      ensures recordTime == old(recordTime) && mediaRecorder == old(mediaRecorder) && pendingResult == old(pendingResult)
      ensures timerInterval == old(timerInterval) && liveIntervals == old(liveIntervals) && updates == old(updates)
      ensures old(Valid()) ==> Valid()
    {
      ConcatAppend(chunks, data);
      chunks := chunks + [data];
    }

    /** `onerror` of recorder `source`: cleanup, then its promise is rejected. */
    method OnRecorderError(source: MediaRecorder)
      modifies this, source.result
      ensures Idle() && SessionValid()
      ensures source.result.settlement ==
                if old(source.result.settlement) == Unsettled then Rejected(FailedToRecord)
                else old(source.result.settlement)
      ensures recordTime == old(recordTime) && updates == old(updates)
      ensures timerInterval == old(timerInterval) && liveIntervals == old(liveIntervals)
      ensures old(TimerValid()) ==> TimerValid()
    {
      PrepareInstanceForNextOperation();
      source.result.Reject(FailedToRecord);
    }

    /**
     * The browser ends the recording of `source`, on a `stop()` call or on
     * its own (a track ends, capture fails): its state becomes `inactive`
     * before its last data-available and stop events fire. Only the current
     * recorder is visible here; a recorder already dropped changes nothing.
     */
    method OnRecorderEnded(source: MediaRecorder)
      modifies this
      ensures old(mediaRecorder).Some? && old(mediaRecorder).value.result == source.result ==>
                mediaRecorder == Some(old(mediaRecorder).value.(state := Inactive))
      ensures !(old(mediaRecorder).Some? && old(mediaRecorder).value.result == source.result) ==>
                unchanged(this)
      ensures StatusOf(mediaRecorder) == if old(mediaRecorder).Some? && old(mediaRecorder).value.result == source.result
                                         then NONE else StatusOf(old(mediaRecorder))
      ensures recordTime == old(recordTime) && chunks == old(chunks) && pendingResult == old(pendingResult)
      ensures timerInterval == old(timerInterval) && liveIntervals == old(liveIntervals) && updates == old(updates)
      ensures old(Valid()) ==> Valid()
    {
      if mediaRecorder.Some? && mediaRecorder.value.result == source.result {
        mediaRecorder := Some(mediaRecorder.value.(state := Inactive));
      }
    }

    /**
     * `onstop` of recorder `source`. The type is looked up again; the
     * payload is assembled from the fragments present now. `readerResult`
     * is what the `FileReader` yields for that payload, and `seconds` what
     * `getBlobDuration` yields, `None` when it rejects. The recorder has
     * already become inactive (`OnRecorderEnded`). A rejection ends the
     * handler before its cleanup: the session stays, with its recorder
     * inactive, and the promise stays unsettled. Every other branch cleans
     * up, then settles.
     */
    method OnRecorderStop(source: MediaRecorder, isTypeSupported: Option<string -> bool>,
                          readerResult: string, seconds: Option<real>)
      modifies this, source.result
      ensures DurationFails(MimeTypes.GetSupportedMimeType(isTypeSupported), old(chunks), seconds) ==>
                mediaRecorder == (if old(mediaRecorder).Some? && old(mediaRecorder).value.result == source.result
                                  then Some(old(mediaRecorder).value.(state := Inactive)) else old(mediaRecorder))
                && chunks == old(chunks) && pendingResult == old(pendingResult) && unchanged(source.result)
      ensures !DurationFails(MimeTypes.GetSupportedMimeType(isTypeSupported), old(chunks), seconds) ==>
                Idle() && SessionValid()
      ensures old(source.result.settlement) != Unsettled ==>
                source.result.settlement == old(source.result.settlement)
      ensures old(source.result.settlement) == Unsettled
              && !DurationFails(MimeTypes.GetSupportedMimeType(isTypeSupported), old(chunks), seconds) ==>
                source.result.settlement ==
                  match MimeTypes.GetSupportedMimeType(isTypeSupported)
                  case None => Rejected(FailedToFetchRecording)
                  case Some(mimeType) =>
                    if AllEmpty(old(chunks)) then Rejected(EmptyRecording)
                    else Resolved(RecordingData(DataUrl.ExtractBase64(readerResult), seconds.value * 1000.0, mimeType))
      ensures recordTime == old(recordTime) && updates == old(updates)
      ensures timerInterval == old(timerInterval) && liveIntervals == old(liveIntervals)
      ensures old(Valid()) ==> Valid()
    {
      OnRecorderEnded(source);
      var mimeType := MimeTypes.GetSupportedMimeType(isTypeSupported);
      if mimeType.None? {
        PrepareInstanceForNextOperation();
        source.result.Reject(FailedToFetchRecording);
        return;
      }
      var blob := Concat(chunks);
      if |blob| <= 0 {
        PrepareInstanceForNextOperation();
        source.result.Reject(EmptyRecording);
        return;
      }
      var recordDataBase64 := DataUrl.ExtractBase64(readerResult);
      if seconds.None? {
        return;
      }
      PrepareInstanceForNextOperation();
      source.result.Resolve(RecordingData(recordDataBase64, seconds.value * 1000.0, mimeType.value));
    }
  }

  /** A browser that can do everything and grants every request. */
  function CapableHost(): Host
  {
    Host(true, MimeTypes.Declared(Some((t: string) => true)), Answered(true), true)
  }

  /**
   * Start, three timer ticks, stop: the counter reads 3, the stop hands
   * back the session's unsettled promise, and afterwards the status is
   * NONE while the counter keeps its value.
   */
  method RecordThreeSeconds() returns (started: Result<bool>, elapsed: nat, stopped: Result<Deferred>,
                                       status: RecordingStatus, kept: nat)
    ensures started == Ok(true) && elapsed == 3
    ensures stopped.Ok? && stopped.value.settlement == Unsettled
    ensures status == NONE && kept == 3
  {
    var c := new VoiceRecorderImpl();
    assert MimeTypes.PossibleMimeTypes[0] == "audio/aac";
    started := c.StartRecording(CapableHost());
    c.Tick();
    c.Tick();
    c.Tick();
    elapsed := c.GetRecordTime();
    stopped := c.StopRecording(NoFault);
    status := c.GetCurrentStatus();
    kept := c.GetRecordTime();
  }

  /**
   * The main flow: a fragment arrives, the caller stops, and the recorder
   * then delivers its last fragment and its stop event. The cleanup in
   * `stopRecording` has already dropped the earlier fragment, so the blob
   * holds only the last one; the promise `stopRecording` returned resolves
   * with the payload of the reader's data URL, the duration in
   * milliseconds and the chosen type.
   */
  method StopSettlesWithLateFragment() returns (stopped: Result<Deferred>, assembled: seq<byte>)
    ensures stopped.Ok?
    ensures stopped.value.settlement == Resolved(RecordingData("AQ==", 3000.0, "audio/aac"))
    ensures assembled == [1]
  {
    var c := new VoiceRecorderImpl();
    assert MimeTypes.PossibleMimeTypes[0] == "audio/aac";
    var _ := c.StartRecording(CapableHost());
    var recorder := c.mediaRecorder.value;
    c.OnDataAvailable([7]);
    stopped := c.StopRecording(NoFault);
    c.OnDataAvailable([1]);
    assembled := Concat(c.chunks);
    assert forall ch :: ch in "AQ==" ==> DataUrl.IsBase64Char(ch);
    DataUrl.ExtractDataUrl("audio/aac", "AQ==");
    c.OnRecorderStop(recorder, Some((t: string) => true), DataUrl.DataUrlOf("audio/aac", "AQ=="), Some(3.0));
  }

  /**
   * The recorder stops on its own and `getBlobDuration` rejects: the
   * session stays open, but its recorder is inactive, so the status is
   * NONE, a tick no longer counts, pausing answers false, and a new start
   * is refused.
   */
  method DurationFailureLeavesInactiveSession()
      returns (status: RecordingStatus, counted: nat, paused: Result<bool>, restarted: Result<bool>)
    ensures status == NONE && counted == 0 && paused == Ok(false) && restarted == Err(AlreadyRecording)
  {
    var c := new VoiceRecorderImpl();
    assert MimeTypes.PossibleMimeTypes[0] == "audio/aac";
    var _ := c.StartRecording(CapableHost());
    c.OnDataAvailable([1]);
    assert !AllEmpty(c.chunks);
    c.OnRecorderStop(c.mediaRecorder.value, Some((t: string) => true), "x", None);
    status := c.GetCurrentStatus();
    c.Tick();
    counted := c.GetRecordTime();
    paused := c.PauseRecording();
    restarted := c.StartRecording(CapableHost());
  }

  /**
   * For whichever type the recorder chooses, the payload of the reader's
   * data URL comes back intact: no listed type contains the comma that
   * ends a data URL's header.
   */
  lemma ChosenTypeDataUrl(isTypeSupported: Option<string -> bool>, payload: string)
    requires MimeTypes.GetSupportedMimeType(isTypeSupported).Some?
    requires forall i :: 0 <= i < |payload| ==> DataUrl.IsBase64Char(payload[i])
    ensures DataUrl.ExtractBase64(DataUrl.DataUrlOf(MimeTypes.GetSupportedMimeType(isTypeSupported).value, payload))
            == payload
  {
    var mimeType := MimeTypes.GetSupportedMimeType(isTypeSupported).value;
    MimeTypes.NoMimeTypeHasComma(mimeType);
    DataUrl.ExtractDataUrl(mimeType, payload);
  }

  /** A second start while a session is open fails and leaves the first session as it was. */
  method StartTwice() returns (first: Result<bool>, second: Result<bool>, status: RecordingStatus)
    ensures first == Ok(true) && second == Err(AlreadyRecording) && status == RECORDING
  {
    var c := new VoiceRecorderImpl();
    assert MimeTypes.PossibleMimeTypes[0] == "audio/aac";
    first := c.StartRecording(CapableHost());
    second := c.StartRecording(CapableHost());
    status := c.GetCurrentStatus();
  }

  /**
   * The source as written: after a device error ends a session, the timer
   * is still held; the next start's `startTimer` overwrites the handle, and
   * from then on two intervals run, so one second of recording counts 2.
   * Stopping that session clears only the held interval: one keeps running.
   */
  method StaleIntervalAsWritten() returns (live: nat, afterOneSecond: nat, afterStop: nat)
    ensures live == 2 && afterOneSecond == 2 && afterStop == 1
  {
    var c := new VoiceRecorderImpl();
    assert MimeTypes.PossibleMimeTypes[0] == "audio/aac";
    var _ := c.StartRecording(CapableHost());
    c.OnRecorderError(c.mediaRecorder.value);
    var _ := c.StartRecording(CapableHost());
    c.Tick();
    c.Tick();
    live, afterOneSecond := c.liveIntervals, c.recordTime;
    var _ := c.StopRecording(NoFault);
    afterStop := c.liveIntervals;
  }

  /** The same events with the corrected start: one interval, one count per second, none after the stop. */
  method StaleIntervalCorrected() returns (live: nat, afterOneSecond: nat, afterStop: nat)
    ensures live == 1 && afterOneSecond == 1 && afterStop == 0
  {
    var c := new VoiceRecorderImpl();
    assert MimeTypes.PossibleMimeTypes[0] == "audio/aac";
    var _ := c.StartRecordingCorrected(CapableHost());
    c.OnRecorderError(c.mediaRecorder.value);
    var _ := c.StartRecordingCorrected(CapableHost());
    c.Tick();
    live, afterOneSecond := c.liveIntervals, c.recordTime;
    var _ := c.StopRecording(NoFault);
    afterStop := c.liveIntervals;
  }
}
