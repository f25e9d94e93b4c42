/**
 * The Android background recording service (`MediaRecorderService`): a
 * flag, a seconds counter, the device recorder and one update listener.
 * A tick is a runnable posted to the main-thread `Handler` with a delay of
 * one second; `postedTicks` counts the tick runnables waiting in the
 * handler's queue, and `Tick` is one of them running. The recorder
 * (`CustomMediaRecorder`) is a value whose construction and start are
 * inputs that may fail with an `IOException`.
 */
module AndroidService {
  import opened Options

  /** Java's `int`. */
  newtype int32 = x: int | -0x8000_0000 <= x < 0x8000_0000

  const Int32Max: int32 := 0x7fff_ffff

  /** Java's `x += 1` on an `int`: one more, modulo 2^32, in two's complement. */
  function WrappingIncrement(x: int32): (r: int32)
    ensures (r as int - x as int - 1) % 0x1_0000_0000 == 0
    ensures x < Int32Max ==> r as int == x as int + 1
  {
    if x == Int32Max then -0x8000_0000 else x + 1
  }

  datatype DeviceState = Prepared | Started | Stopped

  /** The device recorder; only whether it has been started or stopped is visible here. */
  datatype CustomMediaRecorder = CustomMediaRecorder(state: DeviceState)

  /** A registered `IUpdateListener`, by identity. */
  datatype Listener = Listener(id: nat)

  /** One `handleUpdate(isRecording, recordingTime)` call. */
  datatype Notification = Notification(listener: Listener, isRecording: bool, recordingTime: int32)

  /** How creating and starting the device recorder goes. */
  datatype Setup = Starts | ConstructorThrows | StartThrows

  /** The call `updateListeners` makes: one, to the listener, if there is one. */
  function NotificationsFor(listener: Option<Listener>, isRecording: bool, time: int32): (sent: seq<Notification>)
    ensures |sent| <= 1
    ensures sent == [] <==> listener.None?
    ensures forall n :: n in sent ==> n.listener == listener.value && n.isRecording == isRecording && n.recordingTime == time
  {
    match listener
    case None => []
    case Some(l) => [Notification(l, isRecording, time)]
  }

  class MediaRecorderService {
    var customMediaRecorder: Option<CustomMediaRecorder>
    var isRecording: bool
    var recordingTime: int32
    var updateListener: Option<Listener>
    var postedTicks: nat
    /** The listener calls made so far. */
    var notifications: seq<Notification>

    /** At most one tick chain, and a running one while recording, which needs a recorder. */
    ghost predicate Valid()
      reads this
    {
      postedTicks <= 1 && (isRecording ==> postedTicks == 1 && customMediaRecorder.Some?)
    }

    /** A new service (`onCreate`): not recording, counter 0, no listener. */
    constructor ()
      ensures Valid()
      ensures customMediaRecorder == None && !isRecording && recordingTime == 0
      ensures updateListener == None && postedTicks == 0 && notifications == []
    {
      customMediaRecorder := None;
      isRecording := false;
      recordingTime := 0;
      updateListener := None;
      postedTicks := 0;
      notifications := [];
    }

    /** `addUpdateListener`: replaces the listener (Java allows `null`). */
    method AddUpdateListener(listener: Option<Listener>)
      modifies this
      ensures updateListener == listener
      ensures customMediaRecorder == old(customMediaRecorder) && isRecording == old(isRecording)
      ensures recordingTime == old(recordingTime) && postedTicks == old(postedTicks)
      ensures notifications == old(notifications)
    {
      updateListener := listener;
    }

    method UpdateListeners()
      modifies this
      ensures notifications == old(notifications) + NotificationsFor(updateListener, isRecording, recordingTime)
      ensures customMediaRecorder == old(customMediaRecorder) && isRecording == old(isRecording)
      ensures recordingTime == old(recordingTime) && postedTicks == old(postedTicks)
      ensures updateListener == old(updateListener)
    {
      if updateListener.Some? {
        notifications := notifications + [Notification(updateListener.value, isRecording, recordingTime)];
      }
    }

    /**
     * `startRecording` as the source writes it. A tick posted by an earlier
     * session stays queued, so a start within a second of a stop leaves
     * two tick chains running.
     */
    method StartRecordingAsWritten(setup: Setup)
      modifies this
      ensures old(isRecording) || setup == ConstructorThrows ==> unchanged(this)
      ensures !old(isRecording) && setup == StartThrows ==>
                customMediaRecorder == Some(CustomMediaRecorder(Prepared)) && !isRecording
                && recordingTime == old(recordingTime) && postedTicks == old(postedTicks)
                && notifications == old(notifications)
      ensures !old(isRecording) && setup == Starts ==>
                customMediaRecorder == Some(CustomMediaRecorder(Started)) && isRecording && recordingTime == 0
                && postedTicks == old(postedTicks) + 1
                && notifications == old(notifications) + NotificationsFor(updateListener, true, 0)
      ensures updateListener == old(updateListener)
    {
      if !isRecording {
        if setup == ConstructorThrows {
          return;
        }
        customMediaRecorder := Some(CustomMediaRecorder(Prepared));
        if setup == StartThrows {
          return;
        }
        customMediaRecorder := Some(CustomMediaRecorder(Started));
        recordingTime := 0;
        isRecording := true;
        UpdateListeners();
        postedTicks := postedTicks + 1;
      }
    }

    /**
     * `startRecording`, corrected: a tick left queued by the previous
     * session is removed before the guarded block runs.
     */
    method StartRecording(setup: Setup)
      requires Valid()
      modifies this
      ensures Valid()
      ensures old(isRecording) ==> unchanged(this)
      ensures !old(isRecording) && setup == ConstructorThrows ==>
                customMediaRecorder == old(customMediaRecorder) && !isRecording
                && recordingTime == old(recordingTime) && notifications == old(notifications) && postedTicks == 0
      ensures !old(isRecording) && setup == StartThrows ==>
                customMediaRecorder == Some(CustomMediaRecorder(Prepared)) && !isRecording
                && recordingTime == old(recordingTime) && notifications == old(notifications) && postedTicks == 0
      ensures !old(isRecording) && setup == Starts ==>
                customMediaRecorder == Some(CustomMediaRecorder(Started)) && isRecording && recordingTime == 0
                && postedTicks == 1
                && notifications == old(notifications) + NotificationsFor(updateListener, true, 0)
      ensures updateListener == old(updateListener)
    {
      if !isRecording {
        postedTicks := 0;
      }
      StartRecordingAsWritten(setup);
    }

    /**
     * One queued tick runs: while recording it counts a second, notifies
     * and posts itself again; otherwise it ends its chain.
     */
    method Tick()
      requires postedTicks > 0
      modifies this
      ensures old(isRecording) ==>
                recordingTime == WrappingIncrement(old(recordingTime)) && postedTicks == old(postedTicks)
                && notifications == old(notifications) + NotificationsFor(updateListener, true, recordingTime)
      ensures !old(isRecording) ==>
                recordingTime == old(recordingTime) && postedTicks == old(postedTicks) - 1
                && notifications == old(notifications)
      ensures isRecording == old(isRecording) && customMediaRecorder == old(customMediaRecorder)
      ensures updateListener == old(updateListener)
      ensures old(Valid()) ==> Valid()
    {
      postedTicks := postedTicks - 1;
      if isRecording {
        recordingTime := WrappingIncrement(recordingTime);
        UpdateListeners();
        postedTicks := postedTicks + 1;
      }
    }

    /** `stopRecording`: acts only on a started session; the counter keeps its value. */
    method StopRecording()
      modifies this
      ensures old(customMediaRecorder.Some? && isRecording) ==>
                customMediaRecorder == Some(old(customMediaRecorder).value.(state := Stopped)) && !isRecording
                && notifications == old(notifications) + NotificationsFor(updateListener, false, recordingTime)
      ensures !old(customMediaRecorder.Some? && isRecording) ==> unchanged(this)
      ensures recordingTime == old(recordingTime) && postedTicks == old(postedTicks)
      ensures updateListener == old(updateListener)
      ensures old(Valid()) ==> Valid()
    {
      if customMediaRecorder.Some? && isRecording {
        customMediaRecorder := Some(customMediaRecorder.value.(state := Stopped));
        isRecording := false;
        UpdateListeners();
      }
    }

    /** `onTaskRemoved`, state part: the recorder is stopped and the listener dropped; the flag stays. */
    method OnTaskRemoved()
      modifies this
      ensures updateListener == None
      ensures customMediaRecorder ==
                if old(customMediaRecorder).Some? then Some(old(customMediaRecorder).value.(state := Stopped)) else None
      ensures isRecording == old(isRecording) && recordingTime == old(recordingTime)
      ensures postedTicks == old(postedTicks) && notifications == old(notifications)
      ensures old(Valid()) ==> Valid()
    {
      if customMediaRecorder.Some? {
        customMediaRecorder := Some(customMediaRecorder.value.(state := Stopped));
      }
      updateListener := None;
    }

    /** `pauseRecording` does nothing on this platform. */
    method PauseRecording()
      ensures unchanged(this)
    {
    }

    method IsRecording() returns (b: bool)
      ensures b == isRecording
    {
      b := isRecording;
    }

    method GetRecordingTime() returns (t: int32)
      ensures t == recordingTime
    {
      t := recordingTime;
    }
  }

  /**
   * The source as written: stop, then start again before the old tick has
   * run. Both queued ticks then find the service recording, so within one
   * second of the new session the counter reads 2.
   */
  method RestartWithinASecondAsWritten() returns (chains: nat, time: int32)
    ensures chains == 2 && time == 2
  {
    var s := new MediaRecorderService();
    s.StartRecordingAsWritten(Starts);
    s.StopRecording();
    s.StartRecordingAsWritten(Starts);
    s.Tick();
    s.Tick();
    chains, time := s.postedTicks, s.recordingTime;
  }

  /** The same calls with the corrected start: one chain, and the counter reads 1 after one second. */
  method RestartWithinASecondCorrected() returns (chains: nat, time: int32)
    ensures chains == 1 && time == 1
  {
    var s := new MediaRecorderService();
    s.StartRecording(Starts);
    s.StopRecording();
    s.StartRecording(Starts);
    s.Tick();
    chains, time := s.postedTicks, s.recordingTime;
  }

  /** A listener registered before a start hears `(true, 0)`, then `(true, 1)` after the first tick. */
  method StartAndTickNotifies() returns (heard: seq<Notification>)
    ensures heard == [Notification(Listener(7), true, 0), Notification(Listener(7), true, 1)]
  {
    var s := new MediaRecorderService();
    s.AddUpdateListener(Some(Listener(7)));
    s.StartRecording(Starts);
    s.Tick();
    heard := s.notifications;
  }
}
