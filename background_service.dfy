// The foreground service that drives a recording: its intent dispatch, the
// guards in front of starting, the rule for leaving the foreground when
// stopping, and the periodic auto-stop check on free storage and battery.
// The capture engine, the overlay countdown, the notifications and the
// platform are outside; what the service asks of them is the `effects` log,
// and what it reads from them arrives as an `Env`.

module Service {
  import Decimal
  import opened Wrappers

  const MIN_STORAGE_BYTES: int := 100 * 1024 * 1024
  const BATTERY_MIN_PERCENT: int := 10
  const LIMIT_CHECK_INTERVAL_MS: int := 15000
  /** `Service.START_STICKY`. */
  const START_STICKY: int := 1

  const LOW_STORAGE_MESSAGE: string := "Recording stopped due to low storage (less than 100MB remaining)."

  function LowBatteryMessage(percent: int): string {
    "Recording stopped due to low battery (" + Decimal.Show(percent) + "%)."
  }

  /** What the service reads when it runs: the engine's state (started, and
      whether stopping it now emits the recorded file rather than a cancel),
      the overlay's, the permissions, the two preferences and the readings of
      the two limits (`-1` where a reading failed). */
  datatype Env = Env(
    engineStarted: bool,
    stopEmitsFile: bool,
    countingDown: bool,
    willCountdown: bool,
    hasStoragePermission: bool,
    hasOverlayPermission: bool,
    alwaysShowNotification: bool,
    stopOnScreenOff: bool,
    appOpen: bool,
    availableBytes: int,
    batteryPercent: int)

  /** What the service asks of its collaborators. */
  datatype Effect =
    | EngineStop
    | EngineCancel
    | StopForeground
    | StopSelf
    | ShowError(message: string)
    | ReadStorage
    | ReadBattery
    | OpenStoragePermission
    | OpenOverlayPermission
    | StartCountdown
    | EngineStart
    | MaybeStartShakeListener
    | StopShakeListener
    | ScanRecording
    | DeleteRecording(recording: nat)
    | CancelPostRecordNotification
    | UpdateForeground(isRecording: bool)

  datatype Intent = Record | Delete(recording: nat) | OtherAction

  /** The broadcasts the service's `IntentReceiver` handles; a stop carries
      its `EXTRA_STOP_FOREGROUND`. */
  datatype Broadcast = PermissionDenied | ScreenOff | StopAction(stopForeground: bool) | ExitAction

  // ---------------------------------------------------------------------------
  // The decisions

  /** The storage limit trips on a reading of at least one byte and below
      100 MiB; nothing (0) and the failed reading (-1) do not trip it. */
  predicate StorageLow(availableBytes: int) {
    1 <= availableBytes < MIN_STORAGE_BYTES
  }

  /** The battery limit trips from 0 up to 10 percent inclusive; the failed
      reading (-1) does not trip it. */
  predicate BatteryLow(percent: int) {
    0 <= percent <= BATTERY_MIN_PERCENT
  }

  /** `stopRecording(force)` leaves the foreground. */
  predicate DropsForeground(alwaysShow: bool, appOpen: bool, force: bool) {
    !alwaysShow && (appOpen || force)
  }

  /** What the service's subscribers to the engine's stop and cancel events
      ask for (besides stopping the limit checks): stop the shake listener,
      show the idle notification, and, for a stop with a file, scan it. */
  function EngineFinishedEffects(withFile: bool): seq<Effect> {
    if withFile then [StopShakeListener, UpdateForeground(false), ScanRecording]
    else [StopShakeListener, UpdateForeground(false)]
  }

  /** `captureEngine.stop()`: its stop or cancel event runs the subscribers at once. */
  function EngineStopEffects(env: Env): seq<Effect> {
    [EngineStop] + EngineFinishedEffects(env.stopEmitsFile)
  }

  /** `captureEngine.cancel()`: it emits a cancel, never a stop, so the
      subscribers run without a file. */
  function CancelEffects(): seq<Effect> {
    [EngineCancel] + EngineFinishedEffects(false)
  }

  /** `stopRecording(force)`: stop the engine, then possibly leave the foreground. */
  function StopRecordingEffects(env: Env, force: bool): (r: seq<Effect>)
    ensures |r| > 0 && r[0] == EngineStop
    ensures StopForeground in r <==> DropsForeground(env.alwaysShowNotification, env.appOpen, force)
    ensures StopSelf in r <==> StopForeground in r
  {
    EngineStopEffects(env)
    + (if DropsForeground(env.alwaysShowNotification, env.appOpen, force) then [StopForeground, StopSelf] else [])
  }

  /** What each broadcast handler asks for. A screen-off stop calls the
      engine directly, so `stopRecording`'s foreground rule does not apply. */
  function BroadcastEffects(b: Broadcast, env: Env): seq<Effect> {
    match b
    case PermissionDenied => CancelEffects() + [UpdateForeground(false)]
    case ScreenOff => if env.stopOnScreenOff then EngineStopEffects(env) else []
    case StopAction(force) => StopRecordingEffects(env, force)
    case ExitAction => CancelEffects() + [StopForeground, StopSelf]
  }

  /** `onDestroy()`: the limit checks and the shake listener are stopped, then
      the engine, whose event still runs the subscribers. */
  function DestroyEffects(env: Env): seq<Effect> {
    [StopShakeListener] + EngineStopEffects(env)
  }

  /** `startRecording()`, guard by guard. */
  function StartRecordingEffects(env: Env): seq<Effect> {
    if env.engineStarted || env.countingDown then []
    else if !env.hasStoragePermission then [OpenStoragePermission]
    else if !env.hasOverlayPermission && env.willCountdown then [OpenOverlayPermission]
    else [StartCountdown]
  }

  /** What the countdown's block asks for when it runs: start the engine
      (whose start event, when it emits one at once, runs the shake-listener
      subscriber and then starts the limit checks), then show the recording
      notification. */
  function CountdownFinishedEffects(engineStarts: bool): seq<Effect> {
    [EngineStart] + (if engineStarts then [MaybeStartShakeListener] else []) + [UpdateForeground(true)]
  }

  /** `startRecording()` itself never starts the engine: only the countdown's
      block does, and it starts it before bringing the service to the
      foreground as recording. */
  lemma EngineStartsOnlyAfterCountdown(env: Env, engineStarts: bool)
    ensures EngineStart !in StartRecordingEffects(env)
    ensures var r := CountdownFinishedEffects(engineStarts);
      && r[0] == EngineStart && r[|r| - 1] == UpdateForeground(true)
      && (MaybeStartShakeListener in r <==> engineStarts)
  {
  }

  lemma StartRecordingGuards(env: Env)
    ensures env.engineStarted || env.countingDown ==> StartRecordingEffects(env) == []
    ensures StartRecordingEffects(env) == [StartCountdown] <==>
      && !env.engineStarted && !env.countingDown && env.hasStoragePermission
      && (env.hasOverlayPermission || !env.willCountdown)
    ensures StartRecordingEffects(env) == [OpenOverlayPermission] ==> env.hasStoragePermission && env.willCountdown
  {
  }

  /** What one limit check asks for once the engine is found started: read
      storage; on low storage stop and report it without reading the battery;
      otherwise read the battery, and on low battery stop and report it. */
  function LimitCheckEffects(env: Env): seq<Effect> {
    LimitReads(env)
    + if LimitTrips(env) then StopRecordingEffects(env, false) + [ShowError(LimitMessage(env))] else []
  }

  /** The readings a check takes: the battery is read only when storage is
      not low. */
  function LimitReads(env: Env): seq<Effect> {
    if StorageLow(env.availableBytes) then [ReadStorage] else [ReadStorage, ReadBattery]
  }

  /** The message of the limit that trips first. */
  function LimitMessage(env: Env): string {
    if StorageLow(env.availableBytes) then LOW_STORAGE_MESSAGE else LowBatteryMessage(env.batteryPercent)
  }

  /** The check stops the recording. */
  predicate LimitTrips(env: Env) {
    StorageLow(env.availableBytes) || BatteryLow(env.batteryPercent)
  }

  /** The subscribers neither stop the engine nor report an error. */
  lemma FinishedEffectsQuiet(withFile: bool)
    ensures EngineStop !in EngineFinishedEffects(withFile) && EngineCancel !in EngineFinishedEffects(withFile)
    ensures StopForeground !in EngineFinishedEffects(withFile) && StopSelf !in EngineFinishedEffects(withFile)
    ensures multiset(EngineFinishedEffects(withFile))[StopShakeListener] == 1
    ensures forall i :: 0 <= i < |EngineFinishedEffects(withFile)| ==> !EngineFinishedEffects(withFile)[i].ShowError?
  {
    if withFile {
      assert EngineFinishedEffects(withFile) == [StopShakeListener, UpdateForeground(false), ScanRecording];
    } else {
      assert EngineFinishedEffects(withFile) == [StopShakeListener, UpdateForeground(false)];
    }
  }

  lemma {:induction false} StopRecordingStopsOnce(env: Env, force: bool)
    ensures multiset(StopRecordingEffects(env, force))[EngineStop] == 1
    ensures forall i :: 0 <= i < |StopRecordingEffects(env, force)| ==> !StopRecordingEffects(env, force)[i].ShowError?
  {
    var fin := EngineFinishedEffects(env.stopEmitsFile);
    var drop := if DropsForeground(env.alwaysShowNotification, env.appOpen, force) then [StopForeground, StopSelf] else [];
    assert StopRecordingEffects(env, force) == [EngineStop] + fin + drop;
    FinishedEffectsQuiet(env.stopEmitsFile);
    StopsOnceQuietly(fin, drop);
  }

  /** A stop followed by two stretches that neither stop nor report. */
  lemma {:induction false} StopsOnceQuietly(fin: seq<Effect>, drop: seq<Effect>)
    requires EngineStop !in fin && forall i :: 0 <= i < |fin| ==> !fin[i].ShowError?
    requires drop == [] || drop == [StopForeground, StopSelf]
    ensures multiset([EngineStop] + fin + drop)[EngineStop] == 1
    ensures forall i :: 0 <= i < |[EngineStop] + fin + drop| ==> !([EngineStop] + fin + drop)[i].ShowError?
  {
    assert EngineStop !in fin + drop;
    assert [EngineStop] + fin + drop == [] + [EngineStop] + (fin + drop);
    OccursOnce([], EngineStop, fin + drop);
  }

  /** Stopping the engine stops it once and the shake listener once, and
      does not leave the foreground. */
  lemma {:induction false} EngineStopOnce(env: Env)
    ensures multiset(EngineStopEffects(env))[EngineStop] == 1
    ensures multiset(EngineStopEffects(env))[StopShakeListener] == 1
    ensures StopForeground !in EngineStopEffects(env) && StopSelf !in EngineStopEffects(env)
  {
    var fin := EngineFinishedEffects(env.stopEmitsFile);
    FinishedEffectsQuiet(env.stopEmitsFile);
    assert multiset(EngineStopEffects(env)) == multiset([EngineStop]) + multiset(fin);
  }

  /** A screen-off stop with the preference set stops the engine once yet
      never leaves the foreground, even where `stopRecording` would; without
      the preference it does nothing. */
  lemma {:induction false} ScreenOffSkipsForegroundRule(env: Env)
    ensures !env.stopOnScreenOff ==> BroadcastEffects(ScreenOff, env) == []
    ensures env.stopOnScreenOff ==> multiset(BroadcastEffects(ScreenOff, env))[EngineStop] == 1
    ensures StopForeground !in BroadcastEffects(ScreenOff, env) && StopSelf !in BroadcastEffects(ScreenOff, env)
    ensures DropsForeground(env.alwaysShowNotification, env.appOpen, false) ==>
      StopForeground in BroadcastEffects(StopAction(false), env)
  {
    EngineStopOnce(env);
  }

  /** The permission-denied handler cancels the engine once, never stops
      it, and ends on the idle notification without leaving the foreground. */
  lemma {:induction false} PermissionDeniedOnlyCancels(env: Env)
    ensures var d := BroadcastEffects(PermissionDenied, env);
      && EngineStop !in d && multiset(d)[EngineCancel] == 1
      && StopForeground !in d && d[|d| - 1] == UpdateForeground(false)
  {
    var fin := EngineFinishedEffects(false);
    FinishedEffectsQuiet(false);
    var tail := fin + [UpdateForeground(false)];
    assert EngineCancel !in tail && EngineStop !in tail && StopForeground !in tail;
    assert BroadcastEffects(PermissionDenied, env) == [] + [EngineCancel] + tail;
    OccursOnce([], EngineCancel, tail);
  }

  /** The exit handler cancels the engine once, never stops it, and leaves
      the foreground last. */
  lemma {:induction false} ExitOnlyCancels(env: Env)
    ensures var x := BroadcastEffects(ExitAction, env);
      && EngineStop !in x && multiset(x)[EngineCancel] == 1
      && |x| >= 2 && x[|x| - 2..] == [StopForeground, StopSelf]
  {
    var fin := EngineFinishedEffects(false);
    FinishedEffectsQuiet(false);
    var tail := fin + [StopForeground, StopSelf];
    assert EngineCancel !in tail && EngineStop !in tail;
    assert BroadcastEffects(ExitAction, env) == [] + [EngineCancel] + tail;
    OccursOnce([], EngineCancel, tail);
  }

  /** `onDestroy()` stops the engine once and the shake listener twice (itself
      and through the engine's event), and does not leave the foreground. */
  lemma {:induction false} DestroyStopsOnce(env: Env)
    ensures multiset(DestroyEffects(env))[EngineStop] == 1
    ensures multiset(DestroyEffects(env))[StopShakeListener] == 2
    ensures StopForeground !in DestroyEffects(env) && StopSelf !in DestroyEffects(env)
  {
    EngineStopOnce(env);
    assert multiset(DestroyEffects(env)) == multiset([StopShakeListener]) + multiset(EngineStopEffects(env));
  }


  /** The effects of a check, spelled out: read storage, and on low storage
      stop and report; otherwise read the battery, and on low battery stop
      and report. */
  lemma LimitCheckShape(env: Env)
    ensures var tail := EngineFinishedEffects(env.stopEmitsFile)
      + (if DropsForeground(env.alwaysShowNotification, env.appOpen, false) then [StopForeground, StopSelf] else []);
      LimitCheckEffects(env) ==
        if StorageLow(env.availableBytes) then [ReadStorage, EngineStop] + tail + [ShowError(LOW_STORAGE_MESSAGE)]
        else if BatteryLow(env.batteryPercent) then [ReadStorage, ReadBattery, EngineStop] + tail + [ShowError(LowBatteryMessage(env.batteryPercent))]
        else [ReadStorage, ReadBattery]
  {
    var tail := EngineFinishedEffects(env.stopEmitsFile)
      + (if DropsForeground(env.alwaysShowNotification, env.appOpen, false) then [StopForeground, StopSelf] else []);
    if LimitTrips(env) {
      var stop := StopRecordingEffects(env, false);
      assert stop == [EngineStop] + tail;
      assert LimitCheckEffects(env) == LimitReads(env) + stop + [ShowError(LimitMessage(env))];
    }
  }

  /** An effect that occurs once between two stretches without it is counted once. */
  lemma {:induction false} OccursOnce(head: seq<Effect>, e: Effect, tail: seq<Effect>)
    requires e !in head && e !in tail
    ensures multiset(head + [e] + tail)[e] == 1
  {
    assert multiset(head)[e] == 0;
    assert multiset(tail)[e] == 0;
    assert multiset(head + [e] + tail) == multiset(head) + multiset([e]) + multiset(tail);
  }

  /** The effects of a check, branch by branch, in the order the method
      appends them. */
  lemma LimitCheckCases(env: Env)
    ensures StorageLow(env.availableBytes) ==>
      forall pre: seq<Effect> :: pre + [ReadStorage] + StopRecordingEffects(env, false) + [ShowError(LOW_STORAGE_MESSAGE)]
        == pre + LimitCheckEffects(env)
    ensures !StorageLow(env.availableBytes) && BatteryLow(env.batteryPercent) ==>
      forall pre: seq<Effect> :: pre + [ReadStorage] + [ReadBattery] + StopRecordingEffects(env, false) + [ShowError(LowBatteryMessage(env.batteryPercent))]
        == pre + LimitCheckEffects(env)
    ensures !LimitTrips(env) ==>
      forall pre: seq<Effect> :: pre + [ReadStorage] + [ReadBattery] == pre + LimitCheckEffects(env)
  {
  }

  /** A check stops the engine once if a limit trips, and never otherwise. */
  lemma {:induction false} LimitCheckStopsOnce(env: Env)
    ensures multiset(LimitCheckEffects(env))[EngineStop] == (if LimitTrips(env) then 1 else 0)
  {
    if !LimitTrips(env) {
      assert LimitCheckEffects(env) == LimitReads(env);
      assert EngineStop !in LimitCheckEffects(env);
    } else {
      StopRecordingStopsOnce(env, false);
      assert LimitCheckEffects(env) == LimitReads(env) + StopRecordingEffects(env, false) + [ShowError(LimitMessage(env))];
      CountedOnceAmid(LimitReads(env), StopRecordingEffects(env, false), [ShowError(LimitMessage(env))]);
    }
  }

  /** A stretch holding one stop, between two without one, holds one stop. */
  lemma CountedOnceAmid(head: seq<Effect>, middle: seq<Effect>, tail: seq<Effect>)
    requires EngineStop !in head && EngineStop !in tail
    requires multiset(middle)[EngineStop] == 1
    ensures multiset(head + middle + tail)[EngineStop] == 1
  {
    assert multiset(head + middle + tail) == multiset(head) + multiset(middle) + multiset(tail);
  }

  /** A check reports an error exactly when a limit trips: the low-storage
      one, without reading the battery, or else the low-battery one. */
  lemma {:induction false} LimitCheckReports(env: Env)
    ensures !LimitTrips(env) ==> forall m :: ShowError(m) !in LimitCheckEffects(env)
    ensures StorageLow(env.availableBytes) ==>
      && ReadBattery !in LimitCheckEffects(env)
      && LimitCheckEffects(env)[|LimitCheckEffects(env)| - 1] == ShowError(LOW_STORAGE_MESSAGE)
    ensures !StorageLow(env.availableBytes) && BatteryLow(env.batteryPercent) ==>
      LimitCheckEffects(env)[|LimitCheckEffects(env)| - 1] == ShowError(LowBatteryMessage(env.batteryPercent))
  {
    LimitCheckShape(env);
  }

  /** Neither an unreadable nor an empty reading trips a limit. */
  lemma UnreadableNeverTrips(env: Env)
    requires env.availableBytes in {-1, 0} && env.batteryPercent == -1
    ensures !LimitTrips(env)
  {
  }

  // ---------------------------------------------------------------------------
  // The handler queue of the limit checks

  /** A runnable posted to `limitHandler`, with its delay. */
  datatype Posted = Posted(runnable: nat, delayMs: int)

  /** The queue after `removeCallbacks(runnable)`: every pending post of it is dropped. */
  function Without(queue: seq<Posted>, runnable: nat): (r: seq<Posted>)
    ensures forall p :: p in r <==> p in queue && p.runnable != runnable
    ensures |r| <= |queue|
  {
    if queue == [] then []
    else (if queue[0].runnable == runnable then [] else [queue[0]]) + Without(queue[1..], runnable)
  }

  /** `Without` works post by post, so the posts it keeps stay in their order. */
  lemma {:induction false} WithoutAppend(a: seq<Posted>, b: seq<Posted>, runnable: nat)
    ensures Without(a + b, runnable) == Without(a, runnable) + Without(b, runnable)
  {
    if a == [] {
      assert a + b == b;
    } else {
      assert (a + b)[1..] == a[1..] + b;
      WithoutAppend(a[1..], b, runnable);
    }
  }


  /** Every pending post is of the runnable the service tracks. */
  predicate OnlyTracked(queue: seq<Posted>, limitRunnable: Option<nat>) {
    forall p :: p in queue ==> limitRunnable == Some(p.runnable)
  }

  /** Removing the tracked runnable empties a queue that holds nothing else. */
  lemma {:induction false} WithoutTracked(queue: seq<Posted>, limitRunnable: Option<nat>)
    requires limitRunnable.Some?
    ensures OnlyTracked(queue, limitRunnable) ==> Without(queue, limitRunnable.value) == []
  {
    if queue != [] && OnlyTracked(queue, limitRunnable) {
      assert queue[0] in queue;
      assert OnlyTracked(queue[1..], limitRunnable) by {
        forall p | p in queue[1..] ensures limitRunnable == Some(p.runnable) {
          assert p in queue;
        }
      }
      WithoutTracked(queue[1..], limitRunnable);
    }
  }

  /** With no runnable tracked, a queue that holds only the tracked one is empty. */
  lemma {:induction false} UntrackedEmpty(queue: seq<Posted>)
    ensures OnlyTracked(queue, None) ==> queue == []
  {
    if queue != [] {
      assert queue[0] in queue;
    }
  }

  class BackgroundService {
    /** `limitRunnable`: the identity of the tracked runnable. */
    var limitRunnable: Option<nat>
    /** The pending posts of `limitHandler`, in order. */
    var queue: seq<Posted>
    var nextRunnable: nat
    var effects: seq<Effect>

    constructor ()
      ensures limitRunnable.None? && queue == [] && nextRunnable == 0 && effects == []
    {
      limitRunnable, queue, nextRunnable, effects := None, [], 0, [];
    }

    /** `onStartCommand(intent, flags, startId)`. */
    method OnStartCommand(intent: Intent, env: Env) returns (result: int)
      modifies this`effects
      ensures limitRunnable == old(limitRunnable) && queue == old(queue)
      ensures result == START_STICKY
      ensures intent.Record? ==> effects == old(effects) + StartRecordingEffects(env)
      ensures intent.Delete? ==>
        effects == old(effects) + [DeleteRecording(intent.recording), CancelPostRecordNotification, StopForeground, StopSelf]
      ensures intent.OtherAction? ==>
        effects == old(effects) + (if env.engineStarted then [] else [UpdateForeground(false)])
    {
      match intent {
        case Record =>
          StartRecording(env);
        case Delete(recording) =>
          effects := effects + [DeleteRecording(recording), CancelPostRecordNotification, StopForeground, StopSelf];
        case OtherAction =>
          if !env.engineStarted {
            effects := effects + [UpdateForeground(false)];
          }
      }
      result := START_STICKY;
    }

    /** `startRecording()`. */
    method StartRecording(env: Env)
      modifies this`effects
      ensures effects == old(effects) + StartRecordingEffects(env)
    {
      if env.engineStarted || env.countingDown {
        return;
      } else if !env.hasStoragePermission {
        effects := effects + [OpenStoragePermission];
        return;
      } else if !env.hasOverlayPermission && env.willCountdown {
        effects := effects + [OpenOverlayPermission];
        return;
      }
      effects := effects + [StartCountdown];
    }

    /** The block handed to `overlayManager.countdown`, run when the countdown
        ends: start the engine, then bring the service to the foreground as
        recording. `engineStarts` tells whether the engine's start emits its
        start event at once (it holds a projection and the setup succeeds);
        the subscribers then run inside the call. */
    method OnCountdownFinished(engineStarts: bool)
      modifies this`effects, this`limitRunnable, this`queue, this`nextRunnable
      ensures effects == old(effects) + CountdownFinishedEffects(engineStarts)
      ensures !engineStarts ==> limitRunnable == old(limitRunnable) && queue == old(queue) && nextRunnable == old(nextRunnable)
      ensures engineStarts ==>
        && limitRunnable == Some(old(nextRunnable)) && nextRunnable == old(nextRunnable) + 1
        && queue == (if old(limitRunnable).Some? then Without(old(queue), old(limitRunnable).value) else old(queue))
                    + [Posted(old(nextRunnable), 0)]
      ensures OnlyTracked(old(queue), old(limitRunnable)) ==> OnlyTracked(queue, limitRunnable)
    {
      effects := effects + [EngineStart];
      if engineStarts {
        OnEngineStarted();
      }
      effects := effects + [UpdateForeground(true)];
    }

    /** The subscribers `onCreate` attaches to the engine's start event, in
        the order they were attached: the shake listener's, then
        `startLimitChecks()`. */
    method OnEngineStarted()
      modifies this`effects, this`limitRunnable, this`queue, this`nextRunnable
      ensures effects == old(effects) + [MaybeStartShakeListener]
      ensures limitRunnable == Some(old(nextRunnable)) && nextRunnable == old(nextRunnable) + 1
      ensures queue ==
        (if old(limitRunnable).Some? then Without(old(queue), old(limitRunnable).value) else old(queue))
        + [Posted(old(nextRunnable), 0)]
      ensures OnlyTracked(old(queue), old(limitRunnable)) ==> OnlyTracked(queue, limitRunnable)
    {
      effects := effects + [MaybeStartShakeListener];
      StartLimitChecks();
    }

    /** The subscribers `onCreate` attaches to the engine's stop (`withFile`)
        and cancel events: stop the limit checks and the shake listener, show
        the idle notification, and scan a recorded file. */
    method OnEngineFinished(withFile: bool)
      modifies this`effects, this`limitRunnable, this`queue
      ensures effects == old(effects) + EngineFinishedEffects(withFile)
      ensures limitRunnable.None?
      ensures queue == if old(limitRunnable).Some? then Without(old(queue), old(limitRunnable).value) else old(queue)
      ensures OnlyTracked(old(queue), old(limitRunnable)) ==> queue == []
    {
      StopLimitChecks();
      effects := effects + [StopShakeListener, UpdateForeground(false)];
      if withFile {
        effects := effects + [ScanRecording];
      }
    }

    /** `stopRecording(forceStopForeground)`: the engine's stop emits its
        event at once, so the checks are stopped before it returns. */
    method StopRecording(env: Env, force: bool)
      modifies this`effects, this`limitRunnable, this`queue
      ensures effects == old(effects) + StopRecordingEffects(env, force)
      ensures limitRunnable.None?
      ensures queue == if old(limitRunnable).Some? then Without(old(queue), old(limitRunnable).value) else old(queue)
      ensures OnlyTracked(old(queue), old(limitRunnable)) ==> queue == []
    {
      StopEngine(env);
      if !env.alwaysShowNotification && (env.appOpen || force) {
        effects := effects + [StopForeground, StopSelf];
      }
    }

    /** `captureEngine.stop()`, with the subscribers its event runs. */
    method StopEngine(env: Env)
      modifies this`effects, this`limitRunnable, this`queue
      ensures effects == old(effects) + EngineStopEffects(env)
      ensures limitRunnable.None?
      ensures queue == if old(limitRunnable).Some? then Without(old(queue), old(limitRunnable).value) else old(queue)
      ensures OnlyTracked(old(queue), old(limitRunnable)) ==> queue == []
    {
      effects := effects + [EngineStop];
      OnEngineFinished(env.stopEmitsFile);
    }

    /** `captureEngine.cancel()`, with the subscribers its cancel event runs. */
    method CancelEngine()
      modifies this`effects, this`limitRunnable, this`queue
      ensures effects == old(effects) + CancelEffects()
      ensures limitRunnable.None?
      ensures queue == if old(limitRunnable).Some? then Without(old(queue), old(limitRunnable).value) else old(queue)
      ensures OnlyTracked(old(queue), old(limitRunnable)) ==> queue == []
    {
      effects := effects + [EngineCancel];
      OnEngineFinished(false);
    }

    /** The `IntentReceiver` registered in `onCreate`, handling broadcast `b`. */
    method OnBroadcast(b: Broadcast, env: Env)
      modifies this`effects, this`limitRunnable, this`queue
      ensures effects == old(effects) + BroadcastEffects(b, env)
      ensures b == ScreenOff && !env.stopOnScreenOff ==> limitRunnable == old(limitRunnable) && queue == old(queue)
      ensures b != ScreenOff || env.stopOnScreenOff ==>
        && limitRunnable.None?
        && queue == (if old(limitRunnable).Some? then Without(old(queue), old(limitRunnable).value) else old(queue))
      ensures OnlyTracked(old(queue), old(limitRunnable)) ==> OnlyTracked(queue, limitRunnable)
    {
      match b {
        case PermissionDenied =>
          CancelEngine();
          effects := effects + [UpdateForeground(false)];
        case ScreenOff =>
          if env.stopOnScreenOff {
            StopEngine(env);
          }
        case StopAction(force) =>
          StopRecording(env, force);
        case ExitAction =>
          CancelEngine();
          effects := effects + [StopForeground, StopSelf];
      }
    }

    /** `onDestroy()`: nothing is left tracked or pending afterwards when only
        the tracked runnable was. */
    method OnDestroy(env: Env)
      modifies this`effects, this`limitRunnable, this`queue
      ensures effects == old(effects) + DestroyEffects(env)
      ensures limitRunnable.None?
      ensures queue == if old(limitRunnable).Some? then Without(old(queue), old(limitRunnable).value) else old(queue)
      ensures OnlyTracked(old(queue), old(limitRunnable)) ==> queue == []
    {
      StopLimitChecks();
      effects := effects + [StopShakeListener];
      StopEngine(env);
    }

    /** `stopLimitChecks()`. */
    method StopLimitChecks()
      modifies this`limitRunnable, this`queue
      ensures limitRunnable.None?
      ensures queue == if old(limitRunnable).Some? then Without(old(queue), old(limitRunnable).value) else old(queue)
      ensures OnlyTracked(old(queue), old(limitRunnable)) ==> queue == []
    {
      if limitRunnable.Some? {
        WithoutTracked(queue, limitRunnable);
        queue := Without(queue, limitRunnable.value);
      } else {
        UntrackedEmpty(queue);
      }
      limitRunnable := None;
    }

    /** `startLimitChecks()`: drop the tracked runnable, then post a fresh one. */
    method StartLimitChecks()
      modifies this`limitRunnable, this`queue, this`nextRunnable
      ensures limitRunnable == Some(old(nextRunnable)) && nextRunnable == old(nextRunnable) + 1
      ensures queue ==
        (if old(limitRunnable).Some? then Without(old(queue), old(limitRunnable).value) else old(queue))
        + [Posted(old(nextRunnable), 0)]
      ensures OnlyTracked(old(queue), old(limitRunnable)) ==> queue == [Posted(limitRunnable.value, 0)]
      ensures OnlyTracked(old(queue), old(limitRunnable)) ==> OnlyTracked(queue, limitRunnable)
    {
      StopLimitChecks();
      limitRunnable := Some(nextRunnable);
      queue := queue + [Posted(nextRunnable, 0)];
      nextRunnable := nextRunnable + 1;
    }

    /** `checkAutoStopLimits()`. */
    method CheckAutoStopLimits(env: Env)
      modifies this`limitRunnable, this`queue, this`effects
      ensures !env.engineStarted ==> effects == old(effects)
      ensures env.engineStarted ==> effects == old(effects) + LimitCheckEffects(env)
      ensures (!env.engineStarted || LimitTrips(env)) ==>
        && limitRunnable.None?
        && queue == (if old(limitRunnable).Some? then Without(old(queue), old(limitRunnable).value) else old(queue))
      ensures env.engineStarted && !LimitTrips(env) ==> limitRunnable == old(limitRunnable) && queue == old(queue)
      ensures OnlyTracked(old(queue), old(limitRunnable)) ==> OnlyTracked(queue, limitRunnable)
    {
      if !env.engineStarted {
        StopLimitChecks();
      } else {
        CheckStartedLimits(env);
      }
    }

    /** The body of `checkAutoStopLimits()` past its engine guard. */
    method CheckStartedLimits(env: Env)
      modifies this`limitRunnable, this`queue, this`effects
      ensures effects == old(effects) + LimitCheckEffects(env)
      ensures LimitTrips(env) ==>
        && limitRunnable.None?
        && queue == (if old(limitRunnable).Some? then Without(old(queue), old(limitRunnable).value) else old(queue))
      ensures !LimitTrips(env) ==> limitRunnable == old(limitRunnable) && queue == old(queue)
      ensures OnlyTracked(old(queue), old(limitRunnable)) ==> OnlyTracked(queue, limitRunnable)
    {
      LimitCheckCases(env);
      effects := effects + [ReadStorage];
      if StorageLow(env.availableBytes) {
        StopOnLimit(env, LOW_STORAGE_MESSAGE);
        return;
      }
      effects := effects + [ReadBattery];
      if BatteryLow(env.batteryPercent) {
        StopOnLimit(env, LowBatteryMessage(env.batteryPercent));
      }
    }

    /** A tripped limit: stop the checks and the recording, then report. */
    method StopOnLimit(env: Env, message: string)
      modifies this`limitRunnable, this`queue, this`effects
      ensures effects == old(effects) + StopRecordingEffects(env, false) + [ShowError(message)]
      ensures limitRunnable.None?
      ensures queue == if old(limitRunnable).Some? then Without(old(queue), old(limitRunnable).value) else old(queue)
      ensures OnlyTracked(old(queue), old(limitRunnable)) ==> queue == []
    {
      StopLimitChecks();
      StopRecording(env, false);
      effects := effects + [ShowError(message)];
    }

    /** The handler delivering its pending post `i`: the limit runnable's
        `run()` as written, which checks and then always reposts itself. */
    method RunLimitRunnable(i: nat, env: Env)
      requires i < |queue|
      modifies this`limitRunnable, this`queue, this`effects
      ensures env.engineStarted ==> effects == old(effects) + LimitCheckEffects(env)
      ensures !env.engineStarted ==> effects == old(effects)
      ensures (!env.engineStarted || LimitTrips(env)) ==> limitRunnable.None?
      ensures env.engineStarted && !LimitTrips(env) ==> limitRunnable == old(limitRunnable)
      ensures var rest := old(queue)[..i] + old(queue)[i + 1..];
        queue == (if (!env.engineStarted || LimitTrips(env)) && old(limitRunnable).Some?
                  then Without(rest, old(limitRunnable).value) else rest)
                 + [Posted(old(queue)[i].runnable, LIMIT_CHECK_INTERVAL_MS)]
      ensures |queue| > 0 && queue[|queue| - 1] == Posted(old(queue)[i].runnable, LIMIT_CHECK_INTERVAL_MS)
      // the check stopped the checks, yet its runnable is queued again, untracked
      ensures OnlyTracked(old(queue), old(limitRunnable)) && (!env.engineStarted || LimitTrips(env)) ==>
        limitRunnable.None? && queue == [Posted(old(queue)[i].runnable, LIMIT_CHECK_INTERVAL_MS)]
    {
      var r := queue[i].runnable;
      queue := queue[..i] + queue[i + 1..];
      OnlyTrackedAfterDelivery(old(queue), i, limitRunnable);
      CheckAutoStopLimits(env);
      UntrackedEmpty(queue);
      queue := queue + [Posted(r, LIMIT_CHECK_INTERVAL_MS)];
    }

    /** The runnable as evidently intended: it reposts itself only while it is
        still the tracked one, so stopping the checks from inside leaves
        nothing pending. */
    method RunLimitRunnableCorrected(i: nat, env: Env)
      requires i < |queue|
      modifies this`limitRunnable, this`queue, this`effects
      ensures env.engineStarted ==> effects == old(effects) + LimitCheckEffects(env)
      ensures !env.engineStarted ==> effects == old(effects)
      ensures (!env.engineStarted || LimitTrips(env)) ==> limitRunnable.None?
      ensures env.engineStarted && !LimitTrips(env) ==> limitRunnable == old(limitRunnable)
      ensures var rest := old(queue)[..i] + old(queue)[i + 1..];
        var stops := !env.engineStarted || LimitTrips(env);
        queue == (if stops && old(limitRunnable).Some? then Without(rest, old(limitRunnable).value) else rest)
                 + (if !stops && old(limitRunnable) == Some(old(queue)[i].runnable)
                    then [Posted(old(queue)[i].runnable, LIMIT_CHECK_INTERVAL_MS)] else [])
      ensures OnlyTracked(old(queue), old(limitRunnable)) ==> OnlyTracked(queue, limitRunnable)
      ensures OnlyTracked(old(queue), old(limitRunnable)) && (!env.engineStarted || LimitTrips(env)) ==>
        limitRunnable.None? && queue == []
      ensures OnlyTracked(old(queue), old(limitRunnable)) && env.engineStarted && !LimitTrips(env) ==>
        |queue| > 0 && queue[|queue| - 1] == Posted(old(queue)[i].runnable, LIMIT_CHECK_INTERVAL_MS)
    {
      var r := queue[i].runnable;
      queue := queue[..i] + queue[i + 1..];
      OnlyTrackedAfterDelivery(old(queue), i, limitRunnable);
      CheckAutoStopLimits(env);
      UntrackedEmpty(queue);
      if limitRunnable == Some(r) {
        queue := queue + [Posted(r, LIMIT_CHECK_INTERVAL_MS)];
      }
    }
  }

  /** Delivering a pending post keeps the others, and they stay tracked. */
  lemma {:induction false} OnlyTrackedAfterDelivery(queue: seq<Posted>, i: nat, limitRunnable: Option<nat>)
    requires i < |queue|
    ensures OnlyTracked(queue, limitRunnable) ==>
      OnlyTracked(queue[..i] + queue[i + 1..], limitRunnable) && limitRunnable == Some(queue[i].runnable)
  {
    if OnlyTracked(queue, limitRunnable) {
      assert queue[i] in queue;
      forall p | p in queue[..i] + queue[i + 1..] ensures limitRunnable == Some(p.runnable) {
        assert p in queue[..i] || p in queue[i + 1..];
      }
    }
  }

  /** A recording whose storage runs low: the checks are started, their
      runnable runs and stops the recording, and the repost of the runnable
      as written is left pending while no runnable is tracked. */
  method OrphanedRepostExample() returns (tracked: Option<nat>, pending: seq<Posted>)
    ensures tracked.None? && pending == [Posted(0, LIMIT_CHECK_INTERVAL_MS)]
  {
    var service := new BackgroundService();
    service.StartLimitChecks();
    var lowStorage := Env(true, true, false, false, true, true, false, false, false, 1024, 50);
    service.RunLimitRunnable(0, lowStorage);
    tracked, pending := service.limitRunnable, service.queue;
  }
}
