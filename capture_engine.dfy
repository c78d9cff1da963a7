// The screen-capture session of MNML: `RealCaptureEngine`, a small state
// machine over three platform resources (the recorder, the projection granted
// by the user, the virtual display), the file being recorded to, and a
// max-duration timer. The platform objects are opaque handles; what the
// engine asks of them is recorded in `calls`, and what it emits on its four
// channels (start, stop(file), cancel, error) is recorded in `events`.

module Capture {
  import opened Wrappers

  type Recorder = nat
  type Projection = nat
  type Display = nat
  type File = string

  /** `Build.VERSION_CODES.N`: pausing and resuming need API 24. */
  const SDK_N: int := 24
  const MINUTE_MS: int := 60000

  const PAUSE_UNSUPPORTED: string := "Pausing a recording requires Android 7.0+"
  const RESUME_UNSUPPORTED: string := "Resuming a recording requires Android 7.0+"

  datatype Fault =
    | UnsupportedOperation(message: string)
    | Raised(cause: string)

  datatype Event = Started | Stopped(file: File) | Cancelled | Error(fault: Fault)

  /** What the engine asks of the platform. */
  datatype Call =
    | LaunchPermissionActivity
    | RequestCaptureIntent(requestCode: int)
    | RegisterCallback(projection: Projection)
    | DeleteFile(file: File)
    | StopProjection
    | StopRecorder
    | ReleaseRecorder
    | ReleaseDisplay
    | PauseRecorder
    | ResumeRecorder
    | PostDelayed(timer: nat, delayMs: int)
    | RemoveCallbacks(timer: nat)

  /** The max-duration runnable: its identity and the delay it was posted with. */
  datatype Timer = Timer(id: nat, delayMs: int)

  /** How the two setup helpers (`createAndPrepareRecorder`, then
      `createVirtualDisplayAndStart`) end: one of them throws, preparing the
      recorder returns false, or recording starts into `file` with the
      configured maximum duration. */
  datatype SetupOutcome =
    | SetupThrows(cause: Fault)
    | SetupDeclined
    | SetupStarted(recorder: Recorder, display: Display, file: File, maxMinutes: int)

  /** Which of the platform calls `stop()` makes throw. */
  datatype TeardownFaults = TeardownFaults(
    projectionStop: bool, recorderStop: bool, recorderRelease: bool, displayRelease: bool)

  /** The engine's whole observable state. */
  datatype Engine = Engine(
    isStarted: bool,
    paused: bool,
    recorder: Option<Recorder>,
    projection: Option<Projection>,
    display: Option<Display>,
    pendingFile: Option<File>,
    timer: Option<Timer>,
    nextTimer: nat,
    events: seq<Event>,
    calls: seq<Call>)

  /** A started session has a recorder, only a started session is paused,
      and the timer is armed only while started. */
  predicate HandlesConsistent(e: Engine) {
    && (e.isStarted ==> e.recorder.Some?)
    && (e.paused ==> e.isStarted)
    && (e.timer.Some? ==> e.isStarted && e.timer.value.id < e.nextTimer)
  }

  /** What holds between any two operations: besides the above, a started
      session records into a file. (`cancel()` forgets the file just before
      it stops, so `stop()` itself needs only the above.) */
  predicate Consistent(e: Engine) {
    HandlesConsistent(e) && (e.isStarted ==> e.pendingFile.Some?)
  }

  /** `clearMaxDurationTimer`'s calls: the armed runnable, if any, is removed. */
  function ClearCalls(timer: Option<Timer>): seq<Call> {
    if timer.Some? then [RemoveCallbacks(timer.value.id)] else []
  }

  /** The calls of `stop()`'s teardown, given which handles were held: the
      projection and the recorder are stopped inside one `try` (a throwing
      projection skips the recorder), then the recorder and the display are
      released outside it (a throwing recorder release skips the display). */
  function TeardownCalls(hadProjection: bool, hadDisplay: bool, f: TeardownFaults): seq<Call> {
    StreamStopCalls(hadProjection, f)
    + [ReleaseRecorder]
    + (if f.recorderRelease || !hadDisplay then [] else [ReleaseDisplay])
  }

  /** The calls of the `try` block of `stop()`. */
  function StreamStopCalls(hadProjection: bool, f: TeardownFaults): seq<Call> {
    (if hadProjection then [StopProjection] else [])
    + (if hadProjection && f.projectionStop then [] else [StopRecorder])
  }

  /** The one event a completed `stop()` emits. */
  function StopEvent(pendingFile: Option<File>): Event {
    if pendingFile.Some? then Stopped(pendingFile.value) else Cancelled
  }

  /** `stop()` from `a` ends in `b`, `thrown` telling whether an exception
      escaped it. Without a recorder it only emits a cancel. Otherwise it
      clears the flags and the timer and tears down; a release that throws
      escapes with the handles after it still held and no event emitted. */
  ghost predicate StopSpec(a: Engine, b: Engine, f: TeardownFaults, thrown: bool) {
    if a.recorder.None? then
      b == a.(events := a.events + [Cancelled]) && !thrown
    else
      var cleared := a.(isStarted := false, paused := false, timer := None,
                        calls := a.calls + ClearCalls(a.timer) + TeardownCalls(a.projection.Some?, a.display.Some?, f));
      && thrown == (f.recorderRelease || (a.display.Some? && f.displayRelease))
      && (if f.recorderRelease then b == cleared
          else if a.display.Some? && f.displayRelease then b == cleared.(recorder := None)
          else b == cleared.(recorder := None, display := None, projection := None, pendingFile := None,
                             events := a.events + [StopEvent(a.pendingFile)]))
  }

  /** `cancel()` from `a` ends in `b`: without a pending file it only emits a
      cancel; otherwise it deletes the file, forgets it, and stops. */
  ghost predicate CancelSpec(a: Engine, b: Engine, f: TeardownFaults, thrown: bool) {
    if a.pendingFile.None? then
      b == a.(events := a.events + [Cancelled]) && !thrown
    else
      StopSpec(a.(pendingFile := None, calls := a.calls + [DeleteFile(a.pendingFile.value)]), b, f, thrown)
  }

  /** `scheduleMaxDurationStop()` from `a` with `minutes` read from the
      preference: the armed runnable is cleared, then a fresh one is armed for
      `minutes * 60000` ms unless `minutes <= 0`. */
  function ScheduleEffect(a: Engine, minutes: int): Engine {
    var cleared := a.(timer := None, calls := a.calls + ClearCalls(a.timer));
    if minutes <= 0 then cleared
    else cleared.(timer := Some(Timer(a.nextTimer, minutes * MINUTE_MS)), nextTimer := a.nextTimer + 1,
                  calls := cleared.calls + [PostDelayed(a.nextTimer, minutes * MINUTE_MS)])
  }

  /** The whole new state once a projection is held and the setup helpers
      have run from `a`: a throw is reported as an error, a declined recorder
      changes nothing, and a started recording holds its recorder, display and
      file, is started, emits a start and arms the max-duration timer. */
  function SetupEffect(a: Engine, setup: SetupOutcome): Engine {
    match setup
    case SetupThrows(cause) => a.(events := a.events + [Error(cause)])
    case SetupDeclined => a
    case SetupStarted(r, d, file, minutes) =>
      ScheduleEffect(a.(recorder := Some(r), display := Some(d), pendingFile := Some(file),
                        isStarted := true, events := a.events + [Started]), minutes)
  }

  /** A started setup keeps the engine consistent, stays unpaused if it was,
      records into the outcome's file and arms the timer iff a positive
      maximum is configured. */
  lemma SetupStartedShape(a: Engine, setup: SetupOutcome)
    requires Consistent(a) && setup.SetupStarted?
    ensures var b := SetupEffect(a, setup);
      && Consistent(b) && b.isStarted && b.paused == a.paused
      && b.recorder == Some(setup.recorder) && b.display == Some(setup.display)
      && b.pendingFile == Some(setup.file) && b.projection == a.projection
      && b.events == a.events + [Started]
      && (setup.maxMinutes > 0 <==> b.timer.Some?)
      && (b.timer.Some? ==> b.timer.value.delayMs == setup.maxMinutes * MINUTE_MS)
  {
  }

  /** A recording that started and is then stopped with no release throwing
      emits exactly a start followed by a stop carrying the file it recorded. */
  lemma {:induction false} StartThenStopEmitsFile(a: Engine, setup: SetupOutcome, f: TeardownFaults, b: Engine, thrown: bool)
    requires Consistent(a) && setup.SetupStarted?
    requires StopSpec(SetupEffect(a, setup), b, f, thrown) && !thrown
    ensures b.events == a.events + [Started, Stopped(setup.file)]
    ensures !b.isStarted && b.recorder.None? && b.display.None? && b.pendingFile.None? && b.timer.None?
  {
    var s := SetupEffect(a, setup);
    SetupStartedShape(a, setup);
    StopTearsDown(s, b, f, thrown);
    assert b.events == s.events + [StopEvent(s.pendingFile)];
  }

  // ---------------------------------------------------------------------------
  // Properties of stopping and cancelling

  /** `stop()` leaves the engine consistent, even when a release throws, and
      even when called by `cancel()` after it forgot the file. */
  lemma StopKeepsConsistent(a: Engine, b: Engine, f: TeardownFaults, thrown: bool)
    requires HandlesConsistent(a) && StopSpec(a, b, f, thrown)
    ensures Consistent(b)
  {
  }

  /** When no release throws, `stop()` with a recorder leaves every handle
      released, the flags down, the timer cleared and the file forgotten, and
      emits exactly one event: the file if there was one, else a cancel. */
  lemma StopTearsDown(a: Engine, b: Engine, f: TeardownFaults, thrown: bool)
    requires StopSpec(a, b, f, thrown) && a.recorder.Some? && !thrown
    ensures !b.isStarted && !b.paused && b.timer.None?
    ensures b.recorder.None? && b.display.None? && b.projection.None? && b.pendingFile.None?
    ensures |b.events| == |a.events| + 1 && b.events[..|a.events|] == a.events
    ensures b.events[|a.events|].Stopped? <==> a.pendingFile.Some?
    ensures b.events[|a.events|].Stopped? ==> b.events[|a.events|].file == a.pendingFile.value
  {
    assert b.events == a.events + [StopEvent(a.pendingFile)];
  }

  /** A fault stopping the projection or the recorder never escapes `stop()`. */
  lemma StopSwallowsStopFaults(a: Engine, b: Engine, f: TeardownFaults, thrown: bool)
    requires StopSpec(a, b, f, thrown) && !f.recorderRelease && !f.displayRelease
    ensures !thrown
  {
  }

  /** A second `stop()` after a complete one (the projection callback, which
      stopping the projection provokes, lands here) makes no call and only
      emits a cancel. */
  lemma StopAfterStopOnlyCancels(a: Engine, b: Engine, c: Engine, f: TeardownFaults, g: TeardownFaults, t1: bool, t2: bool)
    requires StopSpec(a, b, f, t1) && !t1 && StopSpec(b, c, g, t2)
    ensures c == b.(events := b.events + [Cancelled]) && !t2
  {
  }

  /** `cancel()` forgets the file and never emits a stop: when nothing escapes
      it emits exactly one cancel, whether or not a file or a recorder existed. */
  lemma CancelOnlyCancels(a: Engine, b: Engine, f: TeardownFaults, thrown: bool)
    requires CancelSpec(a, b, f, thrown)
    ensures b.pendingFile.None?
    ensures !thrown ==> b.events == a.events + [Cancelled]
    ensures thrown ==> b.events == a.events
  {
  }

  // ---------------------------------------------------------------------------
  // The engine

  class CaptureEngine {
    var isStarted: bool
    var paused: bool
    var recorder: Option<Recorder>
    var projection: Option<Projection>
    var display: Option<Display>
    var pendingFile: Option<File>
    /** `maxDurationStopRunnable`. */
    var timer: Option<Timer>
    var nextTimer: nat
    var events: seq<Event>
    var calls: seq<Call>

    function State(): Engine
      reads this
    {
      Engine(isStarted, paused, recorder, projection, display, pendingFile, timer, nextTimer, events, calls)
    }

    ghost predicate Valid()
      reads this
    {
      Consistent(State())
    }

    constructor ()
      ensures Valid()
      ensures State() == Engine(false, false, None, None, None, None, None, 0, [], [])
    {
      isStarted, paused := false, false;
      recorder, projection, display, pendingFile := None, None, None, None;
      timer, nextTimer := None, 0;
      events, calls := [], [];
    }

    /** `clearMaxDurationTimer()`. */
    method ClearMaxDurationTimer()
      modifies this
      ensures State() == old(State()).(timer := None, calls := old(calls) + ClearCalls(old(timer)))
    {
      if timer.Some? {
        calls := calls + [RemoveCallbacks(timer.value.id)];
      }
      timer := None;
    }

    /** `scheduleMaxDurationStop()` with `minutes` read from the preference. */
    method ScheduleMaxDurationStop(minutes: int)
      modifies this
      ensures State() == ScheduleEffect(old(State()), minutes)
    {
      ClearMaxDurationTimer();
      if minutes <= 0 {
        return;
      }
      var durationMs := minutes * MINUTE_MS;
      timer := Some(Timer(nextTimer, durationMs));
      calls := calls + [PostDelayed(nextTimer, durationMs)];
      nextTimer := nextTimer + 1;
    }

    /** The body shared by `start` and `onActivityResult` once a projection is
        held: run the setup helpers, reporting what they throw as an error. */
    method RunSetup(setup: SetupOutcome)
      requires Valid()
      modifies this
      ensures Valid()
      ensures State() == SetupEffect(old(State()), setup)
      ensures |calls| >= |old(calls)| && calls[..|old(calls)|] == old(calls)
    {
      match setup {
        case SetupThrows(cause) =>
          events := events + [Error(cause)];
        case SetupDeclined =>
        case SetupStarted(r, d, file, minutes) =>
          recorder, display, pendingFile := Some(r), Some(d), Some(file);
          isStarted := true;
          events := events + [Started];
          ScheduleMaxDurationStop(minutes);
      }
    }

    /** `start(context)`. */
    method Start(setup: SetupOutcome)
      requires Valid()
      modifies this
      ensures Valid()
      ensures old(isStarted) ==> State() == old(State())
      ensures !old(isStarted) && old(projection).None? ==>
        State() == old(State()).(calls := old(calls) + [LaunchPermissionActivity])
      ensures !old(isStarted) && old(projection).Some? ==> State() == SetupEffect(old(State()), setup)
    {
      if isStarted {
        return;
      }
      if projection.None? {
        calls := calls + [LaunchPermissionActivity];
        return;
      }
      RunSetup(setup);
    }

    /** `requestPermission(context, requestCode)`: ask the platform for the
        screen-capture intent's result. */
    method RequestPermission(requestCode: int)
      modifies this
      ensures State() == old(State()).(calls := old(calls) + [RequestCaptureIntent(requestCode)])
    {
      calls := calls + [RequestCaptureIntent(requestCode)];
    }

    /** `onActivityResult(context, resultCode, data)`, where `grant` is what
        `getMediaProjection` returns: `None` when the user refused, and then
        the callback registration dereferences null and the exception escapes. */
    method OnActivityResult(grant: Option<Projection>, setup: SetupOutcome) returns (thrown: bool)
      requires Valid()
      modifies this
      ensures Valid()
      ensures thrown <==> grant.None?
      ensures grant.None? ==> State() == old(State())
      ensures grant.Some? ==>
        && projection == grant
        && |calls| > |old(calls)| && calls[..|old(calls)| + 1] == old(calls) + [RegisterCallback(grant.value)]
      ensures grant.Some? ==>
        State() == SetupEffect(old(State()).(projection := grant, calls := old(calls) + [RegisterCallback(grant.value)]), setup)
    {
      if grant.None? {
        return true;
      }
      thrown := false;
      projection := grant;
      calls := calls + [RegisterCallback(grant.value)];
      RunSetup(setup);
    }

    /** The part of `stop()` after the flags and the timer are cleared. */
    method Teardown(f: TeardownFaults) returns (thrown: bool)
      requires recorder.Some?
      modifies this`calls, this`recorder, this`display, this`projection, this`pendingFile, this`events
      ensures thrown == (f.recorderRelease || (old(display).Some? && f.displayRelease))
      ensures calls == old(calls) + TeardownCalls(old(projection).Some?, old(display).Some?, f)
      ensures recorder == (if f.recorderRelease then old(recorder) else None)
      ensures display == (if thrown then old(display) else None)
      ensures projection == (if thrown then old(projection) else None)
      ensures pendingFile == (if thrown then old(pendingFile) else None)
      ensures events == if thrown then old(events) else old(events) + [StopEvent(old(pendingFile))]
    {
      StopStreams(f);
      calls := calls + [ReleaseRecorder];
      if f.recorderRelease {
        return true;
      }
      recorder := None;
      thrown := ReleaseRest(f);
    }

    /** The `try` block of `stop()`: stop the projection, then the recorder;
        a throwing projection skips the recorder, and the fault is swallowed. */
    method StopStreams(f: TeardownFaults)
      modifies this`calls
      ensures calls == old(calls) + StreamStopCalls(projection.Some?, f)
    {
      if projection.Some? {
        calls := calls + [StopProjection];
      }
      if !(projection.Some? && f.projectionStop) {
        calls := calls + [StopRecorder];
      }
    }

    /** The end of `stop()`: release the display, then forget the handles and
        the file and emit the one stop event. */
    method ReleaseRest(f: TeardownFaults) returns (thrown: bool)
      modifies this`calls, this`display, this`projection, this`pendingFile, this`events
      ensures thrown == (old(display).Some? && f.displayRelease)
      ensures calls == old(calls) + (if old(display).Some? then [ReleaseDisplay] else [])
      ensures display == (if thrown then old(display) else None)
      ensures projection == (if thrown then old(projection) else None)
      ensures pendingFile == (if thrown then old(pendingFile) else None)
      ensures events == if thrown then old(events) else old(events) + [StopEvent(old(pendingFile))]
    {
      if display.Some? {
        calls := calls + [ReleaseDisplay];
        if f.displayRelease {
          return true;
        }
      }
      display := None;
      projection := None;
      if pendingFile.Some? {
        events := events + [Stopped(pendingFile.value)];
        pendingFile := None;
      } else {
        events := events + [Cancelled];
      }
      thrown := false;
    }

    /** `stop()`. */
    method Stop(f: TeardownFaults) returns (thrown: bool)
      requires HandlesConsistent(State())
      modifies this
      ensures Valid()
      ensures StopSpec(old(State()), State(), f, thrown)
    {
      if recorder.None? {
        events := events + [Cancelled];
        return false;
      }
      isStarted := false;
      paused := false;
      ClearMaxDurationTimer();
      thrown := Teardown(f);
    }

    /** `cancel()`. */
    method Cancel(f: TeardownFaults) returns (thrown: bool)
      requires Valid()
      modifies this
      ensures Valid()
      ensures CancelSpec(old(State()), State(), f, thrown)
    {
      if pendingFile.None? {
        events := events + [Cancelled];
        return false;
      }
      calls := calls + [DeleteFile(pendingFile.value)];
      pendingFile := None;
      thrown := Stop(f);
    }

    /** `pause()` on a device at API level `sdk`; `fault` is what the
        recorder's `pause()` throws, if anything. */
    method Pause(sdk: int, fault: Option<Fault>)
      requires Valid()
      modifies this
      ensures Valid()
      ensures !(old(isStarted) && !old(paused)) ==> State() == old(State())
      ensures old(isStarted) && !old(paused) && sdk < SDK_N ==>
        State() == old(State()).(events := old(events) + [Error(UnsupportedOperation(PAUSE_UNSUPPORTED))])
      ensures old(isStarted) && !old(paused) && sdk >= SDK_N && fault.Some? ==>
        State() == old(State()).(calls := old(calls) + [PauseRecorder], events := old(events) + [Error(fault.value)])
      ensures old(isStarted) && !old(paused) && sdk >= SDK_N && fault.None? ==>
        State() == old(State()).(paused := true, calls := old(calls) + [PauseRecorder])
    {
      if !isStarted || paused {
        return;
      }
      if sdk < SDK_N {
        events := events + [Error(UnsupportedOperation(PAUSE_UNSUPPORTED))];
        return;
      }
      if recorder.Some? {
        calls := calls + [PauseRecorder];
        if fault.Some? {
          events := events + [Error(fault.value)];
          return;
        }
      }
      paused := true;
    }

    /** `resume()`, the mirror image of `pause()`. */
    method Resume(sdk: int, fault: Option<Fault>)
      requires Valid()
      modifies this
      ensures Valid()
      ensures !(old(isStarted) && old(paused)) ==> State() == old(State())
      ensures old(isStarted) && old(paused) && sdk < SDK_N ==>
        State() == old(State()).(events := old(events) + [Error(UnsupportedOperation(RESUME_UNSUPPORTED))])
      ensures old(isStarted) && old(paused) && sdk >= SDK_N && fault.Some? ==>
        State() == old(State()).(calls := old(calls) + [ResumeRecorder], events := old(events) + [Error(fault.value)])
      ensures old(isStarted) && old(paused) && sdk >= SDK_N && fault.None? ==>
        State() == old(State()).(paused := false, calls := old(calls) + [ResumeRecorder])
    {
      if !isStarted || !paused {
        return;
      }
      if sdk < SDK_N {
        events := events + [Error(UnsupportedOperation(RESUME_UNSUPPORTED))];
        return;
      }
      if recorder.Some? {
        calls := calls + [ResumeRecorder];
        if fault.Some? {
          events := events + [Error(fault.value)];
          return;
        }
      }
      paused := false;
    }

    /** The max-duration runnable firing: it stops the session only if it is
        still started. */
    method OnMaxDurationElapsed(f: TeardownFaults) returns (thrown: bool)
      requires Valid()
      modifies this
      ensures Valid()
      ensures old(isStarted) ==> StopSpec(old(State()), State(), f, thrown)
      ensures !old(isStarted) ==> State() == old(State()) && !thrown
    {
      thrown := false;
      if isStarted {
        thrown := Stop(f);
      }
    }

    /** `projectionCallback.onStop()`: the platform ended the projection. */
    method OnProjectionStop(f: TeardownFaults) returns (thrown: bool)
      requires Valid()
      modifies this
      ensures Valid()
      ensures StopSpec(old(State()), State(), f, thrown)
    {
      thrown := Stop(f);
    }
  }
}
