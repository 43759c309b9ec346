/** Model of the `Experiment` activity's run controller: the measuring / countdown state
    machine, the command flags other threads set for the UI thread, one pass of the
    self-rescheduling `updateViews` cycle, the options-menu rules and the restore of saved
    buffers. Timers, threads and window flags are ghost state; a timer running out is an
    explicit event (`OnTimerFinish`). */
module ExperimentActivity {
  import opened Wrappers
  import opened DataBuffers

  // ---------------------------------------------------------------------------------------
  // Java arithmetic used by the activity

  /** `Math.round(x)`: the closest integer, ties rounded up. */
  function JavaRound(x: real): (r: int)
    ensures r as real - 0.5 <= x < r as real + 0.5
  {
    (x + 0.5).Floor
  }

  /** Java's `long` division by a positive divisor, which truncates toward zero. */
  function JavaDiv(a: int, d: int): (q: int)
    requires d > 0
    ensures a >= 0 ==> 0 <= q && q * d <= a < q * d + d
    ensures a < 0 ==> q <= 0 && q * d - d < a <= q * d
  {
    if a >= 0 then a / d else -((-a) / d)
  }

  // ---------------------------------------------------------------------------------------
  // The analysis-progress indicator

  /** One cycle's update of `analysisProgressAlpha`: 0.05 up while the analysis thread is
      busy, 0.05 down otherwise, clamped to [0, 1]. */
  function NextAlpha(alpha: real, inProgress: bool): (r: real)
    ensures 0.0 <= alpha <= 1.0 ==> 0.0 <= r <= 1.0
    ensures inProgress ==> alpha <= r || r == 1.0
    ensures !inProgress ==> r <= alpha || r == 0.0
    ensures -0.05 <= r - alpha <= 0.05 || r == 1.0 || r == 0.0
  {
    if inProgress then (if alpha + 0.05 > 1.0 then 1.0 else alpha + 0.05)
    else (if alpha - 0.05 < 0.0 then 0.0 else alpha - 0.05)
  }

  /** The progress bar is shown only above 0.1. */
  predicate ProgressVisible(alpha: real)
  {
    alpha > 0.1
  }

  /** `n` cycles in a row, all busy or all idle. */
  function AlphaAfter(alpha: real, inProgress: bool, n: nat): real
  {
    if n == 0 then alpha else NextAlpha(AlphaAfter(alpha, inProgress, n - 1), inProgress)
  }

  /** From a hidden bar, `n` busy cycles give min(1, n/20): the indicator is the share of
      recent cycles that saw the analysis running. */
  lemma {:induction false} BusyCyclesRaiseAlpha(n: nat)
    ensures AlphaAfter(0.0, true, n) == if n >= 20 then 1.0 else n as real * 0.05
  {
    if n > 0 {
      BusyCyclesRaiseAlpha(n - 1);
    }
  }

  /** The bar appears on the third busy cycle after an idle period, not before. */
  lemma ProgressAppearsOnThirdBusyCycle(n: nat)
    ensures ProgressVisible(AlphaAfter(0.0, true, n)) <==> n >= 3
  {
    BusyCyclesRaiseAlpha(n);
  }

  /** However busy the past, 20 idle cycles bring the indicator back to 0. */
  lemma {:induction false} IdleCyclesLowerAlpha(alpha: real, n: nat)
    requires 0.0 <= alpha <= 1.0
    ensures AlphaAfter(alpha, false, n) <= alpha
    ensures AlphaAfter(alpha, false, n) == if alpha <= n as real * 0.05 then 0.0 else alpha - n as real * 0.05
  {
    if n > 0 {
      IdleCyclesLowerAlpha(alpha, n - 1);
    }
  }

  /** The delay after which a cycle reposts itself: 40 ms while measuring, 400 ms otherwise. */
  function RescheduleDelay(measuring: bool): int
  {
    if measuring then 40 else 400
  }

  // ---------------------------------------------------------------------------------------
  // Collaborators

  /** What a countdown does when it runs out. */
  datatype TimerAction = StartsMeasurement | StopsMeasurement

  /** A `CountDownTimer` the activity arms. Its ticking belongs to Android; here it has an
      identity, its duration and the action its `onFinish` performs. */
  class CountDownTimer {
    const action: TimerAction
    const millisInFuture: int

    constructor (action: TimerAction, millisInFuture: int)
      ensures this.action == action && this.millisInFuture == millisInFuture
    {
      this.action := action;
      this.millisInFuture := millisInFuture;
    }
  }

  /** Stand-in for the loaded experiment (`phyphoxExperiment`, not part of this model): its
      buffers, two flags the activity reads, `newUserInput`, and ghost counters for the
      calls the activity makes into it. */
  class PhyphoxExperiment {
    const dataBuffers: seq<DataBuffer>
    const loaded: bool
    const isLocal: bool
    var newUserInput: bool
    ghost var ioRunning: bool
    ghost var inputViewReads: nat
    ghost var viewRefreshes: nat

    /** Each buffer object appears once in the experiment's buffer list. */
    predicate DistinctBuffers()
    {
      forall i, j :: 0 <= i < j < |dataBuffers| ==> dataBuffers[i] != dataBuffers[j]
    }

    constructor (dataBuffers: seq<DataBuffer>, loaded: bool, isLocal: bool)
      ensures this.dataBuffers == dataBuffers && this.loaded == loaded && this.isLocal == isLocal
      ensures !newUserInput && !ioRunning && inputViewReads == 0 && viewRefreshes == 0
    {
      this.dataBuffers := dataBuffers;
      this.loaded := loaded;
      this.isLocal := isLocal;
      newUserInput := false;
      ioRunning := false;
      inputViewReads := 0;
      viewRefreshes := 0;
    }

    /** The input-view and refresh bookkeeping did not change. */
    twostate predicate ViewsUnchanged()
      reads this
    {
      newUserInput == old(newUserInput) && inputViewReads == old(inputViewReads)
      && viewRefreshes == old(viewRefreshes)
    }

    /** `startAllIO()`: sensors and other inputs start delivering. */
    method StartAllIO()
      modifies this
      ensures ioRunning && newUserInput == old(newUserInput)
      ensures inputViewReads == old(inputViewReads) && viewRefreshes == old(viewRefreshes)
    {
      ioRunning := true;
    }

    /** `stopAllIO()`. */
    method StopAllIO()
      modifies this
      ensures !ioRunning && newUserInput == old(newUserInput)
      ensures inputViewReads == old(inputViewReads) && viewRefreshes == old(viewRefreshes)
    {
      ioRunning := false;
    }

    /** `handleInputViews(view)`: reads the values typed into the input views. */
    method HandleInputViews()
      modifies this
      ensures inputViewReads == old(inputViewReads) + 1
      ensures ioRunning == old(ioRunning) && newUserInput == old(newUserInput) && viewRefreshes == old(viewRefreshes)
    {
      inputViewReads := inputViewReads + 1;
    }

    /** `updateViews(view, false)`: refreshes the visible views from the buffers. */
    method UpdateViews()
      modifies this
      ensures viewRefreshes == old(viewRefreshes) + 1
      ensures ioRunning == old(ioRunning) && newUserInput == old(newUserInput) && inputViewReads == old(inputViewReads)
    {
      viewRefreshes := viewRefreshes + 1;
    }
  }

  /** The four phases the pair (`measuring`, `cdTimer != null`) encodes. */
  datatype RunPhase = Idle | Measuring | CountdownToStart | CountdownToStop

  /** Which call inside a cycle's `try` block throws, if any. */
  datatype CycleFailure = NoFailure | InputViewsThrow | ViewUpdateThrows

  /** The options menu as `onPrepareOptionsMenu` leaves it. `timerLabel` is the number of
      seconds shown on the countdown item when it is set. */
  datatype Menu = Menu(play: bool, pause: bool, timedPlay: bool, timedPause: bool,
                       hintAnimated: bool, timerVisible: bool, timedRunChecked: bool,
                       saveLocallyVisible: bool, remoteChecked: bool, timerLabel: Option<int>)

  /** What `onSaveInstanceState` stored and `onExperimentLoaded` reads back. A saved buffer
      list entry may be null. */
  datatype SavedState = SavedState(dataBuffers: Option<seq<Option<seq<real>>>>, serverEnabled: bool,
                                   beforeStart: bool, timedRun: bool, startDelay: real, stopDelay: real,
                                   currentView: int)

  /** Removes `t` from a set of timers (nothing for null). */
  ghost function Without(s: set<CountDownTimer>, t: CountDownTimer?): set<CountDownTimer>
  {
    set u | u in s && u != t
  }

  // ---------------------------------------------------------------------------------------
  // The activity

  class Experiment {
    var measuring: bool
    var loadCompleted: bool
    var shutdown: bool
    var beforeStart: bool
    var serverEnabled: bool
    var remoteIntentMeasuring: bool
    var updateState: bool
    var remoteInput: bool
    var shouldDefocus: bool
    var timedRun: bool
    var timedRunStartDelay: real
    var timedRunStopDelay: real
    var cdTimer: CountDownTimer?
    var millisUntilFinished: int
    var experiment: PhyphoxExperiment?
    var currentView: int
    var analysisInProgress: bool
    var analysisProgressAlpha: real

    /** Countdowns armed and neither cancelled nor finished. */
    ghost var liveTimers: set<CountDownTimer>
    /** FLAG_KEEP_SCREEN_ON and the locked screen orientation. */
    ghost var keepScreenOn: bool
    ghost var orientationLocked: bool
    /** Analysis threads (`updateData`) started, cycles posted, `defocus()` calls. */
    ghost var analysisLoopsStarted: nat
    ghost var cyclesPosted: nat
    ghost var defocusCount: nat
    /** The progress bar's visibility and alpha as last set. */
    ghost var progressVisible: bool
    ghost var progressBarAlpha: real

    ghost predicate Valid()
      reads this`analysisProgressAlpha, this`experiment
    {
      0.0 <= analysisProgressAlpha <= 1.0
      && (experiment != null ==> experiment.DistinctBuffers())
    }

    /** No countdown runs that `cdTimer` does not hold, and the cached remaining time is 0
        when there is no countdown. */
    ghost predicate TimersSound()
      reads this`cdTimer, this`liveTimers, this`millisUntilFinished
    {
      (cdTimer == null ==> liveTimers == {} && millisUntilFinished == 0)
      && (cdTimer != null ==> liveTimers <= {cdTimer})
    }

    /** Sound, and the countdown `cdTimer` holds is still running. */
    ghost predicate TimersTracked()
      reads this`cdTimer, this`liveTimers, this`millisUntilFinished
    {
      TimersSound() && (cdTimer != null ==> cdTimer in liveTimers)
    }

    /** The loaded experiment's buffers, none before loading. */
    function Buffers(): seq<DataBuffer>
      reads this`experiment
    {
      if experiment == null then [] else experiment.dataBuffers
    }

    function Phase(): RunPhase
      reads this`measuring, this`cdTimer
    {
      if measuring then (if cdTimer == null then Measuring else CountdownToStop)
      else (if cdTimer == null then Idle else CountdownToStart)
    }

    /** The field initialisers and `onCreate`, which locks the screen orientation while the
        experiment loads. */
    constructor ()
      ensures Valid() && TimersTracked() && Phase() == Idle
      ensures beforeStart && !loadCompleted && !shutdown && !serverEnabled && experiment == null
      ensures !remoteIntentMeasuring && !updateState && !remoteInput && !shouldDefocus
      ensures !timedRun && timedRunStartDelay == 0.0 && timedRunStopDelay == 0.0
      ensures !analysisInProgress && analysisProgressAlpha == 0.0 && orientationLocked && !keepScreenOn
    {
      measuring, loadCompleted, shutdown, beforeStart := false, false, false, true;
      serverEnabled, remoteIntentMeasuring, updateState := false, false, false;
      remoteInput, shouldDefocus := false, false;
      timedRun, timedRunStartDelay, timedRunStopDelay := false, 0.0, 0.0;
      cdTimer, millisUntilFinished := null, 0;
      experiment, currentView := null, 0;
      analysisInProgress, analysisProgressAlpha := false, 0.0;
      liveTimers := {};
      keepScreenOn, orientationLocked := false, true;
      analysisLoopsStarted, cyclesPosted, defocusCount := 0, 0, 0;
      progressVisible, progressBarAlpha := false, 0.0;
    }

    // -------------------------------------------------------------------------------------
    // The state machine
    //
    // Each transition names the fields it writes; every other field keeps its value.

    /** `cdTimer.cancel(); cdTimer = null; millisUntilFinished = 0`, when there is a timer. */
    method CancelCountdown()
      modifies this`cdTimer, this`liveTimers, this`millisUntilFinished
      ensures cdTimer == null && liveTimers == Without(old(liveTimers), old(cdTimer))
      ensures millisUntilFinished == if old(cdTimer) == null then old(millisUntilFinished) else 0
      ensures old(TimersSound()) ==> TimersTracked() && liveTimers == {} && millisUntilFinished == 0
    {
      if cdTimer != null {
        liveTimers := Without(liveTimers, cdTimer);
        cdTimer := null;
        millisUntilFinished := 0;
      }
    }

    /** What `stopMeasurement()` leaves, relative to the state it started from: idle with no
        countdown held, the held one cancelled, the indicator at 0, the screen free to rotate
        and sleep, and the experiment's inputs stopped. */
    twostate predicate Stopped()
      reads this, experiment
    {
      Phase() == Idle && analysisProgressAlpha == 0.0 && !keepScreenOn && !orientationLocked
      && liveTimers == Without(old(liveTimers), old(cdTimer))
      && millisUntilFinished == (if old(cdTimer) == null then old(millisUntilFinished) else 0)
      && experiment == old(experiment)
      && (experiment != null ==>
            !experiment.ioRunning && experiment.newUserInput == old(experiment.newUserInput)
            && experiment.inputViewReads == old(experiment.inputViewReads)
            && experiment.viewRefreshes == old(experiment.viewRefreshes))
    }

    /** `stopMeasurement()`: safe without an experiment. The buffers keep their contents. */
    method StopMeasurement()
      requires Valid()
      modifies this`measuring, this`analysisProgressAlpha, this`keepScreenOn, this`orientationLocked
      modifies this`cdTimer, this`liveTimers, this`millisUntilFinished, experiment
      ensures Valid() && Stopped()
      ensures old(TimersSound()) ==> TimersTracked() && liveTimers == {} && millisUntilFinished == 0
    {
      measuring := false;
      analysisProgressAlpha := 0.0;
      keepScreenOn := false;
      orientationLocked := false;
      CancelCountdown();
      if experiment != null {
        experiment.StopAllIO();
      }
    }

    /** The buffer-clearing loop of `startMeasurement`, run under `dataLock`. */
    method ClearAllBuffers()
      requires experiment != null
      modifies experiment.dataBuffers
      ensures forall b :: b in experiment.dataBuffers ==> b.contents == []
    {
      var buffers := experiment.dataBuffers;
      for k := 0 to |buffers|
        invariant forall j :: 0 <= j < k ==> buffers[j].contents == []
      {
        buffers[k].Clear();
      }
    }

    /** `startMeasurement()`: clears every buffer, starts all inputs, sets `measuring`,
        locks the screen, starts an analysis thread and, in a timed run only, arms a stop
        countdown of round(stopDelay * 1000) ms. The countdown `cdTimer` held before is not
        cancelled: a timed run replaces it and leaves it running, an untimed run keeps it. */
    method StartMeasurement()
      requires Valid() && experiment != null
      modifies this`beforeStart, this`measuring, this`keepScreenOn, this`orientationLocked, this`analysisLoopsStarted
      modifies this`cdTimer, this`liveTimers, this`millisUntilFinished, experiment, Buffers()
      ensures Valid()
      ensures measuring && !beforeStart && keepScreenOn && orientationLocked
      ensures analysisLoopsStarted == old(analysisLoopsStarted) + 1
      ensures experiment.ioRunning && experiment.ViewsUnchanged()
      ensures forall b :: b in experiment.dataBuffers ==> b.contents == []
      ensures timedRun ==> Phase() == CountdownToStop && fresh(cdTimer) && cdTimer.action == StopsMeasurement
                           && millisUntilFinished == JavaRound(timedRunStopDelay * 1000.0) == cdTimer.millisInFuture
                           && liveTimers == old(liveTimers) + {cdTimer}
      ensures !timedRun ==> Phase() == (if old(cdTimer) == null then Measuring else CountdownToStop)
                            && cdTimer == old(cdTimer) && millisUntilFinished == old(millisUntilFinished)
                            && liveTimers == old(liveTimers)
    {
      beforeStart := false;
      ClearAllBuffers();
      experiment.StartAllIO();
      measuring, orientationLocked, keepScreenOn := true, true, true;
      analysisLoopsStarted := analysisLoopsStarted + 1;
      if timedRun {
        ArmCountdown(StopsMeasurement, JavaRound(timedRunStopDelay * 1000.0));
      }
    }

    /** `cdTimer = new CountDownTimer(ms, 100) {…}.start()` with `millisUntilFinished = ms`. */
    method ArmCountdown(action: TimerAction, ms: int)
      modifies this`cdTimer, this`millisUntilFinished, this`liveTimers
      ensures fresh(cdTimer) && cdTimer.action == action && cdTimer.millisInFuture == ms == millisUntilFinished
      ensures liveTimers == old(liveTimers) + {cdTimer}
    {
      millisUntilFinished := ms;
      cdTimer := new CountDownTimer(action, ms);
      liveTimers := liveTimers + {cdTimer};
    }

    /** `startTimedMeasurement()`: locks the screen and arms a start countdown of
        round(startDelay * 1000) ms; `measuring` is not touched. The countdown `cdTimer`
        held before is replaced without being cancelled. */
    method StartTimedMeasurement()
      modifies this`keepScreenOn, this`orientationLocked, this`cdTimer, this`liveTimers, this`millisUntilFinished
      ensures keepScreenOn && orientationLocked
      ensures fresh(cdTimer) && cdTimer.action == StartsMeasurement
      ensures millisUntilFinished == JavaRound(timedRunStartDelay * 1000.0) == cdTimer.millisInFuture
      ensures liveTimers == old(liveTimers) + {cdTimer}
      ensures Phase() == if measuring then CountdownToStop else CountdownToStart
    {
      orientationLocked, keepScreenOn := true, true;
      ArmCountdown(StartsMeasurement, JavaRound(timedRunStartDelay * 1000.0));
    }

    /** `startMeasurement()` corrected (see the findings): the held countdown is cancelled
        before a timed run arms its stop countdown, so no countdown escapes `cdTimer`. */
    method StartMeasurementCorrected()
      requires Valid() && TimersSound() && experiment != null
      modifies this`beforeStart, this`measuring, this`keepScreenOn, this`orientationLocked, this`analysisLoopsStarted
      modifies this`cdTimer, this`liveTimers, this`millisUntilFinished, experiment, Buffers()
      ensures Valid() && TimersSound()
      ensures measuring && !beforeStart && keepScreenOn && orientationLocked
      ensures experiment.ioRunning && forall b :: b in experiment.dataBuffers ==> b.contents == []
      ensures timedRun ==> Phase() == CountdownToStop && TimersTracked() && liveTimers == {cdTimer}
                           && fresh(cdTimer) && cdTimer.action == StopsMeasurement
      ensures !timedRun ==> cdTimer == old(cdTimer) && liveTimers == old(liveTimers)
    {
      if timedRun {
        CancelCountdown();
      }
      StartMeasurement();
    }

    /** `startTimedMeasurement()` corrected: the held countdown is cancelled first, so the
        new start countdown is the only one running. */
    method StartTimedMeasurementCorrected()
      requires TimersSound()
      modifies this`keepScreenOn, this`orientationLocked, this`cdTimer, this`liveTimers, this`millisUntilFinished
      ensures TimersTracked() && liveTimers == {cdTimer} && keepScreenOn && orientationLocked
      ensures fresh(cdTimer) && cdTimer.action == StartsMeasurement
      ensures millisUntilFinished == JavaRound(timedRunStartDelay * 1000.0) == cdTimer.millisInFuture
      ensures Phase() == if measuring then CountdownToStop else CountdownToStart
    {
      CancelCountdown();
      StartTimedMeasurement();
    }

    /** `onTick(muf)` of any running countdown, held or not: caches the remaining time. */
    method OnTimerTick(t: CountDownTimer, muf: int)
      requires t in liveTimers
      modifies this`millisUntilFinished
      ensures millisUntilFinished == muf
    {
      millisUntilFinished := muf;
    }

    /** `onFinish()` of a running countdown, held or not: the countdown stops running; a
        start countdown then starts the measurement, a stop countdown stops it. A finishing
        countdown is not cleared from `cdTimer`, so an untimed start keeps it there. */
    method OnTimerFinish(t: CountDownTimer)
      requires Valid() && t in liveTimers
      requires t.action == StartsMeasurement ==> experiment != null
      modifies this`beforeStart, this`measuring, this`keepScreenOn, this`orientationLocked, this`analysisLoopsStarted
      modifies this`analysisProgressAlpha, this`cdTimer, this`liveTimers, this`millisUntilFinished, experiment, Buffers()
      ensures Valid() && t !in liveTimers
      ensures t.action == StartsMeasurement && timedRun ==>
                Phase() == CountdownToStop && fresh(cdTimer) && cdTimer.action == StopsMeasurement
                && liveTimers == Without(old(liveTimers), t) + {cdTimer}
      ensures t.action == StartsMeasurement && !timedRun ==>
                Phase() == (if old(cdTimer) == null then Measuring else CountdownToStop)
                && cdTimer == old(cdTimer) && liveTimers == Without(old(liveTimers), t)
      ensures t.action == StopsMeasurement ==>
                Phase() == Idle && liveTimers == Without(Without(old(liveTimers), t), old(cdTimer))
      // the countdown `cdTimer` holds running out keeps the timers sound
      ensures old(TimersSound()) && t == old(cdTimer) ==> TimersSound()
    {
      liveTimers := Without(liveTimers, t);
      if t.action == StartsMeasurement {
        StartMeasurement();
      } else {
        StopMeasurement();
      }
    }

    // -------------------------------------------------------------------------------------
    // Entry points for other threads

    /** `remoteStartMeasurement()`: only records the request. */
    method RemoteStartMeasurement()
      modifies this`remoteIntentMeasuring, this`updateState
      ensures remoteIntentMeasuring && updateState
    {
      remoteIntentMeasuring := true;
      updateState := true;
    }

    /** `remoteStopMeasurement()`: only records the request. */
    method RemoteStopMeasurement()
      modifies this`remoteIntentMeasuring, this`updateState
      ensures !remoteIntentMeasuring && updateState
    {
      remoteIntentMeasuring := false;
      updateState := true;
    }

    /** `requestDefocus()`. */
    method RequestDefocus()
      modifies this`shouldDefocus
      ensures shouldDefocus
    {
      shouldDefocus := true;
    }

    /** The remote server writing `remoteInput = true` after it changed input values. */
    method MarkRemoteInput()
      modifies this`remoteInput
      ensures remoteInput
    {
      remoteInput := true;
    }

    /** The analysis thread setting `analysisInProgress` around `processAnalysis()`. */
    method SetAnalysisInProgress(busy: bool)
      modifies this`analysisInProgress
      ensures analysisInProgress == busy
    {
      analysisInProgress := busy;
    }

    // -------------------------------------------------------------------------------------
    // The render cycle

    /** The indicator step at the head of `updateViews`. */
    method UpdateIndicator(honeycomb: bool)
      requires Valid()
      modifies this`analysisProgressAlpha, this`progressVisible, this`progressBarAlpha
      ensures Valid()
      ensures analysisProgressAlpha == NextAlpha(old(analysisProgressAlpha), analysisInProgress)
      ensures progressVisible == ProgressVisible(analysisProgressAlpha)
      ensures progressBarAlpha == if progressVisible && honeycomb
                                  then (if analysisProgressAlpha >= 0.9 then 1.0 else analysisProgressAlpha)
                                  else old(progressBarAlpha)
    {
      if analysisInProgress {
        analysisProgressAlpha := analysisProgressAlpha + 0.05;
        if analysisProgressAlpha > 1.0 {
          analysisProgressAlpha := 1.0;
        }
      } else {
        analysisProgressAlpha := analysisProgressAlpha - 0.05;
        if analysisProgressAlpha < 0.0 {
          analysisProgressAlpha := 0.0;
        }
      }
      if analysisProgressAlpha > 0.1 {
        if honeycomb {
          progressBarAlpha := if analysisProgressAlpha >= 0.9 then 1.0 else analysisProgressAlpha;
        }
        progressVisible := true;
      } else {
        progressVisible := false;
      }
    }

    /** A pending `shouldDefocus` becomes one `defocus()` call. */
    method ConsumeDefocus()
      modifies this`shouldDefocus, this`defocusCount
      ensures !shouldDefocus
      ensures defocusCount == old(defocusCount) + (if old(shouldDefocus) then 1 else 0)
    {
      if shouldDefocus {
        defocusCount := defocusCount + 1;
        shouldDefocus := false;
      }
    }

    /** A pending `updateState` becomes one transition: a start request starts the timed
        countdown or the measurement, a stop request stops. */
    method ResolveStateRequest()
      requires Valid()
      requires updateState && remoteIntentMeasuring && !timedRun ==> experiment != null
      modifies this`beforeStart, this`measuring, this`keepScreenOn, this`orientationLocked, this`analysisLoopsStarted
      modifies this`analysisProgressAlpha, this`cdTimer, this`liveTimers, this`millisUntilFinished, experiment, Buffers()
      modifies this`updateState
      ensures Valid() && !updateState
      ensures analysisProgressAlpha == if old(updateState) && !old(remoteIntentMeasuring) then 0.0 else old(analysisProgressAlpha)
      ensures experiment != null ==> experiment.ViewsUnchanged()
      ensures !old(updateState) ==> measuring == old(measuring) && cdTimer == old(cdTimer) && liveTimers == old(liveTimers)
      ensures old(updateState) && old(remoteIntentMeasuring) && !old(timedRun) ==>
                Phase() == (if old(cdTimer) == null then Measuring else CountdownToStop)
                && cdTimer == old(cdTimer) && liveTimers == old(liveTimers)
      ensures old(updateState) && old(remoteIntentMeasuring) && old(timedRun) ==>
                measuring == old(measuring) && fresh(cdTimer) && cdTimer.action == StartsMeasurement
                && liveTimers == old(liveTimers) + {cdTimer}
      ensures old(updateState) && !old(remoteIntentMeasuring) ==>
                Phase() == Idle && liveTimers == Without(old(liveTimers), old(cdTimer))
      // only a timed start over a held countdown leaves a countdown `cdTimer` does not hold
      ensures (old(TimersSound())
               && !(old(updateState) && old(remoteIntentMeasuring) && old(timedRun) && old(cdTimer) != null))
              ==> TimersSound()
    {
      if updateState {
        if remoteIntentMeasuring {
          if timedRun {
            StartTimedMeasurement();
          } else {
            StartMeasurement();
          }
        } else {
          StopMeasurement();
        }
        updateState := false;
      }
    }

    /** The `try` block on the loaded experiment: input views are read unless remote input
        is pending, the views are refreshed, and pending remote input is handed to the
        experiment. A call that throws ends the block. */
    method RefreshExperimentViews(failure: CycleFailure)
      requires experiment != null
      modifies this`remoteInput, experiment
      ensures remoteInput == (old(remoteInput) && failure == ViewUpdateThrows)
      ensures experiment.inputViewReads == old(experiment.inputViewReads) + (if old(remoteInput) then 0 else 1)
      ensures old(remoteInput) && failure != ViewUpdateThrows ==> experiment.newUserInput
      ensures !old(remoteInput) ==> experiment.newUserInput == old(experiment.newUserInput)
      ensures experiment.ioRunning == old(experiment.ioRunning)
      // the views are refreshed unless reading the input views threw first
      ensures experiment.viewRefreshes == old(experiment.viewRefreshes) + (if !old(remoteInput) && failure == InputViewsThrow then 0 else 1)
    {
      var failed := false;
      if !remoteInput {
        experiment.HandleInputViews();
        failed := failure == InputViewsThrow;
      }
      if !failed {
        experiment.UpdateViews();
        failed := failure == ViewUpdateThrows;
      }
      if !failed && remoteInput {
        remoteInput := false;
        experiment.newUserInput := true;
      }
    }

    /** The part of `updateViews` before the experiment block: the indicator, a pending
        defocus, and a pending state request. */
    method BeginCycle(honeycomb: bool)
      requires Valid()
      requires updateState && remoteIntentMeasuring && !timedRun ==> experiment != null
      modifies this`beforeStart, this`measuring, this`keepScreenOn, this`orientationLocked, this`analysisLoopsStarted
      modifies this`analysisProgressAlpha, this`cdTimer, this`liveTimers, this`millisUntilFinished, experiment, Buffers()
      modifies this`progressVisible, this`progressBarAlpha, this`shouldDefocus, this`defocusCount, this`updateState
      ensures Valid()
      ensures progressVisible == ProgressVisible(NextAlpha(old(analysisProgressAlpha), old(analysisInProgress)))
      ensures analysisProgressAlpha ==
                if old(updateState) && !old(remoteIntentMeasuring) then 0.0
                else NextAlpha(old(analysisProgressAlpha), old(analysisInProgress))
      ensures !shouldDefocus && !updateState
      ensures defocusCount == old(defocusCount) + (if old(shouldDefocus) then 1 else 0)
      ensures !old(updateState) ==> measuring == old(measuring) && cdTimer == old(cdTimer) && liveTimers == old(liveTimers)
      ensures old(updateState) && old(remoteIntentMeasuring) && !old(timedRun) ==>
                Phase() == (if old(cdTimer) == null then Measuring else CountdownToStop)
                && cdTimer == old(cdTimer) && liveTimers == old(liveTimers)
      ensures old(updateState) && old(remoteIntentMeasuring) && old(timedRun) ==>
                measuring == old(measuring) && fresh(cdTimer) && cdTimer.action == StartsMeasurement
                && liveTimers == old(liveTimers) + {cdTimer}
      ensures old(updateState) && !old(remoteIntentMeasuring) ==>
                Phase() == Idle && liveTimers == Without(old(liveTimers), old(cdTimer))
      // only a timed start over a held countdown leaves a countdown `cdTimer` does not hold
      ensures (old(TimersSound())
               && !(old(updateState) && old(remoteIntentMeasuring) && old(timedRun) && old(cdTimer) != null))
              ==> TimersSound()
      ensures experiment != null ==> experiment.ViewsUnchanged()
    {
      UpdateIndicator(honeycomb);
      ConsumeDefocus();
      ResolveStateRequest();
    }

    /** The experiment block of `updateViews` and the repost. */
    method FinishCycle(failure: CycleFailure) returns (next: Option<int>)
      modifies this`remoteInput, this`cyclesPosted, experiment
      ensures remoteInput == (old(remoteInput) && (experiment == null || failure == ViewUpdateThrows))
      ensures experiment != null ==>
                experiment.inputViewReads == old(experiment.inputViewReads) + (if old(remoteInput) then 0 else 1)
                && (old(remoteInput) && failure != ViewUpdateThrows ==> experiment.newUserInput)
                && (!old(remoteInput) ==> experiment.newUserInput == old(experiment.newUserInput))
                && experiment.ioRunning == old(experiment.ioRunning)
                && experiment.viewRefreshes == old(experiment.viewRefreshes) + (if !old(remoteInput) && failure == InputViewsThrow then 0 else 1)
      ensures next == if experiment != null && !shutdown then Some(RescheduleDelay(measuring)) else None
      ensures cyclesPosted == old(cyclesPosted) + (if next.Some? then 1 else 0)
    {
      next := None;
      if experiment != null {
        RefreshExperimentViews(failure);
        if !shutdown {
          next := Some(RescheduleDelay(measuring));
          cyclesPosted := cyclesPosted + 1;
        }
      }
    }

    /** One run of `updateViews`: updates the indicator, consumes `shouldDefocus`, resolves
        a pending state request into one transition, works on the experiment's views, and
        reposts itself unless there is no experiment or the activity is shutting down.
        `next` is the repost delay. */
    method UpdateViewsCycle(failure: CycleFailure, honeycomb: bool) returns (next: Option<int>)
      requires Valid()
      requires updateState && remoteIntentMeasuring && !timedRun ==> experiment != null
      modifies this`beforeStart, this`measuring, this`keepScreenOn, this`orientationLocked, this`analysisLoopsStarted
      modifies this`analysisProgressAlpha, this`cdTimer, this`liveTimers, this`millisUntilFinished, experiment, Buffers()
      modifies this`progressVisible, this`progressBarAlpha, this`shouldDefocus, this`defocusCount, this`updateState
      modifies this`remoteInput, this`cyclesPosted
      ensures Valid()
      ensures progressVisible == ProgressVisible(NextAlpha(old(analysisProgressAlpha), old(analysisInProgress)))
      ensures analysisProgressAlpha ==
                if old(updateState) && !old(remoteIntentMeasuring) then 0.0
                else NextAlpha(old(analysisProgressAlpha), old(analysisInProgress))
      ensures !shouldDefocus && !updateState
      ensures defocusCount == old(defocusCount) + (if old(shouldDefocus) then 1 else 0)
      ensures !old(updateState) ==> measuring == old(measuring) && cdTimer == old(cdTimer) && liveTimers == old(liveTimers)
      ensures old(updateState) && old(remoteIntentMeasuring) && !old(timedRun) ==>
                Phase() == (if old(cdTimer) == null then Measuring else CountdownToStop)
                && cdTimer == old(cdTimer) && liveTimers == old(liveTimers)
      ensures old(updateState) && old(remoteIntentMeasuring) && old(timedRun) ==>
                measuring == old(measuring) && fresh(cdTimer) && cdTimer.action == StartsMeasurement
                && liveTimers == old(liveTimers) + {cdTimer}
      ensures old(updateState) && !old(remoteIntentMeasuring) ==>
                Phase() == Idle && liveTimers == Without(old(liveTimers), old(cdTimer))
      // only a timed start over a held countdown leaves a countdown `cdTimer` does not hold
      ensures (old(TimersSound())
               && !(old(updateState) && old(remoteIntentMeasuring) && old(timedRun) && old(cdTimer) != null))
              ==> TimersSound()
      ensures remoteInput == (old(remoteInput) && (experiment == null || failure == ViewUpdateThrows))
      ensures experiment != null ==>
                experiment.inputViewReads == old(experiment.inputViewReads) + (if old(remoteInput) then 0 else 1)
                && (old(remoteInput) && failure != ViewUpdateThrows ==> experiment.newUserInput)
                && (!old(remoteInput) ==> experiment.newUserInput == old(experiment.newUserInput))
                && experiment.viewRefreshes == old(experiment.viewRefreshes) + (if !old(remoteInput) && failure == InputViewsThrow then 0 else 1)
      ensures next == if experiment != null && !shutdown then Some(RescheduleDelay(measuring)) else None
      ensures cyclesPosted == old(cyclesPosted) + (if next.Some? then 1 else 0)
    {
      BeginCycle(honeycomb);
      next := FinishCycle(failure);
    }

    // -------------------------------------------------------------------------------------
    // The options menu

    /** `onPrepareOptionsMenu`: nothing without a loaded experiment; otherwise exactly one of
        play / pause / timed play / timed pause, chosen by the phase, and the countdown item's
        label in a timed run. */
    function PrepareOptionsMenu(honeycomb: bool): (m: Option<Menu>)
      reads this
      ensures m.None? <==> experiment == null || !experiment.loaded
      ensures m.Some? ==> (m.value.play <==> Phase() == Idle) && (m.value.pause <==> Phase() == Measuring)
                          && (m.value.timedPlay <==> Phase() == CountdownToStart)
                          && (m.value.timedPause <==> Phase() == CountdownToStop)
      ensures m.Some? ==> (m.value.timerLabel.Some? <==> timedRun) && m.value.timerVisible == timedRun
      ensures m.Some? && timedRun && cdTimer != null && millisUntilFinished >= 0 ==> m.value.timerLabel.value >= 1
      ensures m.Some? && timedRun && cdTimer != null ==>
                m.value.timerLabel.value == JavaDiv(millisUntilFinished, 1000) + 1
      ensures m.Some? && timedRun && cdTimer == null ==>
                m.value.timerLabel.value == JavaRound(if measuring then timedRunStopDelay else timedRunStartDelay)
      ensures m.Some? ==> m.value.hintAnimated == (beforeStart && honeycomb)
    {
      if experiment == null || !experiment.loaded then None
      else
        var shown :=
          if !timedRun then None
          else if cdTimer != null then Some(JavaDiv(millisUntilFinished, 1000) + 1)
          else if measuring then Some(JavaRound(timedRunStopDelay))
          else Some(JavaRound(timedRunStartDelay));
        Some(Menu(!measuring && cdTimer == null, measuring && cdTimer == null,
                  !measuring && cdTimer != null, measuring && cdTimer != null,
                  beforeStart && honeycomb, timedRun, timedRun, !experiment.isLocal, serverEnabled, shown))
    }

    /** The play item: a timed run starts the start countdown, otherwise the measurement.
        The menu offers it only when idle, and from there it leaves the timers tracked. */
    method OnPlaySelected()
      requires Valid() && experiment != null
      modifies this`beforeStart, this`measuring, this`keepScreenOn, this`orientationLocked, this`analysisLoopsStarted
      modifies this`cdTimer, this`liveTimers, this`millisUntilFinished, experiment, Buffers()
      ensures Valid()
      ensures timedRun ==> Phase() == (if old(measuring) then CountdownToStop else CountdownToStart)
                           && fresh(cdTimer) && cdTimer.action == StartsMeasurement
                           && liveTimers == old(liveTimers) + {cdTimer}
      ensures !timedRun ==> Phase() == (if old(cdTimer) == null then Measuring else CountdownToStop)
                            && cdTimer == old(cdTimer) && liveTimers == old(liveTimers)
      ensures old(Phase()) == Idle && old(TimersSound()) ==> TimersTracked()
    {
      if timedRun {
        StartTimedMeasurement();
      } else {
        StartMeasurement();
      }
    }

    /** The timed-run dialog's OK button: the check box and both delays (an unparsable delay
        becomes 0); enabling timed runs during a measurement stops it, and otherwise nothing
        else changes. */
    method ConfigureTimedRun(enabled: bool, startDelay: Option<real>, stopDelay: Option<real>)
      requires Valid()
      modifies this`timedRun, this`timedRunStartDelay, this`timedRunStopDelay
      modifies this`measuring, this`analysisProgressAlpha, this`keepScreenOn, this`orientationLocked
      modifies this`cdTimer, this`liveTimers, this`millisUntilFinished, experiment
      ensures Valid()
      ensures timedRun == enabled
      ensures timedRunStartDelay == (if startDelay.Some? then startDelay.value else 0.0)
      ensures timedRunStopDelay == (if stopDelay.Some? then stopDelay.value else 0.0)
      ensures enabled && old(measuring) ==> Stopped()
      ensures !(enabled && old(measuring)) ==>
                measuring == old(measuring) && cdTimer == old(cdTimer) && liveTimers == old(liveTimers)
                && millisUntilFinished == old(millisUntilFinished)
                && analysisProgressAlpha == old(analysisProgressAlpha)
                && keepScreenOn == old(keepScreenOn) && orientationLocked == old(orientationLocked)
                && (experiment != null ==> unchanged(experiment))
      ensures old(TimersSound()) ==> TimersSound()
    {
      timedRun := enabled;
      timedRunStartDelay := if startDelay.Some? then startDelay.value else 0.0;
      timedRunStopDelay := if stopDelay.Some? then stopDelay.value else 0.0;
      if timedRun && measuring {
        StopMeasurement();
      }
    }

    // -------------------------------------------------------------------------------------
    // Lifecycle

    /** `onPause()`: stops the loop and the measurement. */
    method OnPause()
      requires Valid()
      modifies this`shutdown, this`measuring, this`analysisProgressAlpha, this`keepScreenOn
      modifies this`orientationLocked, this`cdTimer, this`liveTimers, this`millisUntilFinished, experiment
      ensures Valid() && shutdown && Stopped()
      ensures old(TimersSound()) ==> TimersTracked() && liveTimers == {}
    {
      shutdown := true;
      StopMeasurement();
    }

    /** `onResume()`: clears `shutdown` and posts the cycle again. */
    method OnResume()
      modifies this`shutdown, this`cyclesPosted
      ensures !shutdown && cyclesPosted == old(cyclesPosted) + 1
    {
      shutdown := false;
      cyclesPosted := cyclesPosted + 1;
    }

    /** The restore loop of `onExperimentLoaded`: for i < min(#buffers, #saved), a null
        saved entry is skipped, otherwise buffer i is cleared and the saved values appended
        in order. Buffers beyond the saved count are untouched. */
    method RestoreBuffers(saved: seq<Option<seq<real>>>)
      requires experiment != null && experiment.DistinctBuffers()
      modifies experiment.dataBuffers
      ensures forall i :: 0 <= i < |experiment.dataBuffers| ==>
                experiment.dataBuffers[i].contents ==
                  if i < |saved| && saved[i].Some? then saved[i].value else old(experiment.dataBuffers[i].contents)
    {
      var buffers := experiment.dataBuffers;
      var i := 0;
      while i < |buffers| && i < |saved|
        invariant 0 <= i <= |buffers|
        invariant forall j :: 0 <= j < |buffers| ==>
                    buffers[j].contents == if j < i && j < |saved| && saved[j].Some? then saved[j].value
                                           else old(buffers[j].contents)
      {
        if saved[i].Some? {
          var values := saved[i].value;
          buffers[i].Clear();
          var k := 0;
          while k < |values|
            invariant 0 <= k <= |values|
            invariant buffers[i].contents == values[..k]
            invariant forall j :: 0 <= j < |buffers| && j != i ==>
                        buffers[j].contents == if j < i && j < |saved| && saved[j].Some? then saved[j].value
                                               else old(buffers[j].contents)
          {
            buffers[i].Append(values[k]);
            k := k + 1;
          }
        }
        i := i + 1;
      }
    }

    /** The restore branch of `onExperimentLoaded`: the saved settings, the saved buffers
        and the saved view. */
    method RestoreSavedState(s: SavedState)
      requires experiment != null && experiment.DistinctBuffers() && s.dataBuffers.Some?
      modifies this`serverEnabled, this`beforeStart, this`timedRun, this`timedRunStartDelay
      modifies this`timedRunStopDelay, this`currentView, experiment.dataBuffers
      ensures timedRun == s.timedRun && beforeStart == s.beforeStart && serverEnabled == s.serverEnabled
      ensures currentView == s.currentView
      ensures timedRunStartDelay == s.startDelay && timedRunStopDelay == s.stopDelay
      ensures forall i :: 0 <= i < |experiment.dataBuffers| ==>
                experiment.dataBuffers[i].contents ==
                  if i < |s.dataBuffers.value| && s.dataBuffers.value[i].Some? then s.dataBuffers.value[i].value
                  else old(experiment.dataBuffers[i].contents)
    {
      serverEnabled, beforeStart, timedRun := s.serverEnabled, s.beforeStart, s.timedRun;
      timedRunStartDelay, timedRunStopDelay := s.startDelay, s.stopDelay;
      RestoreBuffers(s.dataBuffers.value);
      currentView := s.currentView;
    }

    /** `onExperimentLoaded(experiment)`: stores the experiment; if it loaded and a saved
        state with buffers exists, restores the settings, the buffers and the view (else the
        first view is shown); then marks the load complete, posts the cycle and frees the
        screen orientation. `setupView` refreshes the shown view once. */
    method OnExperimentLoaded(exp: PhyphoxExperiment, saved: Option<SavedState>)
      requires Valid() && exp.DistinctBuffers()
      modifies this`experiment, this`serverEnabled, this`beforeStart, this`timedRun, this`timedRunStartDelay
      modifies this`timedRunStopDelay, this`currentView, this`loadCompleted, this`cyclesPosted
      modifies this`orientationLocked, exp, exp.dataBuffers
      ensures Valid() && experiment == exp
      ensures exp.viewRefreshes == old(exp.viewRefreshes) + (if exp.loaded then 1 else 0)
      ensures exp.ioRunning == old(exp.ioRunning) && exp.newUserInput == old(exp.newUserInput)
              && exp.inputViewReads == old(exp.inputViewReads)
      ensures !exp.loaded ==> loadCompleted == old(loadCompleted) && cyclesPosted == old(cyclesPosted)
                              && timedRun == old(timedRun) && beforeStart == old(beforeStart)
                              && serverEnabled == old(serverEnabled) && currentView == old(currentView)
                              && timedRunStartDelay == old(timedRunStartDelay)
                              && timedRunStopDelay == old(timedRunStopDelay)
                              && orientationLocked == old(orientationLocked)
      ensures exp.loaded ==> loadCompleted && !orientationLocked && cyclesPosted == old(cyclesPosted) + 1
      ensures exp.loaded && saved.Some? && saved.value.dataBuffers.Some? ==>
                timedRun == saved.value.timedRun && beforeStart == saved.value.beforeStart
                && serverEnabled == saved.value.serverEnabled && currentView == saved.value.currentView
                && timedRunStartDelay == saved.value.startDelay && timedRunStopDelay == saved.value.stopDelay
      ensures exp.loaded && !(saved.Some? && saved.value.dataBuffers.Some?) ==> currentView == 0
      ensures forall i :: 0 <= i < |exp.dataBuffers| ==>
                exp.dataBuffers[i].contents ==
                  if exp.loaded && saved.Some? && saved.value.dataBuffers.Some?
                     && i < |saved.value.dataBuffers.value| && saved.value.dataBuffers.value[i].Some?
                  then saved.value.dataBuffers.value[i].value
                  else old(exp.dataBuffers[i].contents)
    {
      experiment := exp;
      if exp.loaded {
        if saved.Some? && saved.value.dataBuffers.Some? {
          RestoreSavedState(saved.value);
        } else {
          currentView := 0;
        }
        exp.UpdateViews();
        loadCompleted := true;
        cyclesPosted := cyclesPosted + 1;
        orientationLocked := false;
      }
    }
  }

  // ---------------------------------------------------------------------------------------
  // Scenarios

  /** Two remote requests before one cycle collapse to the last one: start then stop leaves
      the activity idle after the cycle, and the flags are consumed. */
  method RemoteBurstResolvesToLast(e: Experiment)
    requires e.Valid()
    modifies e, e.experiment, e.Buffers()
    ensures e.Phase() == Idle && !e.updateState
  {
    e.RemoteStartMeasurement();
    e.RemoteStopMeasurement();
    var _ := e.UpdateViewsCycle(NoFailure, true);
  }

  /** Stopping twice is the same as stopping once: the second stop changes nothing, so
      the state after both stands to the state before them exactly as `stopMeasurement`'s
      own effect. */
  method StopIsIdempotent(e: Experiment)
    requires e.Valid()
    modifies e`measuring, e`analysisProgressAlpha, e`keepScreenOn, e`orientationLocked
    modifies e`cdTimer, e`liveTimers, e`millisUntilFinished, e.experiment
    ensures e.Valid() && e.Stopped()
  {
    e.StopMeasurement();
    e.StopMeasurement();
  }

  /** A timed run from the idle state: start countdown, then (when it runs out) a
      measurement with its stop countdown, then (when that runs out) idle again. */
  method TimedRunPhases(e: Experiment)
    requires e.Valid() && e.TimersSound() && e.Phase() == Idle && e.experiment != null && e.timedRun
    requires JavaRound(e.timedRunStartDelay * 1000.0) > 0 && JavaRound(e.timedRunStopDelay * 1000.0) > 0
    modifies e, e.experiment, e.Buffers()
    ensures e.Phase() == Idle && e.liveTimers == {}
  {
    e.OnPlaySelected();
    assert e.Phase() == CountdownToStart && e.liveTimers == {e.cdTimer};
    var start := e.cdTimer;
    e.OnTimerFinish(start);
    assert e.Phase() == CountdownToStop && e.liveTimers == {e.cdTimer};
    var stop := e.cdTimer;
    e.OnTimerFinish(stop);
  }

  /** Unchecking timed runs during a start countdown does not stop anything; when the
      countdown runs out, the untimed start keeps the finished countdown in `cdTimer`, so
      the activity shows a stop countdown that no running timer will end. */
  method StaleCountdownAfterUncheck(e: Experiment, startDelay: Option<real>, stopDelay: Option<real>)
    requires e.Valid() && e.TimersSound() && e.Phase() == Idle && e.experiment != null && e.timedRun
    requires JavaRound(e.timedRunStartDelay * 1000.0) > 0 && JavaRound(e.timedRunStopDelay * 1000.0) > 0
    modifies e, e.experiment, e.Buffers()
    ensures e.Phase() == CountdownToStop && e.cdTimer !in e.liveTimers && e.liveTimers == {}
  {
    e.OnPlaySelected();
    var start := e.cdTimer;
    e.ConfigureTimedRun(false, startDelay, stopDelay);
    e.OnTimerFinish(start);
  }

  /** The countdown a second start request replaces keeps running in the source: after
      two timed starts and a stop, the activity is idle with no countdown held, yet the
      first start countdown still runs, and when it runs out it starts a measurement. */
  method OrphanedCountdownAsWritten(e: Experiment)
    requires e.Valid() && e.TimersSound() && e.Phase() == Idle && e.experiment != null && e.timedRun
    requires JavaRound(e.timedRunStartDelay * 1000.0) > 0 && JavaRound(e.timedRunStopDelay * 1000.0) > 0
    modifies e, e.experiment, e.Buffers()
    ensures e.measuring && e.Phase() == CountdownToStop
  {
    e.StartTimedMeasurement();
    var first := e.cdTimer;
    e.StartTimedMeasurement();
    assert first in e.liveTimers && first != e.cdTimer;
    e.StopMeasurement();
    assert e.Phase() == Idle && first in e.liveTimers;
    e.OnTimerFinish(first);
  }

  /** With the countdown cancelled before a new one is armed, the same sequence leaves no
      countdown running. */
  method NoOrphanedCountdown(e: Experiment)
    requires e.Valid() && e.TimersSound() && e.Phase() == Idle && e.timedRun
    requires JavaRound(e.timedRunStartDelay * 1000.0) > 0 && JavaRound(e.timedRunStopDelay * 1000.0) > 0
    modifies e, e.experiment, e.Buffers()
    ensures e.Phase() == Idle && e.liveTimers == {}
  {
    e.StartTimedMeasurementCorrected();
    e.StartTimedMeasurementCorrected();
    e.StopMeasurement();
  }
}
