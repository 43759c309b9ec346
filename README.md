# phyphox: sensor channel, run controller and experiment catalogue

This project models three sequential parts of the phyphox Android app in Dafny and proves
properties of each.

- **The sensor channel** (`sensorInput`) is modelled in `sensor_input.dfy`. The constructor
  maps a phyphox sensor name to an Android sensor type, turns the rate into a sampling
  period in nanoseconds and binds up to four data buffers (x, y, z, t). Each
  `onSensorChanged` event then runs the rate-limit and averaging step. That step decides
  whether one value is appended to each bound buffer, and which value. The class
  `SensorInput.SensorInput` keeps the fields the source updates in place (`t0`,
  `lastReading`, `avgX/Y/Z`, `aquisitions`). The function `OnEvent` states what one event
  does to them. `Run` folds `OnEvent` over a stream of events, and the lemmas about
  streams (averaging windows, `t0`, the order of time values) are proved on `Run`.
- **The run controller of the experiment screen** (`Experiment`) is modelled in
  `experiment.dfy`. It covers the measuring / countdown-to-start / countdown-to-stop state
  machine and the flags other threads set for the UI thread (`updateState`,
  `remoteIntentMeasuring`, `shouldDefocus`, `remoteInput`). It also covers one pass of the
  self-rescheduling `updateViews` cycle, the smoothed analysis indicator, the
  options-menu rules and the restore of saved buffers. Countdown timers are objects with
  an identity. The timers that are still running form a ghost set, and a timer running
  out is the explicit event `OnTimerFinish`. Window flags, posted cycles and `defocus()`
  calls are ghost fields.
- **The experiment catalogue of the start screen** (`ExperimentList`) is modelled in
  `experiment_list.dfy` and `experiment_info.dfy`. `experiment_list.dfy` has the per-category
  adapter with its five parallel lists kept in `compareTo` order, and the find-or-create
  of categories. `experiment_info.dfy` has the depth-tracking scan of an experiment file
  for its title, icon, description and category. The XML pull parser becomes the
  sequence of events it delivers. `new_experiment.dfy` holds the rules of the
  "new experiment" dialog: the defaults for buffer size, rate and sensor choice, the
  escaping of the title, and the containers and sensor inputs of the generated file.

The supporting files are `java_strings.dfy` (the `String` and `Integer` operations used:
`compareTo`, `trim`, `split("\n", 2)[0]`, `replace`, `substring`, `Integer.valueOf`,
`String.valueOf`), `data_buffer.dfy` (the data buffer as a sequence of reals with `clear`
and `append`) and `wrappers.dfy` (`Option` and `Result`).

Where the code and its documentation differ, the model follows the code:

- `t0` is a field of each `sensorInput`, so each sensor has its own time origin. It is
  not shared by all sensors.
- `stop()` only unregisters the listener. The accumulators keep their values until the
  next `start()`, which resets them.
- `start()` sets `lastReading` to 0, so the first matching event after a start always
  emits (for timestamps at least `period`). An averaging window therefore starts only
  after that first emission.
- No capacity or eviction of the data buffers is modelled. Their source is not part of
  this model.
- Where the code has a defect (see "## Findings"), the members that model the code use the
  behaviour as written: the icon's `type` read on the end tag, the default icon that throws
  for short titles, the title escaping that escapes `&` last, and the timed starts that do
  not cancel the held countdown. The corrected definitions stand beside them, with the
  intended property proved.

## Model

| member | source | states |
|---|---|---|
| JavaStrings.CompareToAntisymmetric | app/src/main/java/de/rwth_aachen/phyphox/ExperimentList.java:192 | Swapping the operands of `compareTo` negates the result. |
| JavaStrings.CompareToZeroIffEqual | app/src/main/java/de/rwth_aachen/phyphox/ExperimentList.java:192 | `compareTo` is 0 exactly when the two strings are equal. |
| JavaStrings.CompareToTransitive | app/src/main/java/de/rwth_aachen/phyphox/ExperimentList.java:192 | "Not after" in `compareTo` order is transitive. |
| JavaStrings.Trim | app/src/main/java/de/rwth_aachen/phyphox/ExperimentList.java:490 | `trim()` returns a contiguous piece of the input. Only characters up to U+0020 are removed, and only from the two ends. A non-empty result starts and ends with a character above U+0020. |
| JavaStrings.TrimIdempotent | app/src/main/java/de/rwth_aachen/phyphox/ExperimentList.java:490 | Trimming a trimmed string changes nothing. |
| JavaStrings.FirstLine | app/src/main/java/de/rwth_aachen/phyphox/ExperimentList.java:509 | `split("\n", 2)[0]` is a prefix of the input without a line break, and it stops only at the first line break or at the end. |
| JavaStrings.ReplaceChar | app/src/main/java/de/rwth_aachen/phyphox/ExperimentList.java:786 | After `replace(c, r)`, a character occurs only where the input had it (other than `c`) or where the replacement has it, so `c` is gone when `r` does not contain it. |
| JavaStrings.ReplaceCharConcat | app/src/main/java/de/rwth_aachen/phyphox/ExperimentList.java:786 | `replace` distributes over concatenation. |
| JavaStrings.ReplaceCharAbsent | app/src/main/java/de/rwth_aachen/phyphox/ExperimentList.java:786 | Replacing a character that does not occur leaves the string unchanged. |
| JavaStrings.Substring | app/src/main/java/de/rwth_aachen/phyphox/ExperimentList.java:554-555 | `substring(b, e)` succeeds exactly when 0 <= b <= e <= length. The piece has e - b characters and the input is the part before b, the piece and the part from e on; otherwise it throws. |
| JavaStrings.ParseInt | app/src/main/java/de/rwth_aachen/phyphox/ExperimentList.java:747 | `Integer.valueOf` gives only 32-bit values. Unsigned, `+` and `-` digit strings are read as their value when it fits in 32 bits and rejected when it does not. Empty text, a lone sign, a first character that is neither digit nor sign, and a non-digit after the first character are rejected. |
| JavaStrings.NatToString | app/src/main/java/de/rwth_aachen/phyphox/ExperimentList.java:793 | `String.valueOf` of a non-negative number is a non-empty string of digits. |
| JavaStrings.DigitsValueOfNatToString | app/src/main/java/de/rwth_aachen/phyphox/ExperimentList.java:793 | Reading back the digits printed for a number gives the number. |
| JavaStrings.ParseIntOfNatToString | app/src/main/java/de/rwth_aachen/phyphox/ExperimentList.java:747 | `Integer.valueOf(String.valueOf(n)) == n` for every 32-bit non-negative `n`. |
| SensorInput.KindOfName | app/src/main/java/de/rwth_aachen/phyphox/sensorInput.java:47-61 | The type switch accepts exactly the six sensor names and gives the kind of that name. Any other name is rejected. |
| SensorInput.NameKindRoundTrip | app/src/main/java/de/rwth_aachen/phyphox/sensorInput.java:47-61 | Each kind's name maps back to that kind, and different kinds have different Android type numbers. |
| SensorInput.DescriptionRes | app/src/main/java/de/rwth_aachen/phyphox/sensorInput.java:77-93 | The description is `unknown` exactly for a type number that is none of the six kinds. Otherwise it is that kind's description. |
| SensorInput.PeriodOf | app/src/main/java/de/rwth_aachen/phyphox/sensorInput.java:39-42 | A rate <= 0 gives period 0. A positive rate gives the truncation of 1e9/rate nanoseconds, which saturates at `Long.MAX_VALUE`. |
| SensorInput.OnEvent | app/src/main/java/de/rwth_aachen/phyphox/sensorInput.java:120-158 | One event sets `t0` only when it is 0. It emits exactly when it comes from the channel's sensor and `lastReading + period <= timestamp`. An event of another sensor changes nothing but `t0`. An emission empties the accumulators, sets `lastReading` to the timestamp and gives the time (timestamp - t0) seconds. Without an emission, `lastReading` is kept. |
| SensorInput.OnEventValues | app/src/main/java/de/rwth_aachen/phyphox/sensorInput.java:126-149 | The values of one matching event: without averaging, the emitted reading (or the stored sums, with count 1) is the event's own three values. With averaging, the emitted reading is (sums + values) / (count + 1), and without an emission the values are added to the sums and the count grows by one. |
| SensorInput.Run | app/src/main/java/de/rwth_aachen/phyphox/sensorInput.java:120-158 | Folding the events keeps the count non-negative and emits at most one reading per event. |
| SensorInput.OtherSensorsIgnored | app/src/main/java/de/rwth_aachen/phyphox/sensorInput.java:120-124 | Events of other sensors emit nothing and change nothing but `t0`. |
| SensorInput.PeriodZeroEmitsEveryEvent | app/src/main/java/de/rwth_aachen/phyphox/sensorInput.java:126-155 | With period 0 and timestamps that never go back, each event of the channel's sensor emits exactly one reading. That reading holds the event's own three values, in both modes. |
| SensorInput.AveragingWindow | app/src/main/java/de/rwth_aachen/phyphox/sensorInput.java:126-155 | With averaging, take a run of matching events of which only the last reaches `lastReading + period`. It emits exactly one reading: the accumulated sums divided by the number of events accumulated. Afterwards nothing is accumulated. |
| SensorInput.AveragingWindowIsMean | app/src/main/java/de/rwth_aachen/phyphox/sensorInput.java:126-149 | From an emptied state, the reading emitted for an averaging window is the arithmetic mean of the window's values. |
| SensorInput.T0Kept | app/src/main/java/de/rwth_aachen/phyphox/sensorInput.java:121-122 | Once `t0` is set, no later event changes it. |
| SensorInput.T0SetByFirstEvent | app/src/main/java/de/rwth_aachen/phyphox/sensorInput.java:96-122 | After `start()`, the first event of any sensor sets `t0` to its timestamp for the rest of the run. |
| SensorInput.EmittedTimesSorted | app/src/main/java/de/rwth_aachen/phyphox/sensorInput.java:149 | With `t0` set and timestamps that never go back, the emitted time values never go back and none lies before the earliest timestamp. |
| SensorInput.SetSize4 | app/src/main/java/de/rwth_aachen/phyphox/sensorInput.java:64-68 | `setSize(4)` gives exactly four slots: the given buffers first, null for the missing ones. |
| SensorInput.SensorInput.constructor | app/src/main/java/de/rwth_aachen/phyphox/sensorInput.java:36-69 | A constructed channel has the kind's type number, the period of its rate, its averaging flag, x/y/z/t bound to slots 0..3 and an empty state. |
| SensorInput.NewSensorInput | app/src/main/java/de/rwth_aachen/phyphox/sensorInput.java:36-69 | Construction fails with "Unknown sensor." exactly for a name outside the six. Otherwise the channel is built as above. |
| SensorInput.SensorInput.GetDescriptionRes | app/src/main/java/de/rwth_aachen/phyphox/sensorInput.java:77-93 | A constructed channel never reports `unknown`; it reports its own kind's description. |
| SensorInput.SensorInput.Start | app/src/main/java/de/rwth_aachen/phyphox/sensorInput.java:96-107 | `start()` resets `t0`, `lastReading`, the three sums and the count to 0 and registers the listener. |
| SensorInput.SensorInput.Stop | app/src/main/java/de/rwth_aachen/phyphox/sensorInput.java:110-112 | `stop()` unregisters the listener and leaves the channel state as it was. |
| SensorInput.SensorInput.OnSensorChanged | app/src/main/java/de/rwth_aachen/phyphox/sensorInput.java:120-158 | The in-place update yields the state `OnEvent` describes. Each bound buffer receives one value per slot bound to it (x, y, z, t in that order) when the event emits, and nothing otherwise. Unbound slots are skipped. |
| SensorInput.SensorInput.Accumulate | app/src/main/java/de/rwth_aachen/phyphox/sensorInput.java:126-138 | With averaging, the values are added to the sums and the count grows by one. Without averaging, the sums are replaced by the values and the count is 1. |
| SensorInput.SensorInput.EmitAndReset | app/src/main/java/de/rwth_aachen/phyphox/sensorInput.java:139-156 | An emission appends sums/count and the seconds since `t0` to the bound buffers. It then empties the accumulators and records the timestamp. |
| SensorInput.SensorInput.Emit | app/src/main/java/de/rwth_aachen/phyphox/sensorInput.java:142-149 | Each non-null slot's buffer gets its value appended; buffers not bound are untouched. |
| ExperimentActivity.JavaRound | app/src/main/java/de/rwth_aachen/phyphox/Experiment.java:788 | `Math.round` gives the integer within half a unit, with ties rounded up. |
| ExperimentActivity.JavaDiv | app/src/main/java/de/rwth_aachen/phyphox/Experiment.java:424 | `long` division by a positive divisor truncates toward zero for both signs. |
| ExperimentActivity.NextAlpha | app/src/main/java/de/rwth_aachen/phyphox/Experiment.java:662-670 | One cycle moves the indicator by at most 0.05, up while the analysis runs and down otherwise, and keeps it in [0, 1]. |
| ExperimentActivity.BusyCyclesRaiseAlpha | app/src/main/java/de/rwth_aachen/phyphox/Experiment.java:662-666 | From 0, n busy cycles give min(1, n * 0.05). |
| ExperimentActivity.ProgressAppearsOnThirdBusyCycle | app/src/main/java/de/rwth_aachen/phyphox/Experiment.java:662-681 | With exact reals, the progress bar is visible after n busy cycles from 0 exactly when n >= 3 (Java `float` rounding shows it one cycle earlier, see below). |
| ExperimentActivity.IdleCyclesLowerAlpha | app/src/main/java/de/rwth_aachen/phyphox/Experiment.java:667-670 | n idle cycles lower the indicator by n * 0.05, down to 0 and no further. |
| ExperimentActivity.Experiment.constructor | app/src/main/java/de/rwth_aachen/phyphox/Experiment.java:77-120 | A new screen is idle with no countdown, before its first start, not loaded, with no pending request, timed runs off and the orientation locked. |
| ExperimentActivity.Experiment.CancelCountdown | app/src/main/java/de/rwth_aachen/phyphox/Experiment.java:837-842 | The held countdown is cancelled and dropped, and the cached remaining time is 0. When no other countdown was running, none runs afterwards. |
| ExperimentActivity.Experiment.StopMeasurement | app/src/main/java/de/rwth_aachen/phyphox/Experiment.java:829-852 | Whatever the state, and even without an experiment, the screen ends idle: `measuring` false, indicator 0, screen free to sleep and rotate. The held countdown is cancelled and dropped from the running ones; other running countdowns are not touched. An experiment present has all its I/O stopped, and its buffers and views keep their state. |
| ExperimentActivity.Experiment.ClearAllBuffers | app/src/main/java/de/rwth_aachen/phyphox/Experiment.java:768-769 | Every buffer of the experiment ends empty. |
| ExperimentActivity.Experiment.StartMeasurement | app/src/main/java/de/rwth_aachen/phyphox/Experiment.java:761-803 | The start as written: `beforeStart` false, all buffers empty, I/O running, `measuring` true, the screen locked and one more analysis thread. A timed run arms a stop countdown of round(stopDelay * 1000) ms that joins the running ones, without cancelling the one held before. An untimed run keeps whatever countdown is held, so a held countdown still shows the stop phase. |
| ExperimentActivity.Experiment.StartTimedMeasurement | app/src/main/java/de/rwth_aachen/phyphox/Experiment.java:806-826 | The timed start as written: it locks the screen and arms a start countdown of round(startDelay * 1000) ms that joins the running ones, without cancelling the one held before. `measuring` is not touched, so during a measurement the phase reads as the stop countdown. |
| ExperimentActivity.Experiment.StartMeasurementCorrected | app/src/main/java/de/rwth_aachen/phyphox/Experiment.java:761-803 | Corrected start: a timed run first cancels the held countdown, so its stop countdown is the only one running and the timers stay sound. |
| ExperimentActivity.Experiment.ArmCountdown | app/src/main/java/de/rwth_aachen/phyphox/Experiment.java:788-800 | A new countdown with the given action and length becomes the held one and joins the running countdowns, and the cached remaining time is its length. |
| ExperimentActivity.Experiment.StartTimedMeasurementCorrected | app/src/main/java/de/rwth_aachen/phyphox/Experiment.java:806-826 | Corrected timed start: the held countdown is cancelled first, so the new start countdown of round(startDelay * 1000) ms is the only one running. |
| ExperimentActivity.Experiment.OnTimerTick | app/src/main/java/de/rwth_aachen/phyphox/Experiment.java:791-795 | A tick of any running countdown, held or not, caches its remaining time and changes nothing else. |
| ExperimentActivity.Experiment.OnTimerFinish | app/src/main/java/de/rwth_aachen/phyphox/Experiment.java:797-799 | The finished countdown stops running. A start countdown starts the measurement: a timed run arms a new stop countdown, an untimed one keeps the held countdown (so a stale one still shows the stop phase). A stop countdown leaves the screen idle and cancels the held countdown. When the held countdown is the one that ran out, the timers stay sound. |
| ExperimentActivity.Experiment.RemoteStartMeasurement | app/src/main/java/de/rwth_aachen/phyphox/Experiment.java:893-896 | A remote start only records a pending start request. |
| ExperimentActivity.Experiment.RemoteStopMeasurement | app/src/main/java/de/rwth_aachen/phyphox/Experiment.java:887-890 | A remote stop only records a pending stop request. |
| ExperimentActivity.Experiment.RequestDefocus | app/src/main/java/de/rwth_aachen/phyphox/Experiment.java:899-901 | A defocus request only sets the flag. |
| ExperimentActivity.Experiment.MarkRemoteInput | app/src/main/java/de/rwth_aachen/phyphox/Experiment.java:87 | The remote server marks new remote input by setting the flag. |
| ExperimentActivity.Experiment.SetAnalysisInProgress | app/src/main/java/de/rwth_aachen/phyphox/Experiment.java:639-643 | The analysis thread sets the busy flag around an analysis pass. |
| ExperimentActivity.Experiment.UpdateIndicator | app/src/main/java/de/rwth_aachen/phyphox/Experiment.java:662-681 | The indicator takes one `NextAlpha` step. The bar is visible exactly when alpha > 0.1, and on Honeycomb and later it is drawn opaque from 0.9 on. |
| ExperimentActivity.Experiment.ConsumeDefocus | app/src/main/java/de/rwth_aachen/phyphox/Experiment.java:684-687 | A pending defocus becomes exactly one `defocus()` call and is cleared. |
| ExperimentActivity.Experiment.ResolveStateRequest | app/src/main/java/de/rwth_aachen/phyphox/Experiment.java:690-699 | A pending request becomes exactly one transition and is cleared. Start becomes a timed start (a new start countdown joins the running ones) when timed runs are on, and a start otherwise; stop ends idle and cancels the held countdown. Without a request, the run state is unchanged. Only a timed start over a held countdown can leave a countdown the screen no longer holds. |
| ExperimentActivity.Experiment.RefreshExperimentViews | app/src/main/java/de/rwth_aachen/phyphox/Experiment.java:701-717 | Input views are read only without pending remote input. The views are refreshed once unless reading the input views threw first. Unless the view update throws, pending remote input is handed over as new user input and cleared; without pending remote input, the new-user-input flag is untouched. |
| ExperimentActivity.Experiment.BeginCycle | app/src/main/java/de/rwth_aachen/phyphox/Experiment.java:660-699 | The head of a cycle: the indicator step, the defocus and the state request, each consumed once. |
| ExperimentActivity.Experiment.FinishCycle | app/src/main/java/de/rwth_aachen/phyphox/Experiment.java:701-727 | With an experiment, the views are refreshed once (unless reading the input views threw), and the new-user-input flag changes only when remote input was pending. The cycle reposts itself only with an experiment and without shutdown: after 40 ms while measuring and 400 ms otherwise. |
| ExperimentActivity.Experiment.UpdateViewsCycle | app/src/main/java/de/rwth_aachen/phyphox/Experiment.java:658-729 | One whole `updateViews` pass. Each pending flag is consumed once, and two requests before one cycle resolve to the last. The indicator takes one step, the views are refreshed once unless reading the input views threw, the new-user-input flag changes only when remote input was pending, and the repost delay is chosen as above. |
| ExperimentActivity.Experiment.PrepareOptionsMenu | app/src/main/java/de/rwth_aachen/phyphox/Experiment.java:374-434 | Without a loaded experiment there is no menu. Otherwise exactly one of play, pause, timed play and timed pause shows, chosen by the run phase. The countdown label is shown only in timed runs: the remaining seconds rounded up while a countdown runs, otherwise the rounded delay of the next countdown. |
| ExperimentActivity.Experiment.OnPlaySelected | app/src/main/java/de/rwth_aachen/phyphox/Experiment.java:456-461 | Play starts the start countdown in a timed run and the measurement otherwise, with the timer effects of those starts. Started from idle with sound timers, the only running countdown is the held one. |
| ExperimentActivity.Experiment.ConfigureTimedRun | app/src/main/java/de/rwth_aachen/phyphox/Experiment.java:497-518 | The dialog stores the check box and the two delays (0 when unparsable). Enabling timed runs during a measurement stops it as `stopMeasurement` does. Otherwise the run state, the countdowns, the indicator, the window flags and the experiment are unchanged, even while a countdown runs. |
| ExperimentActivity.Experiment.OnPause | app/src/main/java/de/rwth_aachen/phyphox/Experiment.java:145-161 | Pausing sets `shutdown` and stops the measurement as `stopMeasurement` does; with sound timers no countdown runs afterwards. |
| ExperimentActivity.Experiment.OnResume | app/src/main/java/de/rwth_aachen/phyphox/Experiment.java:165-173 | Resuming clears `shutdown` and posts the cycle once. |
| ExperimentActivity.Experiment.RestoreBuffers | app/src/main/java/de/rwth_aachen/phyphox/Experiment.java:290-297 | For i < min(#buffers, #saved), buffer i ends holding exactly the saved values, in order, unless the saved entry is null. Every other buffer is untouched. |
| ExperimentActivity.Experiment.RestoreSavedState | app/src/main/java/de/rwth_aachen/phyphox/Experiment.java:280-301 | The saved settings, the saved buffers and the saved view are restored. |
| ExperimentActivity.Experiment.OnExperimentLoaded | app/src/main/java/de/rwth_aachen/phyphox/Experiment.java:235-333 | The experiment is stored. If it loaded, a saved state with buffers restores settings, buffers and view (otherwise view 0), the shown view is refreshed once, the load is complete, the cycle is posted and rotation is allowed. A failed load keeps the settings, the view, the delays and the orientation lock as they were and refreshes nothing. The experiment's I/O, input reads and new-user-input flag are untouched either way. |
| ExperimentActivity.RemoteBurstResolvesToLast | app/src/main/java/de/rwth_aachen/phyphox/Experiment.java:887-896 | A remote start then a remote stop before one cycle leave the screen idle, with the request consumed. |
| ExperimentActivity.StopIsIdempotent | app/src/main/java/de/rwth_aachen/phyphox/Experiment.java:829-852 | Stopping twice leaves the state that stopping once describes: the second stop changes nothing. |
| ExperimentActivity.TimedRunPhases | app/src/main/java/de/rwth_aachen/phyphox/Experiment.java:761-826 | From idle with sound timers and both delays rounding to at least 1 ms, a timed run goes through the start countdown, the measurement with its stop countdown, and back to idle with no countdown running. |
| ExperimentActivity.StaleCountdownAfterUncheck | app/src/main/java/de/rwth_aachen/phyphox/Experiment.java:497-516 | With positive delays, unchecking timed runs during a start countdown stops nothing. When the countdown runs out, the untimed start keeps it as the held countdown, so the screen shows a stop countdown while no countdown runs. |
| ExperimentActivity.OrphanedCountdownAsWritten | app/src/main/java/de/rwth_aachen/phyphox/Experiment.java:806-826 | As written, with positive delays, two timed starts and a stop leave the first start countdown running; when it runs out, the idle screen starts measuring on its own. |
| ExperimentActivity.NoOrphanedCountdown | app/src/main/java/de/rwth_aachen/phyphox/Experiment.java:806-826 | With the corrected timed start and positive delays, the same sequence leaves the screen idle with no countdown running. |
| NewExperiment.BufferSizeOf | app/src/main/java/de/rwth_aachen/phyphox/ExperimentList.java:745-754 | The buffer size is always in 1..1000000. It is the parsed value when that is in range, and 500 in every other case. |
| NewExperiment.BufferSizeOfTypedSize | app/src/main/java/de/rwth_aachen/phyphox/ExperimentList.java:745-754 | Any in-range size typed as its digits is kept. |
| NewExperiment.UnparsableRateIsFastest | app/src/main/java/de/rwth_aachen/phyphox/ExperimentList.java:757-763 | An unparsable rate makes the sensor run at period 0, its fastest. |
| NewExperiment.WithDefaultSensor | app/src/main/java/de/rwth_aachen/phyphox/ExperimentList.java:766-775 | With no box checked, only the accelerometer is enabled; otherwise the choice stands. Some sensor is always enabled. |
| NewExperiment.EnabledSensors | app/src/main/java/de/rwth_aachen/phyphox/ExperimentList.java:827-840 | The enabled sensors in file order: each checked sensor once and nothing else, and non-empty exactly when a box is checked. |
| NewExperiment.EscapeMarkup | app/src/main/java/de/rwth_aachen/phyphox/ExperimentList.java:786 | Replacing `<`, `>`, `"` and `'` by their entities leaves none of them in the title. |
| NewExperiment.EscapeTitleAsWritten | app/src/main/java/de/rwth_aachen/phyphox/ExperimentList.java:786 | The escaping as written removes every `<`, `>`, `"` and `'`, and reads back as the markup-escaped title, not as the typed one. |
| NewExperiment.UnescapeAmpersandsEscaped | app/src/main/java/de/rwth_aachen/phyphox/ExperimentList.java:786 | Escaping every `&` as `&amp;` and reading back gives the string again. |
| NewExperiment.EscapeTitle | app/src/main/java/de/rwth_aachen/phyphox/ExperimentList.java:786 | The corrected escaping never shortens the title and leaves none of `<`, `>`, `"`, `'` in it. |
| NewExperiment.UnescapeEscapeTitle | app/src/main/java/de/rwth_aachen/phyphox/ExperimentList.java:786 | The corrected escaped title reads back as the typed title. |
| NewExperiment.EscapeTitleAsWrittenDoubleEscapes | app/src/main/java/de/rwth_aachen/phyphox/ExperimentList.java:786 | As written, a typed `<` becomes `&amp;lt;`, which reads back as `&lt;` and not as `<`. |
| NewExperiment.BufferNames | app/src/main/java/de/rwth_aachen/phyphox/ExperimentList.java:791-824 | A three-axis sensor has four buffers, and light and pressure have two each. |
| NewExperiment.ContainerNames | app/src/main/java/de/rwth_aachen/phyphox/ExperimentList.java:791-824 | The container names are exactly the buffer names of the enabled sensors. |
| NewExperiment.ContainersOf | app/src/main/java/de/rwth_aachen/phyphox/ExperimentList.java:791-824 | One container per name, in order, all of the given size. |
| NewExperiment.OutputsOf | app/src/main/java/de/rwth_aachen/phyphox/ExperimentList.java:827-840 | A sensor's outputs write x, y, z (as many as the sensor has) into its buffers after the first, in order, and the time last into its first buffer. |
| NewExperiment.InputsOf | app/src/main/java/de/rwth_aachen/phyphox/ExperimentList.java:827-840 | One sensor input per enabled sensor, in order, carrying the sensor's name, the rate and its outputs. |
| NewExperiment.NewExperimentDefinition | app/src/main/java/de/rwth_aachen/phyphox/ExperimentList.java:786-840 | The generated file has the fixed category and description and at least one sensor input. Its title, escaped as written, has no markup and reads back as the markup-escaped title. |
| NewExperiment.ContainerNamesCount | app/src/main/java/de/rwth_aachen/phyphox/ExperimentList.java:791-824 | There are four containers per enabled three-axis sensor and two each for light and pressure. |
| NewExperiment.ContainerNamesDistinct | app/src/main/java/de/rwth_aachen/phyphox/ExperimentList.java:791-824 | Different sensors never share a buffer name, so the container names are unique. |
| NewExperiment.InputsOfAccepted | app/src/main/java/de/rwth_aachen/phyphox/ExperimentList.java:827-840 | Each generated sensor input names a type the sensor channel accepts, and that type is the sensor it was generated for. |
| NewExperiment.InputsOfOutputsDeclared | app/src/main/java/de/rwth_aachen/phyphox/ExperimentList.java:827-840 | Every output of a generated input writes to a declared container. |
| NewExperiment.NewExperimentContainers | app/src/main/java/de/rwth_aachen/phyphox/ExperimentList.java:791-824 | The whole dialog: the number of containers is the buffer count of the enabled sensors. All have the sanitised size and their names are unique. |
| NewExperiment.NewExperimentInputs | app/src/main/java/de/rwth_aachen/phyphox/ExperimentList.java:827-840 | The whole dialog: one input per enabled sensor, in order, each of an accepted type and at the sanitised rate. Every output goes to a declared container of the sanitised size. |
| ExperimentCatalogue.InsertionIndex | app/src/main/java/de/rwth_aachen/phyphox/ExperimentList.java:191-195 | The insertion index is the first title not before the new one, or the end of the list. |
| ExperimentCatalogue.Insert | app/src/main/java/de/rwth_aachen/phyphox/ExperimentList.java:198-202 | `insertElementAt` puts the element at i, keeps the elements before i and shifts the rest by one. |
| ExperimentCatalogue.InsertMultiset | app/src/main/java/de/rwth_aachen/phyphox/ExperimentList.java:198-202 | Inserting adds exactly the one element and loses none. |
| ExperimentCatalogue.InsertKeepsSorted | app/src/main/java/de/rwth_aachen/phyphox/ExperimentList.java:188-202 | Inserting at the insertion index keeps the titles in `compareTo` order. |
| ExperimentCatalogue.EqualTitleGoesFirst | app/src/main/java/de/rwth_aachen/phyphox/ExperimentList.java:191-195 | A title equal to one already listed is placed before the first such entry. |
| ExperimentCatalogue.Zip | app/src/main/java/de/rwth_aachen/phyphox/ExperimentList.java:140-144 | The five parallel lists, read index by index, give one experiment per index. |
| ExperimentCatalogue.ZipInsert | app/src/main/java/de/rwth_aachen/phyphox/ExperimentList.java:198-202 | Inserting into all five lists at one index inserts one whole experiment there. |
| ExperimentCatalogue.InsertionIndexIsFirst | app/src/main/java/de/rwth_aachen/phyphox/ExperimentList.java:191-195 | The index where the scan loop stops is the insertion index. |
| ExperimentCatalogue.ExperimentItemAdapter.constructor | app/src/main/java/de/rwth_aachen/phyphox/ExperimentList.java:140-149 | A new adapter has five empty lists. |
| ExperimentCatalogue.ExperimentItemAdapter.AddExperiment | app/src/main/java/de/rwth_aachen/phyphox/ExperimentList.java:188-206 | The five lists stay equally long and in title order. The experiment is inserted at its alphabetical place and every other experiment is kept. |
| ExperimentCatalogue.ExperimentItemAdapter.FindInsertionIndex | app/src/main/java/de/rwth_aachen/phyphox/ExperimentList.java:190-195 | The scan loop stops at the insertion index. |
| ExperimentCatalogue.FindCategory | app/src/main/java/de/rwth_aachen/phyphox/ExperimentList.java:422-428 | The lookup finds the first category with that name, or reports that none has it. |
| ExperimentCatalogue.FindCategoryIsFirst | app/src/main/java/de/rwth_aachen/phyphox/ExperimentList.java:422-428 | The index where the lookup loop stops is the first category of that name. |
| ExperimentCatalogue.AddKeepsNamesUnique | app/src/main/java/de/rwth_aachen/phyphox/ExperimentList.java:420-433 | Adding an experiment keeps the category names unique. |
| ExperimentCatalogue.AddKeepsSorted | app/src/main/java/de/rwth_aachen/phyphox/ExperimentList.java:420-433 | Adding an experiment keeps every category in title order. |
| ExperimentCatalogue.AddPlacesEntry | app/src/main/java/de/rwth_aachen/phyphox/ExperimentList.java:420-433 | The experiment lands in the category of its name. Other categories and the order of categories are unchanged, and a new category is added only at the end, only when the name is new. |
| ExperimentCatalogue.AddCountsOne | app/src/main/java/de/rwth_aachen/phyphox/ExperimentList.java:420-433 | Adding an experiment grows the number of listed experiments by exactly one. |
| ExperimentCatalogue.AddToCatalogue | app/src/main/java/de/rwth_aachen/phyphox/ExperimentList.java:420-433 | Adding grows the categories by one exactly when no category has the name, and then the new last category holds just this experiment. Existing categories keep their names and places. |
| ExperimentCatalogue.Category.constructor | app/src/main/java/de/rwth_aachen/phyphox/ExperimentList.java:357-359 | A new category has its name and an empty adapter of its own. |
| ExperimentCatalogue.Category.AddExperiment | app/src/main/java/de/rwth_aachen/phyphox/ExperimentList.java:405-407 | The category hands the experiment to its adapter, which inserts it alphabetically. |
| ExperimentCatalogue.ExperimentList.Contents | app/src/main/java/de/rwth_aachen/phyphox/ExperimentList.java:75 | In a valid catalogue the category names are unique and every category is in title order. |
| ExperimentCatalogue.ExperimentList.constructor | app/src/main/java/de/rwth_aachen/phyphox/ExperimentList.java:75 | The catalogue starts with no category. |
| ExperimentCatalogue.ExperimentList.AddExperiment | app/src/main/java/de/rwth_aachen/phyphox/ExperimentList.java:420-433 | The in-place catalogue changes as `AddToCatalogue` describes: into the first category of that name, or into a new category appended last. It stays valid. |
| ExperimentCatalogue.ExperimentList.AddToExisting | app/src/main/java/de/rwth_aachen/phyphox/ExperimentList.java:423-426 | Only the found category's experiments change, by one alphabetical insertion. |
| ExperimentCatalogue.ExperimentList.AddNewCategory | app/src/main/java/de/rwth_aachen/phyphox/ExperimentList.java:430-432 | A new category holding just this experiment is appended, and the others are unchanged. |
| ExperimentCatalogue.NewCategoryWith | app/src/main/java/de/rwth_aachen/phyphox/ExperimentList.java:430-432 | A new category with its own adapter holding exactly this experiment. |
| ExperimentInfo.NextText | app/src/main/java/de/rwth_aachen/phyphox/ExperimentList.java:490 | `nextText()` gives the text of a text-only element ("" for an empty one) and leaves the parser on the element's end tag. Anything else throws an XML error. |
| ExperimentInfo.IconOf | app/src/main/java/de/rwth_aachen/phyphox/ExperimentList.java:495-503 | An icon is an image exactly when its type is "base64"; otherwise it is a text icon of at most the first three characters. |
| ExperimentInfo.Accept | app/src/main/java/de/rwth_aachen/phyphox/ExperimentList.java:488-514 | An accepted element overwrites only its own field, with its trimmed text (a description only its first line, an icon by its type); the depths are untouched, and the stored metadata stays well shaped. |
| ExperimentInfo.EndTagStep | app/src/main/java/de/rwth_aachen/phyphox/ExperimentList.java:517-535 | An end tag resets a tracked depth to -1 only when it is at that very depth, and it never touches the metadata. |
| ExperimentInfo.StepChanges | app/src/main/java/de/rwth_aachen/phyphox/ExperimentList.java:466-537 | Only a metadata element at `phyphoxDepth + 1` or `translationDepth + 1` changes the metadata, and metadata at other depths is skipped. A translation opens only directly below the translations block, with the device's locale, when none is open. The block opens only directly below the root. A translation without a locale crashes. |
| ExperimentInfo.Step | app/src/main/java/de/rwth_aachen/phyphox/ExperimentList.java:466-537 | Each step advances the parser by at least one event and stays within the file. |
| ExperimentInfo.StepKeepsShape | app/src/main/java/de/rwth_aachen/phyphox/ExperimentList.java:488-537 | One step keeps the stored metadata well shaped (trimmed title and category, one-line description, short text icons) and keeps icons text-only when they were. |
| ExperimentInfo.Scan | app/src/main/java/de/rwth_aachen/phyphox/ExperimentList.java:465-539 | Whatever the file, a scan that completes keeps the metadata well shaped, and with the icon type read as written every icon stays a text icon. |
| ExperimentInfo.ScanMetadata | app/src/main/java/de/rwth_aachen/phyphox/ExperimentList.java:462-539 | The while loop over the parser's events computes exactly what `Scan` describes. |
| ExperimentInfo.DefaultIconAsWritten | app/src/main/java/de/rwth_aachen/phyphox/ExperimentList.java:554-555 | The default icon as written exists exactly for titles of at least three characters. |
| ExperimentInfo.ShortTitleDefaultIconThrows | app/src/main/java/de/rwth_aachen/phyphox/ExperimentList.java:554-555 | A two-character title without an icon element makes the default icon throw. |
| ExperimentInfo.DefaultIcon | app/src/main/java/de/rwth_aachen/phyphox/ExperimentList.java:554-555 | The corrected default icon is the first three characters of the title, or the whole title if shorter. It agrees with the source whenever the source does not throw. |
| ExperimentInfo.IconTypeAsWritten | app/src/main/java/de/rwth_aachen/phyphox/ExperimentList.java:494-495 | As written, the icon's type attribute is read on the end tag, where it is never found. |
| ExperimentInfo.Base64IconAsWrittenIsText | app/src/main/java/de/rwth_aachen/phyphox/ExperimentList.java:494-503 | As written, a base64 icon is taken as a text icon, while the start tag's attribute makes it an image. |
| ExperimentInfo.LoadOutcomeOf | app/src/main/java/de/rwth_aachen/phyphox/ExperimentList.java:541-566 | The outcome of one file, in terms of its scan: an XML error exactly when the scan hits one; a missing title or category exactly when that field is empty; a crash exactly for a translation without a locale or a title under three characters without an icon. An added entry carries the scanned title, category and description, the file name and asset flag, and the scanned icon or the first three title characters, a text icon of at most three. |
| ExperimentInfo.LoadExperimentInfo | app/src/main/java/de/rwth_aachen/phyphox/ExperimentList.java:442-567 | The outcome is `LoadOutcomeOf`. The catalogue changes by one `AddToCatalogue` when the file is added and not at all otherwise, and it stays valid. |

## Left out

- File and asset listing (`loadExperimentList`), opening streams, and the `IOException` path of `loadExperimentInfo`: these are I/O. A parser that cannot be created is not modelled either.
- The XML text of the generated experiment file, its views and export sets, the random file name, and writing the file: these are I/O. Only the title, category, description, containers and sensor inputs are modelled, as values.
- `Double.valueOf` is not modelled. Its outcome is a parameter (`Option<real>`), and the formatting of `rate` in the generated file is left out.
- `Integer.valueOf` accepts non-ASCII Unicode digits. `JavaStrings.ParseInt` accepts only ASCII digits.
- `compareTo` compares UTF-16 code units. `JavaStrings.CompareTo` compares Dafny characters, so the model differs for characters outside the Basic Multilingual Plane.
- Java `double` and `float` arithmetic (the period formula, the 1e-9 scaling, the averaging division, the 0.05 indicator steps) is modelled with exact reals.
- SensorInput.OnEvent: events are assumed to carry at least three values. The source reads `values[0..2]` of every event of its sensor without a length check, so a shorter array would throw an uncaught `ArrayIndexOutOfBoundsException`; that crash is not modelled.
- SensorInput.SensorInput.OnSensorChanged: assumes at least three values per event for the same reason, and does not model the crash on a shorter array.
- `long` overflow of `lastReading + period` and of `timestamp - t0` is not modelled, because timestamps are unbounded integers here.
- The data buffer's capacity and eviction, and `dataLock`: the buffer's source is not part of this model, and the lock only matters between threads.
- `phyphoxExperiment` is a stand-in: its buffers, `loaded`, `isLocal` and `newUserInput`, with ghost counters for `startAllIO`, `stopAllIO`, `handleInputViews` and `updateViews`. Analysis, views and I/O internals are not part of this model.
- The `updateData` analysis thread, the remote server and `CountDownTimer` ticking are concurrency and timing. Only their effects are modelled: the busy flag, the remote flags, tick and finish events.
- Android UI: dialogs, toasts, the play-hint animation, the spinner, `TextIcon` drawing, bitmap and base64 decoding, `isAvailable`, the sensor manager registration, screenshots and sharing.
- `onSaveInstanceState` and `Bundle` serialisation: `SavedState` is given as a value.
- The menu items' action handling beyond play (pause, timed play and timed pause all call `stopMeasurement`, which is modelled), and the remote-server menu item.
- ExperimentActivity.Experiment.OnExperimentLoaded: the selected view is taken as 0 when nothing is restored, because the spinner's default selection is not modelled.
- ExperimentActivity.Experiment.ArmCountdown: a countdown of 0 ms or less is modelled like any other, as a running countdown whose finish is a later event. Android's `CountDownTimer.start()` instead calls `onFinish()` at once for such a length, before `cdTimer` is assigned; that framework code is not part of this model. This affects `StartMeasurement`, `StartTimedMeasurement`, `StartMeasurementCorrected`, `StartTimedMeasurementCorrected`, `OnTimerFinish`, `ResolveStateRequest`, `BeginCycle`, `UpdateViewsCycle` and `OnPlaySelected` whenever a delay rounds to 0 ms or less, which includes the default delays of 0. The scenarios `TimedRunPhases`, `StaleCountdownAfterUncheck`, `OrphanedCountdownAsWritten` and `NoOrphanedCountdown` therefore require both delays to round to at least 1 ms.
- ExperimentActivity.ProgressAppearsOnThirdBusyCycle: holds for the exact-real model only. In the source `analysisProgressAlpha` is a `float` and `+= 0.05` rounds to `float`, so after two busy cycles it is `0.1f`, which is above the `double` 0.1 it is compared with, and the bar shows on the second busy cycle.
- SensorInput.SetSize4: returns a new sequence of four slots; the source pads the caller's `Vector` in place, which no other code observes before the constructor stores it.
- Stale countdowns are modelled as the source has them: `OnTimerFinish` does not clear `cdTimer`, so an untimed start after a finished start countdown keeps showing a stop countdown (`StaleCountdownAfterUncheck`). The corrected starts fix only the countdown a new start replaces.
- ExperimentActivity.RescheduleDelay has no contract of its own. Its 40 / 400 ms choice is stated by `FinishCycle` and `UpdateViewsCycle`.
- The `MqttJson` wrapper is network I/O and is not part of this model.

## Findings

| source | as written | input that shows it | evidently intended | confidence | as-written member | corrected member |
|---|---|---|---|---|---|---|
| app/src/main/java/de/rwth_aachen/phyphox/ExperimentList.java:786 | The title is escaped by replacing `<`, `>`, `"`, `'` first and `&` last, so the `&` of each inserted entity is escaped again. | The title `<` is written as `&amp;lt;` and is read back as `&lt;`. | Escape `&` first (or in one pass) so the title reads back unchanged. | high, not executed | NewExperiment.EscapeTitleAsWrittenDoubleEscapes | NewExperiment.UnescapeEscapeTitle |
| app/src/main/java/de/rwth_aachen/phyphox/ExperimentList.java:554-555 | Without an icon element, the default icon is `title.substring(0, 3)`, which throws for titles shorter than three characters. Nothing catches that exception. | A file with title `ab` and no icon element. | Use the first up to three characters, as the icon element's branch at lines 499-502 does. | high, not executed | ExperimentInfo.ShortTitleDefaultIconThrows | ExperimentInfo.DefaultIcon |
| app/src/main/java/de/rwth_aachen/phyphox/ExperimentList.java:494-495 | The icon's `type` attribute is read after `nextText()`, when the parser is on the icon's end tag, which carries no attributes. | `<icon type="base64">…</icon>` directly below `phyphox`. | Read the attribute on the start tag, before `nextText()`. | medium (depends on the parser implementation returning null on an end tag), not executed | ExperimentInfo.Base64IconAsWrittenIsText | ExperimentInfo.IconOf |
| app/src/main/java/de/rwth_aachen/phyphox/Experiment.java:761-826 | `startTimedMeasurement` and the timed branch of `startMeasurement` overwrite `cdTimer` without cancelling the countdown it held. The old countdown keeps running, and `stopMeasurement` can no longer cancel it. | A timed run; two remote start requests handled by two cycles, then a stop. | Cancel the held countdown before arming a new one. | medium, not executed | ExperimentActivity.OrphanedCountdownAsWritten | ExperimentActivity.Experiment.StartTimedMeasurementCorrected |
