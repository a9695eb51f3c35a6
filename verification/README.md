# SmartMug event detector

A Dafny model of the event detector in the SmartMug ESP32 firmware. The firmware reads a scale and a lid reed switch, turns them into discrete events, and sends those events to a phone over BLE. The model covers the detector's state and one iteration of `loop()`, which runs three blocks in a fixed order:

1. **Lid edge detection.** `LID_CLOSED` or `LID_OPEN` is sent when the reed-switch reading differs from the last one.
2. **Weight sampling.** The scale is sampled every 2000 ms (`MEASURE_MS`). A change of at most 10 g (`NOISE_G`) is discarded as jitter. A larger change is added to the pending net change `accDelta` and restarts the quiet timer.
3. **Flush.** Once a net change is pending and 5000 ms (`STABLE_MS`) have passed quietly, one event is emitted and the pending change is cleared. The event is DRINKING, ADDING or THROWING. The kind comes from the sign of the change and the current lid reading.

The model is functional. `Detector.State` holds the five globals `lastWeight`, `accDelta`, `lastRead`, `lastEventTime` and `lastLidClosed`. `Detector.Init` is the seeding done in `setup()`. `Detector.Step` is one call of `loop()`: it takes the clock, the lid reading and the weight the scale would report, and returns the new state with an optional lid event and an optional net event. `Trace.Run` chains iterations.

Modules:

- `Clock` (`clock.dfy`): 32-bit millisecond timestamps and the wrapping unsigned subtraction the loop uses for every elapsed-time test.
- `Events` (`events.dfy`): lid messages, the three net-change kinds, the four-branch classification and the truncated magnitude.
- `Detector` (`detector.dfy`): the constants, the state, `setup()` seeding, the three loop blocks and the composed `Step`.
- `Trace` (`trace.dfy`): runs of many iterations. Covers lid transitions over a run, accumulation over the samples the scale was asked for, quiet runs (including slow drift) and the end-to-end drinking scenario.

Modelling choices:

- **Mass.** Mass is a `real` number of grams. The firmware stores `float`s, but the logic only uses sign, absolute value, addition, and comparison against the threshold. Using `real` keeps the `(int)` cast of the magnitude visible: `Events.Magnitude` truncates.
- **Time.** Time is the 32-bit `unsigned long` returned by `millis()`. `now - lastRead` and `now - lastEventTime` wrap modulo 2^32 (`Clock.Elapsed`). The model does not require `now` to increase, because the firmware does not check it.
- **Weight input.** `Step` always receives a weight. It is used only when the sampling gate opens, which is when the firmware calls `scale.getWeight()`.

Behaviour of the firmware worth noting, which the model keeps:

- The lid message carries no timestamp: the `@timestamp` suffix is commented out (ESP32Code.cpp:115).
- The loss-with-lid-closed kind is `THROWING`.
- The magnitude is the integer truncation of `|accDelta|`. A pending change between 0 and 1 g is reported with magnitude 0.
- A clock reading earlier than `lastEventTime` is not rejected. Unsigned subtraction turns it into a wait of almost 2^32 ms, so a pending change is flushed at once, unless that iteration's own sample is significant (`Detector.ClockStepBackFlushes`).

## Model

| member | source | states |
|---|---|---|
| `Clock.Elapsed` | ESP32Code.cpp:124-136 | The unsigned `now - since` is the wait that brings `since` to `now` on the 32-bit counter: adding it to `since` gives `now`, directly or after one wrap past zero |
| `Clock.ElapsedIsUnsignedDifference` | ESP32Code.cpp:124-136 | The elapsed time between two `unsigned long` stamps is their difference modulo 2^32, and the plain difference when the counter did not wrap in between |
| `Clock.ElapsedAfter` | ESP32Code.cpp:124 | The elapsed time is the real delay `k` even when the counter wraps past zero, so gating keeps working across the 49-day `millis()` rollover |
| `Events.LidMessage` | ESP32Code.cpp:114 | The message is `LID_CLOSED` exactly when the lid is closed, otherwise `LID_OPEN` |
| `Events.Classify` | ESP32Code.cpp:142-155 | The four guarded branches yield a kind exactly when the change is non-zero, so the tag is never empty when a flush fires. That kind matches the physical reading of the table: a gain is adding; a loss is drinking with the lid open and throwing with it closed |
| `Events.Magnitude` | ESP32Code.cpp:143-152 | The reported magnitude is the `(int)` truncation of the absolute change (`m <= abs(ml) < m + 1`), and exactly the absolute change for whole grams |
| `Events.ClassificationTable` | ESP32Code.cpp:142-153 | The four literal cases: -50 g open is drinking 50, +30 g open is adding 30, -20 g closed is throwing 20, +15 g closed is adding 15 |
| `Events.GainIgnoresLid` | ESP32Code.cpp:145-152 | A positive change is classified as adding whatever the lid reading |
| `Detector.Init` | ESP32Code.cpp:62-65 | Startup seeds the weight, lid reading and both timers from the first readings, with nothing pending, so no flush is due at any time |
| `Detector.ObserveLid` | ESP32Code.cpp:110-114 | A lid message is produced iff the reading differs from the remembered one. It names the new reading, the reading is remembered, and nothing else changes |
| `Detector.SampleWeight` | ESP32Code.cpp:124-133 | Nothing changes unless 2000 ms have passed since the last sample. A sample always records its time and weight. A change beyond 10 g is added to the pending change and restarts the quiet timer; a smaller one leaves both untouched |
| `Detector.Flush` | ESP32Code.cpp:136-164 | An event is emitted iff a non-zero change is pending and 5000 ms have passed since the last significant change. Kind and truncated magnitude come from the pending change and the remembered lid reading. The flush clears the change and restarts the timer |
| `Detector.Step` | ESP32Code.cpp:102-164 | Relative to the state before the loop iteration: lid edge detection; the sampling gate; a significant sample accumulates and suppresses this iteration's flush; otherwise the flush fires iff due; the event is classified with this iteration's lid reading; then the state resets |
| `Detector.InitIsSilent` | ESP32Code.cpp:62-65 | The first iteration after startup, with the same lid reading, sends no lid message and no net event |
| `Detector.RepeatedLidReadingIsSilent` | ESP32Code.cpp:111-112 | A lid reading equal to the previous iteration's produces no lid message |
| `Detector.FlushLeavesIdle` | ESP32Code.cpp:162-163 | After a flush nothing is pending, and the next iteration, if its sample is not significant, emits no net event (`Trace.QuietAfterFlush` covers a whole quiet run) |
| `Detector.CancellationNeverFlushes` | ESP32Code.cpp:129-136 | Accepted changes that cancel to exactly zero leave nothing pending and produce no event, neither in that iteration nor in the next one if its sample is not significant |
| `Detector.SampleBeforeFlush` | ESP32Code.cpp:124-136 | When a flush is due but this iteration's sample is significant, the flush block alone would fire, but the iteration emits nothing and keeps accumulating |
| `Detector.ClockStepBackFlushes` | ESP32Code.cpp:136 | A clock reading 1 ms before the last significant change counts as a wait of almost 2^32 ms, so a pending change is flushed, unless that iteration's own sample is significant |
| `Detector.LidAtFlushTime` | ESP32Code.cpp:110-151 | A 50 g loss that built up with the lid open is reported as throwing if the lid is closed in the flushing iteration, and as drinking if it stays open |
| `Trace.Run` | ESP32Code.cpp:111-164 | Each loop iteration emits at most one lid message and at most one net event |
| `Trace.RunLidEvents` | ESP32Code.cpp:110-121 | A run's lid messages depend only on the lid readings: one message, naming the new reading, wherever a reading differs from the one before. The run ends remembering the last reading |
| `Trace.LidTraceFirst` | ESP32Code.cpp:111-114 | The first lid message of a run reports the opposite of the reading remembered at the start |
| `Trace.LidTraceLast` | ESP32Code.cpp:111-114 | The last lid message of a run reports the reading remembered at the end; with no message the remembered reading is unchanged |
| `Trace.LidTraceAlternates` | ESP32Code.cpp:111-114 | Consecutive lid messages alternate between closed and open |
| `Trace.RunTracksLastSample` | ESP32Code.cpp:124-132 | Over any run, the detector ends on the last weight the scale was asked for, accepted or not, and on that sample's time; with no sample taken both are unchanged |
| `Trace.RunAccumulates` | ESP32Code.cpp:124-133 | Over any run without a flush, the pending change grows by exactly the sum of the accepted changes between consecutive sampled weights, whatever the loop's cadence |
| `Trace.AcceptedPlusRejected` | ESP32Code.cpp:126-132 | Accepted and rejected changes together add up to the total change of the readings, and each rejected change is at most 10 g |
| `Trace.AcceptedTracksTotal` | ESP32Code.cpp:127-132 | The sum of accepted changes differs from the change between the remembered weight and the last sampled weight by at most 10 g per sample |
| `Trace.QuietRunFlushesAtMostOnce` | ESP32Code.cpp:124-164 | Over a run where no iteration takes a significant sample, at most one net event is emitted, with the magnitude of the change pending at the start; none when nothing was pending |
| `Trace.QuietAfterFlush` | ESP32Code.cpp:129-136 | After a flush, a run of later iterations none of which takes a significant sample never emits another net event, slow drift included |
| `Trace.SteadyMassIsQuiet` | ESP32Code.cpp:124-128 | A mass that stays within one 10 g band never yields a significant sample |
| `Trace.DriftAfterFlushIsQuiet` | ESP32Code.cpp:124-164 | After a flush at 400 g, samples of 409, 418 and 427 g two seconds apart are all rejected because the remembered weight follows each one (it ends at 427 g with nothing pending), so an iteration 14 s later still emits nothing |
| `Trace.DrinkingScenario` | ESP32Code.cpp:124-164 | Start at 500 g with the lid open, then samples of 440, 441 and 440 g at 2 s intervals. Exactly one event follows, 5 s after the 60 g drop: drinking 60 ml |

## Left out

- BLE plumbing is not modelled: server, service and characteristic setup, advertising, the connect/disconnect callbacks, the `deviceConnected` flag and `setValue`/`notify`. It is I/O through a library whose source is not part of this model. An emitted event stands for what would be notified.
- `Serial.println` logging is not modelled. It is an output side effect only.
- Hardware access is not modelled: the `UNIT_SCALES` driver, `Wire`, `pinMode`/`digitalRead` and the reed switch's polarity. The lid and weight readings are `Step` inputs. The halt loop when the scale is missing is also left out; it is a startup failure with no detector state.
- `millis()` and `delay(50)` are not modelled as calls. The current time is a `Step` input. The 50 ms pause only sets how often `loop()` runs.
- Float rounding of `accDelta` and `fabs` is not modelled; mass is exact. A float sum of accepted changes that cancel may not reach exactly 0.0 as the real sum does. The `(int)` cast of a float beyond the `int` range is also not modelled.
- Building the text tags is not modelled: `"DRINKING_" + String((int)...) + "_ml@" + ts` and the like. Events are structured values (kind, magnitude, time) carrying the same fields.
