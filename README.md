# RadiationWatch pulse accounting in Dafny

This project models the pulse-accounting engine of the RadiationWatch Arduino
library (`RadiationWatch.cpp`). A radiation sensor raises an interrupt for each
detected pulse, and the interrupt increments a pulse counter. The main polling
routine `loop()` runs over and over and does three things:

- it debounces a polled noise line;
- every 10000 iterations it ends a *batch*;
- at the end of a batch without noise it stores the batch's pulses in a
  circular history of 200 bins of 6 seconds each, keeps a running total of
  those bins, and folds the batch's elapsed milliseconds into the clocks. The
  clocks are a millisecond carry, a rate window capped at 20 minutes, and the
  total seconds and hours.

Read-out functions turn the running total and the window length into counts
per minute and microsieverts per hour.

Two modules:

- `PulseAccounting` (`accounting.dfy`): the state of the engine as a value
  (`Engine`, one field per member variable, the history as a sequence). One
  polling iteration is the function `LoopStep`, built from the phases of
  `loop()`: `Debounce`, `Rotate` (bin advance), `Store`, `Accrue` (time) and
  `EndBatch`. `Inv` is the invariant of every reachable state. Lemmas state
  what the source promises: the running sum, the index bound, bin rotation,
  noise rejection, the window cap, the hour rollover and the debouncer.
- `Watch` (`watch.dfy`): the class `RadiationWatch` with the source's fields
  and its history as an `array<int>` updated in place. It has the
  constructor, `Setup` (the history-zeroing loop), `Loop` and `Pulse`.
  `Loop` is proved to produce `LoopStep` of the old state and to keep the
  invariant. The class also has the read-outs `IsAvailable`, `CpmTime`,
  `Cpm` and `USvh`, computed with exact `real` arithmetic.

The model follows the code as written, including three points where the
code's behaviour is easy to misread:

- Time is folded in with a single `if` per batch, not a loop: at most one
  second leaves the millisecond carry per batch. When the carry plus the
  batch's elapsed time reach two seconds, one second or more stays in the
  carry.
- The bin-advance check uses the seconds counter before this batch's time is
  added.
- The iteration counter is reset only at the end of a clean batch. With an
  unbounded counter, a noisy batch end means that no later iteration ends a
  batch (lemma `NoisyBatchStallsBatching`). On the device, the next batch end
  depended on the counter's machine width.

The interrupt-driven counter `signCount` is a global variable in the source.
Here it is a field of the object, incremented by `Pulse()`, which is called
between polling iterations. The source does the whole batch end inline in
`loop()`. Here `Loop` hands it to `FinishBatch`, which hands the bin advance
to `AdvanceBin`, the pulse storing to `StoreBatch` and the time folding to `AccrueTime`. This split is only
there to keep each proof small; the statements and their order are those of
the source.

## Model

| member | source | states |
|---|---|---|
| `PulseAccounting.Abs` | RadiationWatch.cpp:121 | the elapsed time is the non-negative magnitude of the difference of two clock readings |
| `PulseAccounting.Initial` | RadiationWatch.cpp:17-59 | the state after construction and setup has a running total of 0 that equals the sum of the emptied bins, and the setup clock reading as clock reference; the full invariant is `InitialInv` |
| `PulseAccounting.Debounce` | RadiationWatch.cpp:80-86 | after one poll the latch equals the noise line level, the noise count grows by one exactly on a low-to-high transition, and nothing else changes; over many polls this gives `InBatchRun` |
| `PulseAccounting.Store` | RadiationWatch.cpp:115-118 | storing the batch's pulses keeps the bin index in range and keeps the difference between the running total and the sum of the bins (so a total equal to the sum stays equal); see also `StoreKeepsInv` and `CleanBatchBins` |
| `PulseAccounting.Accrue` | RadiationWatch.cpp:120-143 | the total measured time in milliseconds (`1000 * (totalHour * 3600 + totalSec) + cpmTimeMSec`) grows by exactly the batch's elapsed time, and a window within 1200 seconds stays within it; see also `AccrueKeepsInv` and `CleanBatchTime` |
| `PulseAccounting.CpmOf` | RadiationWatch.cpp:177-187 | counts per minute: zero while the window is empty, otherwise the rate times the window in seconds is 60 times the running total |
| `PulseAccounting.Rotate` | RadiationWatch.cpp:98-113 | a bin advance moves the bin index cyclically to `(cpmIndex + 1) % 200` exactly when one is due, and keeps it inside the history; otherwise the index stays |
| `PulseAccounting.LoopStep` | RadiationWatch.cpp:72-157 | one polling iteration keeps the bin index inside the history and moves it by at most one bin, cyclically |
| `PulseAccounting.EndBatch` | RadiationWatch.cpp:89-154 | a batch end keeps the history size and the bin index in range |
| `PulseAccounting.Run` | RadiationWatch.cpp:72-157 | any number of polling iterations keeps the history size and the bin index in range |
| `PulseAccounting.SumUpdate` | RadiationWatch.cpp:108-118 | replacing one bin changes the sum of the bins by exactly the new value minus the old one, which is what the running total does |
| `PulseAccounting.SumOfZeros` | RadiationWatch.cpp:54-57 | the emptied history sums to zero, matching the running total set to 0 by the constructor |
| `PulseAccounting.SumNonNegative` | RadiationWatch.cpp:116-118 | bins holding pulse counts (never negative) have a non-negative total |
| `PulseAccounting.InitialInv` | RadiationWatch.cpp:17-59 | the state after construction and setup satisfies the invariant: all counters zero, all bins empty, running total equal to the sum of the bins |
| `PulseAccounting.RotateKeepsInv` | RadiationWatch.cpp:98-113 | a bin advance keeps the running total equal to the sum of the bins, the bins non-negative, and the recorded boundary a multiple of 6 below 3600 |
| `PulseAccounting.StoreKeepsInv` | RadiationWatch.cpp:115-118 | adding the batch's pulses to the current bin and to the running total keeps them equal |
| `PulseAccounting.AccrueKeepsInv` | RadiationWatch.cpp:120-143 | folding in elapsed time keeps the window in [0, 1200], the window within the total measured time, the seconds within [0, 3600) and the hours non-negative |
| `PulseAccounting.LoopStepPreservesInv` | RadiationWatch.cpp:72-157 | every polling iteration keeps the invariant: running total equal to the sum of the bins, bin index in [0, 200), window at most 1200 seconds and at most the total measured time, seconds within the hour |
| `PulseAccounting.RunPreservesInv` | RadiationWatch.cpp:72-157 | any sequence of polling iterations keeps the invariant, the running total equal to the sum of the bins included |
| `PulseAccounting.InBatchRun` | RadiationWatch.cpp:80-86 | while no batch end is reached, the noise count grows by exactly the number of low-to-high transitions of the noise line (each sustained high run counts once), the latch equals the last sample, the iteration counter grows by the number of iterations, and nothing else changes |
| `PulseAccounting.NoisyBatchDiscarded` | RadiationWatch.cpp:89-156 | a batch end that saw noise leaves bins, running total, bin index, recorded boundary, clocks and window unchanged; it sets the clock reference to the current reading, zeroes the pulse and noise counts, and leaves the iteration counter at 10001 |
| `PulseAccounting.NoisyBatchStallsBatching` | RadiationWatch.cpp:89-156 | after a noisy batch end, however many iterations follow, the iteration counter only grows past 10000 and the statistics stay frozen |
| `PulseAccounting.CleanBatchBins` | RadiationWatch.cpp:95-153 | at a clean batch end, if a bin advance is due (judged before this batch's time is added), the index moves on cyclically, the boundary is recorded, the new bin holds exactly this batch's pulses and its old count leaves the running total; otherwise the pulses are added to the current bin and to the total; the per-batch counters and the iteration counter restart, and the noise latch equals the current line level |
| `PulseAccounting.CleanBatchTime` | RadiationWatch.cpp:120-143 | at a clean batch end there is a second-tick iff the carried milliseconds plus the elapsed time reach 1000; a tick takes 1000 out of the carry, grows the window by one unless it is at 1200, and adds exactly one second to `totalHour * 3600 + totalSec`, with the seconds staying in [0, 3600) |
| `PulseAccounting.HourRollover` | RadiationWatch.cpp:134-142 | a tick at second 3599 rolls the seconds to 0 and adds one hour |
| `PulseAccounting.BinAdvanceOncePerBoundary` | RadiationWatch.cpp:98-100 | a bin advance records the seconds value it happened at, so a later advance needs a different seconds value |
| `PulseAccounting.NoRisingEdgesWhenQuiet` | RadiationWatch.cpp:80-83 | a noise line that stays low produces no noise event |
| `PulseAccounting.QuietPollsReachBatchEnd` | RadiationWatch.cpp:80-89 | with the noise line low, polling up to the batch end changes nothing but the iteration counter, which then stands at 10000 |
| `PulseAccounting.Scenario` | RadiationWatch.cpp:72-157 | the state after n clean batches of 5 pulses and 150 ms each, starting from setup, keeps the history size and the bin index in range and the noise latch off |
| `PulseAccounting.ScenarioStep` | RadiationWatch.cpp:95-147 | one clean batch of 5 pulses ending 150 ms later takes the example's state after n - 1 batches to its state after n: 5 more counts in bin 0 and the total, no bin advance, the millisecond carry crossing one second exactly at the seventh batch |
| `PulseAccounting.ScenarioSoFar` | RadiationWatch.cpp:95-147 | after each of the first ten such batches the running total and bin 0 hold 5 counts per batch, no bin advance has happened, and the seventh batch brings the only second-tick |
| `PulseAccounting.TenCleanBatches` | RadiationWatch.cpp:95-147 | after ten such batches the running total is 50, the window is 1 second, 500 ms are carried and the seconds counter is 1 |
| `PulseAccounting.TenCleanBatchesRate` | RadiationWatch.cpp:177-187 | after those ten batches the count rate is 3000 counts per minute |
| `Watch.RadiationWatch.constructor` | RadiationWatch.cpp:17-37 | every counter, index and clock starts at zero, the latch is off, the history has 200 bins |
| `Watch.RadiationWatch.Setup` | RadiationWatch.cpp:53-59 | every bin is zeroed by a loop and the clock reference is set to the current reading; on a freshly constructed object this is the initial state and it satisfies the invariant |
| `Watch.RadiationWatch.Loop` | RadiationWatch.cpp:72-157 | one polling iteration updates the fields and the history array in place exactly as `LoopStep` does, and keeps the invariant |
| `Watch.RadiationWatch.FinishBatch` | RadiationWatch.cpp:89-154 | the batch end updates fields and array in place exactly as `EndBatch` does |
| `Watch.RadiationWatch.AdvanceBin` | RadiationWatch.cpp:98-113 | the bin advance updates fields and array in place exactly as `Rotate` does |
| `Watch.RadiationWatch.StoreBatch` | RadiationWatch.cpp:115-118 | the pulse storing updates the current bin and the running total in place exactly as `Store` does |
| `Watch.RadiationWatch.AccrueTime` | RadiationWatch.cpp:120-143 | the time folding updates the clocks exactly as `Accrue` does |
| `Watch.RadiationWatch.Pulse` | RadiationWatch.cpp:12-15 | a pulse adds one to the pulse count and changes nothing else; it keeps the invariant |
| `Watch.RadiationWatch.CpmTime` | RadiationWatch.cpp:172-175 | the window length in minutes, i.e. times 60 it is the window in seconds |
| `Watch.RadiationWatch.IsAvailable` | RadiationWatch.cpp:167-170 | a reading is available iff the window is not empty (`cpmTimeSec != 0`) |
| `Watch.RadiationWatch.Cpm` | RadiationWatch.cpp:177-187 | the object's count rate, computed by `CpmOf` from its fields: zero while the window is empty; otherwise the count rate times the window in seconds is 60 times the running total |
| `Watch.RadiationWatch.USvh` | RadiationWatch.cpp:189-194 | the dose rate times the calibration constant 53.032 is the count rate |
| `Watch.ReadoutsInRange` | RadiationWatch.cpp:167-194 | on every reachable state the window is at most 20 minutes, count rate and dose rate are non-negative, and an available count rate is at least the running total divided by 20 |
| `Watch.DoseFormula` | RadiationWatch.cpp:177-194 | 53032 counts over a 60-second window read as 53032 counts per minute and 1000 microsieverts per hour |

## Left out

- Hardware I/O: pin configuration, `attachInterrupt` and the `digitalRead` wrappers (RadiationWatch.cpp:42-51, 62-70). The noise level and the `millis()` reading are parameters of `Loop` and `Setup`.
- The radiation-pin level `sign` read by `loop()` and the field `sON` set by the constructor: the source never uses either.
- The audible tick `tone()` in the interrupt handler.
- Concurrency: the interrupt racing `loop()` on `signCount`. `Pulse` is an ordinary call between polling iterations.
- Status output: `printKey`, `printStatus` and the whole `RadiationWatchPrinter` class (formatting, `sprintf`, `dtostrf`, `Serial`).
- `uSvhError()`: it needs `sqrt` and floating point.
- Floating point: `cpmTime`, `cpm` and `uSvh` are computed with exact rationals, so they carry no rounding.
- Machine widths: `RadiationWatch.h`, which declares the field types and `kHistoryCount`, is not part of this model. All counters are unbounded integers, so the model has no truncation of `millis()` into `int` and no overflow of `index`, `signCount`, `totalHour` or `cpmTimeMSec`. `kHistoryCount` is taken as 200.
- `Watch.RadiationWatch.Setup`: it establishes the invariant only when called on a freshly constructed object, which is how the library is used (one `setup()` before any `loop()`).
