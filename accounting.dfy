/**
 The pulse-accounting state of a RadiationWatch sensor as a value, and one
 polling iteration of its batch state machine as a function of that value.

 A batch is a run of polling iterations; when the iteration counter reaches
 BatchSize the batch ends. A clean batch (no rising edge on the noise line)
 folds its pulse count into a circular history of 6-second bins and its
 elapsed time into the measurement clocks; a noisy batch is discarded.
 */
module PulseAccounting {

  /** Number of bins in the circular history (kHistoryCount). */
  const HistoryCount: nat := 200
  /** Polling iterations after which a batch ends. */
  const BatchSize: int := 10000
  /** A bin advance is due at every multiple of this many seconds. */
  const BinSeconds: int := 6
  /** The measurement window used for the count rate is capped at 20 minutes. */
  const WindowCapSec: int := 20 * 60
  const SecondsInHour: int := 60 * 60
  const MillisPerSecond: int := 1000

  /** Every field of the running engine, under the source's names. */
  datatype Engine = Engine(
    signCount: int,     // pulses seen since the last batch end
    prevTime: int,      // clock reading (ms) at the last batch end
    index: int,         // polling iterations counted towards the current batch
    noiseCount: int,    // rising edges of the noise line in the current batch
    nOn: bool,          // debounce latch: the noise line was high at the last poll
    cpm: int,           // running total of all history bins
    cpmIndex: int,      // the bin that receives new counts
    cpmIndexPrev: int,  // the value of totalSec at the last bin advance
    totalSec: int,      // seconds of measurement within the current hour
    totalHour: int,     // whole hours of measurement
    cpmTimeMSec: int,   // milliseconds not yet turned into a second
    cpmTimeSec: int,    // length of the rate window in seconds
    history: seq<int>)  // pulse counts per 6-second bin

  function Sum(s: seq<int>): int
  {
    if s == [] then 0 else s[0] + Sum(s[1..])
  }

  /** Total measured time in seconds, hours included. */
  function Seconds(e: Engine): int
  {
    e.totalHour * SecondsInHour + e.totalSec
  }

  function Abs(x: int): (r: nat)
    ensures r == x || r == -x
  {
    if x < 0 then -x else x
  }

  /** What the code needs to run at all: a history of the right size, a bin
      index inside it, and a seconds counter on which C's `%` agrees with
      Dafny's. */
  predicate Shaped(e: Engine)
  {
    |e.history| == HistoryCount && 0 <= e.cpmIndex < HistoryCount && 0 <= e.totalSec
  }

  /** The invariant every reachable state keeps. */
  predicate Inv(e: Engine)
  {
    Shaped(e) &&
    e.totalSec < SecondsInHour && 0 <= e.totalHour &&
    0 <= e.cpmTimeSec <= WindowCapSec && e.cpmTimeSec <= Seconds(e) &&
    0 <= e.cpmTimeMSec &&
    0 <= e.cpmIndexPrev < SecondsInHour && e.cpmIndexPrev % BinSeconds == 0 &&
    0 <= e.signCount && 0 <= e.noiseCount && 0 <= e.index &&
    (forall i :: 0 <= i < |e.history| ==> 0 <= e.history[i]) &&
    e.cpm == Sum(e.history)
  }

  /** The history as setup leaves it: every bin empty. */
  function EmptyHistory(): seq<int>
  {
    seq(HistoryCount, _ => 0)
  }

  /** The state after construction and setup, `now` being the clock reading
      taken at the end of setup. */
  function Initial(now: int): (r: Engine)
    ensures r.cpm == Sum(r.history) == 0 && r.prevTime == now
  {
    SumOfZeros(HistoryCount);
    Engine(0, now, 0, 0, false, 0, 0, 0, 0, 0, 0, 0, EmptyHistory())
  }

  /** Counts per minute: the running total over the window in minutes,
      zero while the window is empty. */
  function CpmOf(cpm: int, cpmTimeSec: int): (r: real)
    ensures cpmTimeSec == 0 ==> r == 0.0
    ensures cpmTimeSec != 0 ==> r * cpmTimeSec as real == 60.0 * cpm as real
  {
    var minutes := cpmTimeSec as real / 60.0;
    if minutes != 0.0 then cpm as real / minutes else 0.0
  }

  // ---------------------------------------------------------------------
  // One polling iteration, phase by phase

  /** Edge-triggered noise debouncer: a low-to-high transition of the noise
      line sets the latch and counts one noise event; a high-to-low
      transition clears the latch. */
  function Debounce(e: Engine, noise: bool): (r: Engine)
    ensures r.nOn == noise
    ensures r.noiseCount == e.noiseCount + (if noise && !e.nOn then 1 else 0)
    ensures r.(nOn := e.nOn, noiseCount := e.noiseCount) == e
  {
    if noise && !e.nOn then e.(nOn := true, noiseCount := e.noiseCount + 1)
    else if !noise && e.nOn then e.(nOn := false)
    else e
  }

  /** A bin advance is due: the seconds counter is on a 6-second boundary
      that has not been advanced at yet. */
  predicate Rotates(e: Engine)
  {
    e.totalSec % BinSeconds == 0 && e.cpmIndexPrev != e.totalSec
  }

  /** Advance to the next bin if one is due, evicting its old count. */
  function Rotate(e: Engine): (r: Engine)
    requires Shaped(e)
    ensures Shaped(r)
    ensures r.cpmIndex == if Rotates(e) then (e.cpmIndex + 1) % HistoryCount else e.cpmIndex
  {
    if Rotates(e) then
      var next := e.cpmIndex + 1;
      var ci := if next >= HistoryCount then 0 else next;
      var evicted := if e.history[ci] > 0 then e.history[ci] else 0;
      e.(cpmIndexPrev := e.totalSec, cpmIndex := ci, cpm := e.cpm - evicted,
         history := e.history[ci := 0])
    else e
  }

  /** Add the batch's pulses to the current bin and to the running total. */
  function Store(e: Engine): (r: Engine)
    requires Shaped(e)
    ensures Shaped(r)
    ensures r.cpm - Sum(r.history) == e.cpm - Sum(e.history)
  {
    SumUpdate(e.history, e.cpmIndex, e.history[e.cpmIndex] + e.signCount);
    e.(history := e.history[e.cpmIndex := e.history[e.cpmIndex] + e.signCount],
       cpm := e.cpm + e.signCount)
  }

  /** Add the batch's elapsed time; at most one whole second is taken out of
      the millisecond carry per batch. */
  function Accrue(e: Engine, currTime: int): (r: Engine)
    ensures 1000 * Seconds(r) + r.cpmTimeMSec
            == 1000 * Seconds(e) + e.cpmTimeMSec + Abs(currTime - e.prevTime)
    ensures e.cpmTimeSec <= WindowCapSec ==> r.cpmTimeSec <= WindowCapSec
  {
    var ms := e.cpmTimeMSec + Abs(currTime - e.prevTime);
    if ms >= MillisPerSecond then
      var window := if e.cpmTimeSec >= WindowCapSec then WindowCapSec else e.cpmTimeSec + 1;
      var sec := e.totalSec + 1;
      if sec >= SecondsInHour then
        e.(cpmTimeMSec := ms - MillisPerSecond, cpmTimeSec := window,
           totalSec := sec - SecondsInHour, totalHour := e.totalHour + 1)
      else
        e.(cpmTimeMSec := ms - MillisPerSecond, cpmTimeSec := window, totalSec := sec)
    else
      e.(cpmTimeMSec := ms)
  }

  /** The end of a batch: account for a clean batch (and restart the
      iteration count), then, clean or not, restart the clock reference and
      the per-batch counters. */
  function EndBatch(e: Engine, currTime: int): (r: Engine)
    requires Shaped(e)
    ensures Shaped(r)
  {
    var accounted :=
      if e.noiseCount == 0 then Accrue(Store(Rotate(e)), currTime).(index := 0) else e;
    accounted.(prevTime := currTime, signCount := 0, noiseCount := 0)
  }

  /** One polling iteration; `currTime` is the clock reading, looked at only
      when the batch ends. */
  function LoopStep(e: Engine, noise: bool, currTime: int): (r: Engine)
    requires Shaped(e)
    ensures Shaped(r)
    ensures r.cpmIndex == e.cpmIndex || r.cpmIndex == (e.cpmIndex + 1) % HistoryCount
  {
    var d := Debounce(e, noise);
    var b := if d.index == BatchSize then EndBatch(d, currTime) else d;
    b.(index := b.index + 1)
  }

  /** Polling iterations over a run of noise samples while the clock reads
      `currTime`. */
  function Run(e: Engine, samples: seq<bool>, currTime: int): (r: Engine)
    requires Shaped(e)
    ensures Shaped(r)
    decreases |samples|
  {
    if samples == [] then e else Run(LoopStep(e, samples[0], currTime), samples[1..], currTime)
  }

  /** Number of low-to-high transitions in `samples`, the line having been
      at level `prev` before them. */
  function RisingEdges(prev: bool, samples: seq<bool>): nat
    decreases |samples|
  {
    if samples == [] then 0
    else (if samples[0] && !prev then 1 else 0) + RisingEdges(samples[0], samples[1..])
  }

  // ---------------------------------------------------------------------
  // Sums

  lemma {:induction false} SumUpdate(s: seq<int>, i: int, v: int)
    requires 0 <= i < |s|
    ensures Sum(s[i := v]) == Sum(s) - s[i] + v
  {
    if i == 0 {
      assert s[i := v][1..] == s[1..];
    } else {
      SumUpdate(s[1..], i - 1, v);
      assert s[i := v][1..] == s[1..][i - 1 := v];
    }
  }

  lemma {:induction false} SumOfZeros(n: nat)
    ensures Sum(seq(n, _ => 0)) == 0
  {
    if n > 0 {
      assert seq(n, _ => 0)[1..] == seq(n - 1, _ => 0);
      SumOfZeros(n - 1);
    }
  }

  lemma {:induction false} SumNonNegative(s: seq<int>)
    requires forall i :: 0 <= i < |s| ==> 0 <= s[i]
    ensures 0 <= Sum(s)
  {
    if s != [] {
      assert forall i :: 0 <= i < |s[1..]| ==> s[1..][i] == s[i + 1];
      SumNonNegative(s[1..]);
    }
  }

  // ---------------------------------------------------------------------
  // The invariant

  /** Setup leaves the engine in a state of the invariant: in particular the
      running total matches the all-zero history. */
  lemma InitialInv(now: int)
    ensures Inv(Initial(now))
  {
    SumOfZeros(HistoryCount);
  }

  /** A bin advance keeps the invariant, the running total included. */
  lemma RotateKeepsInv(e: Engine)
    requires Inv(e)
    ensures Inv(Rotate(e))
  {
    if Rotates(e) {
      SumUpdate(e.history, Rotate(e).cpmIndex, 0);
    }
  }

  /** Storing a (necessarily non-negative) pulse count keeps the invariant,
      the running total included. */
  lemma StoreKeepsInv(e: Engine)
    requires Inv(e)
    ensures Inv(Store(e))
  {
    SumUpdate(e.history, e.cpmIndex, e.history[e.cpmIndex] + e.signCount);
  }

  /** Adding elapsed time keeps the clocks within their bounds. */
  lemma AccrueKeepsInv(e: Engine, currTime: int)
    requires Inv(e)
    ensures Inv(Accrue(e, currTime))
  {
  }

  /** Every polling iteration keeps the invariant: the running total is the
      sum of the bins, the bin index stays in range, the window stays within
      20 minutes and within the total measured time, the seconds counter
      stays within the hour. */
  lemma LoopStepPreservesInv(e: Engine, noise: bool, currTime: int)
    requires Inv(e)
    ensures Inv(LoopStep(e, noise, currTime))
  {
    var d := Debounce(e, noise);
    assert Inv(d);
    if d.index == BatchSize && d.noiseCount == 0 {
      RotateKeepsInv(d);
      StoreKeepsInv(Rotate(d));
      AccrueKeepsInv(Store(Rotate(d)), currTime);
      assert Inv(EndBatch(d, currTime));
    }
  }

  /** Any number of polling iterations keeps the invariant, the running
      total included. */
  lemma {:induction false} RunPreservesInv(e: Engine, samples: seq<bool>, currTime: int)
    requires Inv(e)
    ensures Inv(Run(e, samples, currTime))
    decreases |samples|
  {
    if samples != [] {
      LoopStepPreservesInv(e, samples[0], currTime);
      RunPreservesInv(LoopStep(e, samples[0], currTime), samples[1..], currTime);
    }
  }

  // ---------------------------------------------------------------------
  // Within a batch

  /** While no batch end is reached, polling only drives the debouncer and
      the iteration counter: the noise count grows by the number of rising
      edges, the latch follows the last sample, and nothing else changes.
      No batch end is reached either when the run stops short of BatchSize
      or when the counter is already past it. */
  lemma {:induction false} InBatchRun(e: Engine, samples: seq<bool>, currTime: int)
    requires Shaped(e)
    requires e.index + |samples| <= BatchSize || e.index > BatchSize
    ensures var r := Run(e, samples, currTime);
      r.noiseCount == e.noiseCount + RisingEdges(e.nOn, samples) &&
      r.nOn == (if samples == [] then e.nOn else samples[|samples| - 1]) &&
      r.index == e.index + |samples| &&
      r.(noiseCount := e.noiseCount, nOn := e.nOn, index := e.index) == e
    decreases |samples|
  {
    if samples != [] {
      var d := LoopStep(e, samples[0], currTime);
      assert d == Debounce(e, samples[0]).(index := e.index + 1);
      InBatchRun(d, samples[1..], currTime);
    }
  }

  // ---------------------------------------------------------------------
  // Noisy batches

  /** A batch that saw a noise event is discarded: bins, running total, bin
      index, clocks and window are untouched; the clock reference and the
      per-batch counters restart, but the iteration counter is not reset and
      moves past BatchSize. */
  lemma NoisyBatchDiscarded(e: Engine, noise: bool, currTime: int)
    requires Shaped(e) && e.index == BatchSize && Debounce(e, noise).noiseCount != 0
    ensures LoopStep(e, noise, currTime)
         == e.(nOn := noise, prevTime := currTime, signCount := 0, noiseCount := 0,
               index := BatchSize + 1)
  {
  }

  /** After a noisy batch the iteration counter only grows, so with an
      unbounded counter no later polling iteration ends a batch: whatever
      is polled afterwards, the accumulated statistics stay as they were. */
  lemma NoisyBatchStallsBatching(e: Engine, noise: bool, currTime: int,
                                 samples: seq<bool>, later: int)
    requires Shaped(e) && e.index == BatchSize && Debounce(e, noise).noiseCount != 0
    ensures var r := Run(LoopStep(e, noise, currTime), samples, later);
      r.index == BatchSize + 1 + |samples| &&
      r.history == e.history && r.cpm == e.cpm &&
      r.cpmIndex == e.cpmIndex && r.cpmIndexPrev == e.cpmIndexPrev &&
      r.cpmTimeMSec == e.cpmTimeMSec && r.cpmTimeSec == e.cpmTimeSec &&
      r.totalSec == e.totalSec && r.totalHour == e.totalHour &&
      r.prevTime == currTime && r.signCount == 0
  {
    NoisyBatchDiscarded(e, noise, currTime);
    InBatchRun(LoopStep(e, noise, currTime), samples, later);
  }

  // ---------------------------------------------------------------------
  // Clean batches

  /** The bins of a clean batch. If a bin advance is due (judged on the
      seconds counter before this batch's time is added), the index moves on
      cyclically, the boundary is recorded, and the new bin is emptied (its
      old count leaving the running total) before it receives this batch's
      pulses; otherwise the pulses are added to the current bin. Either way
      the per-batch counters and the iteration counter restart, and the
      latch follows the noise line. */
  lemma CleanBatchBins(e: Engine, noise: bool, currTime: int)
    requires Inv(e) && e.index == BatchSize && Debounce(e, noise).noiseCount == 0
    ensures var r := LoopStep(e, noise, currTime);
      var ci := (e.cpmIndex + 1) % HistoryCount;
      (Rotates(e) ==>
        r.cpmIndex == ci && r.cpmIndexPrev == e.totalSec &&
        r.history == e.history[ci := e.signCount] &&
        r.cpm == e.cpm - e.history[ci] + e.signCount) &&
      (!Rotates(e) ==>
        r.cpmIndex == e.cpmIndex && r.cpmIndexPrev == e.cpmIndexPrev &&
        r.history == e.history[e.cpmIndex := e.history[e.cpmIndex] + e.signCount] &&
        r.cpm == e.cpm + e.signCount) &&
      r.signCount == 0 && r.noiseCount == 0 && r.prevTime == currTime && r.index == 1 &&
      r.nOn == noise
  {
  }

  /** The clocks of a clean batch. There is a second-tick exactly when the
      carried milliseconds plus the batch's elapsed time reach one second;
      a tick takes one second out of the carry, lengthens the window by one
      second unless it already spans 20 minutes, and adds exactly one second
      to the total measured time, the seconds counter staying within the
      hour. */
  lemma CleanBatchTime(e: Engine, noise: bool, currTime: int)
    requires Inv(e) && e.index == BatchSize && Debounce(e, noise).noiseCount == 0
    ensures var r := LoopStep(e, noise, currTime);
      var ms := e.cpmTimeMSec + Abs(currTime - e.prevTime);
      var tick := ms >= MillisPerSecond;
      r.cpmTimeMSec == (if tick then ms - MillisPerSecond else ms) &&
      r.cpmTimeSec == (if tick && e.cpmTimeSec < WindowCapSec then e.cpmTimeSec + 1
                       else e.cpmTimeSec) &&
      Seconds(r) == Seconds(e) + (if tick then 1 else 0) &&
      0 <= r.totalSec < SecondsInHour
  {
  }

  /** The last second of an hour rolls the seconds counter over to zero and
      adds one hour. */
  lemma HourRollover(e: Engine, noise: bool, currTime: int)
    requires Inv(e) && e.index == BatchSize && Debounce(e, noise).noiseCount == 0
    requires e.totalSec == SecondsInHour - 1
    requires e.cpmTimeMSec + Abs(currTime - e.prevTime) >= MillisPerSecond
    ensures LoopStep(e, noise, currTime).totalSec == 0
    ensures LoopStep(e, noise, currTime).totalHour == e.totalHour + 1
  {
  }

  /** A bin advance records the boundary it happened at, so the next advance
      needs the seconds counter to have moved to a different value. */
  lemma BinAdvanceOncePerBoundary(e: Engine, noise: bool, currTime: int)
    requires Inv(e) && e.index == BatchSize && Debounce(e, noise).noiseCount == 0
    requires Rotates(e)
    ensures LoopStep(e, noise, currTime).cpmIndexPrev == e.totalSec
    ensures Rotates(LoopStep(e, noise, currTime)) ==>
              LoopStep(e, noise, currTime).totalSec != e.totalSec
  {
  }

  // ---------------------------------------------------------------------
  // A worked example

  lemma {:induction false} NoRisingEdgesWhenQuiet(samples: seq<bool>)
    requires forall i :: 0 <= i < |samples| ==> !samples[i]
    ensures RisingEdges(false, samples) == 0
    decreases |samples|
  {
    if samples != [] {
      NoRisingEdgesWhenQuiet(samples[1..]);
    }
  }

  /** With the noise line low, polling from anywhere in a batch up to its
      end changes nothing but the iteration counter, which then stands at
      BatchSize. */
  lemma QuietPollsReachBatchEnd(e: Engine, currTime: int)
    requires Shaped(e) && !e.nOn && 0 <= e.index <= BatchSize
    ensures Run(e, seq(BatchSize - e.index, _ => false), currTime) == e.(index := BatchSize)
  {
    var quiet := seq(BatchSize - e.index, _ => false);
    NoRisingEdgesWhenQuiet(quiet);
    InBatchRun(e, quiet, currTime);
  }

  /** The state after `n` clean batches that start from setup at clock 0:
      in each, 5 pulses arrive, the noise line stays low, and the batch
      ends 150 ms after the previous one (the polls up to the batch end are
      taken in one stride, as QuietPollsReachBatchEnd allows). */
  function Scenario(n: nat): (e: Engine)
    ensures Shaped(e) && !e.nOn
  {
    if n == 0 then Initial(0)
    else LoopStep(Scenario(n - 1).(signCount := 5, index := BatchSize), false, 150 * n)
  }

  /** The state of the example after `n` batches, for n up to 10: no bin
      advance is due (the first boundary, second 0, counts as already
      advanced at), so every pulse lands in bin 0, and the seventh batch
      brings the first second-tick. */
  predicate ScenarioAt(e: Engine, n: nat)
  {
    Shaped(e) && !e.nOn && e.noiseCount == 0 &&
    e.cpm == 5 * n && e.history[0] == 5 * n && e.cpmIndex == 0 && e.cpmIndexPrev == 0 &&
    e.prevTime == 150 * n && e.totalHour == 0 &&
    e.totalSec == e.cpmTimeSec == (if n >= 7 then 1 else 0) &&
    e.cpmTimeMSec == (if n >= 7 then 150 * n - 1000 else 150 * n)
  }

  /** One batch of the example takes the state after n - 1 batches to the
      state after n. */
  lemma ScenarioStep(q: Engine, n: nat)
    requires 1 <= n <= 10 && ScenarioAt(q, n - 1)
    ensures ScenarioAt(LoopStep(q.(signCount := 5, index := BatchSize), false, 150 * n), n)
  {
    var p := q.(signCount := 5, index := BatchSize);
    assert Debounce(p, false) == p;
    assert !Rotates(p);
    var st := Store(p);
    assert st.cpm == 5 * n && st.history[0] == 5 * n && st.cpmIndex == 0;
    assert Abs(150 * n - st.prevTime) == 150;
    assert LoopStep(p, false, 150 * n)
        == Accrue(st, 150 * n).(index := 1, prevTime := 150 * n, signCount := 0, noiseCount := 0);
  }

  /** The first ten batches of the example, one at a time. */
  lemma {:induction false} ScenarioSoFar(n: nat)
    requires n <= 10
    ensures ScenarioAt(Scenario(n), n)
  {
    if n > 0 {
      ScenarioSoFar(n - 1);
      ScenarioStep(Scenario(n - 1), n);
    }
  }

  /** Ten such batches hold 50 counts in the first bin; their 1500 ms give
      one second-tick, so the window is one second long and 500 ms are
      carried. */
  lemma TenCleanBatches()
    ensures Scenario(10).cpm == 50 && Scenario(10).history[0] == 50
    ensures Scenario(10).cpmTimeSec == 1 && Scenario(10).cpmTimeMSec == 500
    ensures Scenario(10).totalSec == 1 && Scenario(10).totalHour == 0
  {
    ScenarioSoFar(10);
  }

  /** After those ten batches the count rate is 3000 counts per minute. */
  lemma TenCleanBatchesRate()
    ensures CpmOf(Scenario(10).cpm, Scenario(10).cpmTimeSec) == 3000.0
  {
    TenCleanBatches();
  }
}
