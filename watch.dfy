/**
 The RadiationWatch object: its fields, its construction and setup, the
 polling step `Loop`, the pulse counter, and the read-outs that turn the
 running total and the window length into a count rate and a dose rate.
 */
module Watch {
  import opened PulseAccounting

  /** Calibration of the sensor: counts per minute per microsievert per hour. */
  const Alpha: real := 53.032

  class RadiationWatch {
    var signCount: int
    var prevTime: int
    var index: int
    var noiseCount: int
    var nOn: bool
    var cpm: int
    var cpmIndex: int
    var cpmIndexPrev: int
    var totalSec: int
    var totalHour: int
    var cpmTimeMSec: int
    var cpmTimeSec: int
    const cpmHistory: array<int>

    /** The fields as one value. */
    ghost function State(): Engine
      reads this, cpmHistory
    {
      Engine(signCount, prevTime, index, noiseCount, nOn, cpm, cpmIndex, cpmIndexPrev,
             totalSec, totalHour, cpmTimeMSec, cpmTimeSec, cpmHistory[..])
    }

    ghost predicate Valid()
      reads this, cpmHistory
    {
      Inv(State())
    }

    /** The counters as the constructor leaves them. */
    ghost predicate Constructed()
      reads this
    {
      cpmHistory.Length == HistoryCount &&
      signCount == 0 && prevTime == 0 && index == 0 && noiseCount == 0 && !nOn &&
      cpm == 0 && cpmIndex == 0 && cpmIndexPrev == 0 &&
      totalSec == 0 && totalHour == 0 && cpmTimeMSec == 0 && cpmTimeSec == 0
    }

    constructor ()
      ensures Constructed() && fresh(cpmHistory)
    {
      signCount := 0;
      prevTime := 0;
      index := 0;
      noiseCount := 0;
      nOn := false;
      cpm := 0;
      cpmIndex := 0;
      cpmIndexPrev := 0;
      totalSec := 0;
      totalHour := 0;
      cpmTimeMSec := 0;
      cpmTimeSec := 0;
      cpmHistory := new int[HistoryCount];
    }

    /** Empties every history bin and takes `now` as the clock reference.
        On a freshly constructed object this establishes the invariant. */
    method Setup(now: int)
      requires cpmHistory.Length == HistoryCount
      modifies this, cpmHistory
      ensures State() == old(State()).(history := EmptyHistory(), prevTime := now)
      ensures old(Constructed()) ==> State() == Initial(now) && Valid()
    {
      var i := 0;
      while i < HistoryCount
        invariant 0 <= i <= HistoryCount
        invariant forall j :: 0 <= j < i ==> cpmHistory[j] == 0
        modifies cpmHistory
      {
        cpmHistory[i] := 0;
        i := i + 1;
      }
      assert cpmHistory[..] == EmptyHistory();
      prevTime := now;
      InitialInv(now);
    }

    /** One polling iteration with the noise line at level `noise` (true is
        high) and the clock reading `currTime` (looked at only when the batch
        ends). */
    method Loop(noise: bool, currTime: int)
      requires Valid()
      modifies this, cpmHistory
      ensures Valid()
      ensures State() == LoopStep(old(State()), noise, currTime)
    {
      LoopStepPreservesInv(State(), noise, currTime);
      if noise && !nOn {
        nOn := true;
        noiseCount := noiseCount + 1;
      } else if !noise && nOn {
        nOn := false;
      }
      if index == BatchSize {
        FinishBatch(currTime);
      }
      index := index + 1;
    }

    /** The end of a batch (the body of the `index == 10000` branch). */
    method FinishBatch(currTime: int)
      requires Shaped(State())
      modifies this, cpmHistory
      ensures State() == EndBatch(old(State()), currTime)
    {
      if noiseCount == 0 {
        AdvanceBin();
        StoreBatch();
        AccrueTime(currTime);
        index := 0;
      }
      prevTime := currTime;
      signCount := 0;
      noiseCount := 0;
    }

    /** Moves to the next bin when one is due, evicting its old count. */
    method AdvanceBin()
      requires Shaped(State())
      modifies this, cpmHistory
      ensures State() == Rotate(old(State()))
    {
      if totalSec % BinSeconds == 0 && cpmIndexPrev != totalSec {
        cpmIndexPrev := totalSec;
        cpmIndex := cpmIndex + 1;
        if cpmIndex >= HistoryCount {
          cpmIndex := 0;
        }
        if cpmHistory[cpmIndex] > 0 {
          cpm := cpm - cpmHistory[cpmIndex];
        }
        cpmHistory[cpmIndex] := 0;
      }
    }

    /** Adds the batch's pulses to the current bin and to the running total. */
    method StoreBatch()
      requires Shaped(State())
      modifies this, cpmHistory
      ensures State() == Store(old(State()))
    {
      ghost var a := State();
      cpmHistory[cpmIndex] := cpmHistory[cpmIndex] + signCount;
      cpm := cpm + signCount;
      assert cpmHistory[..] == a.history[a.cpmIndex := a.history[a.cpmIndex] + a.signCount];
    }

    /** Folds the batch's elapsed time into the clocks. */
    method AccrueTime(currTime: int)
      modifies this
      ensures State() == Accrue(old(State()), currTime)
    {
      cpmTimeMSec := cpmTimeMSec + Abs(currTime - prevTime);
      if cpmTimeMSec >= MillisPerSecond {
        cpmTimeMSec := cpmTimeMSec - MillisPerSecond;
        if cpmTimeSec >= WindowCapSec {
          cpmTimeSec := WindowCapSec;
        } else {
          cpmTimeSec := cpmTimeSec + 1;
        }
        totalSec := totalSec + 1;
        if totalSec >= SecondsInHour {
          totalSec := totalSec - SecondsInHour;
          totalHour := totalHour + 1;
        }
      }
    }

    /** One detected radiation pulse. */
    method Pulse()
      modifies this
      ensures State() == old(State()).(signCount := old(signCount) + 1)
      ensures old(Valid()) ==> Valid()
    {
      signCount := signCount + 1;
    }

    /** Length of the rate window in minutes. */
    function CpmTime(): (r: real)
      reads this
      ensures r * 60.0 == cpmTimeSec as real
    {
      cpmTimeSec as real / 60.0
    }

    /** A reading is available once the window holds at least one second. */
    function IsAvailable(): (r: bool)
      reads this
      ensures r <==> cpmTimeSec != 0
    {
      CpmTime() != 0.0
    }

    /** Counts per minute over the window; zero while the window is empty. */
    function Cpm(): (r: real)
      reads this
      ensures cpmTimeSec == 0 ==> r == 0.0
      ensures cpmTimeSec != 0 ==> r * cpmTimeSec as real == 60.0 * cpm as real
    {
      CpmOf(cpm, cpmTimeSec)
    }

    /** Dose rate in microsieverts per hour. */
    function USvh(): (r: real)
      reads this
      ensures r * Alpha == Cpm()
    {
      Cpm() / Alpha
    }
  }

  /** On every reachable state the window spans at most 20 minutes and the
      readings are non-negative; a count rate, once available, is at least
      the running total spread over the longest window. */
  lemma ReadoutsInRange(w: RadiationWatch)
    requires w.Valid()
    ensures 0.0 <= w.CpmTime() <= 20.0
    ensures 0.0 <= w.Cpm() && 0.0 <= w.USvh()
    ensures w.IsAvailable() ==> w.cpm as real <= 20.0 * w.Cpm()
  {
    SumNonNegative(w.cpmHistory[..]);
    if w.cpmTimeSec != 0 {
      var r := w.Cpm();
      var t := w.cpmTimeSec as real;
      assert r * t == 60.0 * w.cpm as real;
      assert 0.0 < t <= 1200.0;
      assert 0.0 <= r;
      RateBound(r, t, w.cpm as real);
    }
  }

  /** A rate r over a window of t seconds (at most 1200) accounting for c
      counts is at least c / 20. */
  lemma RateBound(r: real, t: real, c: real)
    requires r * t == 60.0 * c && 0.0 < t <= 1200.0 && 0.0 <= r
    ensures c <= 20.0 * r
  {
    assert r * t <= r * 1200.0;
  }

  /** The calibration example: 53032 counts over one minute read as 53032
      counts per minute and 1000 microsieverts per hour. */
  lemma DoseFormula(w: RadiationWatch)
    requires w.cpm == 53032 && w.cpmTimeSec == 60
    ensures w.IsAvailable() && w.Cpm() == 53032.0 && w.USvh() == 1000.0
  {
  }
}
