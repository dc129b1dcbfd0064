/** frequency_sweep.py: the FreqSweep controller. Besides the calibration
    search it shares with pyvisa_biasing_calibration_1.0.py, it runs a
    frequency sweep test (one averaged power reading per frequency, no bias
    voltage) and a fluctuation test (500 readings at one fixed frequency with
    averaging off). */
module FrequencySweep {

  import opened Bench
  import opened Calibration
  import CalibrationFacts
  import opened VoltMapCsv

  /** One data row of the sweep test's CSV file: [curr_freq, meas_pwr]. */
  datatype SweepRow = SweepRow(freq: int, power: real)

  /** One data row of the fluctuation test's CSV file: [i + 1, meas_pwr]. */
  datatype FlucRow = FlucRow(num: nat, power: real)

  // ---------------------------------------------------------------------
  // The frequency sweep test.

  /** The sweep test's set-up: analyzer centre and marker, averaging on with
      50 sweeps, the generator's start frequency and step. */
  function SweepSetup(s: Schedule): seq<Write>
  {
    [Write(SpectrumAnalyzer, FreqCent(s.centre)), Write(SpectrumAnalyzer, MarkCent),
     Write(SpectrumAnalyzer, AverOn), Write(SpectrumAnalyzer, AverCount(50)),
     Write(SignalGenerator, FreqFix(s.sweepStart)), Write(SignalGenerator, FreqStep(s.sweepStep))]
  }

  /** save_screenshot for the file named after freq. */
  function Screenshot(freq: int): seq<Write>
  {
    [Write(SpectrumAnalyzer, Cls), Write(SpectrumAnalyzer, StoreScreen(freq))]
  }

  /** One averaged reading: clear the average, centre the marker, read it. */
  const Measure: seq<Write> :=
    [Write(SpectrumAnalyzer, AverClear), Write(SpectrumAnalyzer, MarkCent), Write(SpectrumAnalyzer, MarkY)]

  /** What step i writes before its row: a fresh averaged reading, then the
      screenshot when asked for. */
  function Capture(s: Schedule, shot: bool, i: nat): seq<Write>
  {
    Measure + (if shot then Screenshot(FreqKey(s, i)) else [])
  }

  /** get_trace_data: its reply is discarded and it returns None. */
  const TraceCmds: seq<Write> :=
    [Write(SpectrumAnalyzer, Cls), Write(SpectrumAnalyzer, InitContOff),
     Write(SpectrumAnalyzer, InitImm), Write(SpectrumAnalyzer, TraceQuery)]

  /** Steps 0 .. k-1, each followed by the move to the next frequency. */
  function Stepped(s: Schedule, shot: bool, k: nat): seq<Write>
  {
    if k == 0 then [] else Stepped(s, shot, k - 1) + Capture(s, shot, k - 1) + Advance
  }

  /** How the sweep test ends: writing the None that get_trace_data returns
      as a CSV row raises, at the first step. */
  function SweepVerdict(numStep: int, trace: bool): Outcome
  {
    if Iterations(numStep) > 0 && trace then Abort(TraceRowNotIterable) else Done
  }

  /** Everything the sweep test writes to the instruments. The generator is
      not moved after the last step. */
  function SweepWrites(s: Schedule, shot: bool, trace: bool): seq<Write>
  {
    var n := Iterations(s.numStep);
    if n == 0 then SweepSetup(s)
    else if trace then SweepSetup(s) + Capture(s, shot, 0) + TraceCmds
    else SweepSetup(s) + Stepped(s, shot, n - 1) + Capture(s, shot, n - 1)
  }

  lemma SweepNext(start: seq<Write>, s: Schedule, shot: bool, i: nat)
    ensures start + Stepped(s, shot, i) + Capture(s, shot, i) + Advance == start + Stepped(s, shot, i + 1)
  {
    assert Stepped(s, shot, i + 1) == Stepped(s, shot, i) + Capture(s, shot, i) + Advance;
  }

  lemma SweepEndTrace(pre: seq<Write>, s: Schedule, shot: bool)
    requires Iterations(s.numStep) > 0
    ensures pre + SweepSetup(s) + Stepped(s, shot, 0) + Capture(s, shot, 0) + TraceCmds == pre + SweepWrites(s, shot, true)
  {
    assert pre + SweepSetup(s) + Stepped(s, shot, 0) == pre + SweepSetup(s);
  }

  lemma SweepEndFull(pre: seq<Write>, s: Schedule, shot: bool, i: nat)
    requires Iterations(s.numStep) == i + 1
    ensures pre + SweepSetup(s) + Stepped(s, shot, i) + Capture(s, shot, i) == pre + SweepWrites(s, shot, false)
  {
  }

  lemma SweepEndNone(pre: seq<Write>, s: Schedule, shot: bool, trace: bool)
    requires Iterations(s.numStep) == 0
    ensures pre + SweepSetup(s) + Stepped(s, shot, 0) == pre + SweepWrites(s, shot, trace)
  {
    assert pre + SweepSetup(s) + Stepped(s, shot, 0) == pre + SweepSetup(s);
  }

  /** The rows of steps 0 .. n-1. */
  function SweepRows(s: Schedule, power: nat -> real, n: nat): seq<SweepRow>
  {
    if n == 0 then [] else SweepRows(s, power, n - 1) + [SweepRow(FreqKey(s, n - 1), power(n - 1))]
  }

  /** The rows the sweep test writes before it returns or raises. */
  function SweepLog(s: Schedule, power: nat -> real, trace: bool): seq<SweepRow>
  {
    if SweepVerdict(s.numStep, trace).Abort? then SweepRows(s, power, 1)
    else SweepRows(s, power, Iterations(s.numStep))
  }

  lemma {:induction false} SweepRowsShape(s: Schedule, power: nat -> real, n: nat)
    ensures |SweepRows(s, power, n)| == n
    ensures forall i :: 0 <= i < n ==> SweepRows(s, power, n)[i] == SweepRow(FreqKey(s, i), power(i))
  {
    if n > 0 {
      SweepRowsShape(s, power, n - 1);
    }
  }

  /** The sweep log holds one [frequency, power] row per visited frequency,
      start + i * step with the reading of step i, for i < num_step; when the
      trace is saved, only the row of the first step is written. */
  lemma SweepLogShape(s: Schedule, power: nat -> real, trace: bool)
    ensures var log := SweepLog(s, power, trace);
      var n := if SweepVerdict(s.numStep, trace).Abort? then 1 else Iterations(s.numStep);
      |log| == n && forall i :: 0 <= i < n ==> log[i] == SweepRow(FreqKey(s, i), power(i))
  {
    SweepRowsShape(s, power, 1);
    SweepRowsShape(s, power, Iterations(s.numStep));
  }

  lemma CaptureFacts(s: Schedule, shot: bool, i: nat)
    ensures Fresh(Capture(s, shot, i)) && Avoids(Capture(s, shot, i), VoltageSource)
    ensures Count(Capture(s, shot, i), Write(SignalGenerator, FreqUp)) == 0
  {
    CountAbsent(Capture(s, shot, i), Write(SignalGenerator, FreqUp));
  }

  lemma SetupFacts(s: Schedule)
    ensures Fresh(SweepSetup(s)) && Avoids(SweepSetup(s), VoltageSource)
    ensures Count(SweepSetup(s), Write(SignalGenerator, FreqUp)) == 0
    ensures Fresh(TraceCmds) && Avoids(TraceCmds, VoltageSource)
    ensures Count(TraceCmds, Write(SignalGenerator, FreqUp)) == 0
    ensures Fresh(Advance) && Avoids(Advance, VoltageSource)
  {
    CountAbsent(SweepSetup(s), Write(SignalGenerator, FreqUp));
    CountAbsent(TraceCmds, Write(SignalGenerator, FreqUp));
  }

  /** Every reading of the log follows a fresh averaging cycle, and nothing
      in it goes to the voltage source. */
  predicate FreshNoVoltage(w: seq<Write>)
  {
    Fresh(w) && Avoids(w, VoltageSource)
  }

  lemma FreshNoVoltageAppend(a: seq<Write>, b: seq<Write>)
    requires FreshNoVoltage(a) && FreshNoVoltage(b)
    ensures FreshNoVoltage(a + b)
  {
    FreshAppend(a, b);
    AvoidsAppend(a, b, VoltageSource);
  }

  lemma AdvanceFreshNoVoltage()
    ensures FreshNoVoltage(Advance)
  {
  }

  lemma {:induction false} SteppedFreshNoVoltage(s: Schedule, shot: bool, k: nat)
    ensures FreshNoVoltage(Stepped(s, shot, k))
  {
    if k > 0 {
      var front := Stepped(s, shot, k - 1);
      var c := Capture(s, shot, k - 1);
      assert Stepped(s, shot, k) == (front + c) + Advance;
      SteppedFreshNoVoltage(s, shot, k - 1);
      CaptureFacts(s, shot, k - 1);
      AdvanceFreshNoVoltage();
      FreshNoVoltageAppend(front, c);
      FreshNoVoltageAppend(front + c, Advance);
    }
  }

  lemma {:induction false} SteppedUps(s: Schedule, shot: bool, k: nat)
    ensures Count(Stepped(s, shot, k), Write(SignalGenerator, FreqUp)) == k
  {
    if k > 0 {
      var front := Stepped(s, shot, k - 1);
      var c := Capture(s, shot, k - 1);
      var w := front + c;
      assert Stepped(s, shot, k) == w + Advance;
      SteppedUps(s, shot, k - 1);
      CountAbsent(c, Write(SignalGenerator, FreqUp));
      CountAppend(front, c, Write(SignalGenerator, FreqUp));
      AdvanceUps(w);
    }
  }

  lemma SteppedFacts(s: Schedule, shot: bool, k: nat)
    ensures FreshNoVoltage(Stepped(s, shot, k))
    ensures Count(Stepped(s, shot, k), Write(SignalGenerator, FreqUp)) == k
  {
    SteppedFreshNoVoltage(s, shot, k);
    SteppedUps(s, shot, k);
  }

  lemma AdvanceUps(w: seq<Write>)
    ensures Count(w + Advance, Write(SignalGenerator, FreqUp)) == Count(w, Write(SignalGenerator, FreqUp)) + 1
  {
    var up := Write(SignalGenerator, FreqUp);
    CountAppend(w, Advance, up);
    assert Advance == [up] + [Write(SpectrumAnalyzer, AverClear)];
    CountAppend([up], [Write(SpectrumAnalyzer, AverClear)], up);
    assert [up][..0] == [] && [Write(SpectrumAnalyzer, AverClear)][..0] == [];
  }

  lemma TraceRunFacts(s: Schedule, shot: bool)
    ensures var w := SweepSetup(s) + Capture(s, shot, 0) + TraceCmds;
      FreshNoVoltage(w) && Count(w, Write(SignalGenerator, FreqUp)) == 0
  {
    var up := Write(SignalGenerator, FreqUp);
    var setup := SweepSetup(s);
    var c := Capture(s, shot, 0);
    SetupFacts(s);
    CaptureFacts(s, shot, 0);
    FreshNoVoltageAppend(setup, c);
    FreshNoVoltageAppend(setup + c, TraceCmds);
    CountAppend(setup + c, TraceCmds, up);
    CountAppend(setup, c, up);
  }

  lemma FullRunFacts(s: Schedule, shot: bool, k: nat)
    ensures var w := SweepSetup(s) + Stepped(s, shot, k) + Capture(s, shot, k);
      FreshNoVoltage(w) && Count(w, Write(SignalGenerator, FreqUp)) == k
  {
    var up := Write(SignalGenerator, FreqUp);
    var setup := SweepSetup(s);
    var st := Stepped(s, shot, k);
    var c := Capture(s, shot, k);
    SetupFacts(s);
    SteppedFacts(s, shot, k);
    CaptureFacts(s, shot, k);
    FreshNoVoltageAppend(setup, st);
    FreshNoVoltageAppend(setup + st, c);
    CountAppend(setup + st, c, up);
    CountAppend(setup, st, up);
  }

  /** A log ending in the capture of a step reads a power in that capture
      and moves the generator nowhere after that reading. */
  lemma CaptureEnds(p: seq<Write>, s: Schedule, shot: bool, i: nat)
    ensures var w := p + Capture(s, shot, i);
      w[|p| + 2] == Write(SpectrumAnalyzer, MarkY) &&
      forall k :: |p| + 2 < k < |w| ==> w[k] != Write(SignalGenerator, FreqUp)
  {
    var c := Capture(s, shot, i);
    forall k | |p| + 2 < k < |p + c|
      ensures (p + c)[k] != Write(SignalGenerator, FreqUp)
    {
      assert (p + c)[k] == c[k - |p|];
    }
  }

  /** The sweep test never writes to the voltage source, reads every power
      after a fresh averaging cycle, and moves the generator num_step - 1
      times, never after the last reading. */
  lemma SweepWritesFacts(s: Schedule, shot: bool, trace: bool)
    ensures Avoids(SweepWrites(s, shot, trace), VoltageSource)
    ensures Fresh(SweepWrites(s, shot, trace))
    ensures Count(SweepWrites(s, shot, trace), Write(SignalGenerator, FreqUp)) ==
      if trace || Iterations(s.numStep) == 0 then 0 else Iterations(s.numStep) - 1
    ensures !trace && Iterations(s.numStep) > 0 ==>
      var w := SweepWrites(s, shot, trace);
      exists last :: 0 <= last < |w| && w[last] == Write(SpectrumAnalyzer, MarkY) &&
        forall k :: last < k < |w| ==> w[k] != Write(SignalGenerator, FreqUp)
  {
    var n := Iterations(s.numStep);
    if n == 0 {
      SetupFacts(s);
    } else if trace {
      TraceRunFacts(s, shot);
    } else {
      FullRunFacts(s, shot, n - 1);
      var p := SweepSetup(s) + Stepped(s, shot, n - 1);
      CaptureEnds(p, s, shot, n - 1);
      assert SweepWrites(s, shot, trace) == p + Capture(s, shot, n - 1);
      assert SweepWrites(s, shot, trace)[|p| + 2] == Write(SpectrumAnalyzer, MarkY);
    }
  }

  lemma {:induction false} SteppedScreens(s: Schedule, k: nat, i: nat)
    requires i < k
    ensures Write(SpectrumAnalyzer, StoreScreen(FreqKey(s, i))) in Stepped(s, true, k)
  {
    var front := Stepped(s, true, k - 1);
    var c := Capture(s, true, k - 1);
    assert Stepped(s, true, k) == (front + c) + Advance;
    if i < k - 1 {
      SteppedScreens(s, k - 1, i);
    } else {
      assert c[4] == Write(SpectrumAnalyzer, StoreScreen(FreqKey(s, i)));
    }
  }

  /** With screenshots on, the analyzer stores a screenshot named after every
      frequency the test measures; with them off, it stores none. */
  lemma SweepScreenshots(s: Schedule, shot: bool, trace: bool)
    ensures shot ==>
      forall i :: 0 <= i < (if SweepVerdict(s.numStep, trace).Abort? then 1 else Iterations(s.numStep)) ==>
        Write(SpectrumAnalyzer, StoreScreen(FreqKey(s, i))) in SweepWrites(s, shot, trace)
    ensures !shot ==> NoScreens(SweepWrites(s, shot, trace))
  {
    var n := Iterations(s.numStep);
    if shot {
      forall i | 0 <= i < (if SweepVerdict(s.numStep, trace).Abort? then 1 else n)
        ensures Write(SpectrumAnalyzer, StoreScreen(FreqKey(s, i))) in SweepWrites(s, shot, trace)
      {
        if trace {
          assert SweepWrites(s, shot, trace) == (SweepSetup(s) + Capture(s, shot, 0)) + TraceCmds;
          assert Capture(s, shot, 0)[4] == Write(SpectrumAnalyzer, StoreScreen(FreqKey(s, i)));
        } else if i < n - 1 {
          SteppedScreens(s, n - 1, i);
          assert SweepWrites(s, shot, trace) == (SweepSetup(s) + Stepped(s, shot, n - 1)) + Capture(s, shot, n - 1);
        } else {
          assert SweepWrites(s, shot, trace) == (SweepSetup(s) + Stepped(s, shot, n - 1)) + Capture(s, shot, n - 1);
          assert Capture(s, shot, n - 1)[4] == Write(SpectrumAnalyzer, StoreScreen(FreqKey(s, i)));
        }
      }
    } else {
      NoScreensAppend(SweepSetup(s), Capture(s, false, 0));
      NoScreensAppend(SweepSetup(s) + Capture(s, false, 0), TraceCmds);
      if n > 0 {
        NoScreensStepped(s, n - 1);
        NoScreensAppend(SweepSetup(s), Stepped(s, false, n - 1));
        NoScreensAppend(SweepSetup(s) + Stepped(s, false, n - 1), Capture(s, false, n - 1));
      }
    }
  }

  /** No command of the log stores a screenshot. */
  predicate NoScreens(w: seq<Write>)
  {
    forall k :: 0 <= k < |w| ==> !w[k].cmd.StoreScreen?
  }

  lemma NoScreensAppend(a: seq<Write>, b: seq<Write>)
    requires NoScreens(a) && NoScreens(b)
    ensures NoScreens(a + b)
  {
    forall k | 0 <= k < |a + b| ensures !(a + b)[k].cmd.StoreScreen? {
      if k >= |a| {
        assert (a + b)[k] == b[k - |a|];
      }
    }
  }

  lemma {:induction false} NoScreensStepped(s: Schedule, k: nat)
    ensures NoScreens(Stepped(s, false, k))
  {
    if k > 0 {
      NoScreensStepped(s, k - 1);
      NoScreensAppend(Stepped(s, false, k - 1), Capture(s, false, k - 1));
      NoScreensAppend(Stepped(s, false, k - 1) + Capture(s, false, k - 1), Advance);
    }
  }

  // ---------------------------------------------------------------------
  // The fluctuation test.

  /** The fluctuation test's set-up: analyzer centre and marker, the
      generator fixed at the start frequency, averaging off. */
  function FlucSetup(s: Schedule): seq<Write>
  {
    [Write(SpectrumAnalyzer, FreqCent(s.centre)), Write(SpectrumAnalyzer, MarkCent),
     Write(SignalGenerator, FreqFix(s.sweepStart)), Write(SpectrumAnalyzer, AverOff)]
  }

  /** n un-averaged readings: CALC:MARK:CENT, CALC:MARK:Y? each. */
  function Reads(n: nat): seq<Write>
  {
    seq(2 * n, k => if k % 2 == 0 then Write(SpectrumAnalyzer, MarkCent) else Write(SpectrumAnalyzer, MarkY))
  }

  lemma ReadsNext(n: nat)
    ensures Reads(n + 1) == Reads(n) + [Write(SpectrumAnalyzer, MarkCent), Write(SpectrumAnalyzer, MarkY)]
  {
  }

  /** The number of readings the fluctuation test takes. */
  const FlucReadings: nat := 500

  function FlucWrites(s: Schedule): seq<Write>
  {
    FlucSetup(s) + Reads(FlucReadings)
  }

  /** The rows of the first n readings: row k is numbered k + 1 and holds
      reading k. */
  function FlucRows(sample: nat -> real, n: nat): seq<FlucRow>
  {
    seq(n, k requires 0 <= k => FlucRow(k + 1, sample(k)))
  }

  lemma FlucRowsNext(sample: nat -> real, n: nat)
    ensures FlucRows(sample, n + 1) == FlucRows(sample, n) + [FlucRow(n + 1, sample(n))]
  {
  }

  lemma {:induction false} ReadsFacts(n: nat)
    ensures Count(Reads(n), Write(SpectrumAnalyzer, MarkY)) == n
    ensures forall k :: 0 <= k < |Reads(n)| ==>
      Reads(n)[k] == Write(SpectrumAnalyzer, MarkCent) || Reads(n)[k] == Write(SpectrumAnalyzer, MarkY)
  {
    if n > 0 {
      var y := Write(SpectrumAnalyzer, MarkY);
      var pair := [Write(SpectrumAnalyzer, MarkCent), y];
      ReadsFacts(n - 1);
      ReadsNext(n - 1);
      CountAppend(Reads(n - 1), pair, y);
      assert pair[..1] == [Write(SpectrumAnalyzer, MarkCent)] && pair[..1][..0] == [];
      assert Count([Write(SpectrumAnalyzer, MarkCent)], y) == 0;
      assert Count(pair, y) == Count(pair[..1], y) + 1;
      forall k | 0 <= k < |Reads(n)|
        ensures Reads(n)[k] == Write(SpectrumAnalyzer, MarkCent) || Reads(n)[k] == y
      {
        if k < |Reads(n - 1)| {
          assert Reads(n)[k] == Reads(n - 1)[k];
        } else {
          assert Reads(n)[k] == pair[k - |Reads(n - 1)|];
        }
      }
    }
  }

  /** The fluctuation test takes 500 readings with averaging switched off and
      never switched back on, the generator held at one frequency, and no
      write to the voltage source. */
  lemma FlucWritesFacts(s: Schedule)
    ensures FlucWrites(s)[3] == Write(SpectrumAnalyzer, AverOff)
    ensures Count(FlucWrites(s), Write(SpectrumAnalyzer, MarkY)) == FlucReadings
    ensures Count(FlucWrites(s), Write(SpectrumAnalyzer, AverOn)) == 0
    ensures Count(FlucWrites(s), Write(SignalGenerator, FreqUp)) == 0
    ensures Avoids(FlucWrites(s), VoltageSource)
  {
    var y := Write(SpectrumAnalyzer, MarkY);
    ReadsFacts(FlucReadings);
    CountAbsent(FlucSetup(s), y);
    CountAppend(FlucSetup(s), Reads(FlucReadings), y);
    CountAbsent(FlucWrites(s), Write(SpectrumAnalyzer, AverOn));
    CountAbsent(FlucWrites(s), Write(SignalGenerator, FreqUp));
  }

  // ---------------------------------------------------------------------
  // The controller.

  /** The run of the script's entry point: FreqSweep(65, 160, 1, 1, 0.047,
      5, False, False) visits 20 frequencies, 65, 70, ..., 160 GHz, and starts
      the generator at 65.047 GHz. */
  lemma CallSiteSchedule()
    ensures NumSteps(65, 160, 5) == 20 && 65 + (20 - 1) * 5 == 160
    ensures (65 as real + 0.047) / 1 as real == 65.047
    ensures SpectrumAnalyzer in Opened(1) && VoltageSource !in Opened(1)
  {
  }

  /** The instruments initialize_instrument opens when it succeeds: all three
      for version 0, the generator and the analyzer for version 1, and none
      for any other version; a handle it does not open keeps the None that
      __init__ gave it. */
  function Opened(version: int): set<Instrument>
  {
    if version == 0 then {VoltageSource, SignalGenerator, SpectrumAnalyzer}
    else if version == 1 then {SignalGenerator, SpectrumAnalyzer}
    else {}
  }

  /** A FreqSweep object: the constructor's parameters and what it derives
      from them, the frequency-to-voltage map, the commands written to the
      instruments so far (in order), and the contents of the CSV files it
      writes. */
  class FreqSweep {
    const freqStart: int
    const freqStep: int
    const freqEnd: int
    const multiplier: int
    const version: int
    const saCentFreq: real
    const doScreenshot: bool
    const saveTraceData: bool
    const sweepFreqStart: real
    const sweepFreqStep: real
    const numStep: int
    /** The voltage ladder biasing_calibration hard-codes. */
    const ladder: VoltSearch

    var freqVolt: map<int, int>
    var isCalibrated: bool
    var bus: seq<Write>
    var calLog: seq<CalRow>
    var sweepLog: seq<SweepRow>
    var flucLog: seq<FlucRow>
    var mapFile: Option<seq<CsvRow>>

    /** The constructor divides by freq_step and by multiplier, so both are
        non-zero for every object; and the hard-coded ladder stays below the
        ceiling and is not empty. */
    ghost predicate Valid()
    {
      freqStep != 0 && multiplier != 0 && FirstOver(ladder) == ladder.steps > 0
    }

    /** The schedule every run of this object follows. */
    function Plan(): Schedule
    {
      Schedule(saCentFreq, sweepFreqStart, sweepFreqStep, freqStart, freqStep, numStep)
    }

    /** __init__. mapFile is freq_volt_map.csv as found on disk: None when
        there is none. */
    constructor(freqStart: int, freqEnd: int, multiplier: int, version: int, saCentFreq: real,
                freqStep: int, doScreenshot: bool, saveTraceData: bool, mapFile: Option<seq<CsvRow>>)
      requires freqStep != 0 && multiplier != 0
      ensures Valid()
      ensures this.freqStart == freqStart && this.freqEnd == freqEnd && this.freqStep == freqStep
      ensures this.multiplier == multiplier && this.version == version && this.saCentFreq == saCentFreq
      ensures this.doScreenshot == doScreenshot && this.saveTraceData == saveTraceData
      ensures ladder == Ladder
      ensures sweepFreqStart == (freqStart as real + saCentFreq) / multiplier as real
      ensures sweepFreqStep == freqStep as real / multiplier as real
      ensures numStep == NumSteps(freqStart, freqEnd, freqStep)
      ensures freqVolt == map[] && !isCalibrated && bus == []
      ensures calLog == [] && sweepLog == [] && flucLog == [] && this.mapFile == mapFile
    {
      this.freqStart := freqStart;
      this.freqStep := freqStep;
      this.freqEnd := freqEnd;
      this.multiplier := multiplier;
      this.version := version;
      this.saCentFreq := saCentFreq;
      this.doScreenshot := doScreenshot;
      this.saveTraceData := saveTraceData;
      sweepFreqStart := (freqStart as real + saCentFreq) / multiplier as real;
      sweepFreqStep := freqStep as real / multiplier as real;
      numStep := FloorDiv(freqEnd - freqStart, freqStep) + 1;
      ladder := Ladder;
      CalibrationFacts.LadderNeverAborts(0);
      freqVolt := map[];
      isCalibrated := false;
      bus := [];
      calLog := [];
      sweepLog := [];
      flucLog := [];
      this.mapFile := mapFile;
    }

    /** biasing_calibration: the ladder search at every frequency step; the
        best voltage of each step is added to freq_volt, which is then saved.
        With all three instruments open the hard-coded ladder always
        completes. Without the voltage source (version 1) the set-up is
        written and the log file opened, and then the first VOLT write
        raises: inside the loop, or after it, once is_calibrated is set, when
        there are no steps. Without the analyzer its first write raises. */
    method BiasingCalibration(power: (nat, nat) -> real)
      returns (outcome: Outcome, ghost found: map<int, int>, ghost order: seq<int>)
      requires Valid()
      modifies this`bus, this`calLog, this`freqVolt, this`isCalibrated, this`mapFile
      ensures VoltageSource in Opened(version) ==>
        outcome == Done && isCalibrated &&
        bus == old(bus) + Writes(ladder, Plan()) &&
        calLog == LogOf(ladder, Plan(), power) &&
        Calibrated(ladder, Plan(), power, found, Iterations(numStep)) &&
        freqVolt == old(freqVolt) + found &&
        IsOrdering(order, freqVolt) && mapFile == Some(RowsOf(order, freqVolt))
      ensures VoltageSource !in Opened(version) ==>
        outcome.Abort? && freqVolt == old(freqVolt) && mapFile == old(mapFile)
      ensures SpectrumAnalyzer in Opened(version) && VoltageSource !in Opened(version) ==>
        outcome == Abort(Unopened(VoltageSource)) &&
        bus == old(bus) + Setup(Plan()) && calLog == [] &&
        isCalibrated == (old(isCalibrated) || numStep <= 0)
      ensures SpectrumAnalyzer !in Opened(version) ==>
        outcome == Abort(Unopened(SpectrumAnalyzer)) &&
        bus == old(bus) && calLog == old(calLog) && isCalibrated == old(isCalibrated)
    {
      found, order := map[], [];
      if SpectrumAnalyzer !in Opened(version) {
        return Abort(Unopened(SpectrumAnalyzer)), found, order;
      }
      if VoltageSource !in Opened(version) {
        bus := bus + Setup(Plan());
        calLog := [];
        if numStep <= 0 {
          isCalibrated := true;
        }
        return Abort(Unopened(VoltageSource)), found, order;
      }
      outcome, found := CalibrationLoop(power);
      order := WriteVmapToCsv(freqVolt);
    }

    /** The part of biasing_calibration before the map is saved; found is
        what this run maps each visited frequency to. */
    method CalibrationLoop(power: (nat, nat) -> real) returns (outcome: Outcome, ghost found: map<int, int>)
      requires Valid() && VoltageSource in Opened(version)
      modifies this`bus, this`calLog, this`freqVolt, this`isCalibrated
      ensures outcome == Done && isCalibrated
      ensures bus == old(bus) + Writes(ladder, Plan())
      ensures calLog == LogOf(ladder, Plan(), power)
      ensures Calibrated(ladder, Plan(), power, found, Iterations(numStep))
      ensures freqVolt == old(freqVolt) + found
    {
      var run := Run(ladder, Plan(), power);
      assert run.outcome == Done;
      bus := bus + run.writes;
      calLog := run.log;
      freqVolt := freqVolt + run.found;
      isCalibrated := true;
      outcome := run.outcome;
      found := run.found;
    }

    /** freq_sweep_test: one averaged reading per frequency, with an optional
        screenshot and trace capture; the generator moves between frequencies
        but not after the last one. It needs the generator and the analyzer
        only; with neither open its first analyzer write raises. */
    method FreqSweepTest(power: nat -> real) returns (outcome: Outcome)
      modifies this`bus, this`sweepLog
      ensures SpectrumAnalyzer in Opened(version) ==>
        outcome == SweepVerdict(numStep, saveTraceData) &&
        bus == old(bus) + SweepWrites(Plan(), doScreenshot, saveTraceData) &&
        sweepLog == SweepLog(Plan(), power, saveTraceData)
      ensures SpectrumAnalyzer !in Opened(version) ==>
        outcome == Abort(Unopened(SpectrumAnalyzer)) && bus == old(bus) && sweepLog == old(sweepLog)
    {
      if SpectrumAnalyzer !in Opened(version) {
        return Abort(Unopened(SpectrumAnalyzer));
      }
      var s := Plan();
      bus := bus + SweepSetup(s);
      ghost var start := bus;
      var currFreq := freqStart;
      var rows: seq<SweepRow> := [];
      sweepLog := rows;
      var i := 0;
      while i < numStep
        invariant i == 0 || 0 < i < numStep
        invariant currFreq == FreqKey(s, i)
        invariant bus == start + Stepped(s, doScreenshot, i)
        invariant rows == SweepRows(s, power, i) && sweepLog == rows
        invariant saveTraceData ==> i == 0
      {
        var measPwr := MeasureStep(s, i, currFreq, power);
        rows := rows + [SweepRow(currFreq, measPwr)];
        sweepLog := rows;
        if saveTraceData {
          GetTraceData();
          SweepEndTrace(old(bus), s, doScreenshot);
          return Abort(TraceRowNotIterable);
        }
        if i + 1 == numStep {
          SweepEndFull(old(bus), s, doScreenshot, i);
          break;
        }
        bus := bus + Advance;
        SweepNext(start, s, doScreenshot, i);
        FreqKeyNext(s, i);
        currFreq := currFreq + freqStep;
        i := i + 1;
      }
      if numStep <= 0 {
        SweepEndNone(old(bus), s, doScreenshot, saveTraceData);
      }
      outcome := Done;
    }

    /** The measuring half of a sweep step: an averaged reading at the
        frequency of step i, then the screenshot when asked for. */
    method MeasureStep(s: Schedule, i: nat, currFreq: int, power: nat -> real) returns (measPwr: real)
      requires currFreq == FreqKey(s, i)
      modifies this`bus
      ensures bus == old(bus) + Capture(s, doScreenshot, i) && measPwr == power(i)
    {
      bus := bus + Measure;
      measPwr := power(i);
      if doScreenshot {
        SaveScreenshot(currFreq);
      }
    }

    /** save_screenshot: the analyzer stores its screen under a name made of
        the frequency. */
    method SaveScreenshot(freq: int)
      modifies this`bus
      ensures bus == old(bus) + Screenshot(freq)
    {
      bus := bus + Screenshot(freq);
    }

    /** get_trace_data: a single sweep and a trace query whose reply is
        discarded; it returns None. */
    method GetTraceData()
      modifies this`bus
      ensures bus == old(bus) + TraceCmds
    {
      bus := bus + TraceCmds;
    }

    /** fluctuation_test: 500 un-averaged readings at the start frequency.
        Like the sweep test it needs the generator and the analyzer only. */
    method FluctuationTest(sample: nat -> real) returns (outcome: Outcome)
      modifies this`bus, this`flucLog
      ensures SpectrumAnalyzer in Opened(version) ==>
        outcome == Done && bus == old(bus) + FlucWrites(Plan()) && flucLog == FlucRows(sample, FlucReadings)
      ensures SpectrumAnalyzer !in Opened(version) ==>
        outcome == Abort(Unopened(SpectrumAnalyzer)) && bus == old(bus) && flucLog == old(flucLog)
    {
      if SpectrumAnalyzer !in Opened(version) {
        return Abort(Unopened(SpectrumAnalyzer));
      }
      bus := bus + FlucSetup(Plan());
      ghost var start := bus;
      var rows: seq<FlucRow> := [];
      flucLog := rows;
      var i := 0;
      while i < FlucReadings
        invariant 0 <= i <= FlucReadings
        invariant bus == start + Reads(i)
        invariant rows == FlucRows(sample, i) && flucLog == rows
      {
        ReadsNext(i);
        FlucRowsNext(sample, i);
        bus := bus + [Write(SpectrumAnalyzer, MarkCent), Write(SpectrumAnalyzer, MarkY)];
        var measPwr := sample(i);
        rows := rows + [FlucRow(i + 1, measPwr)];
        flucLog := rows;
        i := i + 1;
      }
      outcome := Done;
    }

    /** write_vmap_to_csv: one [key, value] row per entry of mydict, in its
        iteration order. ReadOrdered shows that reading such a file back
        gives mydict's pairs as text. */
    method WriteVmapToCsv(mydict: map<int, int>) returns (ghost order: seq<int>)
      modifies this`mapFile
      ensures IsOrdering(order, mydict) && mapFile == Some(RowsOf(order, mydict))
    {
      var rows;
      rows, order := MapRows(mydict);
      mapFile := Some(rows);
    }

    /** read_vmap_from_csv: None when there is no file or some row is not a
        pair; a file holding the rows of a map m gives m as text. */
    method ReadVmapFromCsv() returns (d: Option<map<string, string>>)
      ensures d == ReadVmap(mapFile)
      ensures d.None? <==> mapFile.None? || exists i :: 0 <= i < |mapFile.value| && |mapFile.value[i]| != 2
      ensures forall m :: mapFile.Some? && IsRowsOf(mapFile.value, m) ==> d == Some(Shown(m))
    {
      d := ReadVmap(mapFile);
      ReadFails(mapFile);
      forall m | mapFile.Some? && IsRowsOf(mapFile.value, m)
        ensures d == Some(Shown(m))
      {
        WriteThenRead(mapFile.value, m);
      }
    }
  }
}
