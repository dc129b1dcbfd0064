/** pyvisa_mixer_freq_sweep.py: the mixer calibration controller. Its search
    differs from the one of Calibration: the voltage written at candidate j is
    curr_volt + j * 0.01 rather than curr_volt, the ceiling is checked against
    that written value, the sample dictionary is never cleared between
    frequencies, no CSV log is kept, and the step count is
    int((freq_start - freq_end) / 5), without the + 1 and with the operands in
    the opposite order. */
module MixerFreqSweep {

  import opened Bench
  import opened Calibration
  import opened CalibrationFacts
  import opened VoltMapCsv

  /** initial_voltage = 0.05, volt_step = 0.01, volt_steps = 25, ceiling 0.5. */
  const MixerLadder := VoltSearch(50, 10, 25, 500)

  /** The literal 0.01 of curr_volt + j * 0.01, in millivolts. */
  const IndexStep: int := 10

  /** The analyzer centre, in GHz, this version hard-codes. */
  const AnalyzerCentre: real := 0.065

  /** The frequency step, in GHz, biasing_calibration hard-codes. */
  const MixerFreqStep: int := 5

  /** The step count of __init__: int((freq_start - freq_end) / 5). */
  function MixerNumSteps(start: int, end: int): int
  {
    FloorDiv(start - end, MixerFreqStep)
  }

  /** The voltage written, and checked against the ceiling, at candidate j. */
  function Applied(cfg: VoltSearch, j: nat): int
  {
    Candidate(cfg, j) + j * IndexStep
  }

  /** The ladder of the written voltages: the same start, but an increment of
      volt_step + 0.01 per candidate. */
  function AppliedLadder(cfg: VoltSearch): (w: VoltSearch)
    ensures w.initial == cfg.initial && w.steps == cfg.steps && w.ceiling == cfg.ceiling
  {
    cfg.(step := cfg.step + IndexStep)
  }

  /** The written voltages climb twice as fast as the dictionary keys: the
      written voltage of candidate j is the j-th candidate of AppliedLadder. */
  lemma AppliedIsLadder(cfg: VoltSearch, j: nat)
    ensures Applied(cfg, j) == Candidate(AppliedLadder(cfg), j)
  {
    assert j * (cfg.step + IndexStep) == j * cfg.step + j * IndexStep;
  }

  /** The instrument set-up before the frequency loop. */
  function MixerSetup(s: Schedule): seq<Write>
  {
    [ Write(SpectrumAnalyzer, FreqCent(s.centre)), Write(SpectrumAnalyzer, MarkCent),
      Write(SpectrumAnalyzer, AverOn), Write(SpectrumAnalyzer, AverCount(15)),
      Write(SignalGenerator, FreqFix(s.sweepStart)), Write(SignalGenerator, FreqStep(s.sweepStep)) ]
  }

  /** Writing voltage v and reading one power, without clearing the average. */
  function MixerProbe(v: int): seq<Write>
  {
    [Write(VoltageSource, Volt(v)), Write(SpectrumAnalyzer, MarkY)]
  }

  /** The probes of the first n candidates of one frequency. */
  function MixerProbes(cfg: VoltSearch, n: nat): seq<Write>
  {
    if n == 0 then [] else MixerProbes(cfg, n - 1) + MixerProbe(Applied(cfg, n - 1))
  }

  /** Moving the signal generator to the next frequency. */
  const Up: Write := Write(SignalGenerator, FreqUp)

  /** The commands of one complete frequency step. */
  function MixerPass(cfg: VoltSearch): seq<Write>
  {
    MixerProbes(cfg, cfg.steps) + [Up]
  }

  /** The commands of the first n complete frequency steps. */
  function MixerPasses(cfg: VoltSearch, n: nat): seq<Write>
  {
    if n == 0 then [] else MixerPasses(cfg, n - 1) + MixerPass(cfg)
  }

  lemma MixerPassesNext(cfg: VoltSearch, s: Schedule, i: nat)
    ensures MixerSetup(s) + MixerPasses(cfg, i) + MixerProbes(cfg, cfg.steps) + [Up] == MixerSetup(s) + MixerPasses(cfg, i + 1)
  {
  }

  lemma MixerFirstPassAborts(cfg: VoltSearch, s: Schedule, probes: seq<Write>)
    requires MixerVerdict(cfg, s.numStep).Abort? && probes == MixerProbes(cfg, FirstOver(AppliedLadder(cfg)))
    ensures MixerSetup(s) + MixerPasses(cfg, 0) + probes == MixerWrites(cfg, s)
  {
    assert MixerSetup(s) + MixerPasses(cfg, 0) == MixerSetup(s);
  }

  /** How a run ends: as a Calibration run over the ladder of written
      voltages, since that is the ladder the ceiling is checked against. */
  function MixerVerdict(cfg: VoltSearch, numStep: int): Outcome
  {
    Verdict(AppliedLadder(cfg), numStep)
  }

  /** Every command a run writes, in order. */
  function MixerWrites(cfg: VoltSearch, s: Schedule): seq<Write>
  {
    if MixerVerdict(cfg, s.numStep).Abort? then MixerSetup(s) + MixerProbes(cfg, FirstOver(AppliedLadder(cfg)))
    else MixerSetup(s) + MixerPasses(cfg, Iterations(s.numStep)) + [Reset]
  }

  /** volt_pwr after the frequency steps before i and the first n candidates
      of step i: it is made once, before the frequency loop, and never cleared. */
  function Carried(cfg: VoltSearch, power: (nat, nat) -> real, i: nat, n: nat): map<int, real>
    decreases i, n
  {
    if n > 0 then Carried(cfg, power, i, n - 1)[Candidate(cfg, n - 1) := power(i, n - 1)]
    else if i == 0 then map[]
    else Carried(cfg, power, i - 1, cfg.steps)
  }

  /** Whatever an earlier frequency left in volt_pwr is a candidate key. */
  lemma {:induction false} CarriedKeys(cfg: VoltSearch, power: (nat, nat) -> real, i: nat, n: nat)
    requires n <= cfg.steps
    ensures Carried(cfg, power, i, n).Keys <= CandidateKeys(cfg, cfg.steps)
    decreases i, n
  {
    if n > 0 {
      CarriedKeys(cfg, power, i, n - 1);
      CandidateKeysHas(cfg, n - 1, cfg.steps);
    } else if i > 0 {
      CarriedKeys(cfg, power, i - 1, cfg.steps);
    }
  }

  /** Candidate by candidate, the carried dictionary holds what a cleared one
      would, on top of what the step started with. */
  lemma {:induction false} CarriedAgrees(cfg: VoltSearch, power: (nat, nat) -> real, i: nat, n: nat)
    ensures forall k :: k in Samples(cfg, power, i, n) ==>
      k in Carried(cfg, power, i, n) && Carried(cfg, power, i, n)[k] == Samples(cfg, power, i, n)[k]
    ensures forall k :: k in Carried(cfg, power, i, n) ==>
      k in Samples(cfg, power, i, n) || k in Carried(cfg, power, i, 0)
  {
    if n > 0 {
      CarriedAgrees(cfg, power, i, n - 1);
    }
  }

  /** The dictionary is never cleared, but every frequency step overwrites
      every key an earlier one wrote: after a complete step it is exactly the
      dictionary a cleared one would give, so the maximum is taken over this
      frequency's readings only. */
  lemma CarriedIsFresh(cfg: VoltSearch, power: (nat, nat) -> real, i: nat)
    ensures Carried(cfg, power, i, cfg.steps) == Samples(cfg, power, i, cfg.steps)
  {
    var c := Carried(cfg, power, i, cfg.steps);
    var f := Samples(cfg, power, i, cfg.steps);
    CarriedAgrees(cfg, power, i, cfg.steps);
    CarriedKeys(cfg, power, i, 0);
    SamplesKeys(cfg, power, i, cfg.steps);
    var base := Carried(cfg, power, i, 0);
    forall k | k in c ensures k in f {
      if k in base {
        assert k in CandidateKeys(cfg, cfg.steps);
      }
    }
    forall k | k in f ensures k in c && c[k] == f[k] {
    }
    assert c.Keys == f.Keys;
    assert c == f;
  }

  /** The inner loop of biasing_calibration at frequency step i: write
      curr_volt + j * 0.01 for each candidate j, stopping before the first
      written value above the ceiling; the reading is stored under curr_volt. */
  method TryMixerLadder(cfg: VoltSearch, power: (nat, nat) -> real, i: nat, voltPwr0: map<int, real>)
    returns (tooHigh: bool, writes: seq<Write>, voltPwr: map<int, real>)
    requires voltPwr0 == Carried(cfg, power, i, 0)
    ensures tooHigh <==> FirstOver(AppliedLadder(cfg)) < cfg.steps
    ensures writes == MixerProbes(cfg, FirstOver(AppliedLadder(cfg)))
    ensures !tooHigh ==> voltPwr == Carried(cfg, power, i, cfg.steps)
  {
    var currVolt := cfg.initial;
    writes, voltPwr := [], voltPwr0;
    var j := 0;
    while j < cfg.steps
      invariant 0 <= j <= cfg.steps
      invariant currVolt == Candidate(cfg, j)
      invariant forall j' :: 0 <= j' < j ==> Candidate(AppliedLadder(cfg), j') <= cfg.ceiling
      invariant writes == MixerProbes(cfg, j)
      invariant voltPwr == Carried(cfg, power, i, j)
    {
      AppliedIsLadder(cfg, j);
      if currVolt + j * IndexStep > cfg.ceiling {
        assert FirstOver(AppliedLadder(cfg)) == j;
        return true, writes, voltPwr;
      }
      writes := writes + MixerProbe(currVolt + j * IndexStep);
      var measPwr := power(i, j);
      voltPwr := voltPwr[currVolt := measPwr];
      currVolt := currVolt + cfg.step;
      j := j + 1;
    }
    assert FirstOver(AppliedLadder(cfg)) == cfg.steps;
    tooHigh := false;
  }

  /** What one mixer calibration run produced: how it ended, the commands it
      wrote, and the frequency-to-voltage entries it found. */
  datatype MixerRunResult = MixerRunResult(outcome: Outcome, writes: seq<Write>, found: map<int, int>)

  /** The loops of biasing_calibration, up to and including VOLT 0; the power
      read back at candidate j of frequency step i is power(i, j). */
  method MixerRun(cfg: VoltSearch, s: Schedule, power: (nat, nat) -> real) returns (run: MixerRunResult)
    requires s.freqStep != 0
    ensures run.outcome == MixerVerdict(cfg, s.numStep)
    ensures run.writes == MixerWrites(cfg, s)
    ensures run.outcome.Abort? ==> run.found == map[]
    ensures run.outcome.Done? ==> Calibrated(cfg, s, power, run.found, Iterations(s.numStep))
  {
    var writes := MixerSetup(s);
    var found: map<int, int> := map[];
    var voltPwr: map<int, real> := map[];
    var n := Iterations(s.numStep);
    var curFreq := s.freqStart;
    var i := 0;
    while i < n
      invariant 0 <= i <= n
      invariant curFreq == FreqKey(s, i)
      invariant writes == MixerSetup(s) + MixerPasses(cfg, i)
      invariant voltPwr == Carried(cfg, power, i, 0)
      invariant Calibrated(cfg, s, power, found, i)
      invariant i > 0 ==> FirstOver(AppliedLadder(cfg)) == cfg.steps && cfg.steps > 0
    {
      var tooHigh, probes;
      tooHigh, probes, voltPwr := TryMixerLadder(cfg, power, i, voltPwr);
      writes := writes + probes;
      if tooHigh {
        MixerFirstPassAborts(cfg, s, probes);
        return MixerRunResult(Abort(VoltageTooHigh), writes, found);
      }
      CarriedIsFresh(cfg, power, i);
      var empty, maxVolt := BestOfStep(cfg, s, power, found, i, voltPwr);
      if empty {
        MixerFirstPassAborts(cfg, s, probes);
        return MixerRunResult(Abort(NoSamples), writes, found);
      }
      found := found[curFreq := maxVolt];
      MixerPassesNext(cfg, s, i);
      writes := writes + [Up];
      FreqKeyNext(s, i);
      curFreq := curFreq + s.freqStep;
      i := i + 1;
    }
    writes := writes + [Reset];
    run := MixerRunResult(Done, writes, found);
  }

  // ---------------------------------------------------------------------
  // What the mixer search promises.

  lemma MixerProbeVolts(v: int)
    ensures Volts(MixerProbe(v)) == [v]
  {
    var p := MixerProbe(v);
    assert p == p[..1] + p[1..];
    VoltsAppend(p[..1], p[1..]);
    VoltsNone(p[1..]);
    assert p[..1][..0] == [];
  }

  lemma {:induction false} MixerProbesVolts(cfg: VoltSearch, n: nat)
    ensures Volts(MixerProbes(cfg, n)) == LadderVolts(AppliedLadder(cfg), n)
  {
    if n > 0 {
      MixerProbesVolts(cfg, n - 1);
      VoltsAppend(MixerProbes(cfg, n - 1), MixerProbe(Applied(cfg, n - 1)));
      MixerProbeVolts(Applied(cfg, n - 1));
      AppliedIsLadder(cfg, n - 1);
    }
  }

  lemma MixerPassVolts(cfg: VoltSearch)
    ensures Volts(MixerPass(cfg)) == LadderVolts(AppliedLadder(cfg), cfg.steps)
  {
    VoltsAppend(MixerProbes(cfg, cfg.steps), [Up]);
    MixerProbesVolts(cfg, cfg.steps);
    assert [Up][..0] == [];
  }

  lemma {:induction false} MixerPassesVolts(cfg: VoltSearch, n: nat)
    ensures Volts(MixerPasses(cfg, n)) == Repeat(LadderVolts(AppliedLadder(cfg), cfg.steps), n)
  {
    if n > 0 {
      MixerPassesVolts(cfg, n - 1);
      VoltsAppend(MixerPasses(cfg, n - 1), MixerPass(cfg));
      MixerPassVolts(cfg);
    }
  }

  /** The voltages a run writes, in order: the written ladder up to its first
      value above the ceiling, which is never written; or, on a completed run,
      the whole written ladder once per frequency step, then the reset to 0. */
  lemma MixerRunVolts(cfg: VoltSearch, s: Schedule)
    ensures MixerVerdict(cfg, s.numStep).Abort? ==>
      Volts(MixerWrites(cfg, s)) == LadderVolts(AppliedLadder(cfg), FirstOver(AppliedLadder(cfg)))
    ensures MixerVerdict(cfg, s.numStep).Done? ==>
      Volts(MixerWrites(cfg, s)) == Repeat(LadderVolts(AppliedLadder(cfg), cfg.steps), Iterations(s.numStep)) + [0]
  {
    VoltsNone(MixerSetup(s));
    if MixerVerdict(cfg, s.numStep).Abort? {
      VoltsAppend(MixerSetup(s), MixerProbes(cfg, FirstOver(AppliedLadder(cfg))));
      MixerProbesVolts(cfg, FirstOver(AppliedLadder(cfg)));
    } else {
      var n := Iterations(s.numStep);
      VoltsAppend(MixerSetup(s) + MixerPasses(cfg, n), [Reset]);
      VoltsAppend(MixerSetup(s), MixerPasses(cfg, n));
      MixerPassesVolts(cfg, n);
      assert [Reset][..0] == [];
    }
  }

  /** Safety ceiling: every voltage a run writes is within the ceiling, except
      the final reset to 0 of a completed run. */
  lemma MixerCeilingRespected(cfg: VoltSearch, s: Schedule)
    ensures var v := Volts(MixerWrites(cfg, s));
      forall k :: 0 <= k < |v| ==>
        v[k] <= cfg.ceiling || (MixerVerdict(cfg, s.numStep).Done? && k == |v| - 1 && v[k] == 0)
  {
    var w := AppliedLadder(cfg);
    MixerRunVolts(cfg, s);
    var over := FirstOver(w);
    forall k | 0 <= k < over ensures LadderVolts(w, over)[k] <= cfg.ceiling {
      LadderVoltsAt(w, over, k);
    }
    if MixerVerdict(cfg, s.numStep).Done? {
      var n := Iterations(s.numStep);
      if n > 0 {
        forall k | 0 <= k < cfg.steps ensures LadderVolts(w, cfg.steps)[k] <= cfg.ceiling {
          LadderVoltsAt(w, cfg.steps, k);
        }
        RepeatWithin(LadderVolts(w, cfg.steps), n, cfg.ceiling);
      }
    }
  }

  /** No command of the log clears the analyzer's average. */
  predicate NoClear(w: seq<Write>)
  {
    forall k :: 0 <= k < |w| ==> w[k] != Write(SpectrumAnalyzer, AverClear)
  }

  lemma NoClearAppend(a: seq<Write>, b: seq<Write>)
    requires NoClear(a) && NoClear(b)
    ensures NoClear(a + b)
  {
    forall k | 0 <= k < |a + b| ensures (a + b)[k] != Write(SpectrumAnalyzer, AverClear) {
      if k >= |a| {
        assert (a + b)[k] == b[k - |a|];
      }
    }
  }

  lemma {:induction false} MixerProbesNoClear(cfg: VoltSearch, n: nat)
    ensures NoClear(MixerProbes(cfg, n))
  {
    if n > 0 {
      MixerProbesNoClear(cfg, n - 1);
      NoClearAppend(MixerProbes(cfg, n - 1), MixerProbe(Applied(cfg, n - 1)));
    }
  }

  lemma {:induction false} MixerPassesNoClear(cfg: VoltSearch, n: nat)
    ensures NoClear(MixerPasses(cfg, n))
  {
    if n > 0 {
      MixerPassesNoClear(cfg, n - 1);
      MixerProbesNoClear(cfg, cfg.steps);
      NoClearAppend(MixerProbes(cfg, cfg.steps), [Up]);
      NoClearAppend(MixerPasses(cfg, n - 1), MixerPass(cfg));
    }
  }

  /** Unlike the Calibration search, a mixer run never writes AVER:CLE: each
      reading is taken on an average that runs on across candidates. */
  lemma MixerNeverClears(cfg: VoltSearch, s: Schedule)
    ensures Count(MixerWrites(cfg, s), Write(SpectrumAnalyzer, AverClear)) == 0
  {
    if MixerVerdict(cfg, s.numStep).Abort? {
      MixerProbesNoClear(cfg, FirstOver(AppliedLadder(cfg)));
      NoClearAppend(MixerSetup(s), MixerProbes(cfg, FirstOver(AppliedLadder(cfg))));
    } else {
      var n := Iterations(s.numStep);
      MixerPassesNoClear(cfg, n);
      NoClearAppend(MixerSetup(s), MixerPasses(cfg, n));
      NoClearAppend(MixerSetup(s) + MixerPasses(cfg, n), [Reset]);
    }
    CountAbsent(MixerWrites(cfg, s), Write(SpectrumAnalyzer, AverClear));
  }

  /** The voltage stored for a frequency is a dictionary key curr_volt, which
      lags the voltage written for that candidate by j * 0.01: it is the key
      of a reading of maximal power, but not the voltage that produced it. */
  lemma StoredIsKey(cfg: VoltSearch, power: (nat, nat) -> real, i: nat, v: int)
    requires cfg.step != 0
    requires IsBest(Carried(cfg, power, i, cfg.steps), v)
    ensures exists j ::
      (0 <= j < cfg.steps && v == Candidate(cfg, j) && Applied(cfg, j) == v + j * IndexStep &&
       forall j' :: 0 <= j' < cfg.steps ==> power(i, j') <= power(i, j))
  {
    CarriedIsFresh(cfg, power, i);
    BestIsCandidate(cfg, power, i, v);
  }

  /** Every voltage a completed run stores in the map is within the ceiling:
      it is a key curr_volt, which never exceeds the voltage written with it. */
  lemma MixerMapWithinCeiling(cfg: VoltSearch, s: Schedule, power: (nat, nat) -> real, found: map<int, int>)
    requires MixerVerdict(cfg, s.numStep).Done?
    requires Calibrated(cfg, s, power, found, Iterations(s.numStep))
    ensures forall f :: f in found ==> found[f] <= cfg.ceiling
  {
    var n := Iterations(s.numStep);
    forall f | f in found ensures found[f] <= cfg.ceiling {
      FreqKeysAre(s, n, f);
      var i :| 0 <= i < n && f == FreqKey(s, i);
      SamplesKeys(cfg, power, i, cfg.steps);
      CandidateKeysAre(cfg, cfg.steps, found[f]);
      var j :| 0 <= j < cfg.steps && found[f] == Candidate(cfg, j);
      AppliedIsLadder(cfg, j);
    }
  }

  /** With the hard-coded ladder the written voltage passes 0.5 V at candidate
      23 (0.51 V, after 0.49 V at candidate 22), so every run with a frequency
      step aborts on its first frequency and stores nothing. */
  lemma MixerLadderAborts(numStep: int)
    ensures FirstOver(AppliedLadder(MixerLadder)) == 23 < MixerLadder.steps
    ensures Applied(MixerLadder, 22) == 490 && Applied(MixerLadder, 23) == 510
    ensures MixerVerdict(MixerLadder, numStep) == if numStep > 0 then Abort(VoltageTooHigh) else Done
  {
  }

  /** The step count is positive only when freq_start exceeds freq_end by at
      least one 5 GHz step: an ascending range gives no frequency step at all. */
  lemma MixerStepsNegated(start: int, end: int)
    ensures Iterations(MixerNumSteps(start, end)) > 0 <==> start - end >= MixerFreqStep
    ensures start <= end ==> Iterations(MixerNumSteps(start, end)) == 0
  {
  }

  /** What a run with no frequency step writes: the set-up and the reset. */
  lemma NoStepWrites(cfg: VoltSearch, s: Schedule)
    requires s.numStep <= 0
    ensures MixerVerdict(cfg, s.numStep) == Done
    ensures MixerWrites(cfg, s) == MixerSetup(s) + [Reset]
  {
    assert MixerPasses(cfg, Iterations(s.numStep)) == [];
  }

  class FreqSweep {
    const freqStart: int
    const freqEnd: int
    const multiplier: int
    const version: int
    /** Stored, but never read by biasing_calibration. */
    const saCentFreq: real
    const sweepFreqStart: real
    const sweepFreqStep: real
    const numStep: int
    /** The voltage ladder biasing_calibration hard-codes. */
    const ladder: VoltSearch

    var freqVolt: map<int, int>
    var isCalibrated: bool
    var bus: seq<Write>
    var mapFile: Option<seq<CsvRow>>

    /** The constructor divides by multiplier, so it is non-zero for every
        object; and the hard-coded ladder's written voltages pass the ceiling. */
    ghost predicate Valid()
    {
      multiplier != 0 && FirstOver(AppliedLadder(ladder)) < ladder.steps
    }

    /** The schedule every calibration of this object follows. */
    function Plan(): Schedule
    {
      Schedule(AnalyzerCentre, sweepFreqStart, sweepFreqStep, freqStart, MixerFreqStep, numStep)
    }

    /** __init__. The generator step is the constant 5.065 / 3 whatever the
        multiplier; mapFile is freq_volt_map.csv as found on disk. */
    constructor(freqStart: int, freqEnd: int, multiplier: int, version: int, saCentFreq: real,
                mapFile: Option<seq<CsvRow>>)
      requires multiplier != 0
      ensures Valid()
      ensures this.freqStart == freqStart && this.freqEnd == freqEnd
      ensures this.multiplier == multiplier && this.version == version && this.saCentFreq == saCentFreq
      ensures ladder == MixerLadder
      ensures sweepFreqStart == (freqStart as real + AnalyzerCentre) / multiplier as real
      ensures sweepFreqStep == 5.065 / 3.0
      ensures numStep == MixerNumSteps(freqStart, freqEnd)
      ensures freqVolt == map[] && !isCalibrated && bus == [] && this.mapFile == mapFile
    {
      this.freqStart := freqStart;
      this.freqEnd := freqEnd;
      this.multiplier := multiplier;
      this.version := version;
      this.saCentFreq := saCentFreq;
      sweepFreqStart := (freqStart as real + AnalyzerCentre) / multiplier as real;
      sweepFreqStep := 5.065 / 3.0;
      numStep := FloorDiv(freqStart - freqEnd, MixerFreqStep);
      ladder := MixerLadder;
      MixerLadderAborts(0);
      freqVolt := map[];
      isCalibrated := false;
      bus := [];
      this.mapFile := mapFile;
    }

    /** biasing_calibration. With the hard-coded ladder it aborts on the
        first frequency whenever there is one; otherwise it only sets up the
        instruments, resets the voltage and marks the object calibrated. */
    method BiasingCalibration(power: (nat, nat) -> real) returns (outcome: Outcome, found: map<int, int>)
      requires Valid()
      modifies this`bus, this`freqVolt, this`isCalibrated
      ensures outcome == if numStep > 0 then Abort(VoltageTooHigh) else Done
      ensures bus == old(bus) + MixerWrites(ladder, Plan())
      ensures outcome.Done? ==>
        isCalibrated && Calibrated(ladder, Plan(), power, found, Iterations(numStep)) && freqVolt == old(freqVolt) + found
      ensures outcome.Abort? ==> freqVolt == old(freqVolt) && isCalibrated == old(isCalibrated)
    {
      var run := MixerRun(ladder, Plan(), power);
      bus := bus + run.writes;
      outcome := run.outcome;
      found := run.found;
      if outcome.Done? {
        freqVolt := freqVolt + found;
        isCalibrated := true;
      }
    }

    /** write_to_csv: one [key, value] row per entry of mydict, in its
        iteration order. */
    method WriteToCsv(mydict: map<int, int>) returns (ghost order: seq<int>)
      modifies this`mapFile
      ensures IsOrdering(order, mydict) && mapFile == Some(RowsOf(order, mydict))
    {
      var rows;
      rows, order := MapRows(mydict);
      mapFile := Some(rows);
    }
  }

  /** The call at the bottom of the file, FreqSweep(140, 200, 3, 0, 0.065):
      the step count is -12, so biasing_calibration visits no frequency,
      writes only the set-up and VOLT 0, and maps nothing. */
  lemma CallSiteSchedule(s: Schedule, power: (nat, nat) -> real)
    requires s.numStep == MixerNumSteps(140, 200)
    ensures s.numStep == -12 && Iterations(s.numStep) == 0
    ensures MixerWrites(MixerLadder, s) == MixerSetup(s) + [Reset]
    ensures forall found :: Calibrated(MixerLadder, s, power, found, 0) ==> found == map[]
  {
    NoStepWrites(MixerLadder, s);
  }
}
