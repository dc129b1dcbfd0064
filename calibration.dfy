/** The bias-calibration search of biasing_calibration in frequency_sweep.py and
    pyvisa_biasing_calibration_1.0.py (the two copies differ only in the analyzer
    centre they set): for each frequency step, try a fixed ladder of candidate
    voltages, abort before applying one above the ceiling, read one power per
    candidate, and keep a candidate of maximal power. */
module Calibration {

  import opened Bench

  /** The voltage ladder, in millivolts: first candidate, increment, number of
      candidates, and the safety ceiling above which the run aborts. */
  datatype VoltSearch = VoltSearch(initial: int, step: int, steps: nat, ceiling: int)

  /** initial_voltage = 0.1, volt_step = 0.01, volt_steps = 41, ceiling 0.65. */
  const Ladder := VoltSearch(100, 10, 41, 650)

  /** One row of the calibration log: [FREQ, V_G, MEAS_PWR]. */
  datatype CalRow = CalRow(freq: int, mv: int, power: real)

  /** What one calibration run produced: how it ended, the commands it wrote,
      the log rows, and the frequency-to-voltage entries it found. */
  datatype CalRun = CalRun(outcome: Outcome, writes: seq<Write>, log: seq<CalRow>, found: map<int, int>)

  /** Candidate j: the j-th value of curr_volt, initial + j * step. */
  function Candidate(cfg: VoltSearch, j: nat): int
  {
    cfg.initial + j * cfg.step
  }

  function FirstOverFrom(cfg: VoltSearch, j: nat): (k: nat)
    requires j <= cfg.steps
    ensures j <= k <= cfg.steps
    ensures forall i :: j <= i < k ==> Candidate(cfg, i) <= cfg.ceiling
    ensures k < cfg.steps ==> Candidate(cfg, k) > cfg.ceiling
    decreases cfg.steps - j
  {
    if j == cfg.steps || Candidate(cfg, j) > cfg.ceiling then j else FirstOverFrom(cfg, j + 1)
  }

  /** The index of the first candidate above the ceiling, or steps if none is. */
  function FirstOver(cfg: VoltSearch): (k: nat)
    ensures k <= cfg.steps
    ensures forall i :: 0 <= i < k ==> Candidate(cfg, i) <= cfg.ceiling
    ensures k < cfg.steps ==> Candidate(cfg, k) > cfg.ceiling
  {
    FirstOverFrom(cfg, 0)
  }

  /** The instrument set-up before the frequency loop. */
  function Setup(s: Schedule): seq<Write>
  {
    [ Write(SpectrumAnalyzer, FreqCent(s.centre)), Write(SpectrumAnalyzer, MarkCent),
      Write(SpectrumAnalyzer, AverOn), Write(SpectrumAnalyzer, AverCount(10)),
      Write(SignalGenerator, FreqFix(s.sweepStart)), Write(SignalGenerator, FreqStep(s.sweepStep)) ]
  }

  /** Applying candidate v and measuring the power it gives. */
  function Probe(v: int): seq<Write>
  {
    [ Write(VoltageSource, Volt(v)), Write(SpectrumAnalyzer, AverClear),
      Write(SpectrumAnalyzer, MarkCent), Write(SpectrumAnalyzer, MarkY) ]
  }

  /** The probes of the first n candidates of one frequency. */
  function Probes(cfg: VoltSearch, n: nat): seq<Write>
  {
    if n == 0 then [] else Probes(cfg, n - 1) + Probe(Candidate(cfg, n - 1))
  }

  /** Moving the signal generator to the next frequency. */
  const Advance: seq<Write> := [Write(SignalGenerator, FreqUp), Write(SpectrumAnalyzer, AverClear)]

  /** Resetting the voltage source after the loop. */
  const Reset: Write := Write(VoltageSource, Volt(0))

  /** The commands of the first n complete frequency steps. */
  function Passes(cfg: VoltSearch, n: nat): seq<Write>
  {
    if n == 0 then [] else Passes(cfg, n - 1) + Probes(cfg, cfg.steps) + Advance
  }

  /** How a run with the given ladder and step count ends. The ladder is the
      same at every frequency, so a ceiling violation or an empty sample
      dictionary stops the run on its first frequency. */
  function Verdict(cfg: VoltSearch, numStep: int): Outcome
  {
    if numStep <= 0 then Done
    else if FirstOver(cfg) < cfg.steps then Abort(VoltageTooHigh)
    else if cfg.steps == 0 then Abort(NoSamples)
    else Done
  }

  /** Every command a run writes, in order. */
  function Writes(cfg: VoltSearch, s: Schedule): seq<Write>
  {
    if Verdict(cfg, s.numStep).Abort? then Setup(s) + Probes(cfg, FirstOver(cfg))
    else Setup(s) + Passes(cfg, Iterations(s.numStep)) + [Reset]
  }

  /** The log rows of the first n candidates at frequency step i. */
  function Rows(cfg: VoltSearch, s: Schedule, power: (nat, nat) -> real, i: nat, n: nat): seq<CalRow>
  {
    if n == 0 then []
    else Rows(cfg, s, power, i, n - 1) + [CalRow(FreqKey(s, i), Candidate(cfg, n - 1), power(i, n - 1))]
  }

  /** The log rows of the first n complete frequency steps. */
  function Log(cfg: VoltSearch, s: Schedule, power: (nat, nat) -> real, n: nat): seq<CalRow>
  {
    if n == 0 then [] else Log(cfg, s, power, n - 1) + Rows(cfg, s, power, n - 1, cfg.steps)
  }

  /** Every row a run logs, in order. */
  function LogOf(cfg: VoltSearch, s: Schedule, power: (nat, nat) -> real): seq<CalRow>
  {
    if Verdict(cfg, s.numStep).Abort? then Rows(cfg, s, power, 0, FirstOver(cfg))
    else Log(cfg, s, power, Iterations(s.numStep))
  }

  /** volt_pwr after the first n candidates of frequency step i: cleared at the
      start of the step, then one entry per candidate. */
  function Samples(cfg: VoltSearch, power: (nat, nat) -> real, i: nat, n: nat): map<int, real>
  {
    if n == 0 then map[] else Samples(cfg, power, i, n - 1)[Candidate(cfg, n - 1) := power(i, n - 1)]
  }

  /** found holds, for each of the first n frequency steps, a voltage of
      maximal power among that step's samples, and nothing else. */
  ghost predicate Calibrated(cfg: VoltSearch, s: Schedule, power: (nat, nat) -> real, found: map<int, int>, n: nat)
  {
    && found.Keys == FreqKeys(s, n)
    && forall i :: 0 <= i < n ==>
         FreqKey(s, i) in found && IsBest(Samples(cfg, power, i, cfg.steps), found[FreqKey(s, i)])
  }

  lemma CalibratedStep(cfg: VoltSearch, s: Schedule, power: (nat, nat) -> real, found: map<int, int>, n: nat, v: int)
    requires s.freqStep != 0
    requires Calibrated(cfg, s, power, found, n)
    requires IsBest(Samples(cfg, power, n, cfg.steps), v)
    ensures Calibrated(cfg, s, power, found[FreqKey(s, n) := v], n + 1)
  {
    var found' := found[FreqKey(s, n) := v];
    forall i | 0 <= i <= n
      ensures FreqKey(s, i) in found' && IsBest(Samples(cfg, power, i, cfg.steps), found'[FreqKey(s, i)])
    {
      if i < n {
        FreqKeyInjective(s, i, n);
        assert found'[FreqKey(s, i)] == found[FreqKey(s, i)];
      }
    }
  }

  /** The inner loop of biasing_calibration at frequency step i: try the
      candidates in order, stopping before the first one above the ceiling. */
  method TryLadder(cfg: VoltSearch, s: Schedule, power: (nat, nat) -> real, i: nat)
    returns (tooHigh: bool, writes: seq<Write>, rows: seq<CalRow>, voltPwr: map<int, real>)
    ensures tooHigh <==> FirstOver(cfg) < cfg.steps
    ensures writes == Probes(cfg, FirstOver(cfg))
    ensures rows == Rows(cfg, s, power, i, FirstOver(cfg))
    ensures !tooHigh ==> voltPwr == Samples(cfg, power, i, cfg.steps)
    ensures !tooHigh ==> (|voltPwr| == 0 <==> cfg.steps == 0)
  {
    var currVolt := cfg.initial;
    writes, rows, voltPwr := [], [], map[];
    var j := 0;
    while j < cfg.steps
      invariant 0 <= j <= cfg.steps
      invariant currVolt == Candidate(cfg, j)
      invariant forall j' :: 0 <= j' < j ==> Candidate(cfg, j') <= cfg.ceiling
      invariant writes == Probes(cfg, j)
      invariant rows == Rows(cfg, s, power, i, j)
      invariant voltPwr == Samples(cfg, power, i, j)
      invariant j > 0 ==> Candidate(cfg, j - 1) in voltPwr
    {
      if currVolt > cfg.ceiling {
        assert FirstOver(cfg) == j;
        return true, writes, rows, voltPwr;
      }
      writes := writes + Probe(currVolt);
      var measPwr := power(i, j);
      rows := rows + [CalRow(FreqKey(s, i), currVolt, measPwr)];
      voltPwr := voltPwr[currVolt := measPwr];
      currVolt := currVolt + cfg.step;
      j := j + 1;
    }
    assert FirstOver(cfg) == cfg.steps;
    tooHigh := false;
  }

  /** The sample dictionary is empty only when no candidate was tried. */
  lemma SamplesEmpty(cfg: VoltSearch, power: (nat, nat) -> real, i: nat, n: nat)
    ensures |Samples(cfg, power, i, n)| == 0 <==> n == 0
  {
    if n > 0 {
      assert Candidate(cfg, n - 1) in Samples(cfg, power, i, n);
    }
  }

  /** The best voltage of frequency step i: max(volt_pwr, key=volt_pwr.get),
      which raises on an empty dictionary. */
  method BestOfStep(cfg: VoltSearch, s: Schedule, power: (nat, nat) -> real, found: map<int, int>, i: nat,
                    voltPwr: map<int, real>)
    returns (empty: bool, maxVolt: int)
    requires s.freqStep != 0
    requires Calibrated(cfg, s, power, found, i)
    requires voltPwr == Samples(cfg, power, i, cfg.steps)
    ensures empty <==> cfg.steps == 0
    ensures !empty ==> Calibrated(cfg, s, power, found[FreqKey(s, i) := maxVolt], i + 1)
  {
    SamplesEmpty(cfg, power, i, cfg.steps);
    if |voltPwr| == 0 {
      return true, 0;
    }
    empty := false;
    maxVolt := MaxKey(voltPwr);
    CalibratedStep(cfg, s, power, found, i, maxVolt);
  }

  lemma PassesNext(cfg: VoltSearch, s: Schedule, i: nat)
    ensures Setup(s) + Passes(cfg, i) + Probes(cfg, cfg.steps) + Advance == Setup(s) + Passes(cfg, i + 1)
  {
  }

  lemma FirstPassAborts(cfg: VoltSearch, s: Schedule, probes: seq<Write>)
    requires Verdict(cfg, s.numStep).Abort? && probes == Probes(cfg, FirstOver(cfg))
    ensures Setup(s) + Passes(cfg, 0) + probes == Writes(cfg, s)
  {
    assert Setup(s) + Passes(cfg, 0) == Setup(s);
  }

  /** The loops of biasing_calibration, up to and including VOLT 0; the power
      read back at candidate j of frequency step i is power(i, j). */
  method Run(cfg: VoltSearch, s: Schedule, power: (nat, nat) -> real) returns (run: CalRun)
    requires s.freqStep != 0
    ensures run.outcome == Verdict(cfg, s.numStep)
    ensures run.writes == Writes(cfg, s)
    ensures run.log == LogOf(cfg, s, power)
    ensures run.outcome.Abort? ==> run.found == map[]
    ensures run.outcome.Done? ==> Calibrated(cfg, s, power, run.found, Iterations(s.numStep))
  {
    var writes := Setup(s);
    var log: seq<CalRow> := [];
    var found: map<int, int> := map[];
    var n := Iterations(s.numStep);
    var currFreq := s.freqStart;
    var i := 0;
    while i < n
      invariant 0 <= i <= n
      invariant currFreq == FreqKey(s, i)
      invariant writes == Setup(s) + Passes(cfg, i)
      invariant log == Log(cfg, s, power, i)
      invariant Calibrated(cfg, s, power, found, i)
      invariant i > 0 ==> FirstOver(cfg) == cfg.steps && cfg.steps > 0
    {
      var tooHigh, probes, rows, voltPwr := TryLadder(cfg, s, power, i);
      writes := writes + probes;
      log := log + rows;
      if tooHigh {
        assert i == 0 && Verdict(cfg, s.numStep) == Abort(VoltageTooHigh);
        FirstPassAborts(cfg, s, probes);
        return CalRun(Abort(VoltageTooHigh), writes, log, found);
      }
      var empty, maxVolt := BestOfStep(cfg, s, power, found, i, voltPwr);
      if empty {
        assert i == 0 && Verdict(cfg, s.numStep) == Abort(NoSamples);
        FirstPassAborts(cfg, s, probes);
        return CalRun(Abort(NoSamples), writes, log, found);
      }
      found := found[currFreq := maxVolt];
      PassesNext(cfg, s, i);
      writes := writes + Advance;
      FreqKeyNext(s, i);
      currFreq := currFreq + s.freqStep;
      i := i + 1;
    }
    assert Verdict(cfg, s.numStep) == Done;
    writes := writes + [Reset];
    run := CalRun(Done, writes, log, found);
  }
}

/** What the calibration search promises, stated over its specification. */
module CalibrationFacts {

  import opened Bench
  import opened Calibration

  /** The voltages of the first n candidates, in order. */
  function LadderVolts(cfg: VoltSearch, n: nat): (v: seq<int>)
    ensures |v| == n
  {
    if n == 0 then [] else LadderVolts(cfg, n - 1) + [Candidate(cfg, n - 1)]
  }

  lemma {:induction false} LadderVoltsAt(cfg: VoltSearch, n: nat, j: nat)
    requires j < n
    ensures |LadderVolts(cfg, n)| == n && LadderVolts(cfg, n)[j] == Candidate(cfg, j)
  {
    if j < n - 1 {
      LadderVoltsAt(cfg, n - 1, j);
    } else if n > 1 {
      LadderVoltsAt(cfg, n - 1, 0);
    }
  }

  lemma ProbeVolts(v: int)
    ensures Volts(Probe(v)) == [v]
  {
    var p := Probe(v);
    VoltsAppend(p[..1], p[1..]);
    assert p == p[..1] + p[1..];
    VoltsNone(p[1..]);
    assert p[..1][..0] == [];
  }

  lemma {:induction false} ProbesVolts(cfg: VoltSearch, n: nat)
    ensures Volts(Probes(cfg, n)) == LadderVolts(cfg, n)
  {
    if n > 0 {
      ProbesVolts(cfg, n - 1);
      VoltsAppend(Probes(cfg, n - 1), Probe(Candidate(cfg, n - 1)));
      ProbeVolts(Candidate(cfg, n - 1));
    }
  }

  lemma PassVolts(cfg: VoltSearch)
    ensures Volts(Probes(cfg, cfg.steps) + Advance) == LadderVolts(cfg, cfg.steps)
  {
    VoltsAppend(Probes(cfg, cfg.steps), Advance);
    ProbesVolts(cfg, cfg.steps);
    VoltsNone(Advance);
  }

  lemma {:induction false} PassesVolts(cfg: VoltSearch, n: nat)
    ensures Volts(Passes(cfg, n)) == Repeat(LadderVolts(cfg, cfg.steps), n)
  {
    if n > 0 {
      var front := Passes(cfg, n - 1);
      var pass := Probes(cfg, cfg.steps) + Advance;
      assert Passes(cfg, n) == front + pass;
      PassesVolts(cfg, n - 1);
      VoltsAppend(front, pass);
      PassVolts(cfg);
    }
  }

  /** The voltages a run applies, in order: the candidates initial + j * step
      up to the first one above the ceiling, which is never applied; or, on a
      completed run, the whole ladder once per frequency step, restarting from
      the initial voltage each time, followed by the single reset to 0. */
  lemma RunVolts(cfg: VoltSearch, s: Schedule)
    ensures Verdict(cfg, s.numStep).Abort? ==> Volts(Writes(cfg, s)) == LadderVolts(cfg, FirstOver(cfg))
    ensures Verdict(cfg, s.numStep).Done? ==>
      Volts(Writes(cfg, s)) == Repeat(LadderVolts(cfg, cfg.steps), Iterations(s.numStep)) + [0]
  {
    VoltsNone(Setup(s));
    if Verdict(cfg, s.numStep).Abort? {
      VoltsAppend(Setup(s), Probes(cfg, FirstOver(cfg)));
      ProbesVolts(cfg, FirstOver(cfg));
    } else {
      var n := Iterations(s.numStep);
      VoltsAppend(Setup(s) + Passes(cfg, n), [Reset]);
      VoltsAppend(Setup(s), Passes(cfg, n));
      PassesVolts(cfg, n);
      assert [Reset][..0] == [];
    }
  }

  lemma {:induction false} RepeatWithin(xs: seq<int>, n: nat, bound: int)
    requires forall k :: 0 <= k < |xs| ==> xs[k] <= bound
    ensures forall k :: 0 <= k < |Repeat(xs, n)| ==> Repeat(xs, n)[k] <= bound
  {
    if n > 0 {
      RepeatWithin(xs, n - 1, bound);
    }
  }

  /** Safety ceiling: every voltage a run writes is within the ceiling, except
      the final reset to 0 of a completed run. The bound is enforced by the
      abort, never by clamping. */
  lemma CeilingRespected(cfg: VoltSearch, s: Schedule)
    ensures var v := Volts(Writes(cfg, s));
      forall k :: 0 <= k < |v| ==>
        v[k] <= cfg.ceiling || (Verdict(cfg, s.numStep).Done? && k == |v| - 1 && v[k] == 0)
  {
    RunVolts(cfg, s);
    var over := FirstOver(cfg);
    forall k | 0 <= k < over ensures LadderVolts(cfg, over)[k] <= cfg.ceiling {
      LadderVoltsAt(cfg, over, k);
    }
    if Verdict(cfg, s.numStep).Done? {
      var n := Iterations(s.numStep);
      if n > 0 {
        forall k | 0 <= k < cfg.steps ensures LadderVolts(cfg, cfg.steps)[k] <= cfg.ceiling {
          LadderVoltsAt(cfg, cfg.steps, k);
        }
        RepeatWithin(LadderVolts(cfg, cfg.steps), n, cfg.ceiling);
      }
    }
  }

  /** A run aborts exactly when it has at least one frequency step and a
      candidate above the ceiling, and then the offending candidate is the
      first one above the ceiling and has not been applied. */
  lemma AbortBeforeApply(cfg: VoltSearch, s: Schedule)
    ensures Verdict(cfg, s.numStep) == Abort(VoltageTooHigh) <==>
      (s.numStep > 0 && exists j :: 0 <= j < cfg.steps && Candidate(cfg, j) > cfg.ceiling)
    ensures Verdict(cfg, s.numStep) == Abort(VoltageTooHigh) ==>
      && Candidate(cfg, FirstOver(cfg)) > cfg.ceiling
      && Volts(Writes(cfg, s)) == LadderVolts(cfg, FirstOver(cfg))
  {
    RunVolts(cfg, s);
  }

  /** The candidates stored under frequency step i: candidate j maps to the
      power read at candidate j, provided the candidates are distinct. */
  lemma {:induction false} SamplesAt(cfg: VoltSearch, power: (nat, nat) -> real, i: nat, n: nat)
    requires cfg.step != 0
    ensures forall j :: 0 <= j < n ==>
      Candidate(cfg, j) in Samples(cfg, power, i, n) && Samples(cfg, power, i, n)[Candidate(cfg, j)] == power(i, j)
    ensures forall v :: v in Samples(cfg, power, i, n) ==> exists j :: 0 <= j < n && v == Candidate(cfg, j)
  {
    if n > 0 {
      SamplesAt(cfg, power, i, n - 1);
      forall j | 0 <= j < n - 1 ensures Candidate(cfg, j) != Candidate(cfg, n - 1) {
        var d := n - 1 - j;
        assert Candidate(cfg, n - 1) - Candidate(cfg, j) == d * cfg.step;
        assert d * cfg.step != 0 by {
          if cfg.step > 0 { assert d * cfg.step >= cfg.step; } else { assert d * cfg.step <= cfg.step; }
        }
      }
    }
  }

  /** The keys of the first n candidates. */
  function CandidateKeys(cfg: VoltSearch, n: nat): set<int>
  {
    if n == 0 then {} else CandidateKeys(cfg, n - 1) + {Candidate(cfg, n - 1)}
  }

  lemma {:induction false} SamplesKeys(cfg: VoltSearch, power: (nat, nat) -> real, i: nat, n: nat)
    ensures Samples(cfg, power, i, n).Keys == CandidateKeys(cfg, n)
  {
    if n > 0 {
      SamplesKeys(cfg, power, i, n - 1);
    }
  }

  lemma {:induction false} CandidateKeysHas(cfg: VoltSearch, j: nat, n: nat)
    requires j < n
    ensures Candidate(cfg, j) in CandidateKeys(cfg, n)
  {
    if j < n - 1 {
      CandidateKeysHas(cfg, j, n - 1);
    }
  }

  lemma {:induction false} CandidateKeysAre(cfg: VoltSearch, n: nat, v: int)
    requires v in CandidateKeys(cfg, n)
    ensures exists j :: 0 <= j < n && v == Candidate(cfg, j)
  {
    if v != Candidate(cfg, n - 1) {
      CandidateKeysAre(cfg, n - 1, v);
    }
  }

  /** Every voltage a completed run stores in the map is within the ceiling:
      it is one of the candidates, which all are. */
  lemma MapWithinCeiling(cfg: VoltSearch, s: Schedule, power: (nat, nat) -> real, found: map<int, int>)
    requires Verdict(cfg, s.numStep).Done?
    requires Calibrated(cfg, s, power, found, Iterations(s.numStep))
    ensures forall f :: f in found ==> found[f] <= cfg.ceiling
  {
    var n := Iterations(s.numStep);
    forall f | f in found ensures found[f] <= cfg.ceiling {
      FreqKeysAre(s, n, f);
      var i :| 0 <= i < n && f == FreqKey(s, i);
      SamplesKeys(cfg, power, i, cfg.steps);
      CandidateKeysAre(cfg, cfg.steps, found[f]);
    }
  }

  /** Argmax: the voltage kept for a frequency step is one of that step's
      candidates, and no candidate gave a higher power. */
  lemma BestIsCandidate(cfg: VoltSearch, power: (nat, nat) -> real, i: nat, v: int)
    requires cfg.step != 0
    requires IsBest(Samples(cfg, power, i, cfg.steps), v)
    ensures exists j ::
      (0 <= j < cfg.steps && v == Candidate(cfg, j) &&
       forall j' :: 0 <= j' < cfg.steps ==> power(i, j') <= power(i, j))
  {
    SamplesAt(cfg, power, i, cfg.steps);
    var j :| 0 <= j < cfg.steps && v == Candidate(cfg, j);
    forall j' | 0 <= j' < cfg.steps ensures power(i, j') <= power(i, j) {
      assert Samples(cfg, power, i, cfg.steps)[Candidate(cfg, j')] <= Samples(cfg, power, i, cfg.steps)[v];
    }
  }

  lemma {:induction false} RowsShape(cfg: VoltSearch, s: Schedule, power: (nat, nat) -> real, i: nat, n: nat)
    ensures |Rows(cfg, s, power, i, n)| == n
    ensures forall j :: 0 <= j < n ==>
      Rows(cfg, s, power, i, n)[j] == CalRow(FreqKey(s, i), Candidate(cfg, j), power(i, j))
  {
    if n > 0 {
      RowsShape(cfg, s, power, i, n - 1);
    }
  }

  lemma {:induction false} ProbesFresh(cfg: VoltSearch, n: nat)
    ensures Fresh(Probes(cfg, n))
  {
    if n > 0 {
      ProbesFresh(cfg, n - 1);
      FreshAppend(Probes(cfg, n - 1), Probe(Candidate(cfg, n - 1)));
    }
  }

  lemma {:induction false} PassesFresh(cfg: VoltSearch, n: nat)
    ensures Fresh(Passes(cfg, n))
  {
    if n > 0 {
      PassesFresh(cfg, n - 1);
      ProbesFresh(cfg, cfg.steps);
      FreshAppend(Passes(cfg, n - 1), Probes(cfg, cfg.steps));
      FreshAppend(Passes(cfg, n - 1) + Probes(cfg, cfg.steps), Advance);
    }
  }

  /** Every power reading of a run is taken on a fresh average: it comes
      straight after AVER:CLE and CALC:MARK:CENT. */
  lemma ReadingsFresh(cfg: VoltSearch, s: Schedule)
    ensures Fresh(Writes(cfg, s))
  {
    if Verdict(cfg, s.numStep).Abort? {
      ProbesFresh(cfg, FirstOver(cfg));
      FreshAppend(Setup(s), Probes(cfg, FirstOver(cfg)));
    } else {
      var n := Iterations(s.numStep);
      PassesFresh(cfg, n);
      FreshAppend(Setup(s), Passes(cfg, n));
      FreshAppend(Setup(s) + Passes(cfg, n), [Reset]);
    }
  }

  /** Where the block of frequency step i starts in a log of blocks of m rows. */
  function Block(i: nat, m: nat): nat
  {
    if i == 0 then 0 else Block(i - 1, m) + m
  }

  lemma {:induction false} BlockIsProduct(i: nat, m: nat)
    ensures Block(i, m) == i * m
  {
    if i > 0 {
      BlockIsProduct(i - 1, m);
      assert i * m == (i - 1) * m + m;
    }
  }

  lemma {:induction false} BlockBefore(i: nat, n: nat, m: nat)
    requires i < n
    ensures Block(i, m) + m <= Block(n, m)
  {
    if i < n - 1 {
      BlockBefore(i, n - 1, m);
    }
  }

  lemma {:induction false} LogLength(cfg: VoltSearch, s: Schedule, power: (nat, nat) -> real, n: nat)
    ensures |Log(cfg, s, power, n)| == Block(n, cfg.steps)
  {
    if n > 0 {
      LogLength(cfg, s, power, n - 1);
      RowsShape(cfg, s, power, n - 1, cfg.steps);
    }
  }

  lemma {:induction false} LogAt(cfg: VoltSearch, s: Schedule, power: (nat, nat) -> real, n: nat, i: nat, j: nat)
    requires i < n && j < cfg.steps
    ensures Block(i, cfg.steps) + j < |Log(cfg, s, power, n)|
    ensures Log(cfg, s, power, n)[Block(i, cfg.steps) + j] == CalRow(FreqKey(s, i), Candidate(cfg, j), power(i, j))
  {
    var m := cfg.steps;
    var front := Log(cfg, s, power, n - 1);
    var rows := Rows(cfg, s, power, n - 1, m);
    assert Log(cfg, s, power, n) == front + rows;
    LogLength(cfg, s, power, n - 1);
    RowsShape(cfg, s, power, n - 1, m);
    if i < n - 1 {
      BlockBefore(i, n - 1, m);
      LogAt(cfg, s, power, n - 1, i, j);
    }
  }

  /** The calibration log of the first n frequency steps: one row per
      evaluated candidate, in evaluation order, so n * steps rows, row
      i * steps + j holding frequency i, candidate j and the power read there. */
  lemma LogShape(cfg: VoltSearch, s: Schedule, power: (nat, nat) -> real, n: nat)
    ensures |Log(cfg, s, power, n)| == n * cfg.steps
    ensures forall i, j :: 0 <= i < n && 0 <= j < cfg.steps ==>
      i * cfg.steps + j < n * cfg.steps &&
      Log(cfg, s, power, n)[i * cfg.steps + j] == CalRow(FreqKey(s, i), Candidate(cfg, j), power(i, j))
  {
    LogLength(cfg, s, power, n);
    BlockIsProduct(n, cfg.steps);
    forall i, j | 0 <= i < n && 0 <= j < cfg.steps
      ensures i * cfg.steps + j < n * cfg.steps
      ensures Log(cfg, s, power, n)[i * cfg.steps + j] == CalRow(FreqKey(s, i), Candidate(cfg, j), power(i, j))
    {
      LogAt(cfg, s, power, n, i, j);
      BlockBefore(i, n, cfg.steps);
      BlockIsProduct(i, cfg.steps);
    }
  }

  lemma {:induction false} PassesFreqUps(cfg: VoltSearch, n: nat)
    ensures Count(Passes(cfg, n), Write(SignalGenerator, FreqUp)) == n
  {
    if n > 0 {
      var up := Write(SignalGenerator, FreqUp);
      PassesFreqUps(cfg, n - 1);
      ProbesNoFreqUp(cfg, cfg.steps);
      CountAppend(Passes(cfg, n - 1) + Probes(cfg, cfg.steps), Advance, up);
      CountAppend(Passes(cfg, n - 1), Probes(cfg, cfg.steps), up);
      assert Advance == [up] + [Write(SpectrumAnalyzer, AverClear)];
      CountAppend([up], [Write(SpectrumAnalyzer, AverClear)], up);
      assert [up][..0] == [] && [Write(SpectrumAnalyzer, AverClear)][..0] == [];
    }
  }

  lemma {:induction false} ProbesNoFreqUp(cfg: VoltSearch, n: nat)
    ensures Count(Probes(cfg, n), Write(SignalGenerator, FreqUp)) == 0
  {
    if n > 0 {
      ProbesNoFreqUp(cfg, n - 1);
      CountAbsent(Probe(Candidate(cfg, n - 1)), Write(SignalGenerator, FreqUp));
      CountAppend(Probes(cfg, n - 1), Probe(Candidate(cfg, n - 1)), Write(SignalGenerator, FreqUp));
    }
  }

  /** A completed calibration logs num_step * volt_steps rows, advances the
      signal generator once after every frequency step, including the last,
      and ends with the reset to 0 V. */
  lemma CompletedRun(cfg: VoltSearch, s: Schedule, power: (nat, nat) -> real)
    requires Verdict(cfg, s.numStep).Done?
    ensures |LogOf(cfg, s, power)| == Iterations(s.numStep) * cfg.steps
    ensures Count(Writes(cfg, s), Write(SignalGenerator, FreqUp)) == Iterations(s.numStep)
    ensures Writes(cfg, s)[|Writes(cfg, s)| - 1] == Write(VoltageSource, Volt(0))
  {
    var n := Iterations(s.numStep);
    var up := Write(SignalGenerator, FreqUp);
    LogShape(cfg, s, power, n);
    PassesFreqUps(cfg, n);
    CountAbsent(Setup(s), up);
    CountAbsent([Reset], up);
    CountAppend(Setup(s) + Passes(cfg, n), [Reset], up);
    CountAppend(Setup(s), Passes(cfg, n), up);
  }

  /** The hard-coded ladder 0.10 V, 0.11 V, ..., 0.50 V never reaches the
      0.65 V ceiling, so the calibration of frequency_sweep.py and
      pyvisa_biasing_calibration_1.0.py never aborts. */
  lemma LadderNeverAborts(numStep: int)
    ensures FirstOver(Ladder) == Ladder.steps == 41
    ensures Candidate(Ladder, 39) == 490 && Candidate(Ladder, 40) == 500
    ensures Verdict(Ladder, numStep) == Done
  {
  }
}
