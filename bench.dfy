/** The instruments on the bus, the commands the controller writes to them, and
    the arithmetic every calibration or sweep run shares: the step count, the
    frequency of step i, and counting commands in a log. */
module Bench {

  /** The three instruments the controller drives. */
  datatype Instrument = VoltageSource | SignalGenerator | SpectrumAnalyzer

  /** The SCPI commands the controller writes. Voltages are in millivolts,
      frequencies in GHz; the text formatting of the numbers is not modelled. */
  datatype Command =
    | Volt(mv: int)              // VOLT <v>
    | FreqCent(ghz: real)        // :FREQ:CENT <f> GHz
    | MarkCent                   // CALC:MARK:CENT
    | MarkY                      // CALC:MARK:Y?, answered by one power reading
    | AverOn                     // AVER ON
    | AverOff                    // AVER OFF
    | AverCount(n: nat)          // AVER:COUN <n>
    | AverClear                  // AVER:CLE
    | FreqFix(ghz: real)         // :FREQ:FIX <f> GHz
    | FreqStep(ghz: real)        // :FREQ:STEP <f> GHz
    | FreqUp                     // :FREQ UP
    | Cls                        // *CLS
    | StoreScreen(freq: int)     // :MMEM:STORE:SCR '<folder><freq>.png';*WAI
    | InitContOff                // :INIT:CONT OFF
    | InitImm                    // INIT:IMM;*WAI
    | TraceQuery                 // :TRAC:DATA? TRACE1

  /** One command written to one instrument. */
  datatype Write = Write(to: Instrument, cmd: Command)

  /** Why a run ended with sys.exit(1) or an uncaught exception. */
  datatype AbortReason =
    | VoltageTooHigh             // a candidate voltage is above the safety ceiling
    | NoSamples                  // max() over an empty sample dictionary
    | TraceRowNotIterable        // csv writerow(None) after get_trace_data
    | Unopened(inst: Instrument) // a write to a handle that is still None

  datatype Outcome = Done | Abort(reason: AbortReason)

  /** The values a run derives from the constructor's arguments: the analyzer
      centre it sets, the signal generator's start and step (device units),
      the first frequency, the frequency step and the step count. */
  datatype Schedule = Schedule(centre: real, sweepStart: real, sweepStep: real,
                               freqStart: int, freqStep: int, numStep: int)

  /** Python 2 `/` on two ints: the quotient rounded towards minus infinity. */
  function FloorDiv(a: int, b: int): (q: int)
    requires b != 0
    ensures b > 0 ==> q * b <= a < q * b + b
    ensures b < 0 ==> q * b + b < a <= q * b
  {
    if b > 0 then a / b else (-a) / (-b)
  }

  /** How many times `for i in range(n)` runs its body. */
  function Iterations(n: int): nat
  {
    if n > 0 then n else 0
  }

  /** The frequency visited at step i. */
  function FreqKey(s: Schedule, i: nat): int
  {
    s.freqStart + i * s.freqStep
  }

  lemma FreqKeyNext(s: Schedule, i: nat)
    ensures FreqKey(s, i + 1) == FreqKey(s, i) + s.freqStep
  {
    assert (i + 1) * s.freqStep == i * s.freqStep + s.freqStep;
  }

  /** The frequencies of the first n steps. */
  function FreqKeys(s: Schedule, n: nat): set<int>
  {
    if n == 0 then {} else FreqKeys(s, n - 1) + {FreqKey(s, n - 1)}
  }

  lemma FreqKeyInjective(s: Schedule, a: nat, b: nat)
    requires s.freqStep != 0 && a != b
    ensures FreqKey(s, a) != FreqKey(s, b)
  {
    var d := a - b;
    assert FreqKey(s, a) - FreqKey(s, b) == d * s.freqStep;
    assert d * s.freqStep != 0 by {
      if d > 0 {
        if s.freqStep > 0 { assert d * s.freqStep >= s.freqStep; } else { assert d * s.freqStep <= s.freqStep; }
      } else {
        if s.freqStep > 0 { assert d * s.freqStep <= -s.freqStep; } else { assert d * s.freqStep >= -s.freqStep; }
      }
    }
  }

  /** The frequencies of the first n steps are exactly start + i * step, i < n. */
  lemma {:induction false} FreqKeysAre(s: Schedule, n: nat, f: int)
    ensures f in FreqKeys(s, n) <==> exists i :: 0 <= i < n && f == FreqKey(s, i)
  {
    if n > 0 {
      FreqKeysAre(s, n - 1, f);
    }
  }

  /** With a non-zero step the first n steps visit n distinct frequencies. */
  lemma {:induction false} FreqKeysCard(s: Schedule, n: nat)
    requires s.freqStep != 0
    ensures |FreqKeys(s, n)| == n
  {
    if n > 0 {
      FreqKeysCard(s, n - 1);
      if FreqKey(s, n - 1) in FreqKeys(s, n - 1) {
        FreqKeysAre(s, n - 1, FreqKey(s, n - 1));
        var i :| 0 <= i < n - 1 && FreqKey(s, n - 1) == FreqKey(s, i);
        FreqKeyInjective(s, n - 1, i);
      }
    }
  }

  /** The step count of frequency_sweep.py and pyvisa_biasing_calibration_1.0.py:
      int((end - start) / step) + 1. */
  function NumSteps(start: int, end: int, step: int): int
    requires step != 0
  {
    FloorDiv(end - start, step) + 1
  }

  /** For an ascending range the count is floor((end - start) / step) + 1, and
      the last frequency visited lies in the half-open interval (end - step, end]. */
  lemma NumStepsAscending(start: int, end: int, step: int)
    requires step > 0 && start <= end
    ensures NumSteps(start, end, step) == (end - start) / step + 1 >= 1
    ensures start + (NumSteps(start, end, step) - 1) * step <= end
    ensures end < start + NumSteps(start, end, step) * step
  {
  }

  /** How often w occurs in the log. */
  function Count(log: seq<Write>, w: Write): nat
  {
    if log == [] then 0
    else Count(log[..|log| - 1], w) + (if log[|log| - 1] == w then 1 else 0)
  }

  lemma {:induction false} CountAppend(a: seq<Write>, b: seq<Write>, w: Write)
    ensures Count(a + b, w) == Count(a, w) + Count(b, w)
  {
    if b != [] {
      assert (a + b)[..|a + b| - 1] == a + b[..|b| - 1];
      assert (a + b)[|a + b| - 1] == b[|b| - 1];
      CountAppend(a, b[..|b| - 1], w);
    } else {
      assert a + b == a;
    }
  }

  /** The voltages written to the voltage source, in order. */
  function Volts(log: seq<Write>): seq<int>
  {
    if log == [] then []
    else
      var last := log[|log| - 1];
      Volts(log[..|log| - 1]) + (if last.to == VoltageSource && last.cmd.Volt? then [last.cmd.mv] else [])
  }

  lemma {:induction false} VoltsAppend(a: seq<Write>, b: seq<Write>)
    ensures Volts(a + b) == Volts(a) + Volts(b)
  {
    if b != [] {
      assert (a + b)[..|a + b| - 1] == a + b[..|b| - 1];
      assert (a + b)[|a + b| - 1] == b[|b| - 1];
      VoltsAppend(a, b[..|b| - 1]);
    } else {
      assert a + b == a;
    }
  }

  /** A log that writes nothing to the voltage source writes no voltage. */
  lemma {:induction false} VoltsNone(log: seq<Write>)
    requires Avoids(log, VoltageSource)
    ensures Volts(log) == []
  {
    if log != [] {
      VoltsNone(log[..|log| - 1]);
    }
  }

  /** A command that does not occur in the log is counted zero times. */
  lemma {:induction false} CountAbsent(log: seq<Write>, w: Write)
    requires forall k :: 0 <= k < |log| ==> log[k] != w
    ensures Count(log, w) == 0
  {
    if log != [] {
      CountAbsent(log[..|log| - 1], w);
    }
  }

  /** xs repeated n times. */
  function Repeat(xs: seq<int>, n: nat): seq<int>
  {
    if n == 0 then [] else Repeat(xs, n - 1) + xs
  }

  /** No command of the log goes to the given instrument. */
  predicate Avoids(log: seq<Write>, inst: Instrument)
  {
    forall k :: 0 <= k < |log| ==> log[k].to != inst
  }

  lemma AvoidsAppend(a: seq<Write>, b: seq<Write>, inst: Instrument)
    requires Avoids(a, inst) && Avoids(b, inst)
    ensures Avoids(a + b, inst)
  {
    forall k | 0 <= k < |a + b| ensures (a + b)[k].to != inst {
      if k >= |a| {
        assert (a + b)[k] == b[k - |a|];
      }
    }
  }

  /** Every power reading of the log (CALC:MARK:Y?) comes straight after a
      fresh averaging cycle: AVER:CLE, then CALC:MARK:CENT. */
  predicate Fresh(log: seq<Write>)
  {
    forall k :: 0 <= k < |log| && log[k] == Write(SpectrumAnalyzer, MarkY) ==>
      2 <= k && log[k - 2] == Write(SpectrumAnalyzer, AverClear) && log[k - 1] == Write(SpectrumAnalyzer, MarkCent)
  }

  lemma FreshAppend(a: seq<Write>, b: seq<Write>)
    requires Fresh(a) && Fresh(b)
    ensures Fresh(a + b)
  {
    forall k | 0 <= k < |a + b| && (a + b)[k] == Write(SpectrumAnalyzer, MarkY)
      ensures 2 <= k && (a + b)[k - 2] == Write(SpectrumAnalyzer, AverClear) && (a + b)[k - 1] == Write(SpectrumAnalyzer, MarkCent)
    {
      if k >= |a| {
        assert b[k - |a|] == Write(SpectrumAnalyzer, MarkY);
      }
    }
  }

  /** A map key whose value is maximal: what max(d, key=d.get) returns. */
  ghost predicate IsBest(m: map<int, real>, k: int)
  {
    k in m && forall k' :: k' in m ==> m[k'] <= m[k]
  }

  /** A non-empty set has an element to pick. */
  lemma Inhabited(s: set<int>)
    requires s != {}
    ensures exists x :: x in s
  {
    if forall x :: x !in s {
      assert false;
    }
  }

  /** max(d, key=d.get): a linear scan over the keys in the dictionary's
      iteration order, keeping the first maximum seen. */
  method MaxKey(m: map<int, real>) returns (best: int)
    requires |m| > 0
    ensures IsBest(m, best)
  {
    var rest := m.Keys;
    assert |rest| > 0;
    Inhabited(rest);
    best :| best in rest;
    rest := rest - {best};
    while rest != {}
      invariant rest <= m.Keys && best in m
      invariant forall k :: k in m && k !in rest ==> m[k] <= m[best]
      decreases |rest|
    {
      Inhabited(rest);
      var k :| k in rest;
      if m[k] > m[best] {
        best := k;
      }
      rest := rest - {k};
    }
  }
}
