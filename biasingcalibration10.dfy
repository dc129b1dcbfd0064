/** pyvisa_biasing_calibration_1.0.py: the stand-alone calibration controller.
    Its search is the one of Calibration; unlike frequency_sweep.py it sets the
    analyzer to a fixed 0.065 GHz centre and derives the generator's start from
    that same fixed offset, whatever sa_cent_freq it was given. */
module BiasingCalibration10 {

  import opened Bench
  import opened Calibration
  import CalibrationFacts
  import opened VoltMapCsv

  /** The analyzer centre, in GHz, this version hard-codes. */
  const AnalyzerCentre: real := 0.065

  class FreqSweep {
    const freqStart: int
    const freqStep: int
    const freqEnd: int
    const multiplier: int
    const version: int
    /** Stored, but never read by this version. */
    const saCentFreq: real
    const sweepFreqStart: real
    const sweepFreqStep: real
    const numStep: int
    /** The voltage ladder biasing_calibration hard-codes. */
    const ladder: VoltSearch

    var freqVolt: map<int, int>
    var isCalibrated: bool
    var bus: seq<Write>
    var calLog: seq<CalRow>
    var mapFile: Option<seq<CsvRow>>

    /** The constructor divides by freq_step and by multiplier, so both are
        non-zero for every object; and the hard-coded ladder stays below the
        ceiling and is not empty. */
    ghost predicate Valid()
    {
      freqStep != 0 && multiplier != 0 && FirstOver(ladder) == ladder.steps > 0
    }

    /** The schedule every calibration of this object follows. */
    function Plan(): Schedule
    {
      Schedule(AnalyzerCentre, sweepFreqStart, sweepFreqStep, freqStart, freqStep, numStep)
    }

    /** __init__. mapFile is freq_volt_map.csv as found on disk: None when
        there is none. */
    constructor(freqStart: int, freqEnd: int, multiplier: int, version: int, saCentFreq: real,
                freqStep: int, mapFile: Option<seq<CsvRow>>)
      requires freqStep != 0 && multiplier != 0
      ensures Valid()
      ensures this.freqStart == freqStart && this.freqEnd == freqEnd && this.freqStep == freqStep
      ensures this.multiplier == multiplier && this.version == version && this.saCentFreq == saCentFreq
      ensures ladder == Ladder
      ensures sweepFreqStart == (freqStart as real + AnalyzerCentre) / multiplier as real
      ensures sweepFreqStep == freqStep as real / multiplier as real
      ensures numStep == NumSteps(freqStart, freqEnd, freqStep)
      ensures freqVolt == map[] && !isCalibrated && bus == [] && calLog == []
      ensures this.mapFile == mapFile
    {
      this.freqStart := freqStart;
      this.freqStep := freqStep;
      this.freqEnd := freqEnd;
      this.multiplier := multiplier;
      this.version := version;
      this.saCentFreq := saCentFreq;
      sweepFreqStart := (freqStart as real + AnalyzerCentre) / multiplier as real;
      sweepFreqStep := freqStep as real / multiplier as real;
      numStep := FloorDiv(freqEnd - freqStart, freqStep) + 1;
      ladder := Ladder;
      CalibrationFacts.LadderNeverAborts(0);
      freqVolt := map[];
      isCalibrated := false;
      bus := [];
      calLog := [];
      this.mapFile := mapFile;
    }

    /** biasing_calibration: the ladder search at every frequency step, with
        the analyzer at the fixed centre; the best voltage of each step is
        added to freq_volt, which is then saved. With the hard-coded ladder
        the run always completes. */
    method BiasingCalibration(power: (nat, nat) -> real)
      returns (outcome: Outcome, ghost found: map<int, int>, ghost order: seq<int>)
      requires Valid()
      modifies this`bus, this`calLog, this`freqVolt, this`isCalibrated, this`mapFile
      ensures outcome == Done && isCalibrated
      ensures bus == old(bus) + Writes(ladder, Plan())
      ensures calLog == LogOf(ladder, Plan(), power)
      ensures Calibrated(ladder, Plan(), power, found, Iterations(numStep))
      ensures freqVolt == old(freqVolt) + found
      ensures IsOrdering(order, freqVolt) && mapFile == Some(RowsOf(order, freqVolt))
    {
      outcome, found := CalibrationLoop(power);
      order := WriteVmapToCsv(freqVolt);
    }

    /** The part of biasing_calibration before the map is saved; found is
        what this run maps each visited frequency to. */
    method CalibrationLoop(power: (nat, nat) -> real) returns (outcome: Outcome, ghost found: map<int, int>)
      requires Valid()
      modifies this`bus, this`calLog, this`freqVolt, this`isCalibrated
      ensures outcome == Done && isCalibrated
      ensures bus == old(bus) + Writes(ladder, Plan())
      ensures calLog == LogOf(ladder, Plan(), power)
      ensures Calibrated(ladder, Plan(), power, found, Iterations(numStep))
      ensures freqVolt == old(freqVolt) + found
    {
      var run := Run(ladder, Plan(), power);
      assert run.outcome == Done;
      bus := bus + run.writes;
      calLog := run.log;
      freqVolt := freqVolt + run.found;
      isCalibrated := true;
      outcome := run.outcome;
      found := run.found;
    }

    /** write_vmap_to_csv: one [key, value] row per entry of mydict, in its
        iteration order. ReadOrdered shows that reading such a file back
        gives mydict's pairs as text. */
    method WriteVmapToCsv(mydict: map<int, int>) returns (ghost order: seq<int>)
      modifies this`mapFile
      ensures IsOrdering(order, mydict) && mapFile == Some(RowsOf(order, mydict))
    {
      var rows;
      rows, order := MapRows(mydict);
      mapFile := Some(rows);
    }

    /** read_vmap_from_csv: None when there is no file or some row is not a
        pair; a file holding the rows of a map m gives m as text. */
    method ReadVmapFromCsv() returns (d: Option<map<string, string>>)
      ensures d == ReadVmap(mapFile)
      ensures d.None? <==> mapFile.None? || exists i :: 0 <= i < |mapFile.value| && |mapFile.value[i]| != 2
      ensures forall m :: mapFile.Some? && IsRowsOf(mapFile.value, m) ==> d == Some(Shown(m))
    {
      d := ReadVmap(mapFile);
      ReadFails(mapFile);
      forall m | mapFile.Some? && IsRowsOf(mapFile.value, m)
        ensures d == Some(Shown(m))
      {
        WriteThenRead(mapFile.value, m);
      }
    }
  }

  /** The call at the bottom of the file, FreqSweep(220, 300, 18, 0, 0.065, 5):
      17 frequency steps from 220 to 300 GHz, and the generator starts at
      220.065 / 18 GHz in steps of 5 / 18 GHz. */
  lemma CallSiteSchedule()
    ensures NumSteps(220, 300, 5) == 17 && 220 + 16 * 5 == 300
    ensures (220 as real + AnalyzerCentre) / 18 as real == 220.065 / 18.0
  {
  }
}
