# Bias calibration and frequency sweeps over GPIB, modelled in Dafny

The repository drives three bench instruments from a PC: a voltage source that
biases a device, a signal generator that is swept over frequency behind a
frequency multiplier, and a spectrum analyzer that reads the output power. This
project models the control logic of three versions of its `FreqSweep`
controller:

- `frequency_sweep.py` has a bias calibration, a frequency sweep test, a
  fluctuation test, and saving and loading of the frequency-to-voltage map.
- `pyvisa_biasing_calibration_1.0.py` has the same calibration with a fixed
  analyzer centre.
- `pyvisa_mixer_freq_sweep.py` has a different calibration search.

The bias calibration works like this. At each frequency step the controller
tries a ladder of gate voltages. It aborts before it writes a voltage above the
safety ceiling. It reads one power per voltage and stores, for each frequency,
a voltage of maximal power.

Every command written to an instrument is a `Bench.Write` value. A controller
object's `bus` field is the sequence of everything written so far. The CSV
files a run writes are also fields: `calLog`, `sweepLog`, `flucLog` and
`mapFile`. The powers the analyzer returns are a function parameter, `power`.
It maps the frequency step and the candidate, or just the step, to a reading.

Module layout:

- `Bench` (`bench.dfy`) holds the instruments, commands and outcomes. It also
  holds the arithmetic every version shares: Python 2 floor division, the step
  count, the frequency of step i, and counting commands in a log.
- `VoltMapCsv` (`voltmapcsv.dfy`) holds `freq_volt_map.csv`. Each row is a
  key and a value written with `str()`. Reading the file back with
  `dict(csv.reader(...))` gives text pairs. A file that is missing or has a
  bad row gives `None`.
- `Calibration` (`calibration.dfy`) holds the shared calibration search.
  `Calibration.Run` is the loop; it is proved equal to the specification
  functions `Writes`, `LogOf` and `Verdict`. The predicate `Calibrated` says
  that the map holds, for each visited frequency, a voltage of maximal power.
- `CalibrationFacts` (`calibration.dfy`) holds what the search promises: the
  safety ceiling, argmax, the shape of the log, and fresh readings.
- `FrequencySweep` (`frequencysweep.dfy`) holds the `frequency_sweep.py`
  class with its sweep and fluctuation tests.
- `BiasingCalibration10` (`biasingcalibration10.dfy`) holds the
  `pyvisa_biasing_calibration_1.0.py` class.
- `MixerFreqSweep` (`mixerfreqsweep.dfy`) holds the
  `pyvisa_mixer_freq_sweep.py` search and class.

Voltages are whole millivolts. Frequency keys are whole GHz. The derived
signal-generator frequencies are reals.

Three decisions shape the model:

- Python 2 `int / int` rounds towards minus infinity, so it is `Bench.FloorDiv`.
- `sys.exit(1)` and an uncaught exception both end a run with `Abort(reason)`.
- Nothing in the source fixes the iteration order of a `dict`. Where it
  matters (`max(d, key=d.get)` and the map file's row order), the model
  leaves the order open. `MaxKey` picks keys with `:|`, and the file rows
  follow a ghost `order` that lists every key exactly once.

The mixer version's calibration differs from the other two in these places:

1. It writes `curr_volt + j * 0.01` at candidate j: 50 + 20·j mV.
2. It checks that written value against 0.5 V, never the stored key.
3. It stores the reading under `curr_volt`: 50 + 10·j mV.
4. It never clears `volt_pwr`.
5. It never writes `AVER:CLE`, neither before a reading nor after moving the
   generator, and it writes no `CALC:MARK:CENT` before a reading.
6. It sets `AVER:COUN 15`, not 10. Like `pyvisa_biasing_calibration_1.0.py`,
   and unlike `frequency_sweep.py`, it puts the analyzer at a fixed 0.065 GHz.
7. It keeps no CSV log of the candidates it measures.
8. It never calls `write_to_csv`, so the map is not saved.
9. Its map keys advance by a hard-coded 5 GHz, and it counts steps as
   `int((freq_start - freq_end) / 5)`.
10. Its generator step is the constant 5.065 / 3.

Two consequences are proved. `MixerLadderAborts` shows that the hard-coded
ladder aborts at candidate 23 whenever there is a frequency step.
`MixerStepsNegated` shows that an ascending range has no frequency step at all.

## Model

| member | source | states |
|---|---|---|
| Bench.FloorDiv | frequency_sweep.py:48 | the quotient q of Python 2 `/` on ints: q·b ≤ a < q·b + b for b > 0, mirrored for b < 0 |
| Bench.NumStepsAscending | frequency_sweep.py:48 | for start ≤ end and step > 0 the step count is (end − start) div step + 1 ≥ 1, and the last frequency visited lies in (end − step, end] |
| Bench.FreqKeyInjective | frequency_sweep.py:165-215 | with a non-zero step, different steps visit different frequencies |
| Bench.FreqKeysAre | frequency_sweep.py:165-215 | the frequencies of the first n steps are exactly start + i·step for i < n |
| Bench.FreqKeysCard | frequency_sweep.py:165-215 | n steps visit n distinct frequencies, so the map gets one entry per step |
| Bench.MaxKey | frequency_sweep.py:206 | `max(volt_pwr, key=volt_pwr.get)` on a non-empty dictionary returns a key whose value is maximal |
| Calibration.FirstOver | frequency_sweep.py:177-181 | the index of the first candidate above the ceiling, or the ladder length: every earlier candidate is within the ceiling |
| Calibration.TryLadder | frequency_sweep.py:175-200 | the inner loop writes VOLT, AVER:CLE, CALC:MARK:CENT, CALC:MARK:Y? for each candidate before the first one over the ceiling, logs one row each and fills volt_pwr with candidate j ↦ power(i, j); it reports too-high exactly when some candidate is over the ceiling |
| Calibration.BestOfStep | frequency_sweep.py:206-207 | an empty sample dictionary raises exactly when the ladder is empty; otherwise the chosen voltage extends the calibrated map by one frequency |
| Calibration.CalibratedStep | frequency_sweep.py:207 | adding the best voltage of step n keeps the map calibrated for steps 0..n, because the new frequency key differs from all earlier ones |
| Calibration.Run | frequency_sweep.py:123-223 | the outer loop ends as `Verdict` says, writes exactly `Writes`, logs exactly `LogOf`; on abort the map is empty, on completion it is `Calibrated` for every frequency step |
| CalibrationFacts.RunVolts | frequency_sweep.py:175-223 | the voltages written are the candidates up to the first one over the ceiling (abort), or the whole ladder once per frequency, restarting from the initial voltage, then 0 |
| CalibrationFacts.CeilingRespected | frequency_sweep.py:179-182 | every voltage a run writes is within the ceiling, except the final reset to 0 |
| CalibrationFacts.AbortBeforeApply | frequency_sweep.py:179-182 | a run aborts for a too-high voltage exactly when it has a frequency step and some candidate is over the ceiling; the offending candidate is never written |
| CalibrationFacts.SamplesAt | frequency_sweep.py:199-200 | volt_pwr maps candidate j to the reading at candidate j, and holds nothing else |
| CalibrationFacts.BestIsCandidate | frequency_sweep.py:206-207 | the voltage stored for a frequency is one of its candidates, and no candidate gave a higher power |
| CalibrationFacts.MapWithinCeiling | frequency_sweep.py:179-207 | every voltage a completed run stores in the map is within the ceiling |
| CalibrationFacts.RowsShape | frequency_sweep.py:197 | the log of step i has one [freq, voltage, power] row per candidate, in ladder order |
| CalibrationFacts.LogShape | frequency_sweep.py:165-215 | row i·steps + j of a completed log is [start + i·step, candidate j, power(i, j)] |
| CalibrationFacts.CompletedRun | frequency_sweep.py:165-223 | a completed run logs num_step · steps rows, moves the generator once per frequency, and ends with VOLT 0 |
| CalibrationFacts.PassesFreqUps | frequency_sweep.py:212 | n complete frequency steps write :FREQ UP exactly n times |
| CalibrationFacts.ReadingsFresh | frequency_sweep.py:184-189 | every CALC:MARK:Y? of a run comes straight after AVER:CLE and CALC:MARK:CENT |
| CalibrationFacts.LadderNeverAborts | frequency_sweep.py:127-129 | the hard-coded ladder, 100 mV to 500 mV in 41 steps, stays below the 650 mV ceiling, so the run always completes |
| FrequencySweep.FreqSweep.constructor | frequency_sweep.py:27-54 | stores the arguments, derives the generator start (start + centre) / multiplier and step step / multiplier, and the step count floor((end − start) / step) + 1 |
| FrequencySweep.FreqSweep.BiasingCalibration | frequency_sweep.py:56-227 | with all three instruments open (version 0): bus gains exactly the run's commands, calLog is the run's log, freq_volt gains a calibrated entry per frequency, is_calibrated is set and the map file holds one row per map entry; without the voltage source (version 1): the set-up is written, the log file holds no row, and the run aborts at the first VOLT write with freq_volt and the map file unchanged, is_calibrated set only when there is no step; with no analyzer: aborts with nothing changed |
| FrequencySweep.FreqSweep.CalibrationLoop | frequency_sweep.py:123-223 | with the voltage source open, the calibration up to VOLT 0 always completes with the hard-coded ladder and commits its commands, log and map entries |
| FrequencySweep.FreqSweep.FreqSweepTest | frequency_sweep.py:229-291 | with the analyzer open (version 0 or 1): bus gains exactly `SweepWrites`, sweepLog is `SweepLog`, and the outcome is an abort exactly when a trace is saved on a non-empty range; otherwise it aborts at its first write with nothing changed |
| FrequencySweep.FreqSweep.MeasureStep | frequency_sweep.py:261-274 | one averaged reading at the frequency of step i, then the screenshot when asked for |
| FrequencySweep.FreqSweep.SaveScreenshot | frequency_sweep.py:342-348 | writes *CLS and the store-screen command for the file named after the frequency |
| FrequencySweep.FreqSweep.GetTraceData | frequency_sweep.py:356-365 | writes the trace-capture commands and returns nothing |
| FrequencySweep.FreqSweep.FluctuationTest | frequency_sweep.py:293-325 | with the analyzer open (version 0 or 1): bus gains the set-up with averaging off and 500 CALC:MARK:CENT, CALC:MARK:Y? pairs, and flucLog is rows 1..500 with reading k; otherwise it aborts at its first write with nothing changed |
| FrequencySweep.FreqSweep.WriteVmapToCsv | frequency_sweep.py:327-331 | the map file holds one [str(key), str(value)] row per entry of the dictionary, in some order listing every key once |
| FrequencySweep.FreqSweep.ReadVmapFromCsv | frequency_sweep.py:333-340 | returns None exactly when the file is missing or some row is not a [key, value] pair, and the text image of m when the file holds the rows of a map m |
| FrequencySweep.SweepLogShape | frequency_sweep.py:255-277 | the sweep log has one [start + i·step, power(i)] row per visited frequency, only the first one when the trace is saved |
| FrequencySweep.SweepWritesFacts | frequency_sweep.py:229-291 | the sweep test never writes to the voltage source, takes every reading on a fresh average, moves the generator num_step − 1 times, and writes no :FREQ UP after the last reading of a completed sweep |
| FrequencySweep.SweepScreenshots | frequency_sweep.py:271-274 | with screenshots on, a screen is stored for every visited frequency; with them off, none is |
| FrequencySweep.ReadsFacts | frequency_sweep.py:313-321 | n readings write CALC:MARK:Y? n times and nothing but CALC:MARK:CENT and CALC:MARK:Y? |
| FrequencySweep.FlucWritesFacts | frequency_sweep.py:293-325 | the fluctuation test turns averaging off, reads 500 times, never turns averaging on, never moves the generator and never touches the voltage source |
| FrequencySweep.CallSiteSchedule | frequency_sweep.py:370 | FreqSweep(65, 160, 1, 1, 0.047, 5, …) visits 20 frequencies, 65 to 160 GHz, from a generator start of 65.047 GHz; being version 1, it has the analyzer but no voltage source |
| VoltMapCsv.TextRoundTrip | frequency_sweep.py:327-338 | int(str(n)) == n for every integer written to the map file |
| VoltMapCsv.TextInjective | frequency_sweep.py:327-338 | distinct integers are written as distinct texts |
| VoltMapCsv.MapRows | frequency_sweep.py:327-331 | the loop over dictionary items writes one row per entry, with no key repeated |
| VoltMapCsv.Shown | frequency_sweep.py:333-338 | the text image of a map holds exactly str(k) ↦ str(m[k]) for the keys k of m |
| VoltMapCsv.ReadOrdered | frequency_sweep.py:327-338 | reading back the rows written in any order of a map gives its text image |
| VoltMapCsv.WriteThenRead | frequency_sweep.py:327-338 | whatever write_vmap_to_csv writes, read_vmap_from_csv reads back as exactly the map's pairs, as text |
| VoltMapCsv.DictFails | frequency_sweep.py:336 | dict(reader) fails exactly when some row does not have two cells |
| VoltMapCsv.ReadFails | frequency_sweep.py:333-340 | read_vmap_from_csv gives None exactly when the file is missing or holds a row that is not a [key, value] pair |
| BiasingCalibration10.FreqSweep.constructor | pyvisa_biasing_calibration_1.0.py:12-33 | the generator start is (start + 0.065) / multiplier whatever sa_cent_freq is given, the step step / multiplier, and the step count floor((end − start) / step) + 1 |
| BiasingCalibration10.FreqSweep.BiasingCalibration | pyvisa_biasing_calibration_1.0.py:73-177 | the shared search with the analyzer at the fixed 0.065 GHz centre: the same commands, log, calibrated map entries and map file |
| BiasingCalibration10.FreqSweep.CalibrationLoop | pyvisa_biasing_calibration_1.0.py:85-173 | the calibration up to VOLT 0 always completes and commits its commands, log and map entries |
| BiasingCalibration10.FreqSweep.WriteVmapToCsv | pyvisa_biasing_calibration_1.0.py:179-183 | the map file holds one [str(key), str(value)] row per entry |
| BiasingCalibration10.FreqSweep.ReadVmapFromCsv | pyvisa_biasing_calibration_1.0.py:185-192 | returns None exactly when the file is missing or some row is not a [key, value] pair, and the text image of m when the file holds the rows of a map m |
| BiasingCalibration10.CallSiteSchedule | pyvisa_biasing_calibration_1.0.py:196 | FreqSweep(220, 300, 18, 0, 0.065, 5) visits 17 frequencies, 220 to 300 GHz |
| MixerFreqSweep.AppliedIsLadder | pyvisa_mixer_freq_sweep.py:94-111 | the voltage written at candidate j is initial + j·(volt_step + 0.01): it climbs twice as fast as the stored key |
| MixerFreqSweep.CarriedIsFresh | pyvisa_mixer_freq_sweep.py:89-111 | the never-cleared volt_pwr equals, after each complete frequency step, the dictionary of that step's readings alone |
| MixerFreqSweep.TryMixerLadder | pyvisa_mixer_freq_sweep.py:94-111 | the inner loop writes VOLT curr_volt + j·0.01 and CALC:MARK:Y? for each candidate before the first whose written value is over the ceiling, storing the reading under curr_volt |
| MixerFreqSweep.MixerRun | pyvisa_mixer_freq_sweep.py:72-126 | the loops end as `MixerVerdict` says and write exactly `MixerWrites`; on completion the map is calibrated, on abort it is empty |
| MixerFreqSweep.MixerRunVolts | pyvisa_mixer_freq_sweep.py:94-126 | the voltages written are initial + j·(volt_step + 0.01) up to the first one over the ceiling, or that whole ladder once per frequency, then 0 |
| MixerFreqSweep.MixerCeilingRespected | pyvisa_mixer_freq_sweep.py:98-102 | every voltage written is within the ceiling, except the final reset to 0 |
| MixerFreqSweep.MixerNeverClears | pyvisa_mixer_freq_sweep.py:72-126 | a mixer run never writes AVER:CLE |
| MixerFreqSweep.StoredIsKey | pyvisa_mixer_freq_sweep.py:102-114 | the stored voltage is the key of a reading of maximal power, and lags the voltage actually written for it by j·0.01 |
| MixerFreqSweep.MixerMapWithinCeiling | pyvisa_mixer_freq_sweep.py:98-114 | every voltage a completed run stores is within the ceiling |
| MixerFreqSweep.MixerLadderAborts | pyvisa_mixer_freq_sweep.py:65-100 | with the hard-coded ladder the written voltage is 0.49 V at candidate 22 and 0.51 V at 23, so every run with a frequency step aborts |
| MixerFreqSweep.MixerStepsNegated | pyvisa_mixer_freq_sweep.py:27 | the step count is positive only when start exceeds end by at least 5; an ascending range has no frequency step |
| MixerFreqSweep.NoStepWrites | pyvisa_mixer_freq_sweep.py:72-126 | a run with no frequency step completes, writing only the set-up and VOLT 0 |
| MixerFreqSweep.FreqSweep.constructor | pyvisa_mixer_freq_sweep.py:10-29 | the generator start is (start + 0.065) / multiplier, the step the constant 5.065 / 3, and the step count floor((start − end) / 5) |
| MixerFreqSweep.FreqSweep.BiasingCalibration | pyvisa_mixer_freq_sweep.py:61-127 | aborts exactly when there is a frequency step; bus gains exactly `MixerWrites`; on completion is_calibrated is set and freq_volt gains a calibrated entry per frequency, on abort both are unchanged |
| MixerFreqSweep.FreqSweep.WriteToCsv | pyvisa_mixer_freq_sweep.py:200-204 | the map file holds one [str(key), str(value)] row per entry |
| MixerFreqSweep.CallSiteSchedule | pyvisa_mixer_freq_sweep.py:214-216 | FreqSweep(140, 200, 3, 0, 0.065) has step count −12, so calibration writes only the set-up and VOLT 0 and maps nothing |

## Left out

- initialize_instrument is not modelled as I/O. It is resource discovery over VISA and a `sys.exit` when an instrument is missing. The model assumes it has been called and has succeeded. It also leaves out the `INST:SEL OUT2`, `VOLT 0` and `OUTP ON` writes that set up the voltage source. In `frequency_sweep.py`, which handles are opened depends on `version`: all three for version 0, the generator and the analyzer for version 1, none for any other version. `FrequencySweep.Opened` records this. A write to a handle left at `None` raises `AttributeError`, which the model gives as `Abort(Unopened(instrument))`. In the other two files `initialize_instrument` always opens all three.
- The model assumes every instrument write succeeds, every `float(self.sa.read())` gets a number, and every CSV file opened for writing opens. The reads are frequency_sweep.py:191, 269 and 318, pyvisa_biasing_calibration_1.0.py:141 and pyvisa_mixer_freq_sweep.py:107. The opens are frequency_sweep.py:160, 251, 307 and 328, pyvisa_biasing_calibration_1.0.py:110 and 180, and pyvisa_mixer_freq_sweep.py:201. In the source a VISA error, a reply `float()` rejects, or an `IOError` from `open` raises, and the run ends with the writes and rows made so far. Only a failed read of the map file is modelled (`VoltMapCsv.ReadFails`).
- The instruments' replies are not modelled as I/O. They are the `power` and `sample` parameters, one reading per CALC:MARK:Y?.
- Sleeps, `print` output, the CSV header rows and the number formatting in the log rows (`"{0:.2f}"`, `str()` of floats) are not modelled.
- Voltages are modelled as exact whole millivolts. The source accumulates `curr_volt` in binary floating point; for the hard-coded ladders no candidate is near enough to a ceiling for rounding to change a comparison.
- The map file stores `str()` of the voltage in volts. The model writes the text of the integer millivolt value, so the round trip is stated for integer texts.
- The Decimal precision of 15 digits set in `__init__` is not modelled. Generator frequencies are exact reals.
- `curr_sweep_freq` is updated but never read, so it is not modelled. The commented-out last-step re-tuning blocks are not modelled either.
- The datetime-based screenshot folder is not modelled. A screenshot is the abstract command `StoreScreen(freq)`; the `try/except` around it cannot fail here.
- get_trace_data's query reply is discarded in the source; the model writes the abstract `TraceQuery` command.
- fluctuation_test's `power_list` is only printed, so it is not modelled.
- The mixer version's `frequency_sweep` and `read_from_csv` are not modelled. The first fails on a closed file before any measurement; the second reads a file nothing writes. pyvisa_freq_sweep.py is not part of this model.
- Python 2 `int(a / b)` on ints is floor division, not truncation, and all three files use it for the step count. The model follows Python 2 throughout (`Bench.FloorDiv`). In `frequency_sweep.py` and `pyvisa_biasing_calibration_1.0.py`, `int((end - start) / step) + 1` is affected when end < start. For example, FreqSweep(65, 63, …, 5) has (−2) div 5 + 1 = 0 steps, where truncation would give 1. For the mixer's `int((start - end) / 5)` the two differ only for a range that is not a multiple of 5, and both are ≤ 0 for an ascending range.
- The constructors require a non-zero freq_step and multiplier. Both are divisors in `__init__`, so a zero raises before any object exists.
- The hard-coded ladder is an object constant (`ladder == Ladder` after construction). `Valid()` records the facts the proofs use: the ladder never aborts, or, for the mixer, it passes the ceiling.
- FrequencySweep.FreqSweep.BiasingCalibration: states the saved file as the rows of the map in some order (`RowsOf(order, freqVolt)`), not as the dictionary read back. The read-back is given by `VoltMapCsv.ReadOrdered`, or by `VoltMapCsv.WriteThenRead` over any such file.
- BiasingCalibration10.FreqSweep.BiasingCalibration: states the saved file the same way, for the same reason.
- Bench.MaxKey: Python 2's `dict` order is unspecified, so it does not fix which maximal key is returned on a tie.
- VoltMapCsv.MapRows: the order argument is the same one, so it leaves the row order open.
