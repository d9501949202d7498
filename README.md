# max6625-station, modelled in Dafny

The station reads an array of MAX6675 thermocouple converters over SPI,
smooths each channel with a one-dimensional Kalman filter, applies per-sensor
calibration offsets and serves everything, together with an oscilloscope's
PSU voltage and fan speed and an ambient probe, as a Prometheus-style
`/metrics` text page. A `--calibrate <temperature>` mode runs a sampling
campaign instead and derives the offsets.

The project models, one module per source file:

- `RingBuffer` (`src/ring_buffer.rs`): the bounded FIFO as a class over a
  sequence, with `Pushed`/`Popped` as its specification and lemmas about any
  run of pushes and pops.
- `Kalman` (`src/kalman.rs`): the filter as a class whose ghost `inputs`
  record every update; `Estimate(inputs)` is the value it reports. The gain is
  fixed at one half by the constructor and never recomputed, so each update
  moves the estimate halfway to the reading.
- `Max6675` (`src/max6675.rs`): the 16-bit word decoder (as written and
  corrected), `Temperatures` (raw readings, filters, offsets) as a class, one
  sampling sweep, and the calibration campaign (sample accumulation and the
  offset reduction).
- `Max6675Py` (`python/MAX6675.py`): the earlier Python driver's `read_temp`
  and `_read16`, and how its answers relate to the Rust decoder's.
- `Scope` (`src/scope.rs`): `Descriptor::resource`, the reply parsing of
  `read_psu_voltage` and `read_fan_rpm` (trim, second comma field, remove
  every unit occurrence, parse, ×30 for RPM), and the slot-overwrite rule of
  the polling loop.
- `Station` (`src/main.rs`): the `/metrics` handler as a method that appends
  line by line, proved equal to the rendering of a list of `Metric` lines, and
  lemmas about what that list contains and in which order; and `main` up to
  serving (calibration-mode early return, non-fatal calibration load, empty
  scalar slots).
- Helpers: `Wrappers` (Option, Result), `Text` (decimal rendering of integers,
  as `{}` writes `usize`/`u128`), `Shared` (`Arc<Mutex<Option<f64>>>` as a
  class with one field).

Numbers are Dafny `real`s, not IEEE doubles. Rust's `{:.2}`/`{:.0}`
formatting is an opaque `Formatter`, the clock reading is a parameter, and
`f64::from_str` is a parameter `parse: string -> Option<real>`. The sensors,
the SPI bus and the oscilloscope's TCP link are replaced by the values they
return. In `read_temp`, the two's-complement branch (`value & 0x10000000`
after the shift) can never fire on a 13-bit value; `Max6675.Decode`'s
contract states that every accepted word decodes to `word / 8`.

The station's design description (the behaviour documented for its sweep,
calibration campaign, `/metrics` page and filter) disagrees with the code at
the points below; the model follows the code, and each point names the member
whose contract shows the code's behaviour:

- A sweep clears `inner` first, so a sensor whose read fails loses its
  previous reading (`Max6675.Temperatures.Sweep`); the design description says the
  previous value is kept.
- A sensor that never read during a campaign still gets an entry, NaN in the
  source and `None` here (`Max6675.CampaignResult`); the design description says
  it is absent from the new table.
- The filtered block is emitted for every filter with an offset, so a sensor
  that was never read shows `25.0 + offset` (`Station.NeverReadSensor`); the
  design description says such a sensor never appears.
- The power slot is stored but never rendered (`Station.PowerNotRendered`).
- Labels are `sensor_id="<id>"`, where the design description writes
  `channel="<id>"`.
- After three readings of 20.0 a fresh filter reports 20.625
  (`Kalman.ThreeReadingsOfTwenty`), which is between 20.0 and the second
  value (21.25), as the design description requires, but not within 0.5 of
  20.0, as it also claims.
- The call sites at `src/main.rs:104` and `:110` pass a Kalman configuration
  that `calibrate_sensors` and `Temperatures::new` do not take; the model
  follows the definitions in `src/max6675.rs`, with the constants
  `PROCESS_VARIANCE = 0.01` and `MEASUREMENT_ERROR = 2.0`.

## Model

| member | source | states |
|---|---|---|
| RingBuffer.RingBuffer.constructor | src/ring_buffer.rs:9-13 | a new buffer is empty and remembers its bound |
| RingBuffer.RingBuffer.Push | src/ring_buffer.rs:15-20 | the contents become `Pushed(old contents)`: at the bound the oldest item goes, the new item is appended last; the length stays within the bound |
| RingBuffer.RingBuffer.Pop | src/ring_buffer.rs:22-24 | returns the front item and removes it; on an empty buffer returns `None` and leaves it empty |
| RingBuffer.RingBuffer.Next | src/ring_buffer.rs:30-32 | the iterator step behaves exactly as `pop` |
| RingBuffer.Popped | src/ring_buffer.rs:22-24 | `None` exactly for the empty queue; otherwise the front item followed by the rest is the old queue |
| RingBuffer.PushBelowBound | src/ring_buffer.rs:15-20 | below the bound a push only appends and keeps every earlier item in place |
| RingBuffer.PushAtBound | src/ring_buffer.rs:16-19 | at the bound a push drops exactly the oldest item and the length stays at the bound |
| RingBuffer.RunStaysWithinBound | src/ring_buffer.rs:15-24 | no sequence of pushes and pops takes a buffer with bound ≥ 1 above its bound |
| RingBuffer.PushAllKeepsNewest | src/ring_buffer.rs:15-20 | pushing a list into an empty buffer keeps the last `capacity` items, oldest first |
| RingBuffer.PushPopScenario | src/ring_buffer.rs:40-52 | bound 3, pushes 3, 4, 5, 1: the pops give 4, 5, 1, then `None` |
| RingBuffer.TestPushPop | src/ring_buffer.rs:40-52 | the same scenario run against the class returns 4, 5, 1, `None` |
| RingBuffer.TestIter | src/ring_buffer.rs:55-67 | the real-valued scenario through `next` returns 4.2, 5.3, 1.4, `None` |
| Kalman.Kalman.constructor | src/kalman.rs:16-29 | gain is one half, both estimates are 25.0, the error starts at the measurement error, no inputs yet |
| Kalman.Kalman.Update | src/kalman.rs:31-36 | the estimate moves by gain × (reading − last estimate), which is the midpoint; the error term follows its recurrence and stays non-negative; the input is recorded |
| Kalman.Kalman.Value | src/kalman.rs:38-40 | the value is `Estimate(inputs)`: it depends on the readings alone, never on the error terms |
| Kalman.UpdateHalvesDistance | src/kalman.rs:31-33 | each update halves the distance between the estimate and the new reading |
| Kalman.RepeatedUpdatesConverge | src/kalman.rs:31-36 | after n equal readings v the distance to v is the initial distance divided by 2^n |
| Kalman.EstimateFromAppend | src/kalman.rs:31-36 | feeding `a` and then `b` equals feeding `a + b`: a filter with a history continues from its current estimate |
| Kalman.HistoryThenRepeated | src/kalman.rs:31-36 | after any history, n equal readings v shrink the distance between the filter's current estimate and v by 2^n |
| Kalman.RepeatedUpdatesNeverOvershoot | src/kalman.rs:31-36 | repeated equal readings move the estimate monotonically toward v and never past it |
| Kalman.FirstUpdate | src/kalman.rs:16-33 | the first update of a fresh filter lands halfway between 25.0 and the reading |
| Kalman.ThreeReadingsOfTwenty | src/kalman.rs:16-36 | three readings of 20.0 give 22.5, 21.25, 20.625, strictly decreasing toward 20.0 |
| Max6675.Word | src/max6675.rs:78 | the two bytes form a 16-bit word from which both bytes can be read back: high byte `word / 256`, low byte `word % 256` |
| Max6675.AsWrittenNeverReportsWrongConnection | src/max6675.rs:78-85 | the decoder as written never reports a wrong connection: a 16-bit word is never 0xFFFF_FFFF |
| Max6675.AllOnesMisreported | src/max6675.rs:78-98 | as written, a bus held high (0xFF, 0xFF) is reported as an open thermocouple |
| Max6675.Decode | src/max6675.rs:78-107 | wrong connection exactly for 0xFFFF, not present exactly for 0, open thermocouple exactly when D2 is set otherwise; an accepted word decodes to `word / 8` quarter-degrees, below 8192 |
| Max6675.DecodersAgree | src/max6675.rs:78-107 | the corrected and the as-written decoder agree on every word except 0xFFFF, where both reject |
| Max6675.DecodeIgnoresD1D0 | src/max6675.rs:93-101 | status bits D1 and D0 never change an accepted value, and change acceptance only for words below 4 |
| Max6675.ReadTemp | src/max6675.rs:70-108 | the read with the corrected all-ones test: a failed transfer is a bus error and nothing else is; a word is accepted exactly when the source's decoder accepts it, giving `(word / 8) × 0.25` degrees, between 0.0 and 2047.75; a rejected word reports the decoder's error, the source's own error for every word but 0xFFFF |
| Max6675.DecodeAsWritten | src/max6675.rs:78-107 | the decoder as written: "not present" exactly for the word 0, "open thermocouple" exactly when D2 is set, never any other error; an accepted word decodes to `word / 8` quarter-degrees, below 8192 |
| Max6675.Celsius | src/max6675.rs:107 | a count of quarter-degrees is a quarter of that many degrees |
| Max6675.Temperatures.constructor | src/max6675.rs:25-39 | no readings; one fresh filter (constants 2.0 and 0.01) and a 0.0 offset for each sensor below `num_sensors` |
| Max6675.Temperatures.LoadCalibration | src/max6675.rs:41-48 | a parsed table replaces the offsets wholesale; when loading fails the offsets stay as they were; readings and filters are untouched |
| Max6675.Temperatures.SweepEntry | src/max6675.rs:128-141 | one sensor's turn: a successful reading is inserted into `inner` and fed to that sensor's filter, keeping the sweep's running account of every filter; a failed read changes nothing |
| Max6675.Temperatures.Sweep | src/max6675.rs:127-142 | afterwards `inner` holds exactly the sensors that read, with their readings; each sensor's filter has been fed its reading, if any, its estimation error has taken that one update's step (or is unchanged) and its process variance is unchanged; the filter map and offsets are unchanged |
| Max6675.Temperatures.Record | src/max6675.rs:137-141 | stores the reading and feeds it to that sensor's filter only, when it has one: that filter's error takes one update's step, every other filter keeps its inputs, error and estimate, and no process variance changes |
| Max6675.Samples | src/max6675.rs:167-178 | a sensor collects at most one sample per round |
| Max6675.Offset | src/max6675.rs:181-183 | no offset exactly when there are no samples; otherwise mean + offset is the reference temperature |
| Max6675.SampleRound | src/max6675.rs:168-177 | one round appends each sensor's successful reading to its own list and touches no other list |
| Max6675.Offsets | src/max6675.rs:180-186 | one offset per sensor, computed from that sensor's samples |
| Max6675.CampaignResult | src/max6675.rs:153-187 | the table has an entry exactly for each chip-select pin's sensor, and that entry is missing an offset exactly when the sensor never read in 180 rounds |
| Max6675.CalibrateSensors | src/max6675.rs:148-187 | the campaign yields `CampaignResult`: for each chip-select pin (index below the pin count), the offset of its sensor's 180 samples |
| Max6675.SampleCount | src/max6675.rs:167-178 | a sensor keeps at most 180 samples, exactly 180 when every read succeeds |
| Max6675.SteadySamples | src/max6675.rs:167-178 | a sensor that always reads v collects only copies of v |
| Max6675.ConstantSamplesOffset | src/max6675.rs:181-183 | constant samples v give the offset `real_temp − v` |
| Max6675.SteadyCampaign | src/max6675.rs:148-187 | at 100.0 with every sensor steadily reading 98.0, every sensor is calibrated to +2.0 |
| Max6675Py.Read16 | python/MAX6675.py:50-57 | succeeds exactly when two bytes came back, giving `raw[0] << 8 \| raw[1]` |
| Max6675Py.ReadTemp | python/MAX6675.py:32-48 | NaN exactly when D2 is set; otherwise `word / 8` quarter-degrees; a short read propagates the error |
| Max6675Py.AgreesWithRust | python/MAX6675.py:32-57 | every word the Rust decoder accepts decodes to the same value in Python |
| Max6675Py.RustRejectionsInPython | python/MAX6675.py:32-48 | where Rust rejects a word, Python answers 0.0 for the all-zero word and NaN for D2 and for all ones |
| Max6675Py.ZeroWord | python/MAX6675.py:32-48 | the all-zero word is 0.0 degrees in Python and "not present" in Rust |
| Text.DecimalRoundTrip | src/scope.rs:18 | reading back the decimal digits written for a number gives that number |
| Scope.Descriptor.Resource | src/scope.rs:17-19 | the resource string is the address, a colon, then decimal digits that denote the port, with no leading zero unless the port is 0 (as `{}` writes it) |
| Scope.ResourceRoundTrip | src/scope.rs:17-19 | the address and port can be recovered from `"{address}:{port}"`, even when the address holds colons |
| Scope.TrimStart | src/scope.rs:82 | removes exactly the leading whitespace: a suffix, not starting with whitespace, only whitespace removed |
| Scope.TrimEnd | src/scope.rs:82 | removes exactly the trailing whitespace: a prefix, not ending with whitespace, only whitespace removed |
| Scope.Trim | src/scope.rs:82 | `trim` never lengthens the text and leaves no whitespace at either end |
| Scope.TrimStartSkipsWhitespace | src/scope.rs:82 | leading whitespace makes no difference to `trim_start` |
| Scope.TrimEndSkipsWhitespace | src/scope.rs:82 | trailing whitespace makes no difference to `trim_end` |
| Scope.TrimmedLine | src/scope.rs:82 | trimming a line with surrounding whitespace gives the line back |
| Scope.Split | src/scope.rs:82 | `split(',')` gives at least one piece, no piece holds a comma, and joining the pieces gives the text back |
| Scope.SecondField | src/scope.rs:82 | `split(',').nth(1)`: the second piece of the split, which holds no comma |
| Scope.SecondFieldExists | src/scope.rs:82-83 | `nth(1)` exists exactly when the text holds a comma |
| Scope.SecondFieldIgnoresLaterFields | src/scope.rs:82 | the second field is what lies between the first and second comma |
| Scope.RemoveAll | src/scope.rs:85 | `replace(unit, "")`, scanning left to right: each occurrence of the unit is dropped and every other character kept, in order |
| Scope.RemoveAllNeverLengthens | src/scope.rs:85 | removing a unit never lengthens the text, and a text that keeps its length is unchanged |
| Scope.RemoveVoltsUnit | src/scope.rs:85 | removing `V` leaves no `V` and leaves text without one unchanged |
| Scope.RemoveVoltsDistributes | src/scope.rs:85 | every `V` is removed wherever it stands |
| Scope.RemovePairConcat | src/scope.rs:97 | removing a two-character unit distributes over a concatenation whose second part does not start with the unit's second character |
| Scope.RemoveHertzUnit | src/scope.rs:97 | every `Hz` is removed wherever it stands; text without an `H` is unchanged |
| Scope.Measure | src/scope.rs:78-104 | I/O failure exactly without a reply; "wrong response" exactly when the trimmed reply has no comma; a parse failure exactly when the stripped second field does not parse; otherwise the parsed stripped second field |
| Scope.ReadPsuVoltage | src/scope.rs:78-89 | I/O failure exactly without a reply; "wrong response" exactly when the trimmed reply has no comma; a parse failure exactly when the second field with every `V` removed does not parse; otherwise that text, which holds no `V`, parses to the value |
| Scope.ReadFanRpm | src/scope.rs:91-104 | succeeds exactly when the frequency reading does, with 30 × the frequency; failures pass through unchanged |
| Scope.VoltageReplyField | src/scope.rs:82 | the second field of `C1:PAVA MEAN,12.03V` is `12.03V` |
| Scope.VoltageFieldUnit | src/scope.rs:85 | `12.03V` without its unit is `12.03` |
| Scope.VoltageReply | src/scope.rs:78-89 | that reply, with any surrounding whitespace, reads as 12.03 V |
| Scope.FanReplyField | src/scope.rs:94 | the second field of `C2:PAVA FREQ,40.0Hz` is `40.0Hz` |
| Scope.FanFieldUnit | src/scope.rs:97 | `40.0Hz` without its unit is `40.0` |
| Scope.FanReply | src/scope.rs:91-104 | that reply reads as 1200 RPM |
| Scope.Poll | src/scope.rs:117-130 | each slot is overwritten with its new reading, or `None` on any failure; the previous value is never kept |
| Shared.Slot.constructor | src/main.rs:116-119 | a new slot is empty |
| Station.Render | src/main.rs:31-93 | the page's text is empty exactly when there are no lines, and holds at least one character per line |
| Station.RenderAppend | src/main.rs:31-93 | rendering distributes over concatenation: appending lines appends their texts |
| Station.LineText | src/main.rs:43-89 | a line starts with the metric's name and ends with a space, the decimal timestamp and a newline |
| Station.OneNewlinePerLine | src/main.rs:43-89 | each line's text holds exactly one newline, at its end |
| Station.OneLinePerMetric | src/main.rs:30-94 | the page has exactly one newline per metric line |
| Station.SortedKeysSorted | src/main.rs:69-91 | the visiting order of a map lists every key, in strictly ascending order |
| Station.SortedKeysUnique | src/main.rs:69-91 | any strictly ascending list of exactly a map's keys is that visiting order |
| Station.SensorLinesContents | src/main.rs:69-91 | a block's lines carry the block's name, the shared timestamp and the sensor's reading, and every sensor with a reading has one |
| Station.SensorLinesAscend | src/main.rs:69-91 | visiting sensors in ascending order gives a block in ascending sensor order |
| Station.BlockShown | src/main.rs:69-91 | a block holds one line per sensor with a reading, with that reading, and nothing else |
| Station.Lines | src/main.rs:33-91 | every line of the page carries the one timestamp taken at the start of the request |
| Station.UnlabelledLines | src/main.rs:38-91 | the lines without a sensor label are exactly the scalar lines |
| Station.ScalarLinesShown | src/main.rs:38-62 | the voltage, fan and ambient lines appear exactly when their slots hold values, with those values and precisions |
| Station.CalibratedLinesShown | src/main.rs:69-76 | a calibrated line exactly for each sensor with a reading and an offset, showing their sum |
| Station.FilteredLinesShown | src/main.rs:78-85 | a filtered line exactly for each filter with an offset, showing estimate + offset, whether or not the sensor ever read |
| Station.RawLinesShown | src/main.rs:87-91 | a raw line exactly for each reading, with the reading itself |
| Station.NeverReadSensor | src/main.rs:78-85 | a sensor that never read shows the filtered line 25.0 + offset and no calibrated or raw line |
| Station.PowerNotRendered | src/main.rs:26 | the page does not depend on the power slot |
| Station.BlockOrdered | src/main.rs:69-91 | within a block the sensors ascend |
| Station.ScalarsOrdered | src/main.rs:38-62 | the scalar lines come voltage, fan, ambient |
| Station.PageOrdered | src/main.rs:30-94 | all lines come in block order, and in ascending sensor order within each block |
| Station.Estimates | src/main.rs:78-80 | one estimate per filter, each `Estimate` of that filter's inputs |
| Station.Measurements.constructor | src/main.rs:21-27 | the shared state holds the given store and slots |
| Station.PushScalar | src/main.rs:38-62 | appends a scalar line's text exactly when its slot holds a value |
| Station.SensorText | src/main.rs:69-91 | one sensor's text in a block: value (+ offset in a calibrated block), nothing when a calibrated block has no offset |
| Station.PushSensorLines | src/main.rs:69-91 | appends the block's text, visiting the map's keys in ascending order |
| Station.RenderPage | src/main.rs:31-93 | the text built push by push is the rendering of the page's lines |
| Station.PageText | src/main.rs:31-93 | the page's text is the six parts' texts one after another |
| Station.Metrics | src/main.rs:30-94 | the handler returns the rendering of `Lines` for the current measurements |
| Station.Start | src/main.rs:102-127 | with `--calibrate` returns the campaign's offsets over the configured chip-select pins and builds no store; otherwise a fresh store with no readings, new filters for sensors below `num_sensors`, each with process variance 0.01 and starting error 2.0, four new, distinct, empty slots, and the loaded table or else the 0.0 defaults |

## Left out

- The SPI transaction, the GPIO chip-select, and the sleeps and delays of every loop: a read is the bytes or reading it returned, or a failure.
- Concurrency: the `Arc<Mutex<…>>` locks, the tokio tasks and their never-ending loops; one pass of each loop is modelled (`Sweep`, `SampleRound`, `Poll`).
- The ambient probe (`src/ds18b20.rs`), the power meter (`src/netio.rs`) and configuration and arguments (`src/config.rs`, `src/args.rs`): they only fill slots or supply parameters. `python/main.py` is not part of this model.
- `src/metric.rs`: a `Metric` struct with its own clock read that `main.rs` never declares as a module nor uses; the page's lines are `Station.Metric`.
- The rocket web server and the oscilloscope's TCP connection, `init` and `recv`: the reply line is a parameter, `None` for a failed or timed-out exchange.
- JSON reading and writing of the calibration file: the parsed table is a parameter `Option<map>`, and `store_calibration` is not modelled (a NaN offset would be written as `null`).
- IEEE doubles, NaN and infinities: values are reals; a zero-sample mean (NaN in the source) is `None`.
- Rust's number formatting and `f64::from_str`: they are opaque parameters.
- Logging (`warn!`, `debug!`, `info!`, Python's `log.debug`).
- RingBuffer.RingBuffer.Push: the bound is the requested capacity, whereas `VecDeque::with_capacity` may allocate more. A bound of 0 is modelled as unbounded, whereas the source would pop from an empty queue and then let the allocation grow.
- Max6675.ReadTemp: uses the corrected all-ones test, so for the word 0xFFFF it reports a wrong connection where the source reports an open thermocouple (see Findings); which words are accepted, and their values, are the source's.
- Kalman.Kalman.constructor: requires a non-zero measurement error, because a zero one makes the source's gain 0/0 (NaN).
- Station.Metrics: the filter estimates are read before the blocks are rendered rather than inside the filtered loop. This is the same snapshot, because the handler holds the store's lock throughout.
- Station.Metrics: the timestamp is a parameter instead of `SystemTime::now()`.
- Scope.Poll: when both slots are the same object, only the fan reading is stated. The source always passes two distinct slots, as `Station.Start` promises.

## Findings

| source | as written | input that shows it | evidently intended | confidence | as-written member | corrected member |
|---|---|---|---|---|---|---|
| src/max6675.rs:81 | the wrong-connection test compares a 16-bit word with 0xFFFF_FFFF, so it never fires and an all-ones bus is reported as an open thermocouple | bytes 0xFF, 0xFF | compare with 0xFFFF, the all-ones 16-bit word | not executed | Max6675.DecodeAsWritten, Max6675.AllOnesMisreported | Max6675.Decode |
