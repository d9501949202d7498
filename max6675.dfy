/**
 * The MAX6675 thermocouple array of `src/max6675.rs`: decoding the 16-bit
 * word a converter clocks out, the store of raw, filtered and calibration
 * values shared with the metrics endpoint, one sampling sweep over the
 * sensors, and the calibration campaign.
 *
 * The bus transaction itself is not modelled: a read is the two bytes it
 * returned, or a failure.
 */
module Max6675 {
  import opened Wrappers
  import Kalman

  const ProcessVariance: real := 0.01
  const MeasurementError: real := 2.0
  const DefaultOffset: real := 0.0
  /** Samples per sensor in one calibration campaign. */
  const NumMeasurements: nat := 180

  type Byte = x: int | 0 <= x < 256

  datatype ReadError =
    | BusError          // the SPI transfer itself failed
    | WrongConnection   // MISO held high: the module is mounted the wrong way
    | NotPresent        // an all-zero word: nothing drives the bus
    | ThermocoupleOpen  // status bit D2: no thermocouple on the input

  /** `(hi << 8) | lo`; the two bytes occupy disjoint bits, so the `|` is an addition. */
  function Word(hi: Byte, lo: Byte): (w: nat)
    ensures w < 0x1_0000
    ensures w / 256 == hi && w % 256 == lo
  {
    hi * 256 + lo
  }

  /** `v & weight == weight` for a power-of-two `weight`. */
  predicate BitSet(v: nat, weight: nat)
    requires weight > 0
  {
    (v / weight) % 2 == 1
  }

  /** `value >> 3`: drops the three status bits D2, D1, D0. */
  function DropStatusBits(v: nat): nat
  {
    v / 8
  }

  /**
   * The decoder exactly as `read_temp` writes it, giving quarter-degrees. Its
   * first test compares the 16-bit word with the 32-bit pattern 0xFFFF_FFFF
   * and so never fires; see `AllOnesMisreported`.
   */
  function DecodeAsWritten(hi: Byte, lo: Byte): (r: Result<int, ReadError>)
    ensures r == Failure(NotPresent) <==> Word(hi, lo) == 0
    ensures r == Failure(ThermocoupleOpen) <==> BitSet(Word(hi, lo), 4)
    ensures r.Failure? ==> r.error == NotPresent || r.error == ThermocoupleOpen
    ensures r.Success? ==> r.value == Word(hi, lo) / 8 && 0 <= r.value < 8192
  {
    var value := Word(hi, lo);
    if value == 0xFFFF_FFFF then Failure(WrongConnection)
    else if value == 0x0000_0000 then Failure(NotPresent)
    else if BitSet(value, 0x4) then Failure(ThermocoupleOpen)
    else
      var value := DropStatusBits(value);
      Success(if BitSet(value, 0x1000_0000) then value - 4096 else value)
  }

  /** The wrong-connection test can never fire in the decoder as written. */
  lemma AsWrittenNeverReportsWrongConnection(hi: Byte, lo: Byte)
    ensures DecodeAsWritten(hi, lo) != Failure(WrongConnection)
  {
  }

  /** A bus held high (both bytes 0xFF) is reported as an open thermocouple, not as a wrong connection. */
  lemma AllOnesMisreported()
    ensures DecodeAsWritten(0xFF, 0xFF) == Failure(ThermocoupleOpen)
  {
  }

  /**
   * The decoder with the all-ones test made to look at the 16 bits that are
   * read. It differs from `DecodeAsWritten` on the word 0xFFFF only.
   */
  function Decode(hi: Byte, lo: Byte): (r: Result<int, ReadError>)
    ensures r == Failure(WrongConnection) <==> Word(hi, lo) == 0xFFFF
    ensures r == Failure(NotPresent) <==> Word(hi, lo) == 0
    ensures r == Failure(ThermocoupleOpen) <==> Word(hi, lo) != 0xFFFF && BitSet(Word(hi, lo), 4)
    ensures r != Failure(BusError)
    ensures r.Success? ==> r.value == Word(hi, lo) / 8 && 0 <= r.value < 8192
  {
    var value := Word(hi, lo);
    if value == 0xFFFF then Failure(WrongConnection)
    else if value == 0x0000 then Failure(NotPresent)
    else if BitSet(value, 0x4) then Failure(ThermocoupleOpen)
    else
      var value := DropStatusBits(value);
      Success(if BitSet(value, 0x1000_0000) then value - 4096 else value)
  }

  /** The two decoders agree on every word except 0xFFFF. */
  lemma DecodersAgree(hi: Byte, lo: Byte)
    ensures Word(hi, lo) != 0xFFFF ==> DecodeAsWritten(hi, lo) == Decode(hi, lo)
    ensures Word(hi, lo) == 0xFFFF ==> DecodeAsWritten(hi, lo).Failure? && Decode(hi, lo).Failure?
  {
  }

  /**
   * Status bits D1 and D0 never change an accepted value; they change whether
   * the word is accepted only when no other bit is set.
   */
  lemma DecodeIgnoresD1D0(hi: Byte, lo: Byte, lo': Byte)
    requires lo / 4 == lo' / 4
    ensures Decode(hi, lo).Success? && Decode(hi, lo').Success? ==> Decode(hi, lo) == Decode(hi, lo')
    ensures Word(hi, lo) >= 4 ==> Decode(hi, lo).Success? == Decode(hi, lo').Success?
  {
    var w, w' := Word(hi, lo), Word(hi, lo');
    var q := hi * 64 + lo / 4;
    assert w == 4 * q + lo % 4 && w' == 4 * q + lo' % 4;
    assert w / 4 == q && w' / 4 == q;
    assert w / 8 == q / 2 && w' / 8 == q / 2;
    assert BitSet(w, 4) == BitSet(w', 4);
    if w >= 4 {
      assert w' >= 4;
      assert w == 0xFFFF || w' == 0xFFFF ==> q == 0x3FFF;
    }
  }

  /** Quarter-degrees to degrees Celsius: `value as f64 * 0.25`. */
  function Celsius(quarters: int): (c: real)
    ensures 4.0 * c == quarters as real
  {
    quarters as real * 0.25
  }

  /**
   * `read_temp` after the bus transfer, with the corrected all-ones test:
   * `bus` is the two bytes read, or `None` when the transfer failed. It
   * accepts exactly the words the source accepts, with the same value; only
   * the error reported for the word 0xFFFF differs.
   */
  function ReadTemp(bus: Option<(Byte, Byte)>): (r: Result<real, ReadError>)
    ensures bus.None? <==> r == Failure(BusError)
    ensures bus.Some? ==> (r.Success? <==> Decode(bus.value.0, bus.value.1).Success?)
    ensures bus.Some? ==> (r.Success? <==> DecodeAsWritten(bus.value.0, bus.value.1).Success?)
    ensures bus.Some? && r.Failure? ==> r.error == Decode(bus.value.0, bus.value.1).error
    ensures bus.Some? && r.Failure? && Word(bus.value.0, bus.value.1) != 0xFFFF ==>
      r.error == DecodeAsWritten(bus.value.0, bus.value.1).error
    ensures r.Success? ==> 0.0 <= r.value <= 2047.75
    ensures r.Success? ==> r.value == Celsius(Word(bus.value.0, bus.value.1) / 8)
  {
    match bus
    case None => Failure(BusError)
    case Some((hi, lo)) =>
      DecodersAgree(hi, lo);
      match Decode(hi, lo)
      case Success(q) => Success(Celsius(q))
      case Failure(e) => Failure(e)
  }

  /** What sensor `id`'s filter is fed by the first `n` entries of a sweep's readings. */
  function Fed(readings: seq<Option<real>>, id: nat, n: nat): seq<real>
  {
    if id < n && id < |readings| && readings[id].Some? then [readings[id].value] else []
  }

  /** The estimation error of sensor `id`'s filter after the first `n` entries of a sweep, from `error` and estimate `last`. */
  function FedError(readings: seq<Option<real>>, id: nat, n: nat, error: real, last: real, processVariance: real): real
  {
    if id < n && id < |readings| && readings[id].Some? then Kalman.ErrorAfter(error, last, readings[id].value, processVariance)
    else error
  }

  /**
   * A filter that started a sweep with `inputs0`, `error0`, `last0` and
   * `variance0` holds `inputs`, `error`, `last` and `variance` after the
   * first `n` entries: it was fed what `Fed` says, its process variance is
   * untouched, and its estimate has not moved before its own entry.
   */
  ghost predicate SweptSoFar(readings: seq<Option<real>>, id: nat, n: nat,
                             inputs0: seq<real>, error0: real, last0: real, variance0: real,
                             inputs: seq<real>, error: real, last: real, variance: real)
  {
    && inputs == inputs0 + Fed(readings, id, n)
    && variance == variance0
    && (n <= id ==> last == last0)
    && error == FedError(readings, id, n, error0, last0, variance0)
  }

  /** `inner` holds exactly the successful readings among the first `n` entries of a sweep. */
  ghost predicate RecordedSoFar(readings: seq<Option<real>>, n: nat, inner: map<nat, real>)
  {
    && (forall id: nat :: id in inner <==> id < n && id < |readings| && readings[id].Some?)
    && (forall id: nat :: id in inner ==> id < |readings| && readings[id].Some? && inner[id] == readings[id].value)
  }

  /** `SweptSoFar` for filter `k`, from the state `start` (inputs, error, last estimate, process variance) it began the sweep in. */
  ghost predicate SweptFilter(readings: seq<Option<real>>, id: nat, n: nat, start: (seq<real>, real, real, real), k: Kalman.Kalman)
    reads k
  {
    SweptSoFar(readings, id, n, start.0, start.1, start.2, start.3,
               k.inputs, k.estimationError, k.lastEstimation, k.processVariance)
  }

  /** An entry holding a reading feeds it to filter `i` alone, as `Record` does. */
  lemma SweptRecorded(readings: seq<Option<real>>, id: nat, i: nat,
                      inputs0: seq<real>, error0: real, last0: real, variance0: real,
                      inputs1: seq<real>, error1: real, last1: real, variance1: real,
                      inputs: seq<real>, error: real, last: real, variance: real)
    requires i < |readings| && readings[i].Some?
    requires SweptSoFar(readings, id, i, inputs0, error0, last0, variance0, inputs1, error1, last1, variance1)
    requires inputs == inputs1 + (if id == i then [readings[i].value] else [])
    requires variance == variance1
    requires id != i ==> error == error1 && last == last1
    requires id == i ==> error == Kalman.ErrorAfter(error1, last1, readings[i].value, variance1)
    ensures SweptSoFar(readings, id, i + 1, inputs0, error0, last0, variance0, inputs, error, last, variance)
  {
    if id == i {
      assert Fed(readings, id, i) == [] && Fed(readings, id, i + 1) == [readings[i].value];
      assert inputs0 + [] == inputs0;
    } else {
      assert Fed(readings, id, i + 1) == Fed(readings, id, i);
      assert inputs1 + [] == inputs1;
    }
  }

  /** An entry without a reading feeds no filter. */
  lemma SweptSkipped(readings: seq<Option<real>>, id: nat, i: nat,
                     inputs0: seq<real>, error0: real, last0: real, variance0: real,
                     inputs: seq<real>, error: real, last: real, variance: real)
    requires i < |readings| && readings[i].None?
    requires SweptSoFar(readings, id, i, inputs0, error0, last0, variance0, inputs, error, last, variance)
    ensures SweptSoFar(readings, id, i + 1, inputs0, error0, last0, variance0, inputs, error, last, variance)
  {
    assert Fed(readings, id, i + 1) == Fed(readings, id, i);
  }

  /**
   * `Temperatures`, the shared store: the latest raw reading per sensor, one
   * filter per configured sensor and the calibration offsets.
   */
  class Temperatures {
    var inner: map<nat, real>
    var filtered: map<nat, Kalman.Kalman>
    var calibration: map<nat, real>

    /** Every filter is in a consistent state and no two sensors share one. */
    ghost predicate Valid()
      reads this, filtered.Values
    {
      && (forall id: nat :: id in filtered ==> filtered[id].Valid())
      && (forall i, j :: i in filtered && j in filtered && i != j ==> filtered[i] != filtered[j])
    }

    /** Proof helper for `Sweep`: each filter's inputs, estimation error, last estimate and process variance. */
    ghost function FilterStates(): (r: map<nat, (seq<real>, real, real, real)>)
      reads this, filtered.Values
      ensures r.Keys == filtered.Keys
      ensures forall id :: id in r ==>
        r[id] == (filtered[id].inputs, filtered[id].estimationError, filtered[id].lastEstimation, filtered[id].processVariance)
    {
      map id | id in filtered.Keys ::
        (filtered[id].inputs, filtered[id].estimationError, filtered[id].lastEstimation, filtered[id].processVariance)
    }

    /** `Temperatures::new(num_sensors)`. */
    constructor (numSensors: nat)
      ensures Valid() && inner == map[]
      ensures forall id: nat :: id in calibration <==> id < numSensors
      ensures forall id: nat :: id in calibration ==> calibration[id] == DefaultOffset
      ensures filtered.Keys == calibration.Keys
      ensures forall id: nat :: id in filtered ==>
        && fresh(filtered[id]) && filtered[id].inputs == []
        && filtered[id].processVariance == ProcessVariance
        && filtered[id].estimationError == MeasurementError
    {
      var defaultCalibration: map<nat, real> := map[];
      var filters: map<nat, Kalman.Kalman> := map[];
      for sensorId := 0 to numSensors
        invariant forall id: nat :: id in defaultCalibration <==> id < sensorId
        invariant forall id: nat :: id in defaultCalibration ==> defaultCalibration[id] == DefaultOffset
        invariant filters.Keys == defaultCalibration.Keys
        invariant forall id: nat :: id in filters ==>
          && fresh(filters[id]) && filters[id].Valid() && filters[id].inputs == []
          && filters[id].processVariance == ProcessVariance
          && filters[id].estimationError == MeasurementError
        invariant forall i, j :: i in filters && j in filters && i != j ==> filters[i] != filters[j]
      {
        defaultCalibration := defaultCalibration[sensorId := DefaultOffset];
        var filter := new Kalman.Kalman(MeasurementError, ProcessVariance);
        filters := filters[sensorId := filter];
      }
      inner := map[];
      filtered := filters;
      calibration := defaultCalibration;
    }

    /** `load_calibration`, given what reading the file produced: the table is replaced only when it parsed. */
    method LoadCalibration(loaded: Option<map<nat, real>>)
      requires Valid()
      modifies this
      ensures Valid()
      ensures calibration == if loaded.Some? then loaded.value else old(calibration)
      ensures inner == old(inner) && filtered == old(filtered)
    {
      if loaded.Some? {
        calibration := loaded.value;
      }
    }

    /**
     * One pass of `update_temp_periodically`: `readings[id]` is what sensor
     * `id` returned, `None` for any read error. `inner` is cleared first, so
     * a failed sensor loses its previous reading.
     */
    method Sweep(readings: seq<Option<real>>)
      requires Valid()
      modifies this, filtered.Values
      ensures Valid()
      ensures filtered == old(filtered) && calibration == old(calibration)
      ensures forall id: nat :: id in inner <==> id < |readings| && readings[id].Some?
      ensures forall id: nat :: id in inner ==> inner[id] == readings[id].value
      ensures forall id: nat :: id in filtered ==>
        filtered[id].inputs == old(filtered[id].inputs) + Fed(readings, id, |readings|)
      ensures forall id: nat :: id in filtered ==>
        filtered[id].processVariance == old(filtered[id].processVariance)
      ensures forall id: nat :: id in filtered ==>
        filtered[id].estimationError
          == FedError(readings, id, |readings|, old(filtered[id].estimationError),
                      old(filtered[id].lastEstimation), old(filtered[id].processVariance))
    {
      ghost var start := FilterStates();
      inner := map[];
      for i := 0 to |readings|
        invariant filtered == old(filtered) && calibration == old(calibration)
        invariant Valid() && RecordedSoFar(readings, i, inner)
        invariant forall id: nat :: id in filtered ==> SweptFilter(readings, id, i, start[id], filtered[id])
      {
        SweepEntry(readings, i, start);
      }
      forall id: nat | id in filtered
        ensures SweptSoFar(readings, id, |readings|,
                           old(filtered[id].inputs), old(filtered[id].estimationError),
                           old(filtered[id].lastEstimation), old(filtered[id].processVariance),
                           filtered[id].inputs, filtered[id].estimationError,
                           filtered[id].lastEstimation, filtered[id].processVariance)
      {
        assert start[id] == (old(filtered[id].inputs), old(filtered[id].estimationError),
                             old(filtered[id].lastEstimation), old(filtered[id].processVariance));
        assert SweptFilter(readings, id, |readings|, start[id], filtered[id]);
      }
    }

    /** Entry `i` of a sweep: a reading is recorded and fed to its sensor's filter; a failed read changes nothing. */
    method SweepEntry(readings: seq<Option<real>>, i: nat, ghost start: map<nat, (seq<real>, real, real, real)>)
      requires Valid() && i < |readings| && start.Keys == filtered.Keys
      requires forall id: nat :: id in filtered ==> SweptFilter(readings, id, i, start[id], filtered[id])
      requires RecordedSoFar(readings, i, inner)
      modifies this, filtered.Values
      ensures Valid() && RecordedSoFar(readings, i + 1, inner)
      ensures filtered == old(filtered) && calibration == old(calibration)
      ensures inner == if readings[i].Some? then old(inner)[i := readings[i].value] else old(inner)
      ensures forall id: nat :: id in filtered ==> SweptFilter(readings, id, i + 1, start[id], filtered[id])
    {
      if readings[i].Some? {
        Record(i, readings[i].value);
        forall id: nat | id in filtered
          ensures SweptFilter(readings, id, i + 1, start[id], filtered[id])
        {
          SweptRecorded(readings, id, i, start[id].0, start[id].1, start[id].2, start[id].3,
                        old(filtered[id].inputs), old(filtered[id].estimationError),
                        old(filtered[id].lastEstimation), old(filtered[id].processVariance),
                        filtered[id].inputs, filtered[id].estimationError,
                        filtered[id].lastEstimation, filtered[id].processVariance);
        }
      } else {
        forall id: nat | id in filtered
          ensures SweptFilter(readings, id, i + 1, start[id], filtered[id])
        {
          var k := filtered[id];
          SweptSkipped(readings, id, i, start[id].0, start[id].1, start[id].2, start[id].3,
                       k.inputs, k.estimationError, k.lastEstimation, k.processVariance);
        }
      }
    }

    /** A successful read of sensor `id`: store the reading and feed it to that sensor's filter, if it has one. */
    method Record(id: nat, temp: real)
      requires Valid()
      modifies this, filtered.Values
      ensures Valid()
      ensures filtered == old(filtered) && calibration == old(calibration)
      ensures inner == old(inner)[id := temp]
      ensures forall j: nat :: j in filtered ==>
        filtered[j].inputs == old(filtered[j].inputs) + (if j == id then [temp] else [])
      ensures forall j: nat :: j in filtered ==>
        filtered[j].processVariance == old(filtered[j].processVariance)
      ensures forall j: nat :: j in filtered && j != id ==>
        filtered[j].estimationError == old(filtered[j].estimationError)
        && filtered[j].lastEstimation == old(filtered[j].lastEstimation)
      ensures id in filtered ==>
        filtered[id].estimationError
          == Kalman.ErrorAfter(old(filtered[id].estimationError), old(filtered[id].lastEstimation),
                               temp, old(filtered[id].processVariance))
    {
      inner := inner[id := temp];
      if id in filtered {
        filtered[id].Update(temp);
      }
    }
  }

  /** The readings sensor `id` delivered in the first `rounds` rounds of a campaign, in order. */
  function Samples(read: (nat, nat) -> Option<real>, id: nat, rounds: nat): (s: seq<real>)
    ensures |s| <= rounds
  {
    if rounds == 0 then []
    else Samples(read, id, rounds - 1) + (match read(rounds - 1, id) case Some(t) => [t] case None => [])
  }

  function Sum(s: seq<real>): real
  {
    if s == [] then 0.0 else Sum(s[..|s| - 1]) + s[|s| - 1]
  }

  function Mean(s: seq<real>): real
    requires s != []
  {
    Sum(s) / |s| as real
  }

  /**
   * `real_temp - avg_temp` for one sensor's samples. With no samples the
   * average is 0/0, NaN in the source; that case is `None` here.
   */
  function Offset(realTemp: real, samples: seq<real>): (r: Option<real>)
    ensures r.None? <==> samples == []
    ensures r.Some? ==> Mean(samples) + r.value == realTemp
  {
    if samples == [] then None else Some(realTemp - Mean(samples))
  }

  /**
   * The table a campaign produces: one entry per chip-select pin (sensor
   * index below `numPins`), whether or not that sensor ever read.
   */
  function CampaignResult(numPins: nat, realTemp: real, read: (nat, nat) -> Option<real>): (r: map<nat, Option<real>>)
    ensures forall id: nat :: id in r <==> id < numPins
    ensures forall id: nat :: id in r ==> (r[id].None? <==> Samples(read, id, NumMeasurements) == [])
  {
    map id: nat | id < numPins :: Offset(realTemp, Samples(read, id, NumMeasurements))
  }

  /** `temperatures` holds, for exactly the sensors 0 .. numPins - 1, the samples of the first `rounds` rounds. */
  ghost predicate Collected(temperatures: map<nat, seq<real>>, numPins: nat, read: (nat, nat) -> Option<real>, rounds: nat)
  {
    && (forall i: nat :: i in temperatures <==> i < numPins)
    && (forall i: nat :: i in temperatures ==> temperatures[i] == Samples(read, i, rounds))
  }

  /** One round of the campaign: read every sensor once, appending each successful reading to its list. */
  method SampleRound(temperatures: map<nat, seq<real>>, numPins: nat, read: (nat, nat) -> Option<real>, round: nat)
    returns (next: map<nat, seq<real>>)
    requires Collected(temperatures, numPins, read, round)
    ensures Collected(next, numPins, read, round + 1)
  {
    next := temperatures;
    for id := 0 to numPins
      invariant forall i: nat :: i in next <==> i < numPins
      invariant forall i: nat :: i in next && i < id ==> next[i] == Samples(read, i, round + 1)
      invariant forall i: nat :: i in next && id <= i ==> next[i] == temperatures[i]
    {
      match read(round, id)
      case Some(temp) =>
        next := next[id := next[id] + [temp]];
      case None =>
    }
  }

  /**
   * `calibrate_sensors` without the pacing and the file write: `numPins` is
   * the number of chip-select pins configured, and `read(round, id)` is what
   * sensor `id` returned in round `round`.
   */
  method CalibrateSensors(numPins: nat, realTemp: real, read: (nat, nat) -> Option<real>)
    returns (calibration: map<nat, Option<real>>)
    ensures calibration == CampaignResult(numPins, realTemp, read)
  {
    var temperatures: map<nat, seq<real>> := map[];
    for id := 0 to numPins
      invariant forall i: nat :: i in temperatures <==> i < id
      invariant forall i: nat :: i in temperatures ==> temperatures[i] == []
    {
      temperatures := temperatures[id := []];
    }
    for round := 0 to NumMeasurements
      invariant Collected(temperatures, numPins, read, round)
    {
      temperatures := SampleRound(temperatures, numPins, read, round);
    }
    calibration := Offsets(temperatures, numPins, realTemp);
  }

  /**
   * The reduce step of `calibrate_sensors`: each sensor's offset from its samples.
   * The keys of `temperatures` are exactly 0 .. numPins - 1, visited in ascending order.
   */
  method Offsets(temperatures: map<nat, seq<real>>, numPins: nat, realTemp: real)
    returns (calibration: map<nat, Option<real>>)
    requires forall i: nat :: i in temperatures <==> i < numPins
    ensures calibration.Keys == temperatures.Keys
    ensures forall i: nat :: i in calibration ==> calibration[i] == Offset(realTemp, temperatures[i])
  {
    calibration := map[];
    for id := 0 to numPins
      invariant forall i: nat :: i in calibration <==> i < id
      invariant forall i: nat :: i in calibration ==> calibration[i] == Offset(realTemp, temperatures[i])
    {
      calibration := calibration[id := Offset(realTemp, temperatures[id])];
    }
  }

  /** Each sensor keeps at most `NumMeasurements` samples, and exactly that many when every read succeeds. */
  lemma {:induction false} SampleCount(read: (nat, nat) -> Option<real>, id: nat, rounds: nat)
    ensures |Samples(read, id, rounds)| <= rounds
    ensures (forall r: nat :: r < rounds ==> read(r, id).Some?) ==> |Samples(read, id, rounds)| == rounds
  {
    if rounds > 0 {
      SampleCount(read, id, rounds - 1);
    }
  }

  /** A sensor that always reads `v` collects `rounds` copies of `v`. */
  lemma {:induction false} SteadySamples(read: (nat, nat) -> Option<real>, id: nat, rounds: nat, v: real)
    requires forall r: nat :: r < rounds ==> read(r, id) == Some(v)
    ensures Samples(read, id, rounds) == Kalman.Repeated(v, rounds)
  {
    if rounds > 0 {
      SteadySamples(read, id, rounds - 1, v);
    }
  }

  lemma {:induction false} SumRepeated(v: real, n: nat)
    ensures Sum(Kalman.Repeated(v, n)) == n as real * v
  {
    if n > 0 {
      SumRepeated(v, n - 1);
      assert Kalman.Repeated(v, n)[..n - 1] == Kalman.Repeated(v, n - 1);
    }
  }

  /** Constant samples `v` give the offset `real_temp - v`. */
  lemma ConstantSamplesOffset(realTemp: real, v: real, n: nat)
    requires n > 0
    ensures Offset(realTemp, Kalman.Repeated(v, n)) == Some(realTemp - v)
  {
    SumRepeated(v, n);
    var k := n as real;
    assert Mean(Kalman.Repeated(v, n)) == (k * v) / k;
  }

  /** A campaign at 100.0 in which every sensor steadily reads 98.0 calibrates every sensor to +2.0. */
  lemma SteadyCampaign(numPins: nat, read: (nat, nat) -> Option<real>)
    requires forall r: nat, id: nat :: read(r, id) == Some(98.0)
    ensures forall id: nat :: id in CampaignResult(numPins, 100.0, read) <==> id < numPins
    ensures forall id: nat :: id in CampaignResult(numPins, 100.0, read) ==> CampaignResult(numPins, 100.0, read)[id] == Some(2.0)
  {
    forall id: nat | id < numPins
      ensures Offset(100.0, Samples(read, id, NumMeasurements)) == Some(2.0)
    {
      SteadySamples(read, id, NumMeasurements, 98.0);
      ConstantSamplesOffset(100.0, 98.0, NumMeasurements);
    }
  }
}
