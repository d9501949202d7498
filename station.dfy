/**
 * The service of `src/main.rs`: the `/metrics` page rendered from the shared
 * measurements, and the start-up that either runs a calibration campaign and
 * returns, or builds the store the page is served from.
 *
 * Rust's fixed-point formatting (`{:.2}`, `{:.0}`) is an opaque function per
 * precision, and the clock reading (milliseconds since the epoch) is a
 * parameter. The store's `BTreeMap`s are iterated in ascending key order,
 * which `SortedKeys` fixes.
 */
module Station {
  import opened Wrappers
  import Text
  import Kalman
  import Max6675
  import Shared

  /** The two number formats of the page. */
  datatype Precision = TwoDecimals | NoDecimals

  /** One line of the page before formatting: `name{sensor_id="id"} value time`. */
  datatype Metric = Metric(name: string, sensorId: Option<nat>, value: real, precision: Precision, time: nat)

  /** `format!("{v:.2}")` and `format!("{v:.0}")`. */
  datatype Formatter = Formatter(twoDecimals: real -> string, noDecimals: real -> string)

  const VoltageName: string := "scope_voltage_v"
  const FanName: string := "scope_fan_rpm"
  const AmbientName: string := "ds18b20_temperature_c"
  const CalibratedName: string := "max6675_temperature_c"
  const FilteredName: string := "max6675_temperature_filtered_c"
  const RawName: string := "max6675_temperature_raw_c"

  function FormatValue(m: Metric, fmt: Formatter): string
  {
    match m.precision
    case TwoDecimals => fmt.twoDecimals(m.value)
    case NoDecimals => fmt.noDecimals(m.value)
  }

  function Label(sensorId: Option<nat>): string
  {
    match sensorId
    case None => ""
    case Some(id) => "{sensor_id=\"" + Text.Decimal(id) + "\"}"
  }

  /** The pieces one after another. */
  function Concat(pieces: seq<string>): string
  {
    if pieces == [] then "" else pieces[0] + Concat(pieces[1..])
  }

  lemma {:induction false} ConcatSplit(a: seq<string>, b: seq<string>)
    ensures Concat(a + b) == Concat(a) + Concat(b)
    decreases |a|
  {
    if a == [] {
      assert a + b == b;
    } else {
      assert (a + b)[1..] == a[1..] + b;
      ConcatSplit(a[1..], b);
    }
  }

  /** The text of one line, newline included. */
  function LineText(m: Metric, fmt: Formatter): (r: string)
    ensures |r| >= |m.name| && r[..|m.name|] == m.name
    ensures |r| >= |Text.Decimal(m.time)| + 2 && r[|r| - |Text.Decimal(m.time)| - 2..] == " " + Text.Decimal(m.time) + "\n"
  {
    var pieces := [m.name, Label(m.sensorId), " ", FormatValue(m, fmt), " ", Text.Decimal(m.time), "\n"];
    ConcatSplit([m.name], pieces[1..4]);
    ConcatSplit([m.name] + pieces[1..4], pieces[4..]);
    assert [m.name] + pieces[1..4] + pieces[4..] == pieces;
    assert Concat(pieces[4..]) == " " + Text.Decimal(m.time) + "\n" by {
      assert pieces[6..] == ["\n"] && ["\n"][1..] == [];
      assert Concat(pieces[6..]) == "\n";
      assert pieces[5..][1..] == pieces[6..];
      assert Concat(pieces[5..]) == pieces[5] + "\n";
      assert pieces[4..][1..] == pieces[5..];
    }
    assert [m.name][1..] == [];
    Concat([m.name, Label(m.sensorId), " ", FormatValue(m, fmt), " ", Text.Decimal(m.time), "\n"])
  }

  /** The page: the lines' texts one after another. */
  function Render(lines: seq<Metric>, fmt: Formatter): (r: string)
    ensures r == "" <==> lines == []
    ensures |r| >= |lines|
  {
    if lines == [] then "" else Render(lines[..|lines| - 1], fmt) + LineText(lines[|lines| - 1], fmt)
  }

  lemma {:induction false} RenderAppend(a: seq<Metric>, b: seq<Metric>, fmt: Formatter)
    ensures Render(a + b, fmt) == Render(a, fmt) + Render(b, fmt)
    decreases |b|
  {
    if b == [] {
      assert a + b == a;
    } else {
      var front, last := b[..|b| - 1], b[|b| - 1];
      assert (a + b)[..|a + b| - 1] == a + front;
      assert (a + b)[|a + b| - 1] == last;
      var line := LineText(last, fmt);
      assert Render(a + b, fmt) == Render(a + front, fmt) + line;
      assert Render(b, fmt) == Render(front, fmt) + line;
      RenderAppend(a, front, fmt);
    }
  }

  /** The number of times `c` occurs in `s`. */
  function Occurrences(s: string, c: char): nat
  {
    if s == [] then 0 else Occurrences(s[..|s| - 1], c) + (if s[|s| - 1] == c then 1 else 0)
  }

  lemma {:induction false} OccurrencesAppend(a: string, b: string, c: char)
    ensures Occurrences(a + b, c) == Occurrences(a, c) + Occurrences(b, c)
    decreases |b|
  {
    if b == [] {
      assert a + b == a;
    } else {
      assert (a + b)[..|a + b| - 1] == a + b[..|b| - 1];
      OccurrencesAppend(a, b[..|b| - 1], c);
    }
  }

  lemma {:induction false} NoOccurrences(s: string, c: char)
    requires c !in s
    ensures Occurrences(s, c) == 0
    decreases |s|
  {
    if s != [] {
      assert c !in s[..|s| - 1];
      NoOccurrences(s[..|s| - 1], c);
    }
  }

  lemma {:induction false} NewlineOnlyAtEnd(pieces: seq<string>)
    requires |pieces| >= 1 && pieces[|pieces| - 1] == "\n"
    requires forall i :: 0 <= i < |pieces| - 1 ==> '\n' !in pieces[i]
    ensures Occurrences(Concat(pieces), '\n') == 1
    decreases |pieces|
  {
    if |pieces| == 1 {
      assert Concat(pieces) == "\n" + Concat([]);
      assert "\n" + [] == "\n";
      assert "\n"[..0] == "";
    } else {
      NoOccurrences(pieces[0], '\n');
      OccurrencesAppend(pieces[0], Concat(pieces[1..]), '\n');
      NewlineOnlyAtEnd(pieces[1..]);
    }
  }

  /** Each line's text ends in the only newline it holds, when the name and the number hold none. */
  lemma OneNewlinePerLine(m: Metric, fmt: Formatter)
    requires '\n' !in m.name && '\n' !in FormatValue(m, fmt)
    ensures Occurrences(LineText(m, fmt), '\n') == 1
  {
    var digits := Text.Decimal(m.time);
    assert forall i :: 0 <= i < |digits| ==> Text.IsDigit(digits[i]);
    if m.sensorId.Some? {
      var id := Text.Decimal(m.sensorId.value);
      assert forall i :: 0 <= i < |id| ==> Text.IsDigit(id[i]);
      assert '\n' !in id;
    }
    NewlineOnlyAtEnd([m.name, Label(m.sensorId), " ", FormatValue(m, fmt), " ", digits, "\n"]);
  }

  /** When neither names nor formatted numbers hold a newline, the page has exactly one line per metric. */
  lemma {:induction false} OneLinePerMetric(lines: seq<Metric>, fmt: Formatter)
    requires forall v :: '\n' !in fmt.twoDecimals(v) && '\n' !in fmt.noDecimals(v)
    requires forall i :: 0 <= i < |lines| ==> '\n' !in lines[i].name
    ensures Occurrences(Render(lines, fmt), '\n') == |lines|
    decreases |lines|
  {
    if lines != [] {
      var m := lines[|lines| - 1];
      OneNewlinePerLine(m, fmt);
      OneLinePerMetric(lines[..|lines| - 1], fmt);
      OccurrencesAppend(Render(lines[..|lines| - 1], fmt), LineText(m, fmt), '\n');
    }
  }

  /** `m` is in `s` and no element of `s` is smaller. */
  predicate IsLeast(m: nat, s: set<nat>)
  {
    m in s && forall k :: k in s ==> m <= k
  }

  lemma {:induction false} LeastExists(s: set<nat>)
    requires s != {}
    ensures exists m :: IsLeast(m, s)
    decreases |s|
  {
    var x :| x in s;
    if s != {x} {
      LeastExists(s - {x});
      var m :| IsLeast(m, s - {x});
      assert forall k :: k in s ==> k == x || k in s - {x};
      if x < m {
        assert IsLeast(x, s);
      } else {
        assert IsLeast(m, s);
      }
    } else {
      assert IsLeast(x, s);
    }
  }

  /** A set of keys in ascending order, as a `BTreeMap` visits them. */
  ghost function SortedKeys(s: set<nat>): (r: seq<nat>)
    ensures forall i :: 0 <= i < |r| ==> r[i] in s
    decreases |s|
  {
    if s == {} then []
    else
      LeastExists(s);
      var m :| IsLeast(m, s);
      [m] + SortedKeys(s - {m})
  }

  lemma SortedKeysStartWithLeast(s: set<nat>, m: nat)
    requires IsLeast(m, s)
    ensures SortedKeys(s) == [m] + SortedKeys(s - {m})
  {
    assert forall m' :: IsLeast(m', s) ==> m' == m;
  }

  /** `SortedKeys` lists every key of the set, in strictly ascending order. */
  lemma {:induction false} SortedKeysSorted(s: set<nat>)
    ensures forall k :: k in s ==> k in SortedKeys(s)
    ensures forall i, j :: 0 <= i < j < |SortedKeys(s)| ==> SortedKeys(s)[i] < SortedKeys(s)[j]
    decreases |s|
  {
    if s != {} {
      LeastExists(s);
      var m :| IsLeast(m, s);
      SortedKeysStartWithLeast(s, m);
      SortedKeysSorted(s - {m});
      var r, tail := SortedKeys(s), SortedKeys(s - {m});
      assert forall k :: k in s ==> k == m || k in s - {m};
      forall i, j | 0 <= i < j < |r|
        ensures r[i] < r[j]
      {
        assert r[j] == tail[j - 1] && tail[j - 1] in s - {m};
        if i > 0 {
          assert r[i] == tail[i - 1];
        }
      }
    }
  }

  /** The ascending order of a set is the only strictly ascending sequence of exactly its elements. */
  lemma {:induction false} SortedKeysUnique(r: seq<nat>, s: set<nat>)
    requires forall i, j :: 0 <= i < j < |r| ==> r[i] < r[j]
    requires forall i :: 0 <= i < |r| ==> r[i] in s
    requires forall k :: k in s ==> k in r
    ensures r == SortedKeys(s)
    decreases |s|
  {
    if r == [] {
      assert s == {};
    } else {
      var m := r[0];
      assert IsLeast(m, s) by {
        forall k | k in s
          ensures m <= k
        {
          var i :| 0 <= i < |r| && r[i] == k;
        }
      }
      SortedKeysStartWithLeast(s, m);
      var tail := r[1..];
      forall k | k in s - {m}
        ensures k in tail
      {
        var i :| 0 <= i < |r| && r[i] == k;
        assert tail[i - 1] == k;
      }
      forall i | 0 <= i < |tail|
        ensures tail[i] in s - {m}
      {
        assert tail[i] == r[i + 1];
      }
      SortedKeysUnique(tail, s - {m});
      FirstAndRest(r);
    }
  }

  /** Proof step, not part of the station: a non-empty sequence is its head followed by its tail. */
  lemma FirstAndRest(r: seq<nat>)
    requires r != []
    ensures r == [r[0]] + r[1..]
  {
  }

  /** What the page shows for a sensor: its value, plus its offset when the block is calibrated; nothing when a calibrated block has no offset for it. */
  function Reading(values: map<nat, real>, calibration: Option<map<nat, real>>, id: nat): (r: Option<real>)
    requires id in values
  {
    match calibration
    case None => Some(values[id])
    case Some(offsets) => if id in offsets then Some(values[id] + offsets[id]) else None
  }

  /** The line, if any, that a block shows for sensor `id`. */
  function SensorLine(name: string, values: map<nat, real>, calibration: Option<map<nat, real>>, id: nat, time: nat): seq<Metric>
    requires id in values
  {
    var r := Reading(values, calibration, id);
    if r.Some? then [Metric(name, Some(id), r.value, TwoDecimals, time)] else []
  }

  /** One block of per-sensor lines, for the sensors `ids` in that order. */
  function SensorLines(name: string, ids: seq<nat>, values: map<nat, real>, calibration: Option<map<nat, real>>, time: nat): seq<Metric>
    requires forall i :: 0 <= i < |ids| ==> ids[i] in values
  {
    if ids == [] then []
    else SensorLines(name, ids[..|ids| - 1], values, calibration, time) + SensorLine(name, values, calibration, ids[|ids| - 1], time)
  }

  lemma SensorLinesSnoc(name: string, ids: seq<nat>, id: nat, values: map<nat, real>, calibration: Option<map<nat, real>>, time: nat)
    requires forall i :: 0 <= i < |ids| ==> ids[i] in values
    requires id in values
    ensures SensorLines(name, ids + [id], values, calibration, time)
      == SensorLines(name, ids, values, calibration, time) + SensorLine(name, values, calibration, id, time)
  {
    assert (ids + [id])[..|ids|] == ids;
  }

  /** A block holds exactly the lines of the sensors that have a reading, each with that reading, its name and the page's timestamp. */
  lemma {:induction false} SensorLinesContents(name: string, ids: seq<nat>, values: map<nat, real>, calibration: Option<map<nat, real>>, time: nat)
    requires forall i :: 0 <= i < |ids| ==> ids[i] in values
    ensures forall l :: l in SensorLines(name, ids, values, calibration, time) ==>
      && l.name == name && l.time == time && l.precision == TwoDecimals
      && l.sensorId.Some? && l.sensorId.value in ids && l.sensorId.value in values
      && Reading(values, calibration, l.sensorId.value) == Some(l.value)
    ensures forall i :: 0 <= i < |ids| && Reading(values, calibration, ids[i]).Some? ==>
      Metric(name, Some(ids[i]), Reading(values, calibration, ids[i]).value, TwoDecimals, time) in SensorLines(name, ids, values, calibration, time)
    decreases |ids|
  {
    if ids != [] {
      var front := ids[..|ids| - 1];
      SensorLinesContents(name, front, values, calibration, time);
      forall i | 0 <= i < |ids| - 1
        ensures ids[i] == front[i]
      {
      }
    }
  }

  /** Every line names a sensor, and the sensors strictly ascend. */
  predicate SensorsAscend(lines: seq<Metric>)
  {
    forall i, j :: 0 <= i < j < |lines| ==> lines[i].sensorId.Some? && lines[j].sensorId.Some? && lines[i].sensorId.value < lines[j].sensorId.value
  }

  /** Visiting sensors in ascending order gives a block in ascending sensor order. */
  lemma {:induction false} SensorLinesAscend(name: string, ids: seq<nat>, values: map<nat, real>, calibration: Option<map<nat, real>>, time: nat)
    requires forall i :: 0 <= i < |ids| ==> ids[i] in values
    requires forall i, j :: 0 <= i < j < |ids| ==> ids[i] < ids[j]
    ensures SensorsAscend(SensorLines(name, ids, values, calibration, time))
    decreases |ids|
  {
    if ids != [] {
      var front := ids[..|ids| - 1];
      var id := ids[|ids| - 1];
      SensorLinesAscend(name, front, values, calibration, time);
      SensorLinesContents(name, front, values, calibration, time);
      var earlier := SensorLines(name, front, values, calibration, time);
      forall l | l in earlier
        ensures l.sensorId.Some? && l.sensorId.value < id
      {
        var k :| 0 <= k < |front| && front[k] == l.sensorId.value;
        assert ids[k] == front[k];
      }
      var lines := SensorLines(name, ids, values, calibration, time);
      var tail := SensorLine(name, values, calibration, id, time);
      assert lines == earlier + tail;
      assert forall t :: t in tail ==> t.sensorId == Some(id);
      forall i, j | 0 <= i < j < |lines|
        ensures lines[i].sensorId.Some? && lines[j].sensorId.Some? && lines[i].sensorId.value < lines[j].sensorId.value
      {
        assert SensorsAscend(earlier);
        if j >= |earlier| {
          assert lines[j] == tail[j - |earlier|] && tail[j - |earlier|] in tail;
          assert |tail| <= 1 && i < |earlier|;
          assert lines[i] == earlier[i] && earlier[i] in earlier;
          assert earlier[i].sensorId.value < id;
        } else {
          assert lines[i] == earlier[i] && lines[j] == earlier[j];
          assert earlier[i].sensorId.Some? && earlier[j].sensorId.Some?;
          assert earlier[i].sensorId.value < earlier[j].sensorId.value;
        }
      }
    }
  }

  /** A block as the page prints it: the map's sensors in ascending order. */
  ghost function Block(name: string, values: map<nat, real>, calibration: Option<map<nat, real>>, time: nat): seq<Metric>
  {
    SensorLines(name, SortedKeys(values.Keys), values, calibration, time)
  }

  /** A block holds one line per sensor that has a reading, with that reading, and nothing else. */
  lemma BlockShown(name: string, values: map<nat, real>, calibration: Option<map<nat, real>>, time: nat)
    ensures forall l :: l in Block(name, values, calibration, time) ==> l.name == name && l.sensorId.Some?
    ensures forall id: nat, v :: Metric(name, Some(id), v, TwoDecimals, time) in Block(name, values, calibration, time) <==>
      id in values && Reading(values, calibration, id) == Some(v)
  {
    var ids := SortedKeys(values.Keys);
    SortedKeysSorted(values.Keys);
    SensorLinesContents(name, ids, values, calibration, time);
    forall id: nat, v | id in values && Reading(values, calibration, id) == Some(v)
      ensures Metric(name, Some(id), v, TwoDecimals, time) in Block(name, values, calibration, time)
    {
      var k :| 0 <= k < |ids| && ids[k] == id;
    }
  }

  /** The measurements as the page sees them while holding the locks. `filtered` holds each filter's current estimate. */
  datatype Snapshot = Snapshot(
    psuVoltage: Option<real>, fanRpm: Option<real>, ambient: Option<real>, power: Option<real>,
    inner: map<nat, real>, filtered: map<nat, real>, calibration: map<nat, real>)

  /** A scalar line, present only when its slot holds a value. */
  function Scalar(name: string, slot: Option<real>, precision: Precision, time: nat): seq<Metric>
  {
    if slot.Some? then [Metric(name, None, slot.value, precision, time)] else []
  }

  /**
   * Every line of the page, in order: voltage, fan speed, ambient
   * temperature, then the calibrated, filtered and raw blocks. Every line
   * carries the one timestamp taken at the start of the request.
   */
  ghost function Lines(s: Snapshot, time: nat): (r: seq<Metric>)
    ensures forall l :: l in r ==> l.time == time
  {
    SensorLinesContents(CalibratedName, SortedKeys(s.inner.Keys), s.inner, Some(s.calibration), time);
    SensorLinesContents(FilteredName, SortedKeys(s.filtered.Keys), s.filtered, Some(s.calibration), time);
    SensorLinesContents(RawName, SortedKeys(s.inner.Keys), s.inner, None, time);
    Scalars(s, time)
    + Block(CalibratedName, s.inner, Some(s.calibration), time)
    + Block(FilteredName, s.filtered, Some(s.calibration), time)
    + Block(RawName, s.inner, None, time)
  }

  /** A scalar line appears exactly when its slot holds a value, with that value and its precision. */
  lemma ScalarLinesShown(s: Snapshot, time: nat)
    ensures forall v :: Metric(VoltageName, None, v, TwoDecimals, time) in Lines(s, time) <==> s.psuVoltage == Some(v)
    ensures forall v :: Metric(FanName, None, v, NoDecimals, time) in Lines(s, time) <==> s.fanRpm == Some(v)
    ensures forall v :: Metric(AmbientName, None, v, TwoDecimals, time) in Lines(s, time) <==> s.ambient == Some(v)
  {
    UnlabelledLines(s, time);
  }

  /** The lines without a sensor label are exactly the scalar lines. */
  lemma UnlabelledLines(s: Snapshot, time: nat)
    ensures forall l: Metric :: l.sensorId.None? ==> (l in Lines(s, time) <==> l in Scalars(s, time))
  {
    var blocks := Block(CalibratedName, s.inner, Some(s.calibration), time)
      + Block(FilteredName, s.filtered, Some(s.calibration), time) + Block(RawName, s.inner, None, time);
    assert Lines(s, time) == Scalars(s, time) + blocks;
    BlockNames(CalibratedName, s.inner, Some(s.calibration), time);
    BlockNames(FilteredName, s.filtered, Some(s.calibration), time);
    BlockNames(RawName, s.inner, None, time);
    assert forall l :: l in blocks ==> l.sensorId.Some?;
  }

  /** Every line of a block has the block's name and names a sensor. */
  lemma BlockNames(name: string, values: map<nat, real>, calibration: Option<map<nat, real>>, time: nat)
    ensures forall l :: l in Block(name, values, calibration, time) ==> l.name == name && l.sensorId.Some?
  {
    SensorLinesContents(name, SortedKeys(values.Keys), values, calibration, time);
  }

  /** Sensor `id`'s line with value `v` is in its block exactly when the sensor has that reading. */
  lemma InBlock(name: string, values: map<nat, real>, calibration: Option<map<nat, real>>, time: nat, id: nat, v: real)
    ensures Metric(name, Some(id), v, TwoDecimals, time) in Block(name, values, calibration, time) <==>
      id in values && Reading(values, calibration, id) == Some(v)
  {
    BlockShown(name, values, calibration, time);
    var l := Metric(name, Some(id), v, TwoDecimals, time);
    if l in Block(name, values, calibration, time) {
      assert id in values && Reading(values, calibration, id) == Some(v);
    }
  }

  /** A line in none of the outer parts is in the whole exactly when it is in the middle part. */
  lemma InMiddle(l: Metric, before: seq<Metric>, part: seq<Metric>, after: seq<Metric>)
    requires l !in before && l !in after
    ensures l in before + part + after <==> l in part
  {
  }

  /** The three scalar lines, which name no sensor. */
  function Scalars(s: Snapshot, time: nat): (r: seq<Metric>)
    ensures forall l :: l in r ==> l.sensorId.None?
  {
    Scalar(VoltageName, s.psuVoltage, TwoDecimals, time)
    + Scalar(FanName, s.fanRpm, NoDecimals, time)
    + Scalar(AmbientName, s.ambient, TwoDecimals, time)
  }

  /** A calibrated line for each sensor with both a reading and an offset, showing their sum, and no other. */
  lemma CalibratedLinesShown(s: Snapshot, time: nat)
    ensures forall id: nat, v :: Metric(CalibratedName, Some(id), v, TwoDecimals, time) in Lines(s, time) <==>
      id in s.inner && id in s.calibration && v == s.inner[id] + s.calibration[id]
  {
    var calibrated := Block(CalibratedName, s.inner, Some(s.calibration), time);
    var filtered := Block(FilteredName, s.filtered, Some(s.calibration), time);
    var raw := Block(RawName, s.inner, None, time);
    assert Lines(s, time) == Scalars(s, time) + calibrated + (filtered + raw);
    BlockNames(FilteredName, s.filtered, Some(s.calibration), time);
    BlockNames(RawName, s.inner, None, time);
    assert |CalibratedName| == 21 && |FilteredName| == 30 && |RawName| == 25;
    forall id: nat, v
      ensures Metric(CalibratedName, Some(id), v, TwoDecimals, time) in Lines(s, time) <==>
        id in s.inner && id in s.calibration && v == s.inner[id] + s.calibration[id]
    {
      var l := Metric(CalibratedName, Some(id), v, TwoDecimals, time);
      InMiddle(l, Scalars(s, time), calibrated, filtered + raw);
      InBlock(CalibratedName, s.inner, Some(s.calibration), time, id, v);
    }
  }

  /** A filtered line for each filter with an offset, whether or not its sensor was ever read, and no other. */
  lemma FilteredLinesShown(s: Snapshot, time: nat)
    ensures forall id: nat, v :: Metric(FilteredName, Some(id), v, TwoDecimals, time) in Lines(s, time) <==>
      id in s.filtered && id in s.calibration && v == s.filtered[id] + s.calibration[id]
  {
    var calibrated := Block(CalibratedName, s.inner, Some(s.calibration), time);
    var filtered := Block(FilteredName, s.filtered, Some(s.calibration), time);
    var raw := Block(RawName, s.inner, None, time);
    assert Lines(s, time) == (Scalars(s, time) + calibrated) + filtered + raw;
    BlockNames(CalibratedName, s.inner, Some(s.calibration), time);
    BlockNames(RawName, s.inner, None, time);
    assert |CalibratedName| == 21 && |FilteredName| == 30 && |RawName| == 25;
    forall id: nat, v
      ensures Metric(FilteredName, Some(id), v, TwoDecimals, time) in Lines(s, time) <==>
        id in s.filtered && id in s.calibration && v == s.filtered[id] + s.calibration[id]
    {
      var l := Metric(FilteredName, Some(id), v, TwoDecimals, time);
      InMiddle(l, Scalars(s, time) + calibrated, filtered, raw);
      InBlock(FilteredName, s.filtered, Some(s.calibration), time, id, v);
    }
  }

  /** A raw line for each reading, calibrated or not, and no other. */
  lemma RawLinesShown(s: Snapshot, time: nat)
    ensures forall id: nat, v :: Metric(RawName, Some(id), v, TwoDecimals, time) in Lines(s, time) <==>
      id in s.inner && v == s.inner[id]
  {
    var calibrated := Block(CalibratedName, s.inner, Some(s.calibration), time);
    var filtered := Block(FilteredName, s.filtered, Some(s.calibration), time);
    var raw := Block(RawName, s.inner, None, time);
    assert Lines(s, time) == (Scalars(s, time) + calibrated + filtered) + raw + [];
    BlockNames(CalibratedName, s.inner, Some(s.calibration), time);
    BlockNames(FilteredName, s.filtered, Some(s.calibration), time);
    assert |CalibratedName| == 21 && |FilteredName| == 30 && |RawName| == 25;
    forall id: nat, v
      ensures Metric(RawName, Some(id), v, TwoDecimals, time) in Lines(s, time) <==> id in s.inner && v == s.inner[id]
    {
      var l := Metric(RawName, Some(id), v, TwoDecimals, time);
      InMiddle(l, Scalars(s, time) + calibrated + filtered, raw, []);
      InBlock(RawName, s.inner, None, time, id, v);
    }
  }

  /** The power reading is stored but never shown: the page does not depend on it. */
  lemma PowerNotRendered(s: Snapshot, power: Option<real>, time: nat)
    ensures Lines(s.(power := power), time) == Lines(s, time)
  {
  }

  /** The position of a metric's block on the page. */
  function Rank(name: string): nat
  {
    if name == VoltageName then 0
    else if name == FanName then 1
    else if name == AmbientName then 2
    else if name == CalibratedName then 3
    else if name == FilteredName then 4
    else if name == RawName then 5
    else 6
  }

  /** `a` comes before `b` on the page: an earlier block, or the same block and a smaller sensor id. */
  predicate Before(a: Metric, b: Metric)
  {
    || Rank(a.name) < Rank(b.name)
    || (Rank(a.name) == Rank(b.name) && a.sensorId.Some? && b.sensorId.Some? && a.sensorId.value < b.sensorId.value)
  }

  predicate Ordered(lines: seq<Metric>)
  {
    forall i, j :: 0 <= i < j < |lines| ==> Before(lines[i], lines[j])
  }

  lemma OrderedAppend(a: seq<Metric>, b: seq<Metric>, rank: nat)
    requires Ordered(a) && Ordered(b)
    requires forall i :: 0 <= i < |a| ==> Rank(a[i].name) < rank
    requires forall j :: 0 <= j < |b| ==> Rank(b[j].name) == rank
    ensures Ordered(a + b)
    ensures forall i :: 0 <= i < |a + b| ==> Rank((a + b)[i].name) <= rank
  {
    forall i, j | 0 <= i < j < |a + b|
      ensures Before((a + b)[i], (a + b)[j])
    {
      if j < |a| {
        assert Before(a[i], a[j]);
      } else if i >= |a| {
        assert Before(b[i - |a|], b[j - |a|]);
      }
    }
  }

  lemma BlockOrdered(name: string, values: map<nat, real>, calibration: Option<map<nat, real>>, time: nat)
    ensures Ordered(Block(name, values, calibration, time))
    ensures forall j :: 0 <= j < |Block(name, values, calibration, time)| ==> Block(name, values, calibration, time)[j].name == name
  {
    var ids := SortedKeys(values.Keys);
    SortedKeysSorted(values.Keys);
    SensorLinesAscend(name, ids, values, calibration, time);
    SensorLinesContents(name, ids, values, calibration, time);
    var lines := Block(name, values, calibration, time);
    assert SensorsAscend(lines);
    assert forall j :: 0 <= j < |lines| ==> lines[j] in lines;
  }

  lemma ScalarsOrdered(s: Snapshot, time: nat)
    ensures Ordered(Scalars(s, time))
    ensures forall i :: 0 <= i < |Scalars(s, time)| ==> Rank(Scalars(s, time)[i].name) <= 2
  {
    var voltage := Scalar(VoltageName, s.psuVoltage, TwoDecimals, time);
    var fan := Scalar(FanName, s.fanRpm, NoDecimals, time);
    var ambient := Scalar(AmbientName, s.ambient, TwoDecimals, time);
    OrderedAppend([], voltage, 0);
    assert [] + voltage == voltage;
    OrderedAppend(voltage, fan, 1);
    OrderedAppend(voltage + fan, ambient, 2);
  }

  /** The blocks come in their fixed order, and within each block the sensors ascend. */
  lemma PageOrdered(s: Snapshot, time: nat)
    ensures Ordered(Lines(s, time))
  {
    var scalars := Scalars(s, time);
    var calibrated := Block(CalibratedName, s.inner, Some(s.calibration), time);
    var filtered := Block(FilteredName, s.filtered, Some(s.calibration), time);
    var raw := Block(RawName, s.inner, None, time);
    ScalarsOrdered(s, time);
    BlockOrdered(CalibratedName, s.inner, Some(s.calibration), time);
    OrderedAppend(scalars, calibrated, 3);
    BlockOrdered(FilteredName, s.filtered, Some(s.calibration), time);
    OrderedAppend(scalars + calibrated, filtered, 4);
    BlockOrdered(RawName, s.inner, None, time);
    OrderedAppend(scalars + calibrated + filtered, raw, 5);
  }

  /** The shared state of the service: the temperature store and one slot per scalar source. */
  class Measurements {
    const temperatures: Max6675.Temperatures
    const ambientTemperature: Shared.Slot
    const psuVoltage: Shared.Slot
    const fanRpm: Shared.Slot
    const power: Shared.Slot

    constructor (temperatures: Max6675.Temperatures, ambientTemperature: Shared.Slot,
                 psuVoltage: Shared.Slot, fanRpm: Shared.Slot, power: Shared.Slot)
      ensures this.temperatures == temperatures && this.ambientTemperature == ambientTemperature
      ensures this.psuVoltage == psuVoltage && this.fanRpm == fanRpm && this.power == power
    {
      this.temperatures := temperatures;
      this.ambientTemperature := ambientTemperature;
      this.psuVoltage := psuVoltage;
      this.fanRpm := fanRpm;
      this.power := power;
    }
  }

  /** Filtered estimates, one per filter. */
  function Estimates(t: Max6675.Temperatures): (e: map<nat, real>)
    reads t, t.filtered.Values
    requires t.Valid()
    ensures e.Keys == t.filtered.Keys
    ensures forall id: nat :: id in e ==> e[id] == Kalman.Estimate(t.filtered[id].inputs)
  {
    map id: nat | id in t.filtered :: t.filtered[id].Value()
  }

  ghost function SnapshotOf(m: Measurements): Snapshot
    reads m.temperatures, m.temperatures.filtered.Values, m.ambientTemperature, m.psuVoltage, m.fanRpm, m.power
    requires m.temperatures.Valid()
  {
    var t := m.temperatures;
    Snapshot(m.psuVoltage.value, m.fanRpm.value, m.ambientTemperature.value, m.power.value,
             t.inner, Estimates(t), t.calibration)
  }

  /** Appends a scalar line when the slot holds a value. */
  method PushScalar(metrics: string, name: string, slot: Option<real>, precision: Precision, time: nat, fmt: Formatter)
    returns (out: string)
    ensures out == metrics + Render(Scalar(name, slot, precision, time), fmt)
  {
    out := metrics;
    if slot.Some? {
      var line := Metric(name, None, slot.value, precision, time);
      out := out + LineText(line, fmt);
      assert [line][..0] == [];
    }
  }

  /** The text of sensor `id`'s line in a block: empty when a calibrated block has no offset for it. */
  method SensorText(name: string, values: map<nat, real>, calibration: Option<map<nat, real>>, id: nat, time: nat, fmt: Formatter)
    returns (line: string)
    requires id in values
    ensures line == Render(SensorLine(name, values, calibration, id, time), fmt)
  {
    line := "";
    if calibration.None? {
      line := LineText(Metric(name, Some(id), values[id], TwoDecimals, time), fmt);
    } else if id in calibration.value {
      var temp := values[id] + calibration.value[id];
      line := LineText(Metric(name, Some(id), temp, TwoDecimals, time), fmt);
    }
    RenderOne(SensorLine(name, values, calibration, id, time), fmt);
  }

  /** `done` lists, in ascending order, the keys of `keys` not in `rest`, all of them below those in `rest`. */
  ghost predicate Visited(done: seq<nat>, rest: set<nat>, keys: set<nat>)
  {
    && rest <= keys
    && (forall i, j :: 0 <= i < j < |done| ==> done[i] < done[j])
    && (forall i :: 0 <= i < |done| ==> done[i] in keys && done[i] !in rest)
    && (forall k :: k in keys ==> k in rest || k in done)
    && (forall i, k :: 0 <= i < |done| && k in rest ==> done[i] < k)
  }

  lemma VisitLeast(done: seq<nat>, rest: set<nat>, keys: set<nat>, id: nat)
    requires Visited(done, rest, keys)
    requires IsLeast(id, rest)
    ensures Visited(done + [id], rest - {id}, keys)
  {
    var next := done + [id];
    forall i, k | 0 <= i < |next| && k in rest - {id}
      ensures next[i] < k
    {
      if i < |done| {
        assert next[i] == done[i];
      }
    }
    forall k | k in keys
      ensures k in rest - {id} || k in next
    {
      if k !in rest - {id} && k !in done {
        assert k == id && next[|done|] == id;
      }
      if k in done {
        var i :| 0 <= i < |done| && done[i] == k;
        assert next[i] == k;
      }
    }
  }

  /** Appends one block, visiting `values` in ascending key order. */
  method PushSensorLines(metrics: string, name: string, values: map<nat, real>, calibration: Option<map<nat, real>>,
                         time: nat, fmt: Formatter)
    returns (out: string)
    ensures out == metrics + Render(Block(name, values, calibration, time), fmt)
  {
    out := metrics;
    var rest := values.Keys;
    ghost var done: seq<nat> := [];
    while rest != {}
      invariant Visited(done, rest, values.Keys)
      invariant out == metrics + Render(SensorLines(name, done, values, calibration, time), fmt)
      decreases |rest|
    {
      LeastExists(rest);
      var id :| id in rest && forall k :: k in rest ==> id <= k;
      var line := SensorText(name, values, calibration, id, time, fmt);
      PushLine(metrics, out, line, name, done, id, values, calibration, time, fmt);
      VisitLeast(done, rest, values.Keys, id);
      out := out + line;
      done := done + [id];
      rest := rest - {id};
    }
    SortedKeysUnique(done, values.Keys);
  }

  lemma PushLine(metrics: string, out: string, line: string, name: string, done: seq<nat>, id: nat,
                 values: map<nat, real>, calibration: Option<map<nat, real>>, time: nat, fmt: Formatter)
    requires forall i :: 0 <= i < |done| ==> done[i] in values
    requires id in values
    requires out == metrics + Render(SensorLines(name, done, values, calibration, time), fmt)
    requires line == Render(SensorLine(name, values, calibration, id, time), fmt)
    ensures out + line == metrics + Render(SensorLines(name, done + [id], values, calibration, time), fmt)
  {
    var lines := SensorLines(name, done, values, calibration, time);
    SensorLinesSnoc(name, done, id, values, calibration, time);
    RenderAppend(lines, SensorLine(name, values, calibration, id, time), fmt);
    AppendAssociates(metrics, Render(lines, fmt), line);
  }

  lemma RenderOne(lines: seq<Metric>, fmt: Formatter)
    requires |lines| <= 1
    ensures Render(lines, fmt) == if lines == [] then "" else LineText(lines[0], fmt)
  {
    if lines != [] {
      assert lines[..0] == [];
      var text := LineText(lines[0], fmt);
      assert "" + text == text;
    }
  }

  /** Proof step, not part of the station: string concatenation is associative. */
  lemma AppendAssociates(a: string, b: string, c: string)
    ensures (a + b) + c == a + (b + c)
  {
  }

  /** The `/metrics` handler: the page that `Lines` describes for the current measurements. */
  method Metrics(m: Measurements, time: nat, fmt: Formatter) returns (metrics: string)
    requires m.temperatures.Valid()
    ensures metrics == Render(Lines(SnapshotOf(m), time), fmt)
  {
    var t := m.temperatures;
    var snapshot := Snapshot(m.psuVoltage.value, m.fanRpm.value, m.ambientTemperature.value, m.power.value,
                             t.inner, Estimates(t), t.calibration);
    metrics := RenderPage(snapshot, time, fmt);
  }

  /** Builds the page text line by line, as the handler appends to its `String`. */
  method RenderPage(s: Snapshot, time: nat, fmt: Formatter) returns (metrics: string)
    ensures metrics == Render(Lines(s, time), fmt)
  {
    metrics := "";
    metrics := PushScalar(metrics, VoltageName, s.psuVoltage, TwoDecimals, time, fmt);
    metrics := PushScalar(metrics, FanName, s.fanRpm, NoDecimals, time, fmt);
    metrics := PushScalar(metrics, AmbientName, s.ambient, TwoDecimals, time, fmt);
    metrics := PushSensorLines(metrics, CalibratedName, s.inner, Some(s.calibration), time, fmt);
    metrics := PushSensorLines(metrics, FilteredName, s.filtered, Some(s.calibration), time, fmt);
    metrics := PushSensorLines(metrics, RawName, s.inner, None, time, fmt);
    PageText(s, time, fmt);
  }

  /** The page is the six parts' texts one after another. */
  lemma PageText(s: Snapshot, time: nat, fmt: Formatter)
    ensures Render(Lines(s, time), fmt)
      == "" + Render(Scalar(VoltageName, s.psuVoltage, TwoDecimals, time), fmt)
      + Render(Scalar(FanName, s.fanRpm, NoDecimals, time), fmt)
      + Render(Scalar(AmbientName, s.ambient, TwoDecimals, time), fmt)
      + Render(Block(CalibratedName, s.inner, Some(s.calibration), time), fmt)
      + Render(Block(FilteredName, s.filtered, Some(s.calibration), time), fmt)
      + Render(Block(RawName, s.inner, None, time), fmt)
  {
    var voltage := Scalar(VoltageName, s.psuVoltage, TwoDecimals, time);
    var fan := Scalar(FanName, s.fanRpm, NoDecimals, time);
    var ambient := Scalar(AmbientName, s.ambient, TwoDecimals, time);
    var calibrated := Block(CalibratedName, s.inner, Some(s.calibration), time);
    var filtered := Block(FilteredName, s.filtered, Some(s.calibration), time);
    var raw := Block(RawName, s.inner, None, time);
    RenderAppend(voltage, fan, fmt);
    RenderAppend(voltage + fan, ambient, fmt);
    RenderAppend(voltage + fan + ambient, calibrated, fmt);
    RenderAppend(voltage + fan + ambient + calibrated, filtered, fmt);
    RenderAppend(voltage + fan + ambient + calibrated + filtered, raw, fmt);
    assert "" + Render(voltage, fmt) == Render(voltage, fmt);
  }

  /** A sensor whose filter has never been fed shows the filter's starting estimate, 25 degrees, plus its offset, and no calibrated or raw line. */
  lemma NeverReadSensor(m: Measurements, id: nat, time: nat)
    requires m.temperatures.Valid()
    requires id in m.temperatures.filtered && m.temperatures.filtered[id].inputs == []
    requires id in m.temperatures.calibration && id !in m.temperatures.inner
    ensures Metric(FilteredName, Some(id), Kalman.RoomTemperature + m.temperatures.calibration[id], TwoDecimals, time)
      in Lines(SnapshotOf(m), time)
    ensures forall v :: Metric(CalibratedName, Some(id), v, TwoDecimals, time) !in Lines(SnapshotOf(m), time)
    ensures forall v :: Metric(RawName, Some(id), v, TwoDecimals, time) !in Lines(SnapshotOf(m), time)
  {
    CalibratedLinesShown(SnapshotOf(m), time);
    FilteredLinesShown(SnapshotOf(m), time);
    RawLinesShown(SnapshotOf(m), time);
  }

  /**
   * `main` up to serving: with `--calibrate` it runs the campaign over the
   * `numPins` configured chip-select pins and returns its offsets before any
   * store exists; otherwise it builds a store of `numSensors` filters, loads
   * the calibration table without failing when that is impossible, and wires
   * four new, distinct, empty scalar slots to it. `loaded` is the parsed
   * table, `None` when the file could not be opened or parsed; `read` is the
   * sensors' readings per round of the campaign.
   */
  method Start(calibrate: Option<real>, numSensors: nat, numPins: nat, loaded: Option<map<nat, real>>,
               read: (nat, nat) -> Option<real>)
    returns (offsets: Option<map<nat, Option<real>>>, measurements: Measurements?)
    ensures calibrate.Some? ==> offsets == Some(Max6675.CampaignResult(numPins, calibrate.value, read)) && measurements == null
    ensures calibrate.None? ==> offsets.None? && measurements != null && fresh(measurements)
    ensures calibrate.None? ==> (measurements != null
      && fresh(measurements.temperatures)
      && fresh(measurements.psuVoltage) && fresh(measurements.fanRpm)
      && fresh(measurements.ambientTemperature) && fresh(measurements.power))
    ensures calibrate.None? ==> (measurements != null
      && measurements.psuVoltage != measurements.fanRpm
      && measurements.psuVoltage != measurements.ambientTemperature
      && measurements.psuVoltage != measurements.power
      && measurements.fanRpm != measurements.ambientTemperature
      && measurements.fanRpm != measurements.power
      && measurements.ambientTemperature != measurements.power)
    ensures calibrate.None? ==> (measurements != null
      && measurements.temperatures.Valid() && measurements.temperatures.inner == map[]
      && measurements.psuVoltage.value.None? && measurements.fanRpm.value.None?
      && measurements.ambientTemperature.value.None? && measurements.power.value.None?
      && (forall id: nat :: id in measurements.temperatures.filtered <==> id < numSensors)
      && (forall id: nat :: id in measurements.temperatures.filtered ==> measurements.temperatures.filtered[id].inputs == []))
    ensures calibrate.None? ==> (measurements != null
      && forall id: nat :: id in measurements.temperatures.filtered ==>
        && fresh(measurements.temperatures.filtered[id])
        && measurements.temperatures.filtered[id].processVariance == Max6675.ProcessVariance
        && measurements.temperatures.filtered[id].estimationError == Max6675.MeasurementError)
    ensures calibrate.None? && loaded.Some? ==> measurements != null && measurements.temperatures.calibration == loaded.value
    ensures calibrate.None? && loaded.None? ==> (measurements != null
      && (forall id: nat :: id in measurements.temperatures.calibration <==> id < numSensors)
      && (forall id: nat :: id in measurements.temperatures.calibration ==> measurements.temperatures.calibration[id] == Max6675.DefaultOffset))
  {
    if calibrate.Some? {
      var calibration := Max6675.CalibrateSensors(numPins, calibrate.value, read);
      return Some(calibration), null;
    }
    var temperatures := new Max6675.Temperatures(numSensors);
    temperatures.LoadCalibration(loaded);
    var ambientTemperature := new Shared.Slot();
    var psuVoltage := new Shared.Slot();
    var fanRpm := new Shared.Slot();
    var power := new Shared.Slot();
    measurements := new Measurements(temperatures, ambientTemperature, psuVoltage, fanRpm, power);
    offsets := None;
  }
}
