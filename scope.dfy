/**
 * The oscilloscope client of `src/scope.rs`, without the TCP connection: the
 * address it connects to, the parsing of its measurement replies, and the
 * rule by which each poll overwrites the voltage and fan-speed slots.
 * `f64::from_str` is the parameter `parse`, a partial function from text to
 * reals.
 */
module Scope {
  import opened Wrappers
  import Text
  import Shared

  /** Where the oscilloscope listens. */
  datatype Descriptor = Descriptor(address: string, port: nat) {
    /** `resource()`: `"{address}:{port}"`. */
    function Resource(): (r: string)
      ensures |r| > |address| + 1 && r[..|address|] == address && r[|address|] == ':'
      ensures Text.AllDigits(r[|address| + 1..]) && Text.DigitsValue(r[|address| + 1..]) == port
      ensures r[|address| + 1] == '0' ==> r == address + ":0"
    {
      var digits := Text.Decimal(port);
      Text.DecimalRoundTrip(port);
      assert (address + ":" + digits)[|address| + 1..] == digits;
      address + ":" + digits
    }
  }

  /** The position of the last `c` in `s`. */
  function LastIndexOf(s: string, c: char): (r: Option<nat>)
    ensures r.Some? ==> r.value < |s| && s[r.value] == c && forall i :: r.value < i < |s| ==> s[i] != c
    ensures r.None? ==> forall i :: 0 <= i < |s| ==> s[i] != c
  {
    if s == [] then None
    else if s[|s| - 1] == c then Some(|s| - 1)
    else LastIndexOf(s[..|s| - 1], c)
  }

  /** Splits `host:port` at its last colon. */
  function SplitResource(r: string): Option<(string, nat)>
  {
    match LastIndexOf(r, ':')
    case None => None
    case Some(k) =>
      var port := r[k + 1..];
      if port != [] && Text.AllDigits(port) then Some((r[..k], Text.DigitsValue(port))) else None
  }

  /** The address and the port can be read back from the resource string, even when the address holds colons. */
  lemma ResourceRoundTrip(d: Descriptor)
    ensures SplitResource(d.Resource()) == Some((d.address, d.port))
  {
    var r := d.Resource();
    var digits := Text.Decimal(d.port);
    var k := |d.address|;
    assert r[k] == ':';
    assert r[k + 1..] == digits;
    assert forall i :: k < i < |r| ==> r[i] == digits[i - k - 1];
    assert LastIndexOf(r, ':') == Some(k);
    assert r[..k] == d.address;
    Text.DecimalRoundTrip(d.port);
  }

  /** `char::is_whitespace`: the Unicode White_Space characters. */
  predicate IsWhitespace(c: char)
  {
    || '\t' <= c <= '\r' || c == ' ' || c == '\U{0085}' || c == '\U{00A0}' || c == '\U{1680}'
    || '\U{2000}' <= c <= '\U{200A}' || c == '\U{2028}' || c == '\U{2029}' || c == '\U{202F}'
    || c == '\U{205F}' || c == '\U{3000}'
  }

  /** `trim_start`: `s` without its leading whitespace. */
  function TrimStart(s: string): (r: string)
    ensures |r| <= |s| && r == s[|s| - |r|..]
    ensures r == [] || !IsWhitespace(r[0])
    ensures forall i :: 0 <= i < |s| - |r| ==> IsWhitespace(s[i])
  {
    if s != [] && IsWhitespace(s[0]) then TrimStart(s[1..]) else s
  }

  /** `trim_end`: `s` without its trailing whitespace. */
  function TrimEnd(s: string): (r: string)
    ensures |r| <= |s| && r == s[..|r|]
    ensures r == [] || !IsWhitespace(r[|r| - 1])
    ensures forall i :: |r| <= i < |s| ==> IsWhitespace(s[i])
  {
    if s != [] && IsWhitespace(s[|s| - 1]) then TrimEnd(s[..|s| - 1]) else s
  }

  /** `trim`: no whitespace is left at either end. */
  function Trim(s: string): (r: string)
    ensures |r| <= |s|
    ensures r == [] || (!IsWhitespace(r[0]) && !IsWhitespace(r[|r| - 1]))
  {
    var t := TrimStart(s);
    var r := TrimEnd(t);
    assert r != [] ==> |t| >= |r| > 0 && r[0] == t[0] && !IsWhitespace(t[0]);
    r
  }

  /** `parts` put back together with `sep` between neighbours. */
  function Join(parts: seq<string>, sep: char): string
    requires |parts| >= 1
  {
    if |parts| == 1 then parts[0] else parts[0] + [sep] + Join(parts[1..], sep)
  }

  /** `s.split(sep)`: always at least one piece; no piece holds `sep`; joining the pieces gives `s` back. */
  function Split(s: string, sep: char): (r: seq<string>)
    ensures |r| >= 1
    ensures forall i :: 0 <= i < |r| ==> sep !in r[i]
    ensures Join(r, sep) == s
    decreases |s|
  {
    if s == [] then [[]]
    else
      var rest := Split(s[1..], sep);
      if s[0] == sep then [[]] + rest
      else
        assert [s[0]] + Join(rest, sep) == s;
        [[s[0]] + rest[0]] + rest[1..]
  }

  /** `s.split(',').nth(1)`. */
  function SecondField(s: string): (r: Option<string>)
    ensures r.Some? ==> ',' !in r.value
  {
    var parts := Split(s, ',');
    if |parts| >= 2 then Some(parts[1]) else None
  }

  lemma {:induction false} JoinHoldsSeparator(parts: seq<string>, sep: char)
    requires |parts| >= 2
    ensures sep in Join(parts, sep)
  {
    assert Join(parts, sep)[|parts[0]|] == sep;
  }

  /** There is a second field exactly when the text holds a comma. */
  lemma SecondFieldExists(s: string)
    ensures SecondField(s).Some? <==> ',' in s
  {
    var parts := Split(s, ',');
    if |parts| >= 2 {
      JoinHoldsSeparator(parts, ',');
    } else {
      assert s == parts[0];
    }
  }

  lemma {:induction false} SplitAfterFirstSeparator(a: string, sep: char, b: string)
    requires sep !in a
    ensures Split(a + [sep] + b, sep) == [a] + Split(b, sep)
    decreases |a|
  {
    if a == [] {
      assert a + [sep] + b == [sep] + b;
      assert ([sep] + b)[1..] == b;
    } else {
      assert (a + [sep] + b)[1..] == a[1..] + [sep] + b;
      SplitAfterFirstSeparator(a[1..], sep, b);
      assert [a[0]] + a[1..] == a;
    }
  }

  /** The second field is what lies between the first and the second comma; later fields play no part. */
  lemma SecondFieldIgnoresLaterFields(a: string, b: string, tail: string)
    requires ',' !in a && ',' !in b
    ensures SecondField(a + "," + b + "," + tail) == Some(b)
    ensures SecondField(a + "," + b) == Some(b)
  {
    assert a + "," + b + "," + tail == a + [','] + (b + [','] + tail);
    SplitAfterFirstSeparator(a, ',', b + [','] + tail);
    SplitAfterFirstSeparator(b, ',', tail);
    assert a + "," + b == a + [','] + b;
    SplitAfterFirstSeparator(a, ',', b);
    var parts := Split(b, ',');
    if |parts| >= 2 {
      JoinHoldsSeparator(parts, ',');
    }
  }

  /** `s.replace(pat, "")`: every non-overlapping occurrence of `pat`, scanning left to right, removed. */
  function RemoveAll(s: string, pat: string): string
    requires pat != []
    decreases |s|
  {
    if s == [] then []
    else if pat <= s then RemoveAll(s[|pat|..], pat)
    else [s[0]] + RemoveAll(s[1..], pat)
  }

  /** Removal never lengthens the text, and a text that keeps its length has lost nothing. */
  lemma {:induction false} RemoveAllNeverLengthens(s: string, pat: string)
    requires pat != []
    ensures |RemoveAll(s, pat)| <= |s|
    ensures |RemoveAll(s, pat)| == |s| ==> RemoveAll(s, pat) == s
    decreases |s|
  {
    if s != [] {
      if pat <= s {
        RemoveAllNeverLengthens(s[|pat|..], pat);
      } else {
        RemoveAllNeverLengthens(s[1..], pat);
        assert [s[0]] + s[1..] == s;
      }
    }
  }

  /** Removing `V` leaves no `V`, and leaves text without one untouched. */
  lemma {:induction false} RemoveVoltsUnit(s: string)
    ensures 'V' !in RemoveAll(s, "V")
    ensures 'V' !in s ==> RemoveAll(s, "V") == s
    decreases |s|
  {
    if s != [] {
      RemoveVoltsUnit(s[1..]);
    }
  }

  /** Every `V` is removed wherever it stands, not only a trailing unit. */
  lemma {:induction false} RemoveVoltsDistributes(a: string, b: string)
    ensures RemoveAll(a + b, "V") == RemoveAll(a, "V") + RemoveAll(b, "V")
    decreases |a|
  {
    if a != [] {
      assert (a + b)[0] == a[0];
      assert ("V" <= a + b) == ("V" <= a);
      assert (a + b)[1..] == a[1..] + b;
      RemoveVoltsDistributes(a[1..], b);
    } else {
      assert a + b == b;
    }
  }

  /**
   * Removing a two-character unit distributes over a concatenation, unless
   * the second part starts with the unit's second character (an occurrence
   * could then straddle the seam).
   */
  lemma {:induction false} RemovePairConcat(a: string, u: string, pat: string)
    requires |pat| == 2 && (u == [] || u[0] != pat[1])
    ensures RemoveAll(a + u, pat) == RemoveAll(a, pat) + RemoveAll(u, pat)
    decreases |a|
  {
    if |a| >= 2 {
      assert (a + u)[..2] == a[..2];
      if pat <= a {
        assert (a + u)[2..] == a[2..] + u;
        RemovePairConcat(a[2..], u, pat);
      } else {
        assert (a + u)[1..] == a[1..] + u;
        RemovePairConcat(a[1..], u, pat);
      }
    } else if |a| == 1 {
      if u != [] {
        assert (a + u)[1] == u[0];
      }
      assert !(pat <= a + u);
      assert (a + u)[1..] == u;
      assert RemoveAll(a, pat) == a;
    } else {
      assert a + u == u;
    }
  }

  /** Every `Hz` is removed wherever it stands; text without an `H` is left untouched. */
  lemma RemoveHertzUnit(a: string, b: string)
    ensures RemoveAll(a + "Hz" + b, "Hz") == RemoveAll(a, "Hz") + RemoveAll(b, "Hz")
    ensures 'H' !in a ==> RemoveAll(a, "Hz") == a
  {
    assert a + "Hz" + b == a + ("Hz" + b);
    RemovePairConcat(a, "Hz" + b, "Hz");
    assert ("Hz" + b)[2..] == b;
    NoHertz(a);
  }

  lemma {:induction false} NoHertz(s: string)
    ensures 'H' !in s ==> RemoveAll(s, "Hz") == s
    decreases |s|
  {
    if s != [] && 'H' !in s {
      assert s[0] != 'H';
      assert !("Hz" <= s);
      assert 'H' !in s[1..];
      NoHertz(s[1..]);
    }
  }

  datatype ScopeError =
    | Io             // sending the query or receiving the reply failed or timed out
    | WrongResponse  // "Received wrong response": the reply has no second field
    | BadNumber      // the field is not a number

  /**
   * The reply handling shared by `read_psu_voltage` and `read_fan_rpm`:
   * trim, take the second comma-separated field, remove the unit, parse.
   * `reply` is the line received, `None` when the exchange failed.
   */
  function Measure(reply: Option<string>, unit: string, parse: string -> Option<real>): (r: Result<real, ScopeError>)
    requires unit != []
    ensures r == Failure(Io) <==> reply.None?
    ensures r == Failure(WrongResponse) <==> reply.Some? && ',' !in Trim(reply.value)
    ensures r == Failure(BadNumber) <==>
      (reply.Some? && SecondField(Trim(reply.value)).Some?
       && parse(RemoveAll(SecondField(Trim(reply.value)).value, unit)).None?)
    ensures r.Success? ==> parse(RemoveAll(SecondField(Trim(reply.value)).value, unit)) == Some(r.value)
  {
    match reply
    case None => Failure(Io)
    case Some(response) =>
      SecondFieldExists(Trim(response));
      match SecondField(Trim(response))
      case None => Failure(WrongResponse)
      case Some(value) =>
        match parse(RemoveAll(value, unit))
        case None => Failure(BadNumber)
        case Some(v) => Success(v)
  }

  /** `read_psu_voltage`: the mean of channel 1, with its `V` units removed. */
  function ReadPsuVoltage(reply: Option<string>, parse: string -> Option<real>): (r: Result<real, ScopeError>)
    ensures r == Failure(Io) <==> reply.None?
    ensures r == Failure(WrongResponse) <==> reply.Some? && ',' !in Trim(reply.value)
    ensures r == Failure(BadNumber) <==>
      (reply.Some? && SecondField(Trim(reply.value)).Some?
       && parse(RemoveAll(SecondField(Trim(reply.value)).value, "V")).None?)
    ensures r.Success? ==> (reply.Some? && SecondField(Trim(reply.value)).Some?
      && 'V' !in RemoveAll(SecondField(Trim(reply.value)).value, "V")
      && parse(RemoveAll(SecondField(Trim(reply.value)).value, "V")) == Some(r.value))
  {
    if reply.Some? && SecondField(Trim(reply.value)).Some? then
      RemoveVoltsUnit(SecondField(Trim(reply.value)).value);
      Measure(reply, "V", parse)
    else
      Measure(reply, "V", parse)
  }

  /** `read_fan_rpm`: the frequency of channel 2 times 60 / 2, for the fan's two pulses per revolution. */
  function ReadFanRpm(reply: Option<string>, parse: string -> Option<real>): (r: Result<real, ScopeError>)
    ensures r.Success? <==> Measure(reply, "Hz", parse).Success?
    ensures r.Success? ==> r.value == 30.0 * Measure(reply, "Hz", parse).value
    ensures r.Failure? ==> r == Measure(reply, "Hz", parse)
  {
    match Measure(reply, "Hz", parse)
    case Success(frequency) => Success(frequency * (60.0 / 2.0))
    case Failure(e) => Failure(e)
  }

  /** The second field of a typical voltage reply, `C1:PAVA MEAN,12.03V`, is `12.03V`. */
  lemma VoltageReplyField()
    ensures SecondField("C1:PAVA MEAN,12.03V") == Some("12.03V")
  {
    var name, field := "C1:PAVA MEAN", "12.03V";
    assert name + "," + field == "C1:PAVA MEAN,12.03V";
    SecondFieldIgnoresLaterFields(name, field, "");
  }

  /** Without its unit, that field is `12.03`. */
  lemma VoltageFieldUnit()
    ensures RemoveAll("12.03V", "V") == "12.03"
  {
    assert "12.03V" == "12.03" + "V";
    RemoveVoltsDistributes("12.03", "V");
    RemoveVoltsUnit("12.03");
  }

  /** That reply reads as 12.03 volts whatever whitespace surrounds the line. */
  lemma VoltageReply(parse: string -> Option<real>, lead: string, trail: string)
    requires forall i :: 0 <= i < |lead| ==> IsWhitespace(lead[i])
    requires forall i :: 0 <= i < |trail| ==> IsWhitespace(trail[i])
    requires parse("12.03") == Some(12.03)
    ensures ReadPsuVoltage(Some(lead + "C1:PAVA MEAN,12.03V" + trail), parse) == Success(12.03)
  {
    var line := "C1:PAVA MEAN,12.03V";
    assert line[0] == 'C' && line[|line| - 1] == 'V';
    TrimmedLine(lead, line, trail);
    VoltageReplyField();
    VoltageFieldUnit();
  }

  /** The second field of a typical frequency reply, `C2:PAVA FREQ,40.0Hz`, is `40.0Hz`. */
  lemma FanReplyField()
    ensures SecondField("C2:PAVA FREQ,40.0Hz") == Some("40.0Hz")
  {
    assert "C2:PAVA FREQ" + "," + "40.0Hz" == "C2:PAVA FREQ,40.0Hz";
    SecondFieldIgnoresLaterFields("C2:PAVA FREQ", "40.0Hz", "");
  }

  /** Without its unit, that field is `40.0`. */
  lemma FanFieldUnit()
    ensures RemoveAll("40.0Hz", "Hz") == "40.0"
  {
    assert "40.0Hz" == "40.0" + "Hz" + "";
    RemoveHertzUnit("40.0", "");
  }

  /** That reply reads as 1200 revolutions per minute: 40 Hz, two pulses per revolution. */
  lemma FanReply(parse: string -> Option<real>)
    requires parse("40.0") == Some(40.0)
    ensures ReadFanRpm(Some("C2:PAVA FREQ,40.0Hz"), parse) == Success(1200.0)
  {
    var line := "C2:PAVA FREQ,40.0Hz";
    assert line[0] == 'C' && line[|line| - 1] == 'z';
    TrimmedLine([], line, []);
    assert [] + line + [] == line;
    FanReplyField();
    FanFieldUnit();
  }

  lemma {:induction false} TrimStartSkipsWhitespace(w: string, x: string)
    requires forall i :: 0 <= i < |w| ==> IsWhitespace(w[i])
    ensures TrimStart(w + x) == TrimStart(x)
    decreases |w|
  {
    if w != [] {
      assert (w + x)[0] == w[0];
      assert (w + x)[1..] == w[1..] + x;
      TrimStartSkipsWhitespace(w[1..], x);
    } else {
      assert w + x == x;
    }
  }

  lemma {:induction false} TrimEndSkipsWhitespace(x: string, w: string)
    requires forall i :: 0 <= i < |w| ==> IsWhitespace(w[i])
    ensures TrimEnd(x + w) == TrimEnd(x)
    decreases |w|
  {
    if w != [] {
      assert (x + w)[|x + w| - 1] == w[|w| - 1];
      assert (x + w)[..|x + w| - 1] == x + w[..|w| - 1];
      TrimEndSkipsWhitespace(x, w[..|w| - 1]);
    } else {
      assert x + w == x;
    }
  }

  /** Whitespace around a line that neither starts nor ends with whitespace is all `trim` removes. */
  lemma TrimmedLine(lead: string, line: string, trail: string)
    requires forall i :: 0 <= i < |lead| ==> IsWhitespace(lead[i])
    requires forall i :: 0 <= i < |trail| ==> IsWhitespace(trail[i])
    requires line != [] && !IsWhitespace(line[0]) && !IsWhitespace(line[|line| - 1])
    ensures Trim(lead + line + trail) == line
  {
    assert lead + line + trail == lead + (line + trail);
    TrimStartSkipsWhitespace(lead, line + trail);
    assert (line + trail)[0] == line[0];
    TrimEndSkipsWhitespace(line, trail);
  }

  /**
   * One pass of `update_voltage_periodically`: each slot is overwritten with
   * the new reading, or with `None` on any failure; the previous value is
   * never kept.
   */
  method Poll(psuVoltage: Shared.Slot, fanRpm: Shared.Slot,
              voltageReply: Option<string>, rpmReply: Option<string>, parse: string -> Option<real>)
    modifies psuVoltage, fanRpm
    ensures fanRpm.value == ReadFanRpm(rpmReply, parse).ToOption()
    ensures psuVoltage != fanRpm ==> psuVoltage.value == ReadPsuVoltage(voltageReply, parse).ToOption()
  {
    var psuVoltageReading := ReadPsuVoltage(voltageReply, parse).ToOption();
    psuVoltage.value := psuVoltageReading;
    var fanRpmReading := ReadFanRpm(rpmReply, parse).ToOption();
    fanRpm.value := fanRpmReading;
  }
}
