/**
 * The earlier Python driver, `python/MAX6675.py`: the same 16-bit word and
 * bit arithmetic as the Rust decoder, but an open thermocouple yields NaN and
 * an all-zero word is accepted as 0 degrees.
 */
module Max6675Py {
  import opened Wrappers
  import Max6675

  type Byte = Max6675.Byte

  /** `RuntimeError('Did not read expected number of bytes from device!')`. */
  datatype ReadError = WrongByteCount

  /** What `read_temp` returns: NaN, or a temperature counted in quarter-degrees. */
  datatype Reading = NaN | Quarters(count: int)

  /** `_read16`: `raw` is what the SPI read returned, `None` for Python's `None`. */
  function Read16(raw: Option<seq<Byte>>): (r: Result<nat, ReadError>)
    ensures r.Success? <==> raw.Some? && |raw.value| == 2
    ensures r.Success? ==> r.value == raw.value[0] as int * 0x100 + raw.value[1] as int && r.value < 0x1_0000
  {
    if raw.None? || |raw.value| != 2 then Failure(WrongByteCount)
    else Success(Max6675.Word(raw.value[0], raw.value[1]))
  }

  /** `read_temp`. */
  function ReadTemp(raw: Option<seq<Byte>>): (r: Result<Reading, ReadError>)
    ensures r.Failure? <==> Read16(raw).Failure?
    ensures r == Success(NaN) <==> Read16(raw).Success? && Max6675.BitSet(Read16(raw).value, 4)
    ensures r.Success? && r.value.Quarters? ==> r.value.count == Read16(raw).value / 8 && 0 <= r.value.count < 8192
  {
    match Read16(raw)
    case Failure(e) => Failure(e)
    case Success(v) =>
      if Max6675.BitSet(v, 0x4) then Success(NaN)
      else if Max6675.BitSet(v, 0x8000_0000) then Success(Quarters(Max6675.DropStatusBits(v) - 4096))
      else Success(Quarters(Max6675.DropStatusBits(v)))
  }

  /** `v * 0.25`, the value Python prints. */
  function Celsius(r: Reading): Option<real>
  {
    match r
    case NaN => None
    case Quarters(q) => Some(Max6675.Celsius(q))
  }

  /** Every word the Rust decoder accepts decodes to the same value here. */
  lemma AgreesWithRust(hi: Byte, lo: Byte)
    ensures Max6675.Decode(hi, lo).Success? ==> ReadTemp(Some([hi, lo])) == Success(Quarters(Max6675.Decode(hi, lo).value))
    ensures Max6675.DecodeAsWritten(hi, lo).Success? ==> ReadTemp(Some([hi, lo])) == Success(Quarters(Max6675.DecodeAsWritten(hi, lo).value))
  {
    Max6675.DecodersAgree(hi, lo);
  }

  /**
   * Where the Rust decoder rejects a word, Python either answers NaN (status
   * bit D2, which includes the all-ones word) or 0.0 (the all-zero word).
   */
  lemma RustRejectionsInPython(hi: Byte, lo: Byte)
    ensures Max6675.Decode(hi, lo) == Failure(Max6675.NotPresent) ==> ReadTemp(Some([hi, lo])) == Success(Quarters(0))
    ensures Max6675.Decode(hi, lo) == Failure(Max6675.ThermocoupleOpen) ==> ReadTemp(Some([hi, lo])) == Success(NaN)
    ensures Max6675.Decode(hi, lo) == Failure(Max6675.WrongConnection) ==> ReadTemp(Some([hi, lo])) == Success(NaN)
  {
  }

  /** The all-zero word: 0.0 degrees in Python, "sensor not present" in Rust. */
  lemma ZeroWord()
    ensures ReadTemp(Some([0, 0])) == Success(Quarters(0))
    ensures Celsius(Quarters(0)) == Some(0.0)
    ensures Max6675.Decode(0, 0) == Failure(Max6675.NotPresent)
  {
  }
}
