/** The byte-access driver (class VL53L1XSimple in vl53l1x_simple.py) and
    the bookkeeping of its reading loop (run_simple_sensor).

    Every access goes through one smbus2 SMBus call with a one-byte register
    address. The driver's `trace` is the log of those calls. As for the
    block-transfer driver, the bus is two constants indexed by call number:
    `fails(n)` says call n raised, and `rx(n, j)` is the j-th byte call n
    reads when it does not. */
module Simple {
  import opened Bits
  import opened Optional
  import opened Bands

  /** The registers this driver names, as the one-byte addresses it puts on
      the bus. The byte type is the statement that every one fits in 8 bits. */
  const SYSTEM_MODE_START: byte := 0x87
  const RESULT_RANGE_STATUS: byte := 0x89
  const RESULT_DISTANCE: byte := 0x96
  const SYSTEM_INTERRUPT_CLEAR: byte := 0x86
  const PHASECAL_CONFIG_TIMEOUT_MACROP: byte := 0x8F
  const RANGE_CONFIG_TIMEOUT_MACROP_A_HI: byte := 0x5E
  const RANGE_CONFIG_TIMEOUT_MACROP_A_LO: byte := 0x5F
  const RANGE_CONFIG_TIMEOUT_MACROP_B_HI: byte := 0x60
  const RANGE_CONFIG_TIMEOUT_MACROP_B_LO: byte := 0x61
  const RANGE_CONFIG_VCSEL_PERIOD_A: byte := 0x62
  const RANGE_CONFIG_VCSEL_PERIOD_B: byte := 0x63
  /** The register `init` probes for presence. */
  const PROBE_REGISTER: byte := 0x00

  /** Written to SYSTEM_MODE_START before every reading. */
  const SINGLE_SHOT: byte := 0x40
  /** get_distance accepts only readings below this. */
  const DISTANCE_LIMIT: int := 8190

  /** One smbus2 call of the driver. */
  datatype SmbusCall =
    | OpenBus(bus: int)                                        // SMBus(i2c_bus)
    | ReadByteData(address: int, reg: byte)                    // read_byte_data(address, reg)
    | WriteByteData(address: int, reg: byte, value: byte)      // write_byte_data(address, reg, value)
    | ReadBlockData(address: int, reg: byte, count: nat)       // read_i2c_block_data(address, reg, count)
    | CloseBus                                                 // bus.close()

  /** read_byte's result for call `n`: the byte, or None when the call raised. */
  function ByteReply(fails: nat -> bool, rx: (nat, nat) -> byte, n: nat): Option<byte>
  {
    if fails(n) then None else Some(rx(n, 0))
  }

  /** read_word's result for call `n`: `(data[0] << 8) | data[1]`, or None
      when the call raised. */
  function WordReply(fails: nat -> bool, rx: (nat, nat) -> byte, n: nat): (r: Option<u16>)
    ensures r.None? <==> fails(n)
    ensures r.Some? ==> HighByte(r.value) == rx(n, 0) && LowByte(r.value) == rx(n, 1)
  {
    if fails(n) then None else Some(Word(rx(n, 0), rx(n, 1)))
  }

  /** Python's truth value of an optional int: None and 0 are false. */
  predicate Truthy(x: Option<int>)
  {
    x.Some? && x.value != 0
  }

  /** get_distance's filter: `distance and distance < 8190`. */
  function Filter(word: Option<int>): Option<int>
  {
    if Truthy(word) && word.value < DISTANCE_LIMIT then word else None
  }

  /** The calls of get_distance: the single-shot trigger, the two-byte
      distance read, the interrupt clear. They do not depend on what the bus
      answers: the clear is written even when the read failed. */
  function GetDistanceCalls(address: int): seq<SmbusCall>
  {
    [WriteByteData(address, SYSTEM_MODE_START, SINGLE_SHOT),
     ReadBlockData(address, RESULT_DISTANCE, 2),
     WriteByteData(address, SYSTEM_INTERRUPT_CLEAR, 0x01)]
  }

  /** The result of get_distance whose first call has index `k`. */
  function GetDistanceResult(fails: nat -> bool, rx: (nat, nat) -> byte, k: nat): Option<int>
  {
    Filter(WordReply(fails, rx, k + 1))
  }

  /** How many calls write to `reg`. */
  function WritesTo(calls: seq<SmbusCall>, reg: byte): nat
  {
    if calls == [] then 0
    else (if calls[0].WriteByteData? && calls[0].reg == reg then 1 else 0) + WritesTo(calls[1..], reg)
  }

  /** get_distance triggers the measurement first, reads the distance
      register once, and writes the interrupt clear exactly once, last; it
      never reads the range status. */
  lemma GetDistanceCallsShape(address: int)
    ensures GetDistanceCalls(address)[0] == WriteByteData(address, SYSTEM_MODE_START, SINGLE_SHOT)
    ensures WritesTo(GetDistanceCalls(address), SYSTEM_INTERRUPT_CLEAR) == 1
    ensures GetDistanceCalls(address)[|GetDistanceCalls(address)| - 1].WriteByteData?
    ensures GetDistanceCalls(address)[|GetDistanceCalls(address)| - 1].reg == SYSTEM_INTERRUPT_CLEAR
    ensures forall c | c in GetDistanceCalls(address) :: c.WriteByteData? || c.ReadBlockData?
    ensures forall c | c in GetDistanceCalls(address) :: c.reg != RESULT_RANGE_STATUS
  {
    var c := GetDistanceCalls(address);
    assert c[1..][1..][1..] == [];
    assert WritesTo(c[1..][1..][1..], SYSTEM_INTERRUPT_CLEAR) == 0;
    assert WritesTo(c[1..][1..], SYSTEM_INTERRUPT_CLEAR) == 1;
    assert WritesTo(c[1..], SYSTEM_INTERRUPT_CLEAR) == 1;
  }

  /** get_distance returns a reading iff the word read did not fail, is
      non-zero and is below 8190; the reading is the big-endian word. */
  lemma GetDistanceAccepts(fails: nat -> bool, rx: (nat, nat) -> byte, k: nat)
    ensures GetDistanceResult(fails, rx, k).Some?
      <==> !fails(k + 1) && 0 < rx(k + 1, 0) * 0x100 + rx(k + 1, 1) < DISTANCE_LIMIT
    ensures GetDistanceResult(fails, rx, k).Some? ==>
      GetDistanceResult(fails, rx, k).value == rx(k + 1, 0) * 0x100 + rx(k + 1, 1)
  {
  }

  /** The driver of one sensor. `isOpen` is `self.bus is not None`: before
      `init` has created the SMBus object every access raises inside the
      driver's own try, so nothing reaches the bus and reads give None. */
  class Sensor {
    const bus: int
    const address: int
    const fails: nat -> bool
    const rx: (nat, nat) -> byte
    var isOpen: bool
    var trace: seq<SmbusCall>

    constructor (bus: int, address: int, fails: nat -> bool, rx: (nat, nat) -> byte)
      ensures this.bus == bus && this.address == address && this.fails == fails && this.rx == rx
      ensures !isOpen && trace == []
    {
      this.bus, this.address, this.fails, this.rx := bus, address, fails, rx;
      isOpen, trace := false, [];
    }

    /** init: True iff SMBus() succeeded and the presence read of register
        0x00 did not raise. A failed probe leaves the bus open. */
    method Init() returns (found: bool)
      modifies this`isOpen, this`trace
      ensures !fails(|old(trace)|) ==>
        trace == old(trace) + [OpenBus(bus), ReadByteData(address, PROBE_REGISTER)] && isOpen
      ensures fails(|old(trace)|) ==> trace == old(trace) + [OpenBus(bus)] && isOpen == old(isOpen)
      ensures found <==> !fails(|old(trace)|) && !fails(|old(trace)| + 1)
    {
      var n := |trace|;
      trace := trace + [OpenBus(bus)];
      if fails(n) {
        return false;
      }
      isOpen := true;
      trace := trace + [ReadByteData(address, PROBE_REGISTER)];
      found := !fails(n + 1);
    }

    /** write_byte: one write_byte_data call; errors are swallowed. */
    method WriteByte(reg: byte, value: byte)
      modifies this`trace
      ensures isOpen ==> trace == old(trace) + [WriteByteData(address, reg, value)]
      ensures !isOpen ==> trace == old(trace)
    {
      if isOpen {
        trace := trace + [WriteByteData(address, reg, value)];
      }
    }

    /** read_byte: the byte, or None when the call raised. */
    method ReadByte(reg: byte) returns (r: Option<byte>)
      modifies this`trace
      ensures isOpen ==> trace == old(trace) + [ReadByteData(address, reg)]
      ensures isOpen ==> r == ByteReply(fails, rx, |old(trace)|)
      ensures !isOpen ==> trace == old(trace) && r == None
    {
      if !isOpen {
        return None;
      }
      var n := |trace|;
      trace := trace + [ReadByteData(address, reg)];
      r := if fails(n) then None else Some(rx(n, 0));
    }

    /** read_word: a two-byte block read joined big-endian, or None. */
    method ReadWord(reg: byte) returns (r: Option<u16>)
      modifies this`trace
      ensures isOpen ==> trace == old(trace) + [ReadBlockData(address, reg, 2)]
      ensures isOpen ==> r == WordReply(fails, rx, |old(trace)|)
      ensures !isOpen ==> trace == old(trace) && r == None
    {
      if !isOpen {
        return None;
      }
      var n := |trace|;
      trace := trace + [ReadBlockData(address, reg, 2)];
      if fails(n) {
        return None;
      }
      var data := [rx(n, 0), rx(n, 1)];
      r := Some(Word(data[0], data[1]));
    }

    /** start_measurement: 0x40 to SYSTEM_MODE_START. */
    method StartMeasurement()
      modifies this`trace
      ensures isOpen ==> trace == old(trace) + [WriteByteData(address, SYSTEM_MODE_START, SINGLE_SHOT)]
      ensures !isOpen ==> trace == old(trace)
    {
      WriteByte(SYSTEM_MODE_START, SINGLE_SHOT);
    }

    /** get_distance: trigger, read, clear, filter. */
    method GetDistance() returns (distance: Option<int>)
      modifies this`trace
      ensures isOpen ==> trace == old(trace) + GetDistanceCalls(address)
      ensures isOpen ==> distance == GetDistanceResult(fails, rx, |old(trace)|)
      ensures !isOpen ==> trace == old(trace) && distance == None
    {
      StartMeasurement();
      var word := ReadWord(RESULT_DISTANCE);
      WriteByte(SYSTEM_INTERRUPT_CLEAR, 0x01);
      var reading: Option<int> := if word.Some? then Some(word.value) else None;
      if Truthy(reading) && reading.value < DISTANCE_LIMIT {
        distance := reading;
      } else {
        distance := None;
      }
    }

    /** close: closes the bus only when init created it. */
    method Close()
      modifies this`trace
      ensures isOpen ==> trace == old(trace) + [CloseBus]
      ensures !isOpen ==> trace == old(trace)
    {
      if isOpen {
        trace := trace + [CloseBus];
      }
    }
  }

  // ---------------------------------------------------------------------
  // run_simple_sensor

  /** The proximity indicator printed after each reading. */
  datatype Band = VeryClose | Near | Medium | Far

  /** The indicator's if-chain on the distance. */
  function BandOf(distance: int): Band
  {
    if distance < 100 then VeryClose
    else if distance < 300 then Near
    else if distance < 1000 then Medium
    else Far
  }

  /** The bands in order of distance. */
  function BandRank(b: Band): nat
  {
    match b
    case VeryClose => 0
    case Near => 1
    case Medium => 2
    case Far => 3
  }

  /** The indicator's boundaries, ascending. */
  const BAND_THRESHOLDS: seq<int> := [100, 300, 1000]

  /** The band's rank is the number of boundaries the distance has reached:
      each distance falls in exactly one of the intervals they delimit. */
  lemma {:induction false} BandCountsThresholds(distance: int)
    ensures BandRank(BandOf(distance)) == Reached(BAND_THRESHOLDS, distance)
  {
    var t := BAND_THRESHOLDS;
    assert t[1..][1..][1..] == [];
    assert Reached(t[1..][1..], distance) == (if 1000 <= distance then 1 else 0);
    assert Reached(t[1..], distance) == Reached(t[1..][1..], distance) + (if 300 <= distance then 1 else 0);
  }

  /** A farther reading never gets a closer band. */
  lemma BandMonotone(d1: int, d2: int)
    requires d1 <= d2
    ensures BandRank(BandOf(d1)) <= BandRank(BandOf(d2))
  {
    BandCountsThresholds(d1);
    BandCountsThresholds(d2);
    ReachedMonotone(BAND_THRESHOLDS, d1, d2);
  }

  /** The change shown next to a reading: the rise or the fall, in mm. */
  datatype Change = Up(amount: int) | Down(amount: int)

  /** The change shown for `distance` after `last`: only when there was a
      previous reading and the difference exceeds 5 mm. */
  function ChangeOf(last: Option<int>, distance: int): (c: Option<Change>)
    ensures c.Some? <==> last.Some? && (distance - last.value > 5 || last.value - distance > 5)
    ensures c.Some? && c.value.Up? ==> c.value.amount > 5 && last.value + c.value.amount == distance
    ensures c.Some? && c.value.Down? ==> c.value.amount > 5 && last.value - c.value.amount == distance
  {
    if last.None? then None
    else
      var diff := distance - last.value;
      var magnitude := if diff < 0 then -diff else diff;
      if magnitude > 5 then
        if diff > 0 then Some(Up(diff)) else Some(Down(magnitude))
      else None
  }

  /** One printed reading. */
  datatype Line = Line(number: nat, distance: int, band: Band, change: Option<Change>)

  /** What one pass of the loop reports: a reading line, or a failure, with
      the error total printed every tenth failure. */
  datatype Outcome = Shown(line: Line) | Failed(reportErrors: bool)

  /** The counters and the last reading of run_simple_sensor's loop. */
  class Session {
    var measurementCount: nat
    var errorCount: nat
    var lastDistance: Option<int>

    constructor ()
      ensures measurementCount == 0 && errorCount == 0 && lastDistance == None
    {
      measurementCount, errorCount, lastDistance := 0, 0, None;
    }

    /** One pass of the loop body on get_distance's result. */
    method Record(distance: Option<int>) returns (outcome: Outcome)
      modifies this
      ensures distance.Some? ==>
        && measurementCount == old(measurementCount) + 1
        && errorCount == old(errorCount)
        && lastDistance == distance
        && outcome == Shown(Line(measurementCount, distance.value, BandOf(distance.value),
                                 ChangeOf(old(lastDistance), distance.value)))
      ensures distance.None? ==>
        && measurementCount == old(measurementCount)
        && errorCount == old(errorCount) + 1
        && lastDistance == old(lastDistance)
        && outcome == Failed(errorCount % 10 == 0)
    {
      match distance
      case Some(d) =>
        measurementCount := measurementCount + 1;
        var band := BandOf(d);
        var change := ChangeOf(lastDistance, d);
        outcome := Shown(Line(measurementCount, d, band, change));
        lastDistance := Some(d);
      case None =>
        errorCount := errorCount + 1;
        outcome := Failed(errorCount % 10 == 0);
    }
  }
}
