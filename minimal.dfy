/** The block-transfer driver (class VL53L1XMinimal in vl53l1x_minimal.py).

    Every register access is one smbus2 `i2c_rdwr` transaction: a write
    message that starts with the register's two address bytes (high byte
    first), optionally followed by a read message. The driver's `trace` is
    the log of smbus2 calls it made. The bus is given by two constants
    indexed by call number (the length of the trace when the call is made):
    `fails(n)` says that call n raised, and `rx(n, j)` is the j-th byte call
    n reads when it does not raise. A failure never changes which calls are
    made, only what a read yields (`[0] * num_bytes`). */
module Minimal {
  import opened Bits
  import opened Optional
  import opened Registers
  import opened WiringPi

  /** One smbus2 call of the driver. */
  datatype BusCall =
    | OpenBus(bus: int)                                      // SMBus(i2c_bus)
    | Probe(address: int)                                    // bus.read_byte(address)
    | Send(address: int, message: seq<int>)                  // i2c_rdwr(i2c_msg.write(address, message))
    | SendReceive(address: int, message: seq<int>, count: nat) // i2c_rdwr(write(address, message), read(address, count))
    | CloseBus                                               // bus.close()

  /** write_reg's `data` argument: an int, or a list of bytes. */
  datatype Data = Value(value: byte) | Bytes(bytes: seq<byte>)

  /** `[data]` for an int, the list itself otherwise. */
  function Payload(data: Data): seq<byte>
  {
    match data
    case Value(v) => [v]
    case Bytes(bs) => bs
  }

  /** `[(reg >> 8) & 0xFF, reg & 0xFF] + list(data)`: the one message write_reg sends. */
  function Message(reg: u16, data: seq<byte>): seq<int>
  {
    [HighByte(reg), LowByte(reg)] + data
  }

  /** The register a message addresses, read back from its first two bytes. */
  function Target(message: seq<int>): Option<int>
  {
    if |message| < 2 then None else Some(message[0] * 0x100 + message[1])
  }

  /** What a message carries after the register address. */
  function Body(message: seq<int>): seq<int>
  {
    if |message| < 2 then [] else message[2..]
  }

  /** A write_reg message decodes back into its register and its data. */
  lemma MessageRoundTrip(reg: u16, data: seq<byte>)
    ensures |Message(reg, data)| == 2 + |data|
    ensures Target(Message(reg, data)) == Some(reg)
    ensures Body(Message(reg, data)) == data
  {
    WordOfBytes(reg);
    assert Message(reg, data)[2..] == data;
  }

  /** write_reg's `isinstance(data, int)` branch: writing an int sends the
      same message as writing the one-element list holding it, and in both
      forms the data that follows the address is exactly what was given. */
  lemma PayloadOfValue(reg: u16, v: byte, bs: seq<byte>)
    ensures Message(reg, Payload(Value(v))) == Message(reg, Payload(Bytes([v])))
    ensures Body(Message(reg, Payload(Value(v)))) == [v]
    ensures Body(Message(reg, Payload(Bytes(bs)))) == bs
  {
    MessageRoundTrip(reg, [v]);
    MessageRoundTrip(reg, bs);
  }

  /** The call write_reg makes. */
  function WriteCall(address: int, reg: u16, data: seq<byte>): BusCall
  {
    Send(address, Message(reg, data))
  }

  /** The call read_reg makes: the address bytes, then a read of `count` bytes. */
  function ReadCall(address: int, reg: u16, count: nat): BusCall
  {
    SendReceive(address, [HighByte(reg), LowByte(reg)], count)
  }

  /** The register each call addresses, in order (calls that address none are skipped). */
  function Targets(calls: seq<BusCall>): seq<int>
  {
    if calls == [] then []
    else
      var t := if calls[0].Send? || calls[0].SendReceive? then Target(calls[0].message) else None;
      (if t.Some? then [t.value] else []) + Targets(calls[1..])
  }

  /** The messages of the calls that only write, in order. */
  function Writes(calls: seq<BusCall>): seq<seq<int>>
  {
    if calls == [] then []
    else (if calls[0].Send? then [calls[0].message] else []) + Writes(calls[1..])
  }

  lemma {:induction false} TargetsAppend(a: seq<BusCall>, b: seq<BusCall>)
    ensures Targets(a + b) == Targets(a) + Targets(b)
    ensures Writes(a + b) == Writes(a) + Writes(b)
  {
    if a == [] {
      assert a + b == b;
    } else {
      assert (a + b)[1..] == a[1..] + b;
      TargetsAppend(a[1..], b);
    }
  }

  /** One write_reg call addresses its register and writes its message; one
      read_reg call addresses its register and writes nothing. */
  lemma CallViews(address: int, reg: u16, data: seq<byte>, count: nat)
    ensures Targets([WriteCall(address, reg, data)]) == [reg]
    ensures Writes([WriteCall(address, reg, data)]) == [Message(reg, data)]
    ensures Targets([ReadCall(address, reg, count)]) == [reg]
    ensures Writes([ReadCall(address, reg, count)]) == []
  {
    MessageRoundTrip(reg, data);
    MessageRoundTrip(reg, []);
    assert [HighByte(reg), LowByte(reg)] == Message(reg, []);
  }

  /** `[0] * count`. */
  function Zeros(count: nat): (r: seq<byte>)
    ensures |r| == count && forall j | 0 <= j < count :: r[j] == 0
  {
    seq(count, _ => 0)
  }

  /** The bytes read_reg returns for call `n`: `list(read_msg)`, or `[0] * count` when the call raised. */
  function Received(fails: nat -> bool, rx: (nat, nat) -> byte, n: nat, count: nat): (r: seq<byte>)
    ensures |r| == count
  {
    if fails(n) then Zeros(count) else seq(count, j requires 0 <= j < count => rx(n, j))
  }

  /** Byte j of what call n yields. */
  function ByteAt(fails: nat -> bool, rx: (nat, nat) -> byte, n: nat, j: nat): byte
  {
    if fails(n) then 0 else rx(n, j)
  }

  // ---------------------------------------------------------------------
  // init_sensor

  /** The j-th firmware-status read of the wait that starts at call `base` has bit 0 set. */
  predicate ReadyAt(fails: nat -> bool, rx: (nat, nat) -> byte, base: nat, j: nat)
  {
    Bit0(ByteAt(fails, rx, base + j, 0))
  }

  /** The index of the first status read at or after `i` with bit 0 set, or
      FIRMWARE_TRIES when there is none: where `for _ in range(100)` breaks. */
  function FirstReady(fails: nat -> bool, rx: (nat, nat) -> byte, base: nat, i: nat): (r: nat)
    requires i <= FIRMWARE_TRIES
    ensures i <= r <= FIRMWARE_TRIES
    ensures forall j | i <= j < r :: !ReadyAt(fails, rx, base, j)
    ensures r < FIRMWARE_TRIES ==> ReadyAt(fails, rx, base, r)
    decreases FIRMWARE_TRIES - i
  {
    if i == FIRMWARE_TRIES then i
    else if ReadyAt(fails, rx, base, i) then i
    else FirstReady(fails, rx, base, i + 1)
  }

  /** FirstReady is the one index from `i` on that has only unready reads
      before it and is itself ready or the end of the wait. */
  lemma {:induction false} FirstReadyIs(fails: nat -> bool, rx: (nat, nat) -> byte, base: nat, i: nat, r: nat)
    requires i <= r <= FIRMWARE_TRIES
    requires forall j | i <= j < r :: !ReadyAt(fails, rx, base, j)
    requires r < FIRMWARE_TRIES ==> ReadyAt(fails, rx, base, r)
    ensures FirstReady(fails, rx, base, i) == r
    decreases r - i
  {
    if i < r {
      FirstReadyIs(fails, rx, base, i + 1, r);
    }
  }

  /** The number of status reads of the wait that starts at call `base`. */
  function Polls(fails: nat -> bool, rx: (nat, nat) -> byte, base: nat): nat
  {
    var r := FirstReady(fails, rx, base, 0);
    if r < FIRMWARE_TRIES then r + 1 else r
  }

  /** The wait reads at most 100 times and stops right after the first read
      with bit 0 set; it reads all 100 times only when no read before the
      last had it. Nothing tells the caller which way it ended. */
  lemma PollsBound(fails: nat -> bool, rx: (nat, nat) -> byte, base: nat)
    ensures 1 <= Polls(fails, rx, base) <= FIRMWARE_TRIES
    ensures forall j | 0 <= j < Polls(fails, rx, base) - 1 :: !ReadyAt(fails, rx, base, j)
    ensures Polls(fails, rx, base) < FIRMWARE_TRIES ==> ReadyAt(fails, rx, base, Polls(fails, rx, base) - 1)
    ensures (exists j | 0 <= j < FIRMWARE_TRIES :: ReadyAt(fails, rx, base, j))
      <==> ReadyAt(fails, rx, base, Polls(fails, rx, base) - 1)
  {
    var r := FirstReady(fails, rx, base, 0);
    if r == FIRMWARE_TRIES {
      assert forall j | 0 <= j < FIRMWARE_TRIES :: !ReadyAt(fails, rx, base, j);
    }
  }

  /** The soft reset: 0x00, then 0x01, to register 0x0000. */
  function ResetCalls(address: int): seq<BusCall>
  {
    [WriteCall(address, SOFT_RESET, [0x00]), WriteCall(address, SOFT_RESET, [0x01])]
  }

  /** `p` one-byte reads of FIRMWARE_SYSTEM_STATUS. */
  function PollCalls(address: int, p: nat): (c: seq<BusCall>)
    ensures |c| == p
  {
    seq(p, _ => ReadCall(address, FIRMWARE_SYSTEM_STATUS, 1))
  }

  /** The registers of the configuration, in source order: the fast-mode-plus
      pad first, the interrupt configuration last. */
  const CONFIG_REGISTERS: seq<int> := [
    PAD_I2C_FAST_MODE_PLUS,
    RANGE_CONFIG_VCSEL_PERIOD_A, RANGE_CONFIG_VCSEL_PERIOD_B, RANGE_CONFIG_VALID_PHASE_HIGH,
    SD_CONFIG_WOI_SD0, SD_CONFIG_WOI_SD1, SD_CONFIG_INITIAL_PHASE_SD0, SD_CONFIG_INITIAL_PHASE_SD1,
    RANGE_CONFIG_TIMEOUT_MACROP_A, RANGE_CONFIG_TIMEOUT_MACROP_B,
    SYSTEM_INTERRUPT_CONFIG_GPIO]

  /** The data lists of the configuration, in source order; the 16-bit
      values go as two-byte lists, high byte first. */
  const CONFIG_DATA: seq<seq<byte>> := [
    [0x01],
    [0x09], [0x0D], [0xC8],
    [HighByte(0x0001), LowByte(0x0001)], [HighByte(0x0001), LowByte(0x0001)], [0x00], [0x00],
    [HighByte(0x00D6), LowByte(0x00D6)], [HighByte(0x00D6), LowByte(0x00D6)],
    [0x01]]

  /** The configuration writes of init_sensor. */
  function ConfigCalls(address: int): seq<BusCall>
  {
    [WriteCall(address, PAD_I2C_FAST_MODE_PLUS, [0x01]),
     WriteCall(address, RANGE_CONFIG_VCSEL_PERIOD_A, [0x09]),
     WriteCall(address, RANGE_CONFIG_VCSEL_PERIOD_B, [0x0D]),
     WriteCall(address, RANGE_CONFIG_VALID_PHASE_HIGH, [0xC8]),
     WriteCall(address, SD_CONFIG_WOI_SD0, [0x00, 0x01]),
     WriteCall(address, SD_CONFIG_WOI_SD1, [0x00, 0x01]),
     WriteCall(address, SD_CONFIG_INITIAL_PHASE_SD0, [0x00]),
     WriteCall(address, SD_CONFIG_INITIAL_PHASE_SD1, [0x00]),
     WriteCall(address, RANGE_CONFIG_TIMEOUT_MACROP_A, [0x00, 0xD6]),
     WriteCall(address, RANGE_CONFIG_TIMEOUT_MACROP_B, [0x00, 0xD6]),
     WriteCall(address, SYSTEM_INTERRUPT_CONFIG_GPIO, [0x01])]
  }

  /** The calls of init_sensor from call index `k`. */
  function InitCalls(fails: nat -> bool, rx: (nat, nat) -> byte, address: int, k: nat): seq<BusCall>
  {
    ResetCalls(address) + PollCalls(address, Polls(fails, rx, k + 2)) + ConfigCalls(address)
  }

  // ---------------------------------------------------------------------
  // Ranging

  function StartCalls(address: int): seq<BusCall>
  {
    [WriteCall(address, SYSTEM_INTERRUPT_CLEAR, [0x01]), WriteCall(address, SYSTEM_MODE_START, [MODE_RANGING])]
  }

  function StopCalls(address: int): seq<BusCall>
  {
    [WriteCall(address, SYSTEM_MODE_START, [MODE_STOP])]
  }

  /** get_distance's acceptance window. The range status is never consulted. */
  predicate InWindow(distance: int)
  {
    20 < distance < 8000
  }

  /** The distance get_distance assembles from call `n`: `(result[0] << 8) | result[1]`. */
  function DistanceAt(fails: nat -> bool, rx: (nat, nat) -> byte, n: nat): u16
  {
    Word(ByteAt(fails, rx, n, 0), ByteAt(fails, rx, n, 1))
  }

  /** get_distance from call index `k`: the calls and the result. */
  function GetDistanceSpec(fails: nat -> bool, rx: (nat, nat) -> byte, address: int, k: nat): (seq<BusCall>, Option<int>)
  {
    var ready := ReadCall(address, GPIO_TIO_HV_STATUS, 1);
    if !Bit0(ByteAt(fails, rx, k, 0)) then ([ready], None)
    else
      var d := DistanceAt(fails, rx, k + 1);
      ([ready, ReadCall(address, RESULT_DISTANCE, 2), WriteCall(address, SYSTEM_INTERRUPT_CLEAR, [0x01])],
       if InWindow(d) then Some(d) else None)
  }

  // ---------------------------------------------------------------------
  // What the operations put on the bus.

  /** The configuration addresses its eleven registers in source order,
      starting with the fast-mode-plus pad and ending with the interrupt
      configuration (no interrupt clear), and each message carries the
      data list of its write. */
  lemma ConfigViews(address: int)
    ensures Targets(ConfigCalls(address)) == CONFIG_REGISTERS
    ensures |Writes(ConfigCalls(address))| == |CONFIG_REGISTERS|
    ensures forall i | 0 <= i < |CONFIG_REGISTERS| ::
      Writes(ConfigCalls(address))[i] == Message(CONFIG_REGISTERS[i], CONFIG_DATA[i])
  {
    CallsViews(address, ConfigCalls(address), CONFIG_REGISTERS, CONFIG_DATA);
  }

  /** When call i writes data[i] to regs[i], the calls address those
      registers and write those messages, in order. */
  lemma {:induction false} CallsViews(address: int, calls: seq<BusCall>, regs: seq<int>, data: seq<seq<byte>>)
    requires |calls| == |regs| == |data|
    requires forall i | 0 <= i < |regs| :: 0 <= regs[i] < 0x1_0000
    requires forall i | 0 <= i < |calls| :: calls[i] == WriteCall(address, regs[i], data[i])
    ensures Targets(calls) == regs
    ensures |Writes(calls)| == |calls|
    ensures forall i | 0 <= i < |calls| :: Writes(calls)[i] == Message(regs[i], data[i])
  {
    if calls != [] {
      assert calls == [calls[0]] + calls[1..];
      TargetsAppend([calls[0]], calls[1..]);
      CallViews(address, regs[0], data[0], 0);
      CallsViews(address, calls[1..], regs[1..], data[1..]);
      assert regs == [regs[0]] + regs[1..];
      assert Writes(calls) == [Message(regs[0], data[0])] + Writes(calls[1..]);
    }
  }

  /** Whatever the bus does, read_reg hands back exactly `count` bytes, and
      byte j is the device's byte j, or 0 when the transfer raised. */
  lemma ReceivedBytes(fails: nat -> bool, rx: (nat, nat) -> byte, n: nat, count: nat)
    ensures |Received(fails, rx, n, count)| == count
    ensures forall j | 0 <= j < count :: Received(fails, rx, n, count)[j] == ByteAt(fails, rx, n, j)
  {
  }

  /** Targets and Writes of three consecutive stretches of calls. */
  lemma TargetsAppend3(a: seq<BusCall>, b: seq<BusCall>, c: seq<BusCall>)
    ensures Targets(a + b + c) == Targets(a) + Targets(b) + Targets(c)
    ensures Writes(a + b + c) == Writes(a) + Writes(b) + Writes(c)
  {
    TargetsAppend(a, b);
    TargetsAppend(a + b, c);
  }

  /** The soft reset addresses 0x0000 twice, writing 0x00 and then 0x01. */
  lemma ResetViews(address: int)
    ensures Targets(ResetCalls(address)) == [SOFT_RESET, SOFT_RESET]
    ensures Writes(ResetCalls(address)) == [Message(SOFT_RESET, [0x00]), Message(SOFT_RESET, [0x01])]
  {
    var reset := ResetCalls(address);
    CallViews(address, SOFT_RESET, [0x00], 0);
    CallViews(address, SOFT_RESET, [0x01], 0);
    TargetsAppend([reset[0]], [reset[1]]);
    assert reset == [reset[0]] + [reset[1]];
  }

  /** `p` status reads address 0x0010 `p` times and write nothing. */
  lemma {:induction false} PollViews(address: int, p: nat)
    ensures Targets(PollCalls(address, p)) == Copies(FIRMWARE_SYSTEM_STATUS, p)
    ensures Writes(PollCalls(address, p)) == []
  {
    if p > 0 {
      var c := PollCalls(address, p);
      assert c == [c[0]] + PollCalls(address, p - 1);
      TargetsAppend([c[0]], PollCalls(address, p - 1));
      CallViews(address, FIRMWARE_SYSTEM_STATUS, [], 1);
      PollViews(address, p - 1);
      assert Copies(FIRMWARE_SYSTEM_STATUS, p) == [FIRMWARE_SYSTEM_STATUS] + Copies(FIRMWARE_SYSTEM_STATUS, p - 1);
    }
  }

  /** init_sensor soft-resets register 0x0000 (0x00, then 0x01) before any
      other access, then reads 0x0010 once per poll, then addresses the
      configuration registers; the polls write nothing. Polling stops at the
      first status with bit 0 set and never makes init_sensor stop early. */
  lemma InitViews(fails: nat -> bool, rx: (nat, nat) -> byte, address: int, k: nat)
    ensures Targets(InitCalls(fails, rx, address, k))
      == [SOFT_RESET, SOFT_RESET] + Copies(FIRMWARE_SYSTEM_STATUS, Polls(fails, rx, k + 2)) + CONFIG_REGISTERS
    ensures Writes(InitCalls(fails, rx, address, k))
      == [Message(SOFT_RESET, [0x00]), Message(SOFT_RESET, [0x01])] + Writes(ConfigCalls(address))
  {
    var p := Polls(fails, rx, k + 2);
    ResetViews(address);
    PollViews(address, p);
    ConfigViews(address);
    TargetsAppend3(ResetCalls(address), PollCalls(address, p), ConfigCalls(address));
  }

  /** start_ranging clears the interrupt (0x01 to 0x0086) and then writes
      0x40 to 0x0087; stop_ranging writes 0x00 to 0x0087 and nothing else. */
  lemma RangingViews(address: int)
    ensures Targets(StartCalls(address)) == [SYSTEM_INTERRUPT_CLEAR, SYSTEM_MODE_START]
    ensures Writes(StartCalls(address)) == [Message(SYSTEM_INTERRUPT_CLEAR, [0x01]), Message(SYSTEM_MODE_START, [0x40])]
    ensures Targets(StopCalls(address)) == [SYSTEM_MODE_START]
    ensures Writes(StopCalls(address)) == [Message(SYSTEM_MODE_START, [0x00])]
  {
    var s := StartCalls(address);
    assert s == [s[0]] + [s[1]];
    CallViews(address, SYSTEM_INTERRUPT_CLEAR, [0x01], 0);
    CallViews(address, SYSTEM_MODE_START, [MODE_RANGING], 0);
    CallViews(address, SYSTEM_MODE_START, [MODE_STOP], 0);
    TargetsAppend([s[0]], [s[1]]);
  }

  /** With bit 0 of 0x0031 clear, get_distance makes that one read and returns None. */
  lemma GetDistanceNotReady(fails: nat -> bool, rx: (nat, nat) -> byte, address: int, k: nat)
    requires !Bit0(ByteAt(fails, rx, k, 0))
    ensures Targets(GetDistanceSpec(fails, rx, address, k).0) == [GPIO_TIO_HV_STATUS]
    ensures Writes(GetDistanceSpec(fails, rx, address, k).0) == []
    ensures GetDistanceSpec(fails, rx, address, k).1 == None
  {
    CallViews(address, GPIO_TIO_HV_STATUS, [], 1);
  }

  /** With bit 0 of 0x0031 set, get_distance reads 0x0031, then the two
      distance bytes at 0x0096, then writes 0x01 to 0x0086 exactly once. The
      range status register 0x0089 is never addressed. */
  lemma GetDistanceReady(fails: nat -> bool, rx: (nat, nat) -> byte, address: int, k: nat)
    requires Bit0(ByteAt(fails, rx, k, 0))
    ensures Targets(GetDistanceSpec(fails, rx, address, k).0) == [GPIO_TIO_HV_STATUS, RESULT_DISTANCE, SYSTEM_INTERRUPT_CLEAR]
    ensures Writes(GetDistanceSpec(fails, rx, address, k).0) == [Message(SYSTEM_INTERRUPT_CLEAR, [0x01])]
    ensures RESULT_RANGE_STATUS !in Targets(GetDistanceSpec(fails, rx, address, k).0)
  {
    var c := GetDistanceSpec(fails, rx, address, k).0;
    assert c == [c[0]] + [c[1]] + [c[2]];
    CallViews(address, GPIO_TIO_HV_STATUS, [], 1);
    CallViews(address, RESULT_DISTANCE, [], 2);
    CallViews(address, SYSTEM_INTERRUPT_CLEAR, [0x01], 0);
    TargetsAppend3([c[0]], [c[1]], [c[2]]);
  }

  /** get_distance returns a distance iff the data was ready and the
      big-endian word read from 0x0096 lies strictly between 20 and 8000;
      the distance is that word. */
  lemma GetDistanceResult(fails: nat -> bool, rx: (nat, nat) -> byte, address: int, k: nat)
    ensures GetDistanceSpec(fails, rx, address, k).1.Some?
      <==> Bit0(ByteAt(fails, rx, k, 0)) && 20 < DistanceAt(fails, rx, k + 1) < 8000
    ensures GetDistanceSpec(fails, rx, address, k).1.Some? ==>
      GetDistanceSpec(fails, rx, address, k).1.value
        == ByteAt(fails, rx, k + 1, 0) * 0x100 + ByteAt(fails, rx, k + 1, 1)
  {
  }

  /** The calls of open from call index `k`: SMBus(), then, when that did not
      raise, the presence probe `read_byte(address)`. */
  function OpenCalls(fails: nat -> bool, bus: int, address: int, k: nat): seq<BusCall>
  {
    if fails(k) then [OpenBus(bus)] else [OpenBus(bus), Probe(address)]
  }

  /** The driver of one sensor. `isOpen` is `self.bus is not None`: until
      open has created the SMBus object every access raises inside the
      driver's own try and is swallowed, so nothing reaches the bus and
      reads yield zeros. */
  class Sensor {
    const bus: int
    const address: int
    const fails: nat -> bool
    const rx: (nat, nat) -> byte
    var isOpen: bool
    var stopVariable: int
    var trace: seq<BusCall>

    constructor (bus: int, address: int, fails: nat -> bool, rx: (nat, nat) -> byte)
      ensures this.bus == bus && this.address == address && this.fails == fails && this.rx == rx
      ensures !isOpen && stopVariable == 0 && trace == []
    {
      this.bus, this.address, this.fails, this.rx := bus, address, fails, rx;
      isOpen, stopVariable, trace := false, 0, [];
    }

    /** True iff SMBus() succeeded and the presence probe did not raise. A
        failed probe leaves the bus open. */
    method Open() returns (found: bool)
      modifies this`isOpen, this`trace
      ensures trace == old(trace) + OpenCalls(fails, bus, address, |old(trace)|)
      ensures isOpen == (old(isOpen) || !fails(|old(trace)|))
      ensures found <==> !fails(|old(trace)|) && !fails(|old(trace)| + 1)
      ensures found ==> isOpen
    {
      var n := |trace|;
      trace := trace + [OpenBus(bus)];
      if fails(n) {
        return false;
      }
      isOpen := true;
      trace := trace + [Probe(address)];
      found := !fails(n + 1);
    }

    /** write_reg: one message, address bytes then data; errors are swallowed. */
    method WriteReg(reg: u16, data: Data)
      modifies this`trace
      ensures isOpen ==> trace == old(trace) + [WriteCall(address, reg, Payload(data))]
      ensures !isOpen ==> trace == old(trace)
    {
      if isOpen {
        var message := [HighByte(reg), LowByte(reg)] + Payload(data);
        trace := trace + [Send(address, message)];
      }
    }

    /** read_reg: `count` bytes, zeros when the transfer raised. */
    method ReadReg(reg: u16, count: nat) returns (r: seq<byte>)
      modifies this`trace
      ensures isOpen ==> trace == old(trace) + [ReadCall(address, reg, count)]
      ensures isOpen ==> r == Received(fails, rx, |old(trace)|, count)
      ensures !isOpen ==> trace == old(trace) && r == Zeros(count)
    {
      if !isOpen {
        return Zeros(count);
      }
      var n := |trace|;
      trace := trace + [SendReceive(address, [HighByte(reg), LowByte(reg)], count)];
      r := Received(fails, rx, n, count);
    }

    /** The two soft-reset writes. */
    method SoftReset()
      modifies this`trace
      ensures isOpen ==> trace == old(trace) + ResetCalls(address)
      ensures !isOpen ==> trace == old(trace)
    {
      WriteReg(SOFT_RESET, Bytes([0x00]));
      WriteReg(SOFT_RESET, Bytes([0x01]));
    }

    /** The firmware wait: at most 100 reads of 0x0010, stopping at the first
        with bit 0 set; a timeout goes unnoticed. */
    method WaitForFirmware()
      modifies this`trace
      ensures isOpen ==> trace == old(trace) + PollCalls(address, Polls(fails, rx, |old(trace)|))
      ensures !isOpen ==> trace == old(trace)
    {
      ghost var base := |trace|;
      var polls := 0;
      var ready := false;
      while polls < FIRMWARE_TRIES && !ready
        invariant 0 <= polls <= FIRMWARE_TRIES
        invariant isOpen ==> trace == old(trace) + PollCalls(address, polls)
        invariant !isOpen ==> trace == old(trace) && !ready
        invariant isOpen ==> forall j | 0 <= j < polls - 1 :: !ReadyAt(fails, rx, base, j)
        invariant isOpen && polls > 0 && !ready ==> !ReadyAt(fails, rx, base, polls - 1)
        invariant ready ==> polls > 0 && ReadyAt(fails, rx, base, polls - 1)
      {
        var status := ReadReg(FIRMWARE_SYSTEM_STATUS, 1);
        ready := Bit0(status[0]);
        assert PollCalls(address, polls) + [ReadCall(address, FIRMWARE_SYSTEM_STATUS, 1)] == PollCalls(address, polls + 1);
        polls := polls + 1;
      }
      if isOpen {
        if ready {
          FirstReadyIs(fails, rx, base, 0, polls - 1);
        } else {
          FirstReadyIs(fails, rx, base, 0, polls);
        }
      }
    }

    /** The first four configuration writes: the fast-mode-plus pad and the
        VCSEL periods and valid-phase limit. */
    method ConfigureMeasurement()
      modifies this`trace
      ensures isOpen ==> trace == old(trace) + ConfigCalls(address)[..4]
      ensures !isOpen ==> trace == old(trace)
    {
      WriteReg(PAD_I2C_FAST_MODE_PLUS, Bytes([0x01]));
      WriteReg(RANGE_CONFIG_VCSEL_PERIOD_A, Bytes([0x09]));
      WriteReg(RANGE_CONFIG_VCSEL_PERIOD_B, Bytes([0x0D]));
      WriteReg(RANGE_CONFIG_VALID_PHASE_HIGH, Bytes([0xC8]));
    }

    /** The next four: the SD windows and initial phases. */
    method ConfigureWindow()
      modifies this`trace
      ensures isOpen ==> trace == old(trace) + ConfigCalls(address)[4..8]
      ensures !isOpen ==> trace == old(trace)
    {
      WriteReg(SD_CONFIG_WOI_SD0, Bytes([0x00, 0x01]));
      WriteReg(SD_CONFIG_WOI_SD1, Bytes([0x00, 0x01]));
      WriteReg(SD_CONFIG_INITIAL_PHASE_SD0, Bytes([0x00]));
      WriteReg(SD_CONFIG_INITIAL_PHASE_SD1, Bytes([0x00]));
    }

    /** The last three: the timing budget and the interrupt configuration. */
    method ConfigureTiming()
      modifies this`trace
      ensures isOpen ==> trace == old(trace) + ConfigCalls(address)[8..]
      ensures !isOpen ==> trace == old(trace)
    {
      WriteReg(RANGE_CONFIG_TIMEOUT_MACROP_A, Bytes([0x00, 0xD6]));
      WriteReg(RANGE_CONFIG_TIMEOUT_MACROP_B, Bytes([0x00, 0xD6]));
      WriteReg(SYSTEM_INTERRUPT_CONFIG_GPIO, Bytes([0x01]));
    }

    /** The configuration writes, in source order. */
    method Configure()
      modifies this`trace
      ensures isOpen ==> trace == old(trace) + ConfigCalls(address)
      ensures !isOpen ==> trace == old(trace)
    {
      ConfigureMeasurement();
      ConfigureWindow();
      ConfigureTiming();
      var c := ConfigCalls(address);
      assert c == c[..4] + c[4..8] + c[8..];
    }

    /** init_sensor: soft reset, firmware wait, configuration. */
    method InitSensor()
      modifies this`trace
      ensures isOpen ==> trace == old(trace) + InitCalls(fails, rx, address, |old(trace)|)
      ensures !isOpen ==> trace == old(trace)
    {
      ghost var k := |trace|;
      SoftReset();
      ghost var l1 := trace;
      WaitForFirmware();
      ghost var l2 := trace;
      Configure();
      if isOpen {
        assert |l1| == k + 2;
        assert l2 == old(trace) + ResetCalls(address) + PollCalls(address, Polls(fails, rx, k + 2));
      }
    }

    /** start_ranging: `stop_variable = 0`, clear, then 0x40 to 0x0087. */
    method StartRanging()
      modifies this`trace, this`stopVariable
      ensures isOpen ==> trace == old(trace) + StartCalls(address)
      ensures !isOpen ==> trace == old(trace)
      ensures stopVariable == 0
    {
      stopVariable := 0;
      WriteReg(SYSTEM_INTERRUPT_CLEAR, Bytes([0x01]));
      WriteReg(SYSTEM_MODE_START, Bytes([MODE_RANGING]));
    }

    /** stop_ranging: 0x00 to 0x0087, then `stop_variable = 1`. Its effect
        does not depend on the state, so calling it again repeats it exactly. */
    method StopRanging()
      modifies this`trace, this`stopVariable
      ensures isOpen ==> trace == old(trace) + StopCalls(address)
      ensures !isOpen ==> trace == old(trace)
      ensures stopVariable == 1
    {
      WriteReg(SYSTEM_MODE_START, Bytes([MODE_STOP]));
      stopVariable := 1;
    }

    /** get_distance: ready check, distance read, interrupt clear, window. */
    method GetDistance() returns (distance: Option<int>)
      modifies this`trace
      ensures isOpen ==> trace == old(trace) + GetDistanceSpec(fails, rx, address, |old(trace)|).0
      ensures isOpen ==> distance == GetDistanceSpec(fails, rx, address, |old(trace)|).1
      ensures !isOpen ==> trace == old(trace) && distance == None
    {
      var gpio := ReadReg(GPIO_TIO_HV_STATUS, 1);
      if !Bit0(gpio[0]) {
        return None;
      }
      var result := ReadReg(RESULT_DISTANCE, 2);
      var d := Word(result[0], result[1]);
      WriteReg(SYSTEM_INTERRUPT_CLEAR, Bytes([0x01]));
      distance := if InWindow(d) then Some(d) else None;
    }

    /** close: stop ranging and close the bus, only when it was opened. */
    method Close()
      modifies this`trace, this`stopVariable
      ensures isOpen ==> trace == old(trace) + StopCalls(address) + [CloseBus]
      ensures isOpen ==> stopVariable == 1
      ensures !isOpen ==> trace == old(trace) && stopVariable == old(stopVariable)
    {
      if isOpen {
        StopRanging();
        trace := trace + [CloseBus];
      }
    }
  }
}
