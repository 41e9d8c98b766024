/** The Python wiringPi driver (class VL53L1XWiringPi in vl53l1x_wiringpi.py).

    Every register helper wraps its wiringPi calls in one `try` whose
    `except` swallows the error: a write just stops, a read returns 0. So a
    failing call cuts its own access short but never the caller. The object
    logs, in `log`, one entry per `try` block: the wiringPi calls the block
    issued, up to and including the first that raised. The constant `reply`
    is the device and the library together: `reply(k, j)` is what the j-th
    call of the k-th block does, return a value or raise. */
module WiringPiPy {
  import opened Bits
  import opened Registers
  import opened WiringPi
  import opened Optional

  /** What one wiringPi call does: return a value or raise an exception. */
  datatype Reply = Returned(value: int) | Raised

  /** Every call of the blocks with index in [from, to) returns (no helper
      issues more than three calls). */
  predicate Healthy(reply: (nat, nat) -> Reply, from: nat, to: nat)
  {
    forall k, j | from <= k < to && 0 <= j < 3 :: reply(k, j).Returned?
  }

  // ---------------------------------------------------------------------
  // The register helpers, one `try` block each.

  /** The calls write_reg8 issues as block `k`: the address phase, then the
      data byte unless the address phase raised. */
  function Write8Try(reply: (nat, nat) -> Reply, k: nat, reg: u16, value: int): seq<PiCall>
  {
    if reply(k, 0).Raised? then [Select(reg)] else Write8Calls(reg, value)
  }

  /** The calls write_reg16 issues as block `k`: it stops at the first call that raises. */
  function Write16Try(reply: (nat, nat) -> Reply, k: nat, reg: u16, value: int): seq<PiCall>
  {
    if reply(k, 0).Raised? then [Select(reg)]
    else if reply(k, 1).Raised? then [Select(reg), Write(HighByte(value))]
    else Write16Calls(reg, value)
  }

  /** The calls read_reg8 issues as block `k`. */
  function Read8Try(reply: (nat, nat) -> Reply, k: nat, reg: u16): seq<PiCall>
  {
    if reply(k, 0).Raised? then [Select(reg)] else Read8Calls(reg)
  }

  /** The calls read_reg16 issues as block `k`: it stops at the first call that raises. */
  function Read16Try(reply: (nat, nat) -> Reply, k: nat, reg: u16): seq<PiCall>
  {
    if reply(k, 0).Raised? then [Select(reg)]
    else if reply(k, 1).Raised? then [Select(reg), Read]
    else Read16Calls(reg)
  }

  /** read_reg8's result as block `k`: the read masked to a byte, or 0 when
      the address phase or the read raised. */
  function Read8Value(reply: (nat, nat) -> Reply, k: nat): byte
  {
    if reply(k, 0).Raised? || reply(k, 1).Raised? then 0
    else LowByte(reply(k, 1).value)
  }

  /** read_reg16's result as block `k`: `(high << 8) | low`, or 0 when any
      of its three calls raised. */
  function Read16Value(reply: (nat, nat) -> Reply, k: nat): u16
  {
    if reply(k, 0).Raised? || reply(k, 1).Raised? || reply(k, 2).Raised? then 0
    else Word(LowByte(reply(k, 1).value), LowByte(reply(k, 2).value))
  }

  /** However write_reg8 fails, it selects exactly its register, sends its
      one data byte only when the address phase returned, and reads nothing. */
  lemma Write8TryViews(reply: (nat, nat) -> Reply, k: nat, reg: u16, value: int)
    ensures Selected(Write8Try(reply, k, reg, value)) == [reg]
    ensures Sent(Write8Try(reply, k, reg, value)) == (if reply(k, 0).Raised? then [] else [value])
    ensures Reads(Write8Try(reply, k, reg, value)) == 0
  {
    SelectSelects(reg);
    Write8Views(reg, value);
  }

  /** However write_reg16 fails, it selects exactly its register and sends a
      prefix of the value's big-endian bytes, high byte first. */
  lemma Write16TryViews(reply: (nat, nat) -> Reply, k: nat, reg: u16, value: int)
    ensures Selected(Write16Try(reply, k, reg, value)) == [reg]
    ensures Sent(Write16Try(reply, k, reg, value))
      == [HighByte(value), LowByte(value)][..(if reply(k, 0).Raised? then 0 else if reply(k, 1).Raised? then 1 else 2)]
    ensures Reads(Write16Try(reply, k, reg, value)) == 0
  {
    SelectSelects(reg);
    Write16Views(reg, value);
    if reply(k, 0).Returned? && reply(k, 1).Raised? {
      SelectedAppend([Select(reg)], [Write(HighByte(value))]);
    }
  }

  /** However read_reg8 fails, it selects exactly its register and writes nothing. */
  lemma Read8TryViews(reply: (nat, nat) -> Reply, k: nat, reg: u16)
    ensures Selected(Read8Try(reply, k, reg)) == [reg]
    ensures Sent(Read8Try(reply, k, reg)) == []
    ensures Reads(Read8Try(reply, k, reg)) == (if reply(k, 0).Raised? then 0 else 1)
  {
    SelectSelects(reg);
    Read8Views(reg);
  }

  /** However read_reg16 fails, it selects exactly its register and writes nothing. */
  lemma Read16TryViews(reply: (nat, nat) -> Reply, k: nat, reg: u16)
    ensures Selected(Read16Try(reply, k, reg)) == [reg]
    ensures Sent(Read16Try(reply, k, reg)) == []
  {
    SelectSelects(reg);
    Read16Views(reg);
    if reply(k, 0).Returned? && reply(k, 1).Raised? {
      SelectedAppend([Select(reg)], [Read]);
    }
  }

  /** The wiringPi calls of a run of blocks, in order. */
  function Wire(blocks: seq<seq<PiCall>>): seq<PiCall>
  {
    if blocks == [] then [] else Wire(blocks[..|blocks| - 1]) + blocks[|blocks| - 1]
  }

  /** When every block selects one register, the run selects those registers in block order. */
  lemma {:induction false} SelectedWire(blocks: seq<seq<PiCall>>, regs: seq<int>)
    requires |blocks| == |regs|
    requires forall i | 0 <= i < |blocks| :: Selected(blocks[i]) == [regs[i]]
    ensures Selected(Wire(blocks)) == regs
  {
    if blocks != [] {
      var m := |blocks| - 1;
      SelectedWire(blocks[..m], regs[..m]);
      SelectedAppend(Wire(blocks[..m]), blocks[m]);
      assert regs == regs[..m] + [regs[m]];
    }
  }

  /** Two, three or four blocks that select one register each select those registers in order. */
  lemma SelectedWire2(a: seq<PiCall>, b: seq<PiCall>, r1: int, r2: int)
    requires Selected(a) == [r1] && Selected(b) == [r2]
    ensures Selected(Wire([a, b])) == [r1, r2]
  {
    SelectedWire([a, b], [r1, r2]);
  }

  lemma SelectedWire3(a: seq<PiCall>, b: seq<PiCall>, c: seq<PiCall>, r1: int, r2: int, r3: int)
    requires Selected(a) == [r1] && Selected(b) == [r2] && Selected(c) == [r3]
    ensures Selected(Wire([a, b, c])) == [r1, r2, r3]
  {
    SelectedWire([a, b, c], [r1, r2, r3]);
  }

  lemma SelectedWire4(a: seq<PiCall>, b: seq<PiCall>, c: seq<PiCall>, d: seq<PiCall>, r1: int, r2: int, r3: int, r4: int)
    requires Selected(a) == [r1] && Selected(b) == [r2] && Selected(c) == [r3] && Selected(d) == [r4]
    ensures Selected(Wire([a, b, c, d])) == [r1, r2, r3, r4]
  {
    SelectedWire([a, b, c, d], [r1, r2, r3, r4]);
  }

  /** The calls of one block, and of two blocks in a row. */
  lemma WireShort(a: seq<PiCall>, b: seq<PiCall>)
    ensures Wire([a]) == a
    ensures Wire([a, b]) == a + b
  {
    assert [a][..0] == [];
    assert [a, b][..1] == [a];
  }

  /** The bytes four blocks send are those of each block, in order. */
  lemma SentWire4(a: seq<PiCall>, b: seq<PiCall>, c: seq<PiCall>, d: seq<PiCall>)
    ensures Sent(Wire([a, b, c, d])) == Sent(a) + Sent(b) + Sent(c) + Sent(d)
  {
    assert [a, b, c, d][..3] == [a, b, c];
    assert [a, b, c][..2] == [a, b];
    WireShort(a, b);
    assert Wire([a, b, c, d]) == a + b + c + d;
    SentOfAppend(a + b + c, d);
    SentOfAppend(a + b, c);
    SentOfAppend(a, b);
  }

  /** The calls of two runs of blocks, one after the other. */
  lemma {:induction false} WireAppend(x: seq<seq<PiCall>>, y: seq<seq<PiCall>>)
    ensures Wire(x + y) == Wire(x) + Wire(y)
    decreases |y|
  {
    if y == [] {
      assert x + y == x;
    } else {
      var m := |y| - 1;
      assert (x + y)[..|x + y| - 1] == x + y[..m];
      WireAppend(x, y[..m]);
    }
  }

  /** The registers two runs of blocks select, one after the other. */
  lemma SelectedConcat(x: seq<seq<PiCall>>, y: seq<seq<PiCall>>)
    ensures Selected(Wire(x + y)) == Selected(Wire(x)) + Selected(Wire(y))
  {
    WireAppend(x, y);
    SelectedAppend(Wire(x), Wire(y));
  }

  // ---------------------------------------------------------------------
  // The blocks of the driver's operations, from block index `k`.

  /** The soft reset of init_sensor: 0x00, then 0x01, to SOFT_RESET. */
  function ResetBlocks(reply: (nat, nat) -> Reply, k: nat): (r: seq<seq<PiCall>>)
    ensures |r| == 2
  {
    [Write8Try(reply, k, SOFT_RESET, 0x00), Write8Try(reply, k + 1, SOFT_RESET, 0x01)]
  }

  /** The j-th firmware-status read of the wait that starts at block `base` has bit 0 set. */
  predicate ReadyAt(reply: (nat, nat) -> Reply, base: nat, j: nat)
  {
    Bit0(Read8Value(reply, base + j))
  }

  /** The index of the first status read at or after `i` with bit 0 set, or
      FIRMWARE_TRIES when there is none: where `for i in range(100)` breaks. */
  function FirstReady(reply: (nat, nat) -> Reply, base: nat, i: nat): (r: nat)
    requires i <= FIRMWARE_TRIES
    ensures i <= r <= FIRMWARE_TRIES
    ensures forall j | i <= j < r :: !ReadyAt(reply, base, j)
    ensures r < FIRMWARE_TRIES ==> ReadyAt(reply, base, r)
    decreases FIRMWARE_TRIES - i
  {
    if i == FIRMWARE_TRIES then i
    else if ReadyAt(reply, base, i) then i
    else FirstReady(reply, base, i + 1)
  }

  /** FirstReady is the one index from `i` on that has only unready reads
      before it and is itself ready or the end of the wait. */
  lemma {:induction false} FirstReadyIs(reply: (nat, nat) -> Reply, base: nat, i: nat, r: nat)
    requires i <= r <= FIRMWARE_TRIES
    requires forall j | i <= j < r :: !ReadyAt(reply, base, j)
    requires r < FIRMWARE_TRIES ==> ReadyAt(reply, base, r)
    ensures FirstReady(reply, base, i) == r
    decreases r - i
  {
    if i < r {
      FirstReadyIs(reply, base, i + 1, r);
    }
  }

  /** The number of FIRMWARE_SYSTEM_STATUS reads of the wait that starts at
      block `base`: up to and including the first with bit 0 set, all 100
      when none has. */
  function Polls(reply: (nat, nat) -> Reply, base: nat): nat
  {
    var r := FirstReady(reply, base, 0);
    if r < FIRMWARE_TRIES then r + 1 else r
  }

  /** The wait reads at most 100 times, stops right after the first read
      with bit 0 set, and reads all 100 times only when no read before the
      last had it. A read that raised counts as not ready (it returned 0). */
  lemma PollsBound(reply: (nat, nat) -> Reply, base: nat)
    ensures 1 <= Polls(reply, base) <= FIRMWARE_TRIES
    ensures forall j | 0 <= j < Polls(reply, base) - 1 :: !ReadyAt(reply, base, j)
    ensures Polls(reply, base) < FIRMWARE_TRIES ==> ReadyAt(reply, base, Polls(reply, base) - 1)
    ensures (exists j | 0 <= j < FIRMWARE_TRIES :: ReadyAt(reply, base, j))
      <==> ReadyAt(reply, base, Polls(reply, base) - 1)
  {
    var r := FirstReady(reply, base, 0);
    if r == FIRMWARE_TRIES {
      assert forall j | 0 <= j < FIRMWARE_TRIES :: !ReadyAt(reply, base, j);
    }
  }

  /** `p` firmware-status reads, one block each. */
  function WaitBlocks(reply: (nat, nat) -> Reply, base: nat, p: nat): (w: seq<seq<PiCall>>)
    ensures |w| == p
  {
    seq(p, j requires 0 <= j < p => Read8Try(reply, base + j, FIRMWARE_SYSTEM_STATUS))
  }

  /** One more pass of the wait loop appends one more status read. */
  lemma WaitBlocksStep(reply: (nat, nat) -> Reply, base: nat, p: nat)
    ensures WaitBlocks(reply, base, p + 1) == WaitBlocks(reply, base, p) + [Read8Try(reply, base + p, FIRMWARE_SYSTEM_STATUS)]
  {
    assert WaitBlocks(reply, base, p + 1)[p] == Read8Try(reply, base + p, FIRMWARE_SYSTEM_STATUS);
  }

  /** The laser-period and phase writes that open the configuration. */
  function VcselBlocks(reply: (nat, nat) -> Reply, k: nat): seq<seq<PiCall>>
  {
    [Write8Try(reply, k, RANGE_CONFIG_VCSEL_PERIOD_A, 0x09),
     Write8Try(reply, k + 1, RANGE_CONFIG_VCSEL_PERIOD_B, 0x0D),
     Write8Try(reply, k + 2, RANGE_CONFIG_VALID_PHASE_HIGH, 0xC8)]
  }

  /** The detection-window writes. */
  function WindowBlocks(reply: (nat, nat) -> Reply, k: nat): seq<seq<PiCall>>
  {
    [Write16Try(reply, k, SD_CONFIG_WOI_SD0, 0x0001),
     Write16Try(reply, k + 1, SD_CONFIG_WOI_SD1, 0x0001),
     Write8Try(reply, k + 2, SD_CONFIG_INITIAL_PHASE_SD0, 0x00),
     Write8Try(reply, k + 3, SD_CONFIG_INITIAL_PHASE_SD1, 0x00)]
  }

  /** The timing-budget writes. */
  function TimingBlocks(reply: (nat, nat) -> Reply, k: nat): seq<seq<PiCall>>
  {
    [Write16Try(reply, k, RANGE_CONFIG_TIMEOUT_MACROP_A, 0x00D6),
     Write16Try(reply, k + 1, RANGE_CONFIG_TIMEOUT_MACROP_B, 0x00D6)]
  }

  /** The interrupt writes that end the configuration, INTERRUPT_CLEAR last. */
  function InterruptBlocks(reply: (nat, nat) -> Reply, k: nat): seq<seq<PiCall>>
  {
    [Write8Try(reply, k, SYSTEM_INTERRUPT_CONFIG_GPIO, 0x01),
     Write8Try(reply, k + 1, SYSTEM_INTERRUPT_CLEAR, 0x01)]
  }

  /** The configuration of init_sensor, in source order. */
  function ConfigBlocks(reply: (nat, nat) -> Reply, k: nat): seq<seq<PiCall>>
  {
    VcselBlocks(reply, k) + WindowBlocks(reply, k + 3) + TimingBlocks(reply, k + 7) + InterruptBlocks(reply, k + 9)
  }

  /** The registers each group of the configuration addresses, in order. */
  const VCSEL_REGISTERS: seq<int> :=
    [RANGE_CONFIG_VCSEL_PERIOD_A, RANGE_CONFIG_VCSEL_PERIOD_B, RANGE_CONFIG_VALID_PHASE_HIGH]
  const WINDOW_REGISTERS: seq<int> :=
    [SD_CONFIG_WOI_SD0, SD_CONFIG_WOI_SD1, SD_CONFIG_INITIAL_PHASE_SD0, SD_CONFIG_INITIAL_PHASE_SD1]
  const TIMING_REGISTERS: seq<int> := [RANGE_CONFIG_TIMEOUT_MACROP_A, RANGE_CONFIG_TIMEOUT_MACROP_B]
  const INTERRUPT_REGISTERS: seq<int> := [SYSTEM_INTERRUPT_CONFIG_GPIO, SYSTEM_INTERRUPT_CLEAR]

  /** The eleven registers the configuration addresses, in order. */
  const CONFIG_REGISTERS: seq<int> := VCSEL_REGISTERS + WINDOW_REGISTERS + TIMING_REGISTERS + INTERRUPT_REGISTERS

  /** The configuration's calls when none raises. */
  const CONFIG_CALLS: seq<seq<PiCall>> := [
    Write8Calls(RANGE_CONFIG_VCSEL_PERIOD_A, 0x09),
    Write8Calls(RANGE_CONFIG_VCSEL_PERIOD_B, 0x0D),
    Write8Calls(RANGE_CONFIG_VALID_PHASE_HIGH, 0xC8),
    Write16Calls(SD_CONFIG_WOI_SD0, 0x0001),
    Write16Calls(SD_CONFIG_WOI_SD1, 0x0001),
    Write8Calls(SD_CONFIG_INITIAL_PHASE_SD0, 0x00),
    Write8Calls(SD_CONFIG_INITIAL_PHASE_SD1, 0x00),
    Write16Calls(RANGE_CONFIG_TIMEOUT_MACROP_A, 0x00D6),
    Write16Calls(RANGE_CONFIG_TIMEOUT_MACROP_B, 0x00D6),
    Write8Calls(SYSTEM_INTERRUPT_CONFIG_GPIO, 0x01),
    Write8Calls(SYSTEM_INTERRUPT_CLEAR, 0x01)]

  /** init_sensor: reset, firmware wait, then the configuration whatever the wait found. */
  function InitBlocks(reply: (nat, nat) -> Reply, k: nat): seq<seq<PiCall>>
  {
    PhaseBlocks(reply, k, Polls(reply, k + 2))
  }

  /** init_sensor's blocks, at the block indices where each phase begins. */
  lemma InitBlocksSplit(reply: (nat, nat) -> Reply, k: nat)
    ensures InitBlocks(reply, k)
      == ResetBlocks(reply, k) + WaitBlocks(reply, k + 2, Polls(reply, k + 2)) + ConfigBlocks(reply, k + 2 + Polls(reply, k + 2))
  {
  }

  /** A log extended by a reset, by a firmware wait and by the configuration,
      each starting at the block index where the previous one ended, is
      extended by init_sensor's blocks. */
  lemma InitLog(reply: (nat, nat) -> Reply, l0: seq<seq<PiCall>>, l1: seq<seq<PiCall>>,
                l2: seq<seq<PiCall>>, l3: seq<seq<PiCall>>)
    requires l1 == l0 + ResetBlocks(reply, |l0|)
    requires l2 == l1 + WaitBlocks(reply, |l1|, Polls(reply, |l1|))
    requires l3 == l2 + ConfigBlocks(reply, |l2|)
    ensures l3 == l0 + InitBlocks(reply, |l0|)
  {
    var k := |l0|;
    var p := Polls(reply, k + 2);
    var reset, wait, config := ResetBlocks(reply, k), WaitBlocks(reply, k + 2, p), ConfigBlocks(reply, k + 2 + p);
    InitBlocksSplit(reply, k);
    SamePhases(reply, |l1|, k + 2, |l2|, k + 2 + p);
    Chain3(l0, l1, l2, l3, reset, wait, config, InitBlocks(reply, k));
  }

  /** The wait and the configuration depend on where they begin and nothing else. */
  lemma SamePhases(reply: (nat, nat) -> Reply, a: nat, a': nat, b: nat, b': nat)
    requires a == a' && b == b'
    ensures WaitBlocks(reply, a, Polls(reply, a)) == WaitBlocks(reply, a', Polls(reply, a'))
    ensures ConfigBlocks(reply, b) == ConfigBlocks(reply, b')
  {
  }

  /** A log extended three times holds the three extensions in a row. */
  lemma Chain3<T>(l0: seq<T>, l1: seq<T>, l2: seq<T>, l3: seq<T>, a: seq<T>, b: seq<T>, c: seq<T>, all: seq<T>)
    requires l1 == l0 + a && l2 == l1 + b && l3 == l2 + c && all == a + b + c
    ensures l3 == l0 + all
  {
  }

  /** A reset, a wait of `p` polls, then the configuration. */
  function PhaseBlocks(reply: (nat, nat) -> Reply, k: nat, p: nat): seq<seq<PiCall>>
  {
    ResetBlocks(reply, k) + WaitBlocks(reply, k + 2, p) + ConfigBlocks(reply, k + 2 + p)
  }

  /** start_ranging: clear the interrupt, then 0x40 to SYSTEM_MODE_START. */
  function StartBlocks(reply: (nat, nat) -> Reply, k: nat): seq<seq<PiCall>>
  {
    [Write8Try(reply, k, SYSTEM_INTERRUPT_CLEAR, 0x01), Write8Try(reply, k + 1, SYSTEM_MODE_START, MODE_RANGING)]
  }

  /** stop_ranging: 0x00 to SYSTEM_MODE_START. */
  function StopBlocks(reply: (nat, nat) -> Reply, k: nat): seq<seq<PiCall>>
  {
    [Write8Try(reply, k, SYSTEM_MODE_START, MODE_STOP)]
  }

  /** get_distance: the blocks it logs and its result. */
  function GetDistanceSpec(reply: (nat, nat) -> Reply, k: nat): (seq<seq<PiCall>>, Option<int>)
  {
    var ready := Read8Try(reply, k, GPIO_TIO_HV_STATUS);
    if !Bit0(Read8Value(reply, k)) then ([ready], None)
    else
      var d := Read16Value(reply, k + 2);
      ([ready,
        Read8Try(reply, k + 1, RESULT_RANGE_STATUS),
        Read16Try(reply, k + 2, RESULT_DISTANCE),
        Write8Try(reply, k + 3, SYSTEM_INTERRUPT_CLEAR, 0x01)],
       if Accepted(d, Read8Value(reply, k + 1)) then Some(d) else None)
  }

  /** open's own `try` block: wiringPiSetup, then wiringPiI2CSetup unless the first raised. */
  function OpenTry(reply: (nat, nat) -> Reply, k: nat, address: int): seq<PiCall>
  {
    if reply(k, 0).Raised? then [Setup] else [Setup, I2CSetup(address)]
  }

  /** open: the blocks it logs, its result, and the handle it stores
      (`None` when wiringPiI2CSetup did not return). */
  function OpenSpec(reply: (nat, nat) -> Reply, k: nat, address: int): (seq<seq<PiCall>>, bool, Option<int>)
  {
    var setup := OpenTry(reply, k, address);
    if reply(k, 0).Raised? || reply(k, 1).Raised? then ([setup], false, None)
    else
      var handle := reply(k, 1).value;
      if handle < 0 then ([setup], false, Some(handle))
      else ([setup, Read16Try(reply, k + 1, IDENTIFICATION_MODEL_ID)], Read16Value(reply, k + 1) == MODEL_ID, Some(handle))
  }

  // ---------------------------------------------------------------------
  // What the operations put on the wire.

  /** open returns true exactly when both setup calls returned, the handle
      is non-negative and the model ID read gives 0xEACC; then the calls are
      exactly the two setups and one complete 16-bit read of 0x010F. */
  lemma OpenResult(reply: (nat, nat) -> Reply, k: nat, address: int)
    ensures var (blocks, ok, handle) := OpenSpec(reply, k, address);
      && (ok <==> reply(k, 0).Returned? && reply(k, 1).Returned? && reply(k, 1).value >= 0
                  && Read16Value(reply, k + 1) == MODEL_ID)
      && (ok ==> handle == Some(reply(k, 1).value) && handle.value >= 0
                 && Wire(blocks) == [Setup, I2CSetup(address)] + Read16Calls(IDENTIFICATION_MODEL_ID))
  {
    var (blocks, ok, handle) := OpenSpec(reply, k, address);
    if ok {
      assert Read16Value(reply, k + 1) != 0;
      WireShort([Setup, I2CSetup(address)], Read16Calls(IDENTIFICATION_MODEL_ID));
    }
  }

  /** The laser-period and phase writes address their registers in order, whichever calls raise. */
  lemma VcselSelects(reply: (nat, nat) -> Reply, k: nat)
    ensures Selected(Wire(VcselBlocks(reply, k))) == VCSEL_REGISTERS
  {
    Write8TryViews(reply, k, RANGE_CONFIG_VCSEL_PERIOD_A, 0x09);
    Write8TryViews(reply, k + 1, RANGE_CONFIG_VCSEL_PERIOD_B, 0x0D);
    Write8TryViews(reply, k + 2, RANGE_CONFIG_VALID_PHASE_HIGH, 0xC8);
    SelectedWire3(Write8Try(reply, k, RANGE_CONFIG_VCSEL_PERIOD_A, 0x09),
      Write8Try(reply, k + 1, RANGE_CONFIG_VCSEL_PERIOD_B, 0x0D),
      Write8Try(reply, k + 2, RANGE_CONFIG_VALID_PHASE_HIGH, 0xC8),
      RANGE_CONFIG_VCSEL_PERIOD_A, RANGE_CONFIG_VCSEL_PERIOD_B, RANGE_CONFIG_VALID_PHASE_HIGH);
  }

  /** The detection-window writes address their registers in order, whichever calls raise. */
  lemma WindowSelects(reply: (nat, nat) -> Reply, k: nat)
    ensures Selected(Wire(WindowBlocks(reply, k))) == WINDOW_REGISTERS
  {
    Write16TryViews(reply, k, SD_CONFIG_WOI_SD0, 0x0001);
    Write16TryViews(reply, k + 1, SD_CONFIG_WOI_SD1, 0x0001);
    Write8TryViews(reply, k + 2, SD_CONFIG_INITIAL_PHASE_SD0, 0x00);
    Write8TryViews(reply, k + 3, SD_CONFIG_INITIAL_PHASE_SD1, 0x00);
    SelectedWire4(Write16Try(reply, k, SD_CONFIG_WOI_SD0, 0x0001),
      Write16Try(reply, k + 1, SD_CONFIG_WOI_SD1, 0x0001),
      Write8Try(reply, k + 2, SD_CONFIG_INITIAL_PHASE_SD0, 0x00),
      Write8Try(reply, k + 3, SD_CONFIG_INITIAL_PHASE_SD1, 0x00),
      SD_CONFIG_WOI_SD0, SD_CONFIG_WOI_SD1, SD_CONFIG_INITIAL_PHASE_SD0, SD_CONFIG_INITIAL_PHASE_SD1);
  }

  /** The timing and interrupt writes address their registers in order, whichever calls raise. */
  lemma TimingInterruptSelects(reply: (nat, nat) -> Reply, k: nat)
    ensures Selected(Wire(TimingBlocks(reply, k))) == TIMING_REGISTERS
    ensures Selected(Wire(InterruptBlocks(reply, k))) == INTERRUPT_REGISTERS
  {
    Write16TryViews(reply, k, RANGE_CONFIG_TIMEOUT_MACROP_A, 0x00D6);
    Write16TryViews(reply, k + 1, RANGE_CONFIG_TIMEOUT_MACROP_B, 0x00D6);
    Write8TryViews(reply, k, SYSTEM_INTERRUPT_CONFIG_GPIO, 0x01);
    Write8TryViews(reply, k + 1, SYSTEM_INTERRUPT_CLEAR, 0x01);
    SelectedWire2(Write16Try(reply, k, RANGE_CONFIG_TIMEOUT_MACROP_A, 0x00D6),
      Write16Try(reply, k + 1, RANGE_CONFIG_TIMEOUT_MACROP_B, 0x00D6),
      RANGE_CONFIG_TIMEOUT_MACROP_A, RANGE_CONFIG_TIMEOUT_MACROP_B);
    SelectedWire2(Write8Try(reply, k, SYSTEM_INTERRUPT_CONFIG_GPIO, 0x01),
      Write8Try(reply, k + 1, SYSTEM_INTERRUPT_CLEAR, 0x01),
      SYSTEM_INTERRUPT_CONFIG_GPIO, SYSTEM_INTERRUPT_CLEAR);
  }

  /** The configuration addresses its eleven registers in source order,
      INTERRUPT_CLEAR last, whichever calls raise. */
  lemma ConfigSelects(reply: (nat, nat) -> Reply, k: nat)
    ensures Selected(Wire(ConfigBlocks(reply, k))) == CONFIG_REGISTERS
  {
    var v, w := VcselBlocks(reply, k), WindowBlocks(reply, k + 3);
    var t, i := TimingBlocks(reply, k + 7), InterruptBlocks(reply, k + 9);
    VcselSelects(reply, k);
    WindowSelects(reply, k + 3);
    TimingInterruptSelects(reply, k + 7);
    TimingInterruptSelects(reply, k + 9);
    SelectedConcat(v, w);
    SelectedConcat(v + w, t);
    SelectedConcat(v + w + t, i);
  }

  /** With no exception the configuration issues every call of every write. */
  lemma ConfigHealthy(reply: (nat, nat) -> Reply, k: nat)
    requires Healthy(reply, k, k + 11)
    ensures ConfigBlocks(reply, k) == CONFIG_CALLS
  {
  }

  /** The soft reset addresses SOFT_RESET twice, whichever calls raise; it
      sends 0x00 and then 0x01, each unless its own address phase raised,
      and reads nothing. */
  lemma ResetSelects(reply: (nat, nat) -> Reply, k: nat)
    ensures Selected(Wire(ResetBlocks(reply, k))) == [SOFT_RESET, SOFT_RESET]
    ensures Sent(Wire(ResetBlocks(reply, k)))
      == (if reply(k, 0).Raised? then [] else [0x00]) + (if reply(k + 1, 0).Raised? then [] else [0x01])
    ensures Healthy(reply, k, k + 2) ==> Sent(Wire(ResetBlocks(reply, k))) == [0x00, 0x01]
    ensures Reads(Wire(ResetBlocks(reply, k))) == 0
  {
    var b := ResetBlocks(reply, k);
    Write8TryViews(reply, k, SOFT_RESET, 0x00);
    Write8TryViews(reply, k + 1, SOFT_RESET, 0x01);
    WireShort(b[0], b[1]);
    SelectedAppend(b[0], b[1]);
  }

  /** A wait of `p` polls addresses FIRMWARE_SYSTEM_STATUS `p` times, whichever calls raise. */
  lemma WaitSelects(reply: (nat, nat) -> Reply, base: nat, p: nat)
    ensures Selected(Wire(WaitBlocks(reply, base, p))) == Copies(FIRMWARE_SYSTEM_STATUS, p)
  {
    var wait, regs := WaitBlocks(reply, base, p), Copies(FIRMWARE_SYSTEM_STATUS, p);
    forall j | 0 <= j < p ensures Selected(wait[j]) == [regs[j]] {
      Read8TryViews(reply, base + j, FIRMWARE_SYSTEM_STATUS);
    }
    SelectedWire(wait, regs);
  }

  /** init_sensor addresses SOFT_RESET twice, then FIRMWARE_SYSTEM_STATUS
      once per poll, then the whole configuration, whether or not the
      firmware ever reported ready. */
  lemma InitSelects(reply: (nat, nat) -> Reply, k: nat)
    ensures Selected(Wire(InitBlocks(reply, k)))
      == [SOFT_RESET, SOFT_RESET] + Copies(FIRMWARE_SYSTEM_STATUS, Polls(reply, k + 2)) + CONFIG_REGISTERS
  {
    PhasesSelect(reply, k, Polls(reply, k + 2));
  }

  /** The registers of a reset, then a wait of `p` polls. */
  lemma ResetWaitSelect(reply: (nat, nat) -> Reply, k: nat, p: nat)
    ensures Selected(Wire(ResetBlocks(reply, k) + WaitBlocks(reply, k + 2, p)))
      == [SOFT_RESET, SOFT_RESET] + Copies(FIRMWARE_SYSTEM_STATUS, p)
  {
    ResetSelects(reply, k);
    WaitSelects(reply, k + 2, p);
    SelectedConcat(ResetBlocks(reply, k), WaitBlocks(reply, k + 2, p));
  }

  /** The registers of a reset, a wait of `p` polls and the configuration, in a row. */
  lemma PhasesSelect(reply: (nat, nat) -> Reply, k: nat, p: nat)
    ensures Selected(Wire(PhaseBlocks(reply, k, p)))
      == [SOFT_RESET, SOFT_RESET] + Copies(FIRMWARE_SYSTEM_STATUS, p) + CONFIG_REGISTERS
  {
    ResetWaitSelect(reply, k, p);
    ConfigSelects(reply, k + 2 + p);
    SelectedConcat(ResetBlocks(reply, k) + WaitBlocks(reply, k + 2, p), ConfigBlocks(reply, k + 2 + p));
  }

  /** start_ranging addresses INTERRUPT_CLEAR, then SYSTEM_MODE_START; with
      no exception it sends 0x01, then 0x40. */
  lemma StartViews(reply: (nat, nat) -> Reply, k: nat)
    ensures Selected(Wire(StartBlocks(reply, k))) == [SYSTEM_INTERRUPT_CLEAR, SYSTEM_MODE_START]
    ensures Healthy(reply, k, k + 2) ==> Sent(Wire(StartBlocks(reply, k))) == [0x01, MODE_RANGING]
  {
    var b := StartBlocks(reply, k);
    Write8TryViews(reply, k, SYSTEM_INTERRUPT_CLEAR, 0x01);
    Write8TryViews(reply, k + 1, SYSTEM_MODE_START, MODE_RANGING);
    WireShort(b[0], b[1]);
    SelectedAppend(b[0], b[1]);
  }

  /** stop_ranging addresses SYSTEM_MODE_START and sends at most the byte
      0x00, on every call: two calls in a row log the same shape twice. */
  lemma StopViews(reply: (nat, nat) -> Reply, k: nat)
    ensures Selected(Wire(StopBlocks(reply, k))) == [SYSTEM_MODE_START]
    ensures Sent(Wire(StopBlocks(reply, k))) == (if reply(k, 0).Raised? then [] else [MODE_STOP])
    ensures Healthy(reply, k, k + 2) ==>
      StopBlocks(reply, k) + StopBlocks(reply, k + 1)
      == [Write8Calls(SYSTEM_MODE_START, MODE_STOP), Write8Calls(SYSTEM_MODE_START, MODE_STOP)]
  {
    Write8TryViews(reply, k, SYSTEM_MODE_START, MODE_STOP);
    WireShort(StopBlocks(reply, k)[0], []);
  }

  /** When bit 0 of GPIO_TIO_HV_STATUS reads clear, get_distance makes one
      access, at most one read, and returns None. */
  lemma GetDistanceNotReady(reply: (nat, nat) -> Reply, k: nat)
    requires !Bit0(Read8Value(reply, k))
    ensures var (blocks, d) := GetDistanceSpec(reply, k);
      && |blocks| == 1 && d == None
      && Selected(Wire(blocks)) == [GPIO_TIO_HV_STATUS]
      && Sent(Wire(blocks)) == [] && Reads(Wire(blocks)) <= 1
  {
    var blocks := GetDistanceSpec(reply, k).0;
    Read8TryViews(reply, k, GPIO_TIO_HV_STATUS);
    WireShort(blocks[0], []);
  }

  /** When data is ready, get_distance addresses the status, the distance
      and INTERRUPT_CLEAR, in that order and once each, whichever calls
      raise. The only byte it writes is the 0x01 to INTERRUPT_CLEAR, sent
      unless that write's address phase raised; the other three accesses
      are reads. */
  lemma GetDistanceReady(reply: (nat, nat) -> Reply, k: nat)
    requires Bit0(Read8Value(reply, k))
    ensures var blocks := GetDistanceSpec(reply, k).0;
      && Selected(Wire(blocks)) == [GPIO_TIO_HV_STATUS, RESULT_RANGE_STATUS, RESULT_DISTANCE, SYSTEM_INTERRUPT_CLEAR]
      && Sent(Wire(blocks)) == (if reply(k + 3, 0).Raised? then [] else [0x01])
  {
    var blocks := GetDistanceSpec(reply, k).0;
    var a, b, c, d := blocks[0], blocks[1], blocks[2], blocks[3];
    Read8TryViews(reply, k, GPIO_TIO_HV_STATUS);
    Read8TryViews(reply, k + 1, RESULT_RANGE_STATUS);
    Read16TryViews(reply, k + 2, RESULT_DISTANCE);
    Write8TryViews(reply, k + 3, SYSTEM_INTERRUPT_CLEAR, 0x01);
    SelectedWire4(a, b, c, d, GPIO_TIO_HV_STATUS, RESULT_RANGE_STATUS, RESULT_DISTANCE, SYSTEM_INTERRUPT_CLEAR);
    SentWire4(a, b, c, d);
  }

  /** get_distance returns a distance exactly when data was ready, the
      distance is in (0, 8000) and the status's high nibble is 0; the
      distance is then the two bytes read, high byte first. A status read
      that raised counts as status 0. */
  lemma GetDistanceResult(reply: (nat, nat) -> Reply, k: nat)
    ensures var d := GetDistanceSpec(reply, k).1;
      && (d.Some? <==> Bit0(Read8Value(reply, k)) && 0 < Read16Value(reply, k + 2) < 8000
                       && HighNibble(Read8Value(reply, k + 1)) == 0)
      && (d.Some? ==> 0 < d.value < 8000 && Healthy(reply, k + 2, k + 3)
                      && d.value == Word(LowByte(reply(k + 2, 1).value), LowByte(reply(k + 2, 2).value)))
  {
  }

  /** The driver object: the handle it opened and the `try` blocks it ran. */
  class Sensor {
    const reply: (nat, nat) -> Reply
    const address: int
    var handle: Option<int>
    var log: seq<seq<PiCall>>

    constructor (reply: (nat, nat) -> Reply, address: int)
      ensures this.reply == reply && this.address == address
      ensures handle == None && log == []
    {
      this.reply := reply;
      this.address := address;
      handle := None;
      log := [];
    }

    /** write_reg8: address, then the value; an exception ends the access. */
    method WriteReg8(reg: u16, value: int)
      modifies this
      ensures log == old(log) + [Write8Try(reply, |old(log)|, reg, value)]
      ensures handle == old(handle)
    {
      var k := |log|;
      if reply(k, 0).Raised? {
        log := log + [[Select(reg)]];
        return;
      }
      log := log + [[Select(reg), Write(value)]];
    }

    /** write_reg16: address, then the high byte, then the low byte. */
    method WriteReg16(reg: u16, value: int)
      modifies this
      ensures log == old(log) + [Write16Try(reply, |old(log)|, reg, value)]
      ensures handle == old(handle)
    {
      var k := |log|;
      if reply(k, 0).Raised? {
        log := log + [[Select(reg)]];
        return;
      }
      if reply(k, 1).Raised? {
        log := log + [[Select(reg), Write(HighByte(value))]];
        return;
      }
      log := log + [[Select(reg), Write(HighByte(value)), Write(LowByte(value))]];
    }

    /** read_reg8: address, then one read masked to a byte; 0 on an exception. */
    method ReadReg8(reg: u16) returns (v: byte)
      modifies this
      ensures log == old(log) + [Read8Try(reply, |old(log)|, reg)]
      ensures v == Read8Value(reply, |old(log)|)
      ensures handle == old(handle)
    {
      var k := |log|;
      if reply(k, 0).Raised? {
        log := log + [[Select(reg)]];
        return 0;
      }
      log := log + [[Select(reg), Read]];
      var r := reply(k, 1);
      if r.Raised? {
        return 0;
      }
      v := r.value % 0x100;
    }

    /** read_reg16: address, then the high byte, then the low byte; 0 on an exception. */
    method ReadReg16(reg: u16) returns (v: u16)
      modifies this
      ensures log == old(log) + [Read16Try(reply, |old(log)|, reg)]
      ensures v == Read16Value(reply, |old(log)|)
      ensures handle == old(handle)
    {
      var k := |log|;
      if reply(k, 0).Raised? {
        log := log + [[Select(reg)]];
        return 0;
      }
      var high := reply(k, 1);
      if high.Raised? {
        log := log + [[Select(reg), Read]];
        return 0;
      }
      log := log + [[Select(reg), Read, Read]];
      var low := reply(k, 2);
      if low.Raised? {
        return 0;
      }
      v := Word(high.value % 0x100, low.value % 0x100);
    }

    /** open: wiringPiSetup, wiringPiI2CSetup at the address (its result
        becomes the handle), the negative-handle check, and the model-ID
        read; an exception makes it return false. */
    method Open() returns (ok: bool)
      modifies this
      ensures log == old(log) + OpenSpec(reply, |old(log)|, address).0
      ensures ok == OpenSpec(reply, |old(log)|, address).1
      ensures handle == (if OpenSpec(reply, |old(log)|, address).2.Some?
                         then OpenSpec(reply, |old(log)|, address).2 else old(handle))
    {
      var k := |log|;
      if reply(k, 0).Raised? {
        log := log + [[Setup]];
        return false;
      }
      log := log + [[Setup, I2CSetup(address)]];
      var r := reply(k, 1);
      if r.Raised? {
        return false;
      }
      handle := Some(r.value);
      if r.value < 0 {
        return false;
      }
      var modelId := ReadReg16(IDENTIFICATION_MODEL_ID);
      ok := modelId == MODEL_ID;
    }

    /** The firmware wait of init_sensor: `for i in range(100)` reading
        FIRMWARE_SYSTEM_STATUS and breaking on bit 0; the `else` branch
        (the timeout) only prints. */
    method WaitForFirmware()
      modifies this
      ensures log == old(log) + WaitBlocks(reply, |old(log)|, Polls(reply, |old(log)|))
      ensures handle == old(handle)
    {
      var base := |log|;
      var i := 0;
      while i < FIRMWARE_TRIES
        invariant 0 <= i <= FIRMWARE_TRIES
        invariant log == old(log) + WaitBlocks(reply, base, i)
        invariant forall j | 0 <= j < i :: !ReadyAt(reply, base, j)
        invariant handle == old(handle)
      {
        var status := ReadReg8(FIRMWARE_SYSTEM_STATUS);
        WaitBlocksStep(reply, base, i);
        if Bit0(status) {
          FirstReadyIs(reply, base, 0, i);
          return;
        }
        i := i + 1;
      }
      FirstReadyIs(reply, base, 0, i);
    }

    /** The laser-period and phase writes of init_sensor. */
    method ConfigureVcsel()
      modifies this
      ensures log == old(log) + VcselBlocks(reply, |old(log)|)
      ensures handle == old(handle)
    {
      ghost var k := |log|;
      WriteReg8(RANGE_CONFIG_VCSEL_PERIOD_A, 0x09);
      WriteReg8(RANGE_CONFIG_VCSEL_PERIOD_B, 0x0D);
      WriteReg8(RANGE_CONFIG_VALID_PHASE_HIGH, 0xC8);
    }

    /** The detection-window writes of init_sensor. */
    method ConfigureWindow()
      modifies this
      ensures log == old(log) + WindowBlocks(reply, |old(log)|)
      ensures handle == old(handle)
    {
      ghost var k := |log|;
      WriteReg16(SD_CONFIG_WOI_SD0, 0x0001);
      WriteReg16(SD_CONFIG_WOI_SD1, 0x0001);
      WriteReg8(SD_CONFIG_INITIAL_PHASE_SD0, 0x00);
      WriteReg8(SD_CONFIG_INITIAL_PHASE_SD1, 0x00);
    }

    /** The timing-budget writes of init_sensor. */
    method ConfigureTiming()
      modifies this
      ensures log == old(log) + TimingBlocks(reply, |old(log)|)
      ensures handle == old(handle)
    {
      ghost var k := |log|;
      WriteReg16(RANGE_CONFIG_TIMEOUT_MACROP_A, 0x00D6);
      WriteReg16(RANGE_CONFIG_TIMEOUT_MACROP_B, 0x00D6);
    }

    /** The interrupt writes that end the configuration. */
    method ConfigureInterrupt()
      modifies this
      ensures log == old(log) + InterruptBlocks(reply, |old(log)|)
      ensures handle == old(handle)
    {
      ghost var k := |log|;
      WriteReg8(SYSTEM_INTERRUPT_CONFIG_GPIO, 0x01);
      WriteReg8(SYSTEM_INTERRUPT_CLEAR, 0x01);
    }

    /** The configuration writes of init_sensor, in source order. */
    method Configure()
      modifies this
      ensures log == old(log) + ConfigBlocks(reply, |old(log)|)
      ensures handle == old(handle)
    {
      ghost var k := |log|;
      ConfigureVcsel();
      ConfigureWindow();
      ConfigureTiming();
      ConfigureInterrupt();
      ghost var v, w, t := VcselBlocks(reply, k), WindowBlocks(reply, k + 3), TimingBlocks(reply, k + 7);
    }

    /** The soft reset of init_sensor. */
    method SoftReset()
      modifies this
      ensures log == old(log) + ResetBlocks(reply, |old(log)|)
      ensures handle == old(handle)
    {
      ghost var k := |log|;
      WriteReg8(SOFT_RESET, 0x00);
      WriteReg8(SOFT_RESET, 0x01);
    }

    /** init_sensor: soft reset, firmware wait, configuration. A timeout
        of the wait is not an error: the configuration is written anyway. */
    method InitSensor()
      modifies this
      ensures log == old(log) + InitBlocks(reply, |old(log)|)
      ensures handle == old(handle)
    {
      ghost var l0 := log;
      SoftReset();
      ghost var l1 := log;
      WaitForFirmware();
      ghost var l2 := log;
      Configure();
      InitLog(reply, l0, l1, l2, log);
    }

    /** start_ranging: clear the interrupt, then write 0x40 to SYSTEM_MODE_START. */
    method StartRanging()
      modifies this
      ensures log == old(log) + StartBlocks(reply, |old(log)|)
      ensures handle == old(handle)
    {
      WriteReg8(SYSTEM_INTERRUPT_CLEAR, 0x01);
      WriteReg8(SYSTEM_MODE_START, MODE_RANGING);
    }

    /** stop_ranging: write 0x00 to SYSTEM_MODE_START. */
    method StopRanging()
      modifies this
      ensures log == old(log) + StopBlocks(reply, |old(log)|)
      ensures handle == old(handle)
    {
      WriteReg8(SYSTEM_MODE_START, MODE_STOP);
    }

    /** get_distance: data-ready check, status and distance reads,
        interrupt clear, then the validity filter; `None` is "no reading".
        Its outer `try` never fires, since every helper swallows its own
        exceptions. */
    method GetDistance() returns (d: Option<int>)
      modifies this
      ensures log == old(log) + GetDistanceSpec(reply, |old(log)|).0
      ensures d == GetDistanceSpec(reply, |old(log)|).1
      ensures handle == old(handle)
    {
      var gpioStatus := ReadReg8(GPIO_TIO_HV_STATUS);
      if !Bit0(gpioStatus) {
        return None;
      }
      var rangeStatus := ReadReg8(RESULT_RANGE_STATUS);
      var distance := ReadReg16(RESULT_DISTANCE);
      WriteReg8(SYSTEM_INTERRUPT_CLEAR, 0x01);
      if 0 < distance < 8000 && (rangeStatus / 16) % 16 == 0 {
        return Some(distance);
      }
      return None;
    }

    /** close: stop ranging when a handle was ever stored. */
    method Close()
      modifies this
      ensures log == old(log) + (if old(handle).Some? then StopBlocks(reply, |old(log)|) else [])
      ensures handle == old(handle)
    {
      if handle.Some? {
        StopRanging();
      }
    }
  }
}
