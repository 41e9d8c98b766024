/** The C wiringPi driver (vl53l1x_wiringpi.c).

    The C functions talk through one global file descriptor; here that
    conversation is a `Handle` object whose `trace` is the log of wiringPi
    calls made on it. C has no exceptions: every call returns an `int`,
    which the constant `answer` gives for each call index (`answer(i)` is
    what the i-th call on the handle returns; wiringPi reports a failed read
    as -1). Reads keep `answer(i) & 0xFF`. */
module WiringPiC {
  import opened Bits
  import opened Registers
  import opened WiringPi

  /** The byte a read at call index `i` yields: `wiringPiI2CRead(fd) & 0xFF`. */
  function ByteAt(answer: nat -> int, i: nat): byte
  {
    LowByte(answer(i))
  }

  /** The configuration writes of initSensor, in source order: the VCSEL
      periods and the valid-phase threshold, the two range timeouts, then
      the interrupt configuration and a final interrupt clear. */
  const CONFIG_CALLS: seq<PiCall> := CONFIG_PERIODS + CONFIG_TIMEOUTS + CONFIG_INTERRUPT

  const CONFIG_PERIODS: seq<PiCall> :=
    Write8Calls(RANGE_CONFIG_VCSEL_PERIOD_A, 0x09)
    + Write8Calls(RANGE_CONFIG_VCSEL_PERIOD_B, 0x0D)
    + Write8Calls(RANGE_CONFIG_VALID_PHASE_HIGH, 0xC8)

  const CONFIG_TIMEOUTS: seq<PiCall> :=
    Write16Calls(RANGE_CONFIG_TIMEOUT_MACROP_A, 0x00D6)
    + Write16Calls(RANGE_CONFIG_TIMEOUT_MACROP_B, 0x00D6)

  const CONFIG_INTERRUPT: seq<PiCall> :=
    Write8Calls(SYSTEM_INTERRUPT_CONFIG_GPIO, 0x01)
    + Write8Calls(SYSTEM_INTERRUPT_CLEAR, 0x01)

  /** The registers the configuration writes, in order. */
  const CONFIG_REGISTERS: seq<int> := [
    RANGE_CONFIG_VCSEL_PERIOD_A, RANGE_CONFIG_VCSEL_PERIOD_B, RANGE_CONFIG_VALID_PHASE_HIGH,
    RANGE_CONFIG_TIMEOUT_MACROP_A, RANGE_CONFIG_TIMEOUT_MACROP_B,
    SYSTEM_INTERRUPT_CONFIG_GPIO, SYSTEM_INTERRUPT_CLEAR]

  /** The data bytes the configuration writes, in order (16-bit values high byte first). */
  const CONFIG_BYTES: seq<int> := [0x09, 0x0D, 0xC8, 0x00, 0xD6, 0x00, 0xD6, 0x01, 0x01]

  const RESET_CALLS: seq<PiCall> := Write8Calls(SOFT_RESET, 0x00) + Write8Calls(SOFT_RESET, 0x01)

  /** The firmware wait that starts at call index `base` issues its j-th
      status read (j from 0) as calls base + 2j and base + 2j + 1. */
  function WaitByte(answer: nat -> int, base: nat, j: nat): byte
  {
    ByteAt(answer, base + 2 * j + 1)
  }

  /** The j-th firmware-status read of the wait that starts at `base` has bit 0 set. */
  predicate ReadyAt(answer: nat -> int, base: nat, j: nat)
  {
    Bit0(WaitByte(answer, base, j))
  }

  /** The index of the first status read at or after `i` with bit 0 set, or
      FIRMWARE_TRIES when there is none: where `for (i = 0; i < 100; i++)`
      breaks. */
  function FirstReady(answer: nat -> int, base: nat, i: nat): (k: nat)
    requires i <= FIRMWARE_TRIES
    ensures i <= k <= FIRMWARE_TRIES
    ensures forall j | i <= j < k :: !ReadyAt(answer, base, j)
    ensures k < FIRMWARE_TRIES ==> ReadyAt(answer, base, k)
    decreases FIRMWARE_TRIES - i
  {
    if i == FIRMWARE_TRIES then i
    else if ReadyAt(answer, base, i) then i
    else FirstReady(answer, base, i + 1)
  }

  /** FirstReady is the one index from `i` on that has only unready reads
      before it and is itself ready or the end of the wait. */
  lemma {:induction false} FirstReadyIs(answer: nat -> int, base: nat, i: nat, k: nat)
    requires i <= k <= FIRMWARE_TRIES
    requires forall j | i <= j < k :: !ReadyAt(answer, base, j)
    requires k < FIRMWARE_TRIES ==> ReadyAt(answer, base, k)
    ensures FirstReady(answer, base, i) == k
    decreases k - i
  {
    if i < k {
      FirstReadyIs(answer, base, i + 1, k);
    }
  }

  /** The model ID initSensor reads: two reads after the address phase. */
  function ModelId(answer: nat -> int, n: nat): u16
  {
    Word(ByteAt(answer, n + 1), ByteAt(answer, n + 2))
  }

  /** What initSensor does once the model ID matched and the reset was
      written, from call index `base`: the firmware wait, then either the
      timeout (-1) or the configuration (0). */
  function BootSpec(answer: nat -> int, base: nat): (seq<PiCall>, int)
  {
    var k := FirstReady(answer, base, 0);
    if k == FIRMWARE_TRIES then (ReadLoop(FIRMWARE_SYSTEM_STATUS, k), -1)
    else (ReadLoop(FIRMWARE_SYSTEM_STATUS, k + 1) + CONFIG_CALLS, 0)
  }

  /** The calls initSensor makes from call index `n`, and its return value. */
  function InitSensorSpec(answer: nat -> int, n: nat): (seq<PiCall>, int)
  {
    var probe := Read16Calls(IDENTIFICATION_MODEL_ID);
    if ModelId(answer, n) != MODEL_ID then (probe, -1)
    else
      var boot := BootSpec(answer, WaitStart(n));
      (probe + RESET_CALLS + boot.0, boot.1)
  }

  /** What the configuration puts on the wire: the seven registers in
      source order, the nine data bytes, and no reads. */
  lemma ConfigViews()
    ensures Selected(CONFIG_CALLS) == CONFIG_REGISTERS
    ensures Sent(CONFIG_CALLS) == CONFIG_BYTES
    ensures Reads(CONFIG_CALLS) == 0
  {
    Write8Triple(RANGE_CONFIG_VCSEL_PERIOD_A, 0x09, RANGE_CONFIG_VCSEL_PERIOD_B, 0x0D, RANGE_CONFIG_VALID_PHASE_HIGH, 0xC8);
    Write16Pair(RANGE_CONFIG_TIMEOUT_MACROP_A, 0x00D6, RANGE_CONFIG_TIMEOUT_MACROP_B, 0x00D6);
    Write8Pair(SYSTEM_INTERRUPT_CONFIG_GPIO, 0x01, SYSTEM_INTERRUPT_CLEAR, 0x01);
    Views3(CONFIG_PERIODS, CONFIG_TIMEOUTS, CONFIG_INTERRUPT);
  }

  /** What the soft reset puts on the wire: SOFT_RESET twice, 0x00 then 0x01. */
  lemma ResetViews()
    ensures Selected(RESET_CALLS) == [SOFT_RESET, SOFT_RESET]
    ensures Sent(RESET_CALLS) == [0x00, 0x01]
    ensures Reads(RESET_CALLS) == 0
  {
    Write8Pair(SOFT_RESET, 0x00, SOFT_RESET, 0x01);
  }

  /** The call index where initSensor's firmware wait starts, when the wait
      happens: after the three calls of the ID read and the four of the reset. */
  function WaitStart(n: nat): (base: nat)
    ensures base == n + |Read16Calls(IDENTIFICATION_MODEL_ID)| + |RESET_CALLS|
  {
    n + 7
  }

  /** Whether one of the firmware-status reads of the wait that starts at
      `base` had bit 0 set, so that the wait broke out early. */
  predicate Booted(answer: nat -> int, base: nat)
  {
    FirstReady(answer, base, 0) < FIRMWARE_TRIES
  }

  /** The number of FIRMWARE_SYSTEM_STATUS reads of the wait that starts at
      `base`: up to and including the first with bit 0 set, all 100 when
      none has. */
  function Polls(answer: nat -> int, base: nat): (p: nat)
    ensures 1 <= p <= FIRMWARE_TRIES
  {
    var k := FirstReady(answer, base, 0);
    if k < FIRMWARE_TRIES then k + 1 else k
  }

  /** What the part of initSensor after the reset puts on the wire: the
      status reads, then the configuration only when one of them was ready. */
  lemma BootViews(answer: nat -> int, base: nat)
    ensures Selected(BootSpec(answer, base).0)
      == Copies(FIRMWARE_SYSTEM_STATUS, Polls(answer, base)) + (if Booted(answer, base) then CONFIG_REGISTERS else [])
    ensures Sent(BootSpec(answer, base).0) == (if Booted(answer, base) then CONFIG_BYTES else [])
    ensures Reads(BootSpec(answer, base).0) == Polls(answer, base)
  {
    var k := FirstReady(answer, base, 0);
    if k < FIRMWARE_TRIES {
      ReadLoopViews(FIRMWARE_SYSTEM_STATUS, k + 1);
      ConfigViews();
      SelectedAppend(ReadLoop(FIRMWARE_SYSTEM_STATUS, k + 1), CONFIG_CALLS);
    } else {
      ReadLoopViews(FIRMWARE_SYSTEM_STATUS, k);
      assert Copies(FIRMWARE_SYSTEM_STATUS, k) + [] == Copies(FIRMWARE_SYSTEM_STATUS, k);
    }
  }

  /** initSensor with the wrong model ID: a single 16-bit read of
      IDENTIFICATION_MODEL_ID, no write at all, result -1. */
  lemma InitSensorWrongId(answer: nat -> int, n: nat)
    requires ModelId(answer, n) != MODEL_ID
    ensures Selected(InitSensorSpec(answer, n).0) == [IDENTIFICATION_MODEL_ID]
    ensures Sent(InitSensorSpec(answer, n).0) == []
    ensures Reads(InitSensorSpec(answer, n).0) == 2
    ensures InitSensorSpec(answer, n).1 == -1
  {
    Read16Views(IDENTIFICATION_MODEL_ID);
  }

  /** initSensor with the right model ID: after the ID read it resets
      (0x00 then 0x01 to SOFT_RESET) before any other write, reads the
      firmware status `Polls` times (at most 100), and writes the
      configuration, in source order, only when a status read had bit 0 set. */
  lemma InitSensorViews(answer: nat -> int, n: nat)
    requires ModelId(answer, n) == MODEL_ID
    ensures Selected(InitSensorSpec(answer, n).0)
      == [IDENTIFICATION_MODEL_ID] + [SOFT_RESET, SOFT_RESET]
         + (Copies(FIRMWARE_SYSTEM_STATUS, Polls(answer, WaitStart(n)))
            + (if Booted(answer, WaitStart(n)) then CONFIG_REGISTERS else []))
    ensures Sent(InitSensorSpec(answer, n).0)
      == [0x00, 0x01] + (if Booted(answer, WaitStart(n)) then CONFIG_BYTES else [])
    ensures Reads(InitSensorSpec(answer, n).0) == 2 + Polls(answer, WaitStart(n))
  {
    Read16Views(IDENTIFICATION_MODEL_ID);
    ResetViews();
    BootViews(answer, WaitStart(n));
    Views3(Read16Calls(IDENTIFICATION_MODEL_ID), RESET_CALLS, BootSpec(answer, WaitStart(n)).0);
    assert [] + [0x00, 0x01] == [0x00, 0x01];
  }

  /** initSensor returns 0 exactly when the model ID matched and one of the
      100 firmware-status reads had bit 0 set; otherwise -1. */
  lemma InitSensorResult(answer: nat -> int, n: nat)
    ensures InitSensorSpec(answer, n).1 == 0 || InitSensorSpec(answer, n).1 == -1
    ensures InitSensorSpec(answer, n).1 == 0 <==>
      ModelId(answer, n) == MODEL_ID
      && exists j :: 0 <= j < FIRMWARE_TRIES && ReadyAt(answer, WaitStart(n), j)
  {
    if ModelId(answer, n) == MODEL_ID {
      var k := FirstReady(answer, WaitStart(n), 0);
      if k < FIRMWARE_TRIES {
        assert ReadyAt(answer, WaitStart(n), k);
      }
    }
  }

  const READ_CALLS: seq<PiCall> :=
    Read8Calls(RESULT_RANGE_STATUS) + Read16Calls(RESULT_DISTANCE) + Write8Calls(SYSTEM_INTERRUPT_CLEAR, 0x01)

  /** The calls getDistance makes from call index `n`, and its return value. */
  function GetDistanceSpec(answer: nat -> int, n: nat): (seq<PiCall>, int)
  {
    var ready := Read8Calls(GPIO_TIO_HV_STATUS);
    if !Bit0(ByteAt(answer, n + 1)) then (ready, -1)
    else
      var status := ByteAt(answer, n + 3);
      var distance := Word(ByteAt(answer, n + 5), ByteAt(answer, n + 6));
      (ready + READ_CALLS, if Accepted(distance, status) then distance else -1)
  }

  /** getDistance when bit 0 of GPIO_TIO_HV_STATUS is clear: a single 8-bit
      read, no other bus operation, result -1. When it is set: the range
      status, then the distance, then one write of 0x01 to
      SYSTEM_INTERRUPT_CLEAR, and nothing else. */
  lemma GetDistanceViews(answer: nat -> int, n: nat)
    ensures !Bit0(ByteAt(answer, n + 1)) ==>
      && Selected(GetDistanceSpec(answer, n).0) == [GPIO_TIO_HV_STATUS]
      && Sent(GetDistanceSpec(answer, n).0) == []
      && Reads(GetDistanceSpec(answer, n).0) == 1
      && GetDistanceSpec(answer, n).1 == -1
    ensures Bit0(ByteAt(answer, n + 1)) ==>
      && Selected(GetDistanceSpec(answer, n).0)
         == [GPIO_TIO_HV_STATUS] + [RESULT_RANGE_STATUS] + [RESULT_DISTANCE] + [SYSTEM_INTERRUPT_CLEAR]
      && Sent(GetDistanceSpec(answer, n).0) == [0x01]
      && Reads(GetDistanceSpec(answer, n).0) == 1 + 1 + 2
  {
    Read8Views(GPIO_TIO_HV_STATUS);
    Read8Views(RESULT_RANGE_STATUS);
    Read16Views(RESULT_DISTANCE);
    Write8Views(SYSTEM_INTERRUPT_CLEAR, 0x01);
    Views3(Read8Calls(RESULT_RANGE_STATUS), Read16Calls(RESULT_DISTANCE), Write8Calls(SYSTEM_INTERRUPT_CLEAR, 0x01));
    SelectedAppend(Read8Calls(GPIO_TIO_HV_STATUS), READ_CALLS);
  }

  /** getDistance returns either -1 or a distance strictly between 0 and
      8000; it returns the distance register's value exactly when data was
      ready, that value is in the window and the status high nibble is 0. */
  lemma GetDistanceResult(answer: nat -> int, n: nat)
    ensures var d := GetDistanceSpec(answer, n).1;
      d == -1 || 0 < d < 8000
    ensures var distance := Word(ByteAt(answer, n + 5), ByteAt(answer, n + 6));
      GetDistanceSpec(answer, n).1 != -1 <==>
        Bit0(ByteAt(answer, n + 1)) && 0 < distance < 8000 && ByteAt(answer, n + 3) < 16
    ensures GetDistanceSpec(answer, n).1 != -1 ==>
      GetDistanceSpec(answer, n).1 == Word(ByteAt(answer, n + 5), ByteAt(answer, n + 6))
  {
  }

  /** startRanging and stopRanging on the wire. */
  const START_CALLS: seq<PiCall> := Write8Calls(SYSTEM_INTERRUPT_CLEAR, 0x01) + Write8Calls(SYSTEM_MODE_START, MODE_RANGING)
  const STOP_CALLS: seq<PiCall> := Write8Calls(SYSTEM_MODE_START, MODE_STOP)

  /** startRanging clears the interrupt and then writes 0x40 to
      SYSTEM_MODE_START; stopRanging writes 0x00 there; neither reads. */
  lemma RangingViews()
    ensures Selected(START_CALLS) == [SYSTEM_INTERRUPT_CLEAR, SYSTEM_MODE_START]
    ensures Sent(START_CALLS) == [0x01, 0x40] && Reads(START_CALLS) == 0
    ensures Selected(STOP_CALLS) == [SYSTEM_MODE_START]
    ensures Sent(STOP_CALLS) == [0x00] && Reads(STOP_CALLS) == 0
  {
    Write8Pair(SYSTEM_INTERRUPT_CLEAR, 0x01, SYSTEM_MODE_START, MODE_RANGING);
    Write8Views(SYSTEM_MODE_START, MODE_STOP);
  }

  /** C's `/` on `int`: the quotient truncated toward zero. */
  function Quot(a: int, b: int): (q: int)
    requires b > 0
    ensures a >= 0 ==> q * b <= a < q * b + b
    ensures a < 0 ==> q * b - b < a <= q * b
  {
    if a >= 0 then a / b else -((-a) / b)
  }

  /** The bar length printDistance draws: `distance / 100`, capped at 40. */
  function Bars(distance: int): (bars: int)
    ensures bars <= 40
    ensures distance >= 0 ==> 0 <= bars
    ensures bars == 40 <==> distance >= 4000
    ensures 0 <= distance < 4000 ==> bars * 100 <= distance < bars * 100 + 100
  {
    var bars := Quot(distance, 100);
    if bars > 40 then 40 else bars
  }

  /** A longer distance never draws a shorter bar. */
  lemma BarsMonotone(a: int, b: int)
    requires a <= b
    ensures Bars(a) <= Bars(b)
  {
    if a < 0 && b < 0 {
      assert Quot(a, 100) <= Quot(b, 100) by {
        assert (-b) / 100 <= (-a) / 100;
      }
    }
  }

  /** The sum of a sequence of readings. */
  function Total(s: seq<int>): int
  {
    if s == [] then 0 else Total(s[..|s| - 1]) + s[|s| - 1]
  }

  /** The bookkeeping of the C main loop: `count`, `errors`, `sum`,
      `min_dist` (starting at 9999) and `max_dist` (starting at 0). */
  class RunStats {
    var count: int
    var errors: int
    var sum: int
    var minDist: int
    var maxDist: int
    /** Every positive reading so far, in order. */
    ghost var seen: seq<int>

    /** `count` and `sum` describe the positive readings, and `min_dist` and
        `max_dist` bound each of them, each being its start value or one of them. */
    ghost predicate Valid()
      reads this
    {
      && count == |seen|
      && sum == Total(seen)
      && errors >= 0
      && (forall i | 0 <= i < |seen| :: 0 < seen[i] && minDist <= seen[i] <= maxDist)
      && (minDist == 9999 || minDist in seen) && minDist <= 9999
      && (maxDist == 0 || maxDist in seen) && 0 <= maxDist
    }

    constructor ()
      ensures Valid() && seen == [] && errors == 0
      ensures minDist == 9999 && maxDist == 0
    {
      count, errors, sum := 0, 0, 0;
      minDist, maxDist := 9999, 0;
      seen := [];
    }

    /** One pass of the main loop with `distance` from getDistance: a
        positive reading is counted, summed and folded into min and max;
        anything else counts as an error. */
    method Observe(distance: int)
      requires Valid()
      modifies this
      ensures Valid()
      ensures distance > 0 ==> seen == old(seen) + [distance] && errors == old(errors)
      ensures distance > 0 ==> count == old(count) + 1 && sum == old(sum) + distance
      ensures distance <= 0 ==> seen == old(seen) && errors == old(errors) + 1
      ensures distance <= 0 ==> count == old(count) && sum == old(sum)
      ensures distance <= 0 ==> minDist == old(minDist) && maxDist == old(maxDist)
    {
      if distance > 0 {
        ghost var now := seen + [distance];
        assert now[..|now| - 1] == seen;
        assert Total(now) == sum + distance;
        count := count + 1;
        sum := sum + distance;
        if distance < minDist {
          minDist := distance;
        }
        if distance > maxDist {
          maxDist := distance;
        }
        assert minDist == 9999 || minDist in now;
        assert maxDist == 0 || maxDist in now;
        seen := now;
      } else {
        errors := errors + 1;
      }
    }

    /** After the first positive reading, `min_dist <= max_dist`. */
    lemma MinNotAboveMax()
      requires Valid() && count > 0
      ensures minDist <= maxDist
    {
      assert minDist <= seen[0] <= maxDist;
    }
  }

  /** The handle `fd` and the wiringPi calls made on it. */
  class Handle {
    const answer: nat -> int
    var trace: seq<PiCall>

    constructor (answer: nat -> int)
      ensures this.answer == answer && trace == []
    {
      this.answer := answer;
      trace := [];
    }

    /** One wiringPi call: it is logged and returns `answer` at its index. */
    method Call(c: PiCall) returns (v: int)
      modifies this
      ensures trace == old(trace) + [c] && v == answer(|old(trace)|)
    {
      v := answer(|trace|);
      trace := trace + [c];
    }

    /** writeReg8: address high byte and low byte, then the value. */
    method WriteReg8(reg: u16, value: byte)
      modifies this
      ensures trace == old(trace) + Write8Calls(reg, value)
    {
      var _ := Call(PiCall.WriteReg8(HighByte(reg), LowByte(reg)));
      var _ := Call(Write(value));
    }

    /** writeReg16: address, then the value's high byte, then its low byte. */
    method WriteReg16(reg: u16, value: u16)
      modifies this
      ensures trace == old(trace) + Write16Calls(reg, value)
    {
      var _ := Call(PiCall.WriteReg8(HighByte(reg), LowByte(reg)));
      var _ := Call(Write(HighByte(value)));
      var _ := Call(Write(LowByte(value)));
    }

    /** readReg8: address, then one read masked to a byte. */
    method ReadReg8(reg: u16) returns (v: byte)
      modifies this
      ensures trace == old(trace) + Read8Calls(reg)
      ensures v == LowByte(answer(|old(trace)| + 1))
    {
      var _ := Call(PiCall.WriteReg8(HighByte(reg), LowByte(reg)));
      var r := Call(Read);
      v := r % 0x100;
    }

    /** readReg16: address, then the high byte, then the low byte;
        the result is `(high << 8) | low`. */
    method ReadReg16(reg: u16) returns (v: u16)
      modifies this
      ensures trace == old(trace) + Read16Calls(reg)
      ensures HighByte(v) == LowByte(answer(|old(trace)| + 1))
      ensures LowByte(v) == LowByte(answer(|old(trace)| + 2))
    {
      var _ := Call(PiCall.WriteReg8(HighByte(reg), LowByte(reg)));
      var high := Call(Read);
      var low := Call(Read);
      v := Word(high % 0x100, low % 0x100);
    }

    /** The firmware wait of initSensor: `for (i = 0; i < 100; i++)`
        reading FIRMWARE_SYSTEM_STATUS and breaking on bit 0; `i` is the
        loop counter after the loop, 100 when no read had bit 0 set. */
    method WaitForFirmware() returns (i: nat)
      modifies this
      ensures i == FirstReady(answer, |old(trace)|, 0)
      ensures trace == old(trace) + ReadLoop(FIRMWARE_SYSTEM_STATUS, if i < FIRMWARE_TRIES then i + 1 else i)
    {
      ghost var base := |trace|;
      i := 0;
      while i < FIRMWARE_TRIES
        invariant 0 <= i <= FIRMWARE_TRIES
        invariant trace == old(trace) + ReadLoop(FIRMWARE_SYSTEM_STATUS, i)
        invariant forall j | 0 <= j < i :: !ReadyAt(answer, base, j)
      {
        var status := ReadReg8(FIRMWARE_SYSTEM_STATUS);
        ReadLoopStep(FIRMWARE_SYSTEM_STATUS, i);
        if Bit0(status) {
          FirstReadyIs(answer, base, 0, i);
          return;
        }
        i := i + 1;
      }
      FirstReadyIs(answer, base, 0, i);
    }

    /** The soft reset of initSensor: 0x00, then 0x01, to SOFT_RESET. */
    method SoftReset()
      modifies this
      ensures trace == old(trace) + RESET_CALLS
    {
      WriteReg8(SOFT_RESET, 0x00);
      WriteReg8(SOFT_RESET, 0x01);
    }

    /** The fixed configuration writes that end initSensor. */
    method Configure()
      modifies this
      ensures trace == old(trace) + CONFIG_CALLS
    {
      WriteReg8(RANGE_CONFIG_VCSEL_PERIOD_A, 0x09);
      WriteReg8(RANGE_CONFIG_VCSEL_PERIOD_B, 0x0D);
      WriteReg8(RANGE_CONFIG_VALID_PHASE_HIGH, 0xC8);
      assert trace == old(trace) + CONFIG_PERIODS;
      WriteReg16(RANGE_CONFIG_TIMEOUT_MACROP_A, 0x00D6);
      WriteReg16(RANGE_CONFIG_TIMEOUT_MACROP_B, 0x00D6);
      assert trace == old(trace) + CONFIG_PERIODS + CONFIG_TIMEOUTS;
      WriteReg8(SYSTEM_INTERRUPT_CONFIG_GPIO, 0x01);
      WriteReg8(SYSTEM_INTERRUPT_CLEAR, 0x01);
    }

    /** The part of initSensor after the reset: wait for the firmware,
        give up on timeout, otherwise configure. */
    method Boot() returns (r: int)
      modifies this
      ensures trace == old(trace) + BootSpec(answer, |old(trace)|).0
      ensures r == BootSpec(answer, |old(trace)|).1
    {
      var i := WaitForFirmware();
      if i >= FIRMWARE_TRIES {
        return -1;
      }
      Configure();
      r := 0;
    }

    /** initSensor: model-ID check, soft reset, bounded firmware wait
        (fatal on timeout), fixed configuration. */
    method InitSensor() returns (r: int)
      modifies this
      ensures trace == old(trace) + InitSensorSpec(answer, |old(trace)|).0
      ensures r == InitSensorSpec(answer, |old(trace)|).1
    {
      ghost var n := |trace|;
      var modelId := ReadReg16(IDENTIFICATION_MODEL_ID);
      WordOfBytes(modelId);
      assert ModelId(answer, n) == modelId;
      if modelId != MODEL_ID {
        return -1;
      }
      SoftReset();
      assert |trace| == WaitStart(n);
      ghost var boot := BootSpec(answer, WaitStart(n)).0;
      r := Boot();
      Regroup(old(trace), Read16Calls(IDENTIFICATION_MODEL_ID), RESET_CALLS, boot);
    }

    /** startRanging: clear the interrupt, then start continuous ranging. */
    method StartRanging()
      modifies this
      ensures trace == old(trace) + Write8Calls(SYSTEM_INTERRUPT_CLEAR, 0x01) + Write8Calls(SYSTEM_MODE_START, MODE_RANGING)
    {
      WriteReg8(SYSTEM_INTERRUPT_CLEAR, 0x01);
      WriteReg8(SYSTEM_MODE_START, MODE_RANGING);
    }

    /** stopRanging: write the stop value to the mode register. */
    method StopRanging()
      modifies this
      ensures trace == old(trace) + Write8Calls(SYSTEM_MODE_START, MODE_STOP)
    {
      WriteReg8(SYSTEM_MODE_START, MODE_STOP);
    }

    /** getDistance: data-ready check, status and distance reads, interrupt
        clear, validity filter; -1 stands for "no reading". */
    method GetDistance() returns (d: int)
      modifies this
      ensures trace == old(trace) + GetDistanceSpec(answer, |old(trace)|).0
      ensures d == GetDistanceSpec(answer, |old(trace)|).1
    {
      var gpioStatus := ReadReg8(GPIO_TIO_HV_STATUS);
      if !Bit0(gpioStatus) {
        return -1;
      }
      var rangeStatus := ReadReg8(RESULT_RANGE_STATUS);
      var distance := ReadReg16(RESULT_DISTANCE);
      WordOfBytes(distance);
      WriteReg8(SYSTEM_INTERRUPT_CLEAR, 0x01);
      if 0 < distance < 8000 && HighNibble(rangeStatus) == 0 {
        return distance;
      }
      return -1;
    }
  }
}
