/** The wiringPi I2C calls that the Python and the C driver issue, and the
    call sequences of one register access with a 16-bit register address.
    wiringPi has no 16-bit-address primitive, so both drivers select a
    register by `wiringPiI2CWriteReg8(fd, reg_high, reg_low)` (two bytes on
    the wire) and then move data one byte per call. */
module WiringPi {
  import opened Bits

  /** One call into the wiringPi library on the sensor's handle. */
  datatype PiCall =
    | Setup                           // wiringPiSetup()
    | I2CSetup(address: int)          // wiringPiI2CSetup(address)
    | WriteReg8(reg: int, data: int)  // wiringPiI2CWriteReg8(fd, reg, data)
    | Write(data: int)                // wiringPiI2CWrite(fd, data)
    | Read                            // wiringPiI2CRead(fd)

  /** The address phase of an access to register `reg`: its high byte, then its low byte. */
  function Select(reg: u16): PiCall
  {
    WriteReg8(HighByte(reg), LowByte(reg))
  }

  /** write_reg8 / writeReg8: select, then one data byte. */
  function Write8Calls(reg: u16, value: int): seq<PiCall>
  {
    [Select(reg), Write(value)]
  }

  /** write_reg16 / writeReg16: select, then the value's high byte, then its low byte. */
  function Write16Calls(reg: u16, value: int): seq<PiCall>
  {
    [Select(reg), Write(HighByte(value)), Write(LowByte(value))]
  }

  /** read_reg8 / readReg8: select, then one read. */
  function Read8Calls(reg: u16): seq<PiCall>
  {
    [Select(reg), Read]
  }

  /** read_reg16 / readReg16: select, then two reads (high byte first). */
  function Read16Calls(reg: u16): seq<PiCall>
  {
    [Select(reg), Read, Read]
  }

  /** The registers addressed by `calls`, in order: a `WriteReg8(high, low)`
      call selects register `high * 256 + low`. */
  function Selected(calls: seq<PiCall>): seq<int>
  {
    if calls == [] then []
    else
      (if calls[0].WriteReg8? then [calls[0].reg * 0x100 + calls[0].data] else [])
      + Selected(calls[1..])
  }

  /** The data bytes written by `calls` (`wiringPiI2CWrite`), in order. */
  function Sent(calls: seq<PiCall>): seq<int>
  {
    if calls == [] then []
    else (if calls[0].Write? then [calls[0].data] else []) + Sent(calls[1..])
  }

  /** The number of `wiringPiI2CRead` calls in `calls`. */
  function Reads(calls: seq<PiCall>): nat
  {
    if calls == [] then 0
    else (if calls[0].Read? then 1 else 0) + Reads(calls[1..])
  }

  /** The three views of a log made of two consecutive parts. */
  lemma SelectedAppend(a: seq<PiCall>, b: seq<PiCall>)
    ensures Selected(a + b) == Selected(a) + Selected(b)
    ensures Sent(a + b) == Sent(a) + Sent(b)
    ensures Reads(a + b) == Reads(a) + Reads(b)
  {
    SelectedOfAppend(a, b);
    SentOfAppend(a, b);
    ReadsOfAppend(a, b);
  }

  lemma {:induction false} SelectedOfAppend(a: seq<PiCall>, b: seq<PiCall>)
    ensures Selected(a + b) == Selected(a) + Selected(b)
  {
    if a == [] {
      assert a + b == b;
    } else {
      assert (a + b)[0] == a[0];
      assert (a + b)[1..] == a[1..] + b;
      SelectedOfAppend(a[1..], b);
    }
  }

  lemma {:induction false} SentOfAppend(a: seq<PiCall>, b: seq<PiCall>)
    ensures Sent(a + b) == Sent(a) + Sent(b)
  {
    if a == [] {
      assert a + b == b;
    } else {
      assert (a + b)[0] == a[0];
      assert (a + b)[1..] == a[1..] + b;
      SentOfAppend(a[1..], b);
    }
  }

  lemma {:induction false} ReadsOfAppend(a: seq<PiCall>, b: seq<PiCall>)
    ensures Reads(a + b) == Reads(a) + Reads(b)
  {
    if a == [] {
      assert a + b == b;
    } else {
      assert (a + b)[0] == a[0];
      assert (a + b)[1..] == a[1..] + b;
      ReadsOfAppend(a[1..], b);
    }
  }

  /** The acceptance test both wiringPi drivers apply to a reading (the
      Python get_distance and the C getDistance): the distance lies strictly
      between 0 and 8000 and bits 4 to 7 of the range status are clear. */
  predicate Accepted(distance: int, status: byte)
  {
    0 < distance < 8000 && HighNibble(status) == 0
  }

  /** Regrouping a log made of four consecutive parts, stated apart so
      that the proofs using it need not rediscover it in a large context. */
  lemma Regroup<T>(a: seq<T>, b: seq<T>, c: seq<T>, d: seq<T>)
    ensures a + b + c + d == a + (b + c + d)
  {
  }

  /** The address phase of every access selects exactly the register it
      names: the two address bytes are the register's high and low byte. */
  lemma SelectSelects(reg: u16)
    ensures Selected([Select(reg)]) == [reg]
    ensures Sent([Select(reg)]) == [] && Reads([Select(reg)]) == 0
  {
    WordOfBytes(reg);
  }

  /** write_reg8 / writeReg8 on the wire: one selected register, its one data byte, no read. */
  lemma Write8Views(reg: u16, value: int)
    ensures Selected(Write8Calls(reg, value)) == [reg]
    ensures Sent(Write8Calls(reg, value)) == [value]
    ensures Reads(Write8Calls(reg, value)) == 0
  {
    SelectSelects(reg);
    assert Write8Calls(reg, value) == [Select(reg)] + [Write(value)];
    SelectedAppend([Select(reg)], [Write(value)]);
  }

  /** write_reg16 / writeReg16 on the wire: one selected register, then the
      value big-endian (high byte first), no read. */
  lemma Write16Views(reg: u16, value: int)
    ensures Selected(Write16Calls(reg, value)) == [reg]
    ensures Sent(Write16Calls(reg, value)) == [HighByte(value), LowByte(value)]
    ensures Reads(Write16Calls(reg, value)) == 0
  {
    SelectSelects(reg);
    assert Write16Calls(reg, value) == [Select(reg)] + [Write(HighByte(value)), Write(LowByte(value))];
    SelectedAppend([Select(reg)], [Write(HighByte(value)), Write(LowByte(value))]);
    SelectedAppend([Write(HighByte(value))], [Write(LowByte(value))]);
  }

  /** read_reg8 / readReg8 on the wire: one selected register, nothing written, one read. */
  lemma Read8Views(reg: u16)
    ensures Selected(Read8Calls(reg)) == [reg]
    ensures Sent(Read8Calls(reg)) == []
    ensures Reads(Read8Calls(reg)) == 1
  {
    SelectSelects(reg);
    assert Read8Calls(reg) == [Select(reg)] + [Read];
    SelectedAppend([Select(reg)], [Read]);
  }

  /** read_reg16 / readReg16 on the wire: one selected register, nothing written, two reads. */
  lemma Read16Views(reg: u16)
    ensures Selected(Read16Calls(reg)) == [reg]
    ensures Sent(Read16Calls(reg)) == []
    ensures Reads(Read16Calls(reg)) == 2
  {
    SelectSelects(reg);
    assert Read16Calls(reg) == [Select(reg)] + [Read, Read];
    SelectedAppend([Select(reg)], [Read, Read]);
  }

  /** The views of a log made of three consecutive parts. */
  lemma Views3(a: seq<PiCall>, b: seq<PiCall>, c: seq<PiCall>)
    ensures Selected(a + b + c) == Selected(a) + Selected(b) + Selected(c)
    ensures Sent(a + b + c) == Sent(a) + Sent(b) + Sent(c)
    ensures Reads(a + b + c) == Reads(a) + Reads(b) + Reads(c)
  {
    SelectedAppend(a, b);
    SelectedAppend(a + b, c);
  }

  /** Two 8-bit register writes in a row. */
  lemma Write8Pair(r1: u16, v1: int, r2: u16, v2: int)
    ensures Selected(Write8Calls(r1, v1) + Write8Calls(r2, v2)) == [r1, r2]
    ensures Sent(Write8Calls(r1, v1) + Write8Calls(r2, v2)) == [v1, v2]
    ensures Reads(Write8Calls(r1, v1) + Write8Calls(r2, v2)) == 0
  {
    Write8Views(r1, v1);
    Write8Views(r2, v2);
    SelectedAppend(Write8Calls(r1, v1), Write8Calls(r2, v2));
  }

  /** Three 8-bit register writes in a row. */
  lemma Write8Triple(r1: u16, v1: int, r2: u16, v2: int, r3: u16, v3: int)
    ensures Selected(Write8Calls(r1, v1) + Write8Calls(r2, v2) + Write8Calls(r3, v3)) == [r1, r2, r3]
    ensures Sent(Write8Calls(r1, v1) + Write8Calls(r2, v2) + Write8Calls(r3, v3)) == [v1, v2, v3]
    ensures Reads(Write8Calls(r1, v1) + Write8Calls(r2, v2) + Write8Calls(r3, v3)) == 0
  {
    Write8Views(r1, v1);
    Write8Views(r2, v2);
    Write8Views(r3, v3);
    Views3(Write8Calls(r1, v1), Write8Calls(r2, v2), Write8Calls(r3, v3));
  }

  /** Two 16-bit register writes in a row. */
  lemma Write16Pair(r1: u16, v1: int, r2: u16, v2: int)
    ensures Selected(Write16Calls(r1, v1) + Write16Calls(r2, v2)) == [r1, r2]
    ensures Sent(Write16Calls(r1, v1) + Write16Calls(r2, v2))
      == [HighByte(v1), LowByte(v1), HighByte(v2), LowByte(v2)]
    ensures Reads(Write16Calls(r1, v1) + Write16Calls(r2, v2)) == 0
  {
    Write16Views(r1, v1);
    Write16Views(r2, v2);
    SelectedAppend(Write16Calls(r1, v1), Write16Calls(r2, v2));
  }

  /** A polling loop's `n` 8-bit reads of `reg`, one after another. */
  function ReadLoop(reg: u16, n: nat): (r: seq<PiCall>)
    ensures |r| == 2 * n
  {
    seq(2 * n, j => if j % 2 == 0 then Select(reg) else Read)
  }

  /** One more pass of a polling loop appends one more 8-bit read. */
  lemma ReadLoopStep(reg: u16, n: nat)
    ensures ReadLoop(reg, n + 1) == ReadLoop(reg, n) + Read8Calls(reg)
  {
    var a, b := ReadLoop(reg, n + 1), ReadLoop(reg, n) + Read8Calls(reg);
    assert |a| == |b|;
    forall j | 0 <= j < |a| ensures a[j] == b[j] {
      if j >= 2 * n {
        assert j == 2 * n || j == 2 * n + 1;
      }
    }
  }

  /** `n` copies of one register. */
  function Copies(reg: int, n: nat): (r: seq<int>)
    ensures |r| == n && forall i | 0 <= i < n :: r[i] == reg
  {
    seq(n, _ => reg)
  }

  /** A polling loop of `n` 8-bit reads of `reg` selects `reg` exactly `n` times and writes nothing. */
  lemma {:induction false} ReadLoopViews(reg: u16, n: nat)
    ensures Selected(ReadLoop(reg, n)) == Copies(reg, n)
    ensures Sent(ReadLoop(reg, n)) == []
    ensures Reads(ReadLoop(reg, n)) == n
  {
    Read8Views(reg);
    if n == 0 {
      assert ReadLoop(reg, n) == [];
    } else {
      ReadLoopViews(reg, n - 1);
      ReadLoopStep(reg, n - 1);
      SelectedAppend(ReadLoop(reg, n - 1), Read8Calls(reg));
      assert Copies(reg, n) == Copies(reg, n - 1) + [reg];
    }
  }
}
