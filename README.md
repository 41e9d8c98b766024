# VL53L1X register-protocol drivers in Dafny

This project models the drivers of a Raspberry Pi project for the ST VL53L1X
time-of-flight distance sensor, and proves properties of that model. Each
driver is modelled as it is written. They are not merged into one, because
they differ in encoding, acceptance window and error handling.

- **`vl53l1x_wiringpi.py`** (module `WiringPiPy`): class `VL53L1XWiringPi`.
  - Every register access is a wiringPi address phase followed by data calls.
  - Each helper swallows its own exception.
  - `Sensor.log` records, per `try` block, the wiringPi calls up to the first one that raised.
  - A constant `reply` gives what each call does.
- **`vl53l1x_wiringpi.c`** (module `WiringPiC`):
  - The same protocol, over the global handle `fd`.
  - `Handle.trace` is the flat log of wiringPi calls.
  - A constant `answer` gives each call's `int` result.
  - The module also covers the bookkeeping of the main loop (`RunStats`) and the bar length of `printDistance`.
- **`vl53l1x_minimal.py`** (module `Minimal`): class `VL53L1XMinimal`.
  - Every access is one smbus2 `i2c_rdwr` transaction: two big-endian address bytes, then data.
  - The bus is two constants indexed by call number: `fails` (the call raised) and `rx` (the bytes it read).
- **`vl53l1x_simple.py`** (module `Simple`): class `VL53L1XSimple`.
  - Every access is one 8-bit-register smbus2 call.
  - The module also covers the counters, bands and change display of `run_simple_sensor`.
- **`vl53l1x_advanced.py`** (module `Advanced`): the statistics of `AdvancedVL53L1XReader`.
  - It keeps a bounded history deque, the running minimum and maximum, and the counters.
  - It computes the velocity differences and the six-band object state.
  - The sensor library it wraps is represented by what its calls did, passed as arguments.

Shared modules:
- `Bits`: bytes, 16-bit words and their halves.
- `Optional`: `Option`.
- `Registers`: the 16-bit register map and the constants `MODEL_ID` (0xEACC) and `FIRMWARE_TRIES` (100).
- `WiringPi`: the wiringPi call alphabet and what a call sequence selects, sends and reads.
- `Bands`: how many ascending thresholds a distance has reached.

Where one of these drivers differs from how such a driver is usually described, the model follows the code:

- The firmware wait gives up after 100 status reads in each of the three drivers that wait for the firmware. Only the C `initSensor` treats the timeout as fatal (it returns -1). Both Python drivers configure the sensor anyway.
- Each driver accepts a different window of readings:
  - Python wiringPi: 0 < d < 8000, and the status high nibble must be 0.
  - C: the same test, with -1 for "no reading".
  - `vl53l1x_minimal.py`: 20 < d < 8000, and it never reads the status.
  - `vl53l1x_simple.py`: d non-zero and below 8190, with no ready check and no status read.
- The minimal driver's configuration ends with the interrupt configuration. Unlike the wiringPi drivers, it writes no interrupt clear afterwards.
- There is no ranging state machine. `stop_variable` in the minimal driver is written and never read.
- The outer `try` of the Python wiringPi `get_distance` never fires, because every helper handles its own exception.
- `vl53l1x_simple.py` names the VCSEL period registers 0x62 and 0x63, where the other drivers use 0x0060 and 0x0063. The driver never uses them.

## Model

| member | source | states |
|---|---|---|
| Bits.Word | vl53l1x_wiringpi.py:129-139 | the 16-bit word built from two bytes gives back the high and the low byte it was built from |
| WiringPi.Write8Views | vl53l1x_wiringpi.c:38-44 | an 8-bit register write selects exactly its register, sends its one byte and reads nothing |
| WiringPi.Write16Views | vl53l1x_wiringpi.c:46-53 | a 16-bit register write selects its register and sends the value high byte first, then low byte |
| WiringPi.Read8Views | vl53l1x_wiringpi.c:55-61 | an 8-bit register read selects its register, writes nothing and reads once |
| WiringPi.Read16Views | vl53l1x_wiringpi.c:63-71 | a 16-bit register read selects its register, writes nothing and reads twice |
| WiringPiPy.Write8TryViews | vl53l1x_wiringpi.py:97-106 | however write_reg8 fails, it selects its register, sends its byte only if the address phase returned, and never reads |
| WiringPiPy.Write16TryViews | vl53l1x_wiringpi.py:108-117 | however write_reg16 fails, it selects its register and sends a prefix of the big-endian value bytes |
| WiringPiPy.Read8TryViews | vl53l1x_wiringpi.py:119-127 | however read_reg8 fails, it selects its register and writes nothing; it reads once unless the address phase raised |
| WiringPiPy.Read16TryViews | vl53l1x_wiringpi.py:129-139 | however read_reg16 fails, it selects its register and writes nothing |
| WiringPiPy.FirstReady | vl53l1x_wiringpi.py:153-160 | the wait's exit index: every read before it is not ready, and it is ready unless it is 100 |
| WiringPiPy.FirstReadyIs | vl53l1x_wiringpi.py:153-160 | that exit index is unique: the index with only unready reads before it that is itself ready or the end |
| WiringPiPy.PollsBound | vl53l1x_wiringpi.py:153-160 | the wait reads 1 to 100 times, stops right after the first ready read, and its last read is ready iff any of the 100 is |
| WiringPiPy.WaitBlocksStep | vl53l1x_wiringpi.py:153-158 | one more pass of the loop appends one more FIRMWARE_SYSTEM_STATUS read |
| WiringPiPy.OpenResult | vl53l1x_wiringpi.py:69-95 | open succeeds iff both setups returned, the handle is non-negative and the model ID is 0xEACC; then the handle is stored and exactly those calls were made |
| WiringPiPy.VcselSelects | vl53l1x_wiringpi.py:164-168 | the laser-period and phase writes address their three registers in order, whichever calls raise |
| WiringPiPy.WindowSelects | vl53l1x_wiringpi.py:171-174 | the detection-window writes address their four registers in order, whichever calls raise |
| WiringPiPy.TimingInterruptSelects | vl53l1x_wiringpi.py:177-184 | the timing writes and the interrupt writes address their registers in order, INTERRUPT_CLEAR last |
| WiringPiPy.ConfigSelects | vl53l1x_wiringpi.py:164-184 | the configuration addresses its eleven registers in source order, whichever calls raise |
| WiringPiPy.ConfigHealthy | vl53l1x_wiringpi.py:164-184 | with no exception, the configuration issues every call of every write with the source's values |
| WiringPiPy.ResetSelects | vl53l1x_wiringpi.py:146-148 | the soft reset addresses SOFT_RESET twice and reads nothing; it sends 0x00 then 0x01, each unless its address phase raised, so exactly [0x00, 0x01] when nothing raises |
| WiringPiPy.WaitSelects | vl53l1x_wiringpi.py:153-158 | a wait of p polls addresses FIRMWARE_SYSTEM_STATUS p times |
| WiringPiPy.InitSelects | vl53l1x_wiringpi.py:141-186 | init_sensor addresses SOFT_RESET twice, then the status register once per poll, then the whole configuration, even after a timeout |
| WiringPiPy.StartViews | vl53l1x_wiringpi.py:188-197 | start_ranging addresses INTERRUPT_CLEAR then SYSTEM_MODE_START and, with no exception, sends 0x01 then 0x40 |
| WiringPiPy.StopViews | vl53l1x_wiringpi.py:199-201 | stop_ranging addresses SYSTEM_MODE_START and sends at most 0x00; calling it twice repeats the same calls |
| WiringPiPy.GetDistanceNotReady | vl53l1x_wiringpi.py:210-215 | when the data-ready bit is clear, get_distance makes one access, writes nothing and returns None |
| WiringPiPy.GetDistanceReady | vl53l1x_wiringpi.py:210-224 | when data is ready, it addresses the GPIO status, the range status, the distance and INTERRUPT_CLEAR, once each and in that order; the only byte written is 0x01 to INTERRUPT_CLEAR, unless that write raised |
| WiringPiPy.GetDistanceResult | vl53l1x_wiringpi.py:203-235 | it returns a distance iff data was ready, 0 < d < 8000 and the status high nibble is 0; the distance is the two bytes read, high byte first |
| WiringPiPy.Sensor.WriteReg8 | vl53l1x_wiringpi.py:97-106 | logs the address phase and the data byte as one try block, cut short by an exception |
| WiringPiPy.Sensor.WriteReg16 | vl53l1x_wiringpi.py:108-117 | logs the address phase and the two value bytes as one try block |
| WiringPiPy.Sensor.ReadReg8 | vl53l1x_wiringpi.py:119-127 | logs one try block and returns the byte read, or 0 on an exception |
| WiringPiPy.Sensor.ReadReg16 | vl53l1x_wiringpi.py:129-139 | logs one try block and returns the big-endian word, or 0 on an exception |
| WiringPiPy.Sensor.Open | vl53l1x_wiringpi.py:69-95 | logs open's calls, returns its verdict and keeps the handle only when wiringPiI2CSetup returned |
| WiringPiPy.Sensor.WaitForFirmware | vl53l1x_wiringpi.py:153-160 | the loop logs exactly Polls status reads |
| WiringPiPy.Sensor.ConfigureVcsel | vl53l1x_wiringpi.py:164-168 | logs the laser-period and phase writes |
| WiringPiPy.Sensor.ConfigureWindow | vl53l1x_wiringpi.py:171-174 | logs the detection-window writes |
| WiringPiPy.Sensor.ConfigureTiming | vl53l1x_wiringpi.py:177-178 | logs the timing-budget writes |
| WiringPiPy.Sensor.ConfigureInterrupt | vl53l1x_wiringpi.py:181-184 | logs the interrupt configuration and then the interrupt clear |
| WiringPiPy.Sensor.Configure | vl53l1x_wiringpi.py:164-184 | logs the whole configuration in source order |
| WiringPiPy.Sensor.SoftReset | vl53l1x_wiringpi.py:146-148 | logs 0x00 then 0x01 to SOFT_RESET |
| WiringPiPy.Sensor.InitSensor | vl53l1x_wiringpi.py:141-186 | logs reset, wait and configuration, the configuration whatever the wait found |
| WiringPiPy.Sensor.StartRanging | vl53l1x_wiringpi.py:188-197 | logs the interrupt clear and the start of ranging |
| WiringPiPy.Sensor.StopRanging | vl53l1x_wiringpi.py:199-201 | logs the stop write |
| WiringPiPy.Sensor.GetDistance | vl53l1x_wiringpi.py:203-235 | logs get_distance's blocks and returns the filtered reading |
| WiringPiPy.Sensor.Close | vl53l1x_wiringpi.py:237-241 | stops ranging exactly when a handle was stored, otherwise does nothing |
| WiringPiC.FirstReady | vl53l1x_wiringpi.c:97-103 | the loop's exit index: every earlier read is not ready, and it is ready unless it is 100 |
| WiringPiC.FirstReadyIs | vl53l1x_wiringpi.c:97-103 | that exit index is unique |
| WiringPiC.ConfigViews | vl53l1x_wiringpi.c:111-121 | the configuration selects its seven registers in source order, sends the nine data bytes and reads nothing |
| WiringPiC.ResetViews | vl53l1x_wiringpi.c:90-93 | the soft reset selects SOFT_RESET twice and sends 0x00 then 0x01 |
| WiringPiC.Polls | vl53l1x_wiringpi.c:97-103 | the wait reads the status between 1 and 100 times |
| WiringPiC.BootViews | vl53l1x_wiringpi.c:95-124 | after the reset, the wait's reads come first, then the configuration only if a read was ready |
| WiringPiC.InitSensorWrongId | vl53l1x_wiringpi.c:81-87 | with a wrong model ID, initSensor makes one 16-bit read, writes nothing and returns -1 |
| WiringPiC.InitSensorViews | vl53l1x_wiringpi.c:74-125 | with the right model ID: the ID read, the reset, Polls status reads, then the configuration iff the firmware booted |
| WiringPiC.InitSensorResult | vl53l1x_wiringpi.c:74-125 | initSensor returns 0 or -1, and 0 iff the ID is 0xEACC and one of the 100 status reads was ready |
| WiringPiC.GetDistanceViews | vl53l1x_wiringpi.c:140-168 | not ready: one read and -1; ready: status, range status, distance, then one 0x01 write to INTERRUPT_CLEAR |
| WiringPiC.GetDistanceResult | vl53l1x_wiringpi.c:140-168 | it returns -1 or a value in (0, 8000); a value iff ready, in the window and the status high nibble is 0; that value is the distance word |
| WiringPiC.RangingViews | vl53l1x_wiringpi.c:128-137 | startRanging sends 0x01 to INTERRUPT_CLEAR then 0x40 to SYSTEM_MODE_START; stopRanging sends 0x00 there |
| WiringPiC.Quot | vl53l1x_wiringpi.c:188 | C division truncates toward zero: the quotient brackets the dividend from the side of zero |
| WiringPiC.Bars | vl53l1x_wiringpi.c:188-189 | the bar count is at most 40, 40 iff the distance is at least 4000, and below that is the distance's hundreds |
| WiringPiC.BarsMonotone | vl53l1x_wiringpi.c:188-189 | a longer distance never draws a shorter bar |
| WiringPiC.RunStats.Observe | vl53l1x_wiringpi.c:257-269 | a positive reading is counted, summed and folded into min/max (kept bounding every reading); otherwise errors grows by one |
| WiringPiC.RunStats.MinNotAboveMax | vl53l1x_wiringpi.c:211-212 | after one positive reading, min_dist <= max_dist |
| WiringPiC.Handle.Call | vl53l1x_wiringpi.c:38-71 | one wiringPi call is logged and returns the device's answer for its index |
| WiringPiC.Handle.WriteReg8 | vl53l1x_wiringpi.c:38-44 | logs the address phase and the byte |
| WiringPiC.Handle.WriteReg16 | vl53l1x_wiringpi.c:46-53 | logs the address phase and the value's two bytes, high first |
| WiringPiC.Handle.ReadReg8 | vl53l1x_wiringpi.c:55-61 | logs one read and returns it masked to a byte |
| WiringPiC.Handle.ReadReg16 | vl53l1x_wiringpi.c:63-71 | logs two reads; the result's high and low bytes are the two masked reads |
| WiringPiC.Handle.WaitForFirmware | vl53l1x_wiringpi.c:97-103 | returns the loop index FirstReady and logs one status read per pass, the breaking one included |
| WiringPiC.Handle.SoftReset | vl53l1x_wiringpi.c:90-93 | logs the two reset writes |
| WiringPiC.Handle.Configure | vl53l1x_wiringpi.c:111-121 | logs the configuration writes |
| WiringPiC.Handle.Boot | vl53l1x_wiringpi.c:95-124 | logs the wait and, unless it timed out, the configuration; returns -1 on timeout, 0 otherwise |
| WiringPiC.Handle.InitSensor | vl53l1x_wiringpi.c:74-125 | logs initSensor's calls and returns its result |
| WiringPiC.Handle.StartRanging | vl53l1x_wiringpi.c:128-133 | logs the clear and the start |
| WiringPiC.Handle.StopRanging | vl53l1x_wiringpi.c:135-137 | logs the stop |
| WiringPiC.Handle.GetDistance | vl53l1x_wiringpi.c:140-168 | logs getDistance's calls and returns the filtered reading or -1 |
| Minimal.MessageRoundTrip | vl53l1x_minimal.py:46-63 | a write_reg message is two bytes longer than its data and decodes back into its register and data |
| Minimal.PayloadOfValue | vl53l1x_minimal.py:49-56 | writing an int sends the same message as writing the one-element list holding it; after the address comes exactly the data given |
| Minimal.CallViews | vl53l1x_minimal.py:46-79 | a write_reg call addresses its register and writes its message; a read_reg call addresses its register and writes nothing |
| Minimal.TargetsAppend | vl53l1x_minimal.py:46-79 | the registers addressed and the messages written by consecutive calls concatenate |
| Minimal.Zeros | vl53l1x_minimal.py:78-79 | `[0] * num_bytes` has num_bytes zero bytes |
| Minimal.Received | vl53l1x_minimal.py:65-79 | read_reg yields exactly the requested number of bytes |
| Minimal.ReceivedBytes | vl53l1x_minimal.py:65-79 | byte j of read_reg's result is the device's byte j, or 0 when the transfer raised |
| Minimal.FirstReady | vl53l1x_minimal.py:92-95 | the wait's exit index: every earlier read is not ready, and it is ready unless it is 100 |
| Minimal.FirstReadyIs | vl53l1x_minimal.py:92-95 | that exit index is unique |
| Minimal.PollsBound | vl53l1x_minimal.py:92-95 | the wait reads 1 to 100 times, stops after the first ready read, and its last read is ready iff any of the 100 is |
| Minimal.PollCalls | vl53l1x_minimal.py:92-95 | p polls are p calls |
| Minimal.ConfigViews | vl53l1x_minimal.py:101-117 | the configuration addresses its eleven registers in source order, pad first and interrupt configuration last, each with its data list |
| Minimal.ResetViews | vl53l1x_minimal.py:86-88 | the soft reset addresses 0x0000 twice, writing 0x00 then 0x01 |
| Minimal.PollViews | vl53l1x_minimal.py:92-95 | p status reads address 0x0010 p times and write nothing |
| Minimal.InitViews | vl53l1x_minimal.py:81-119 | init_sensor resets first, reads the status once per poll, then configures, whatever the wait found |
| Minimal.RangingViews | vl53l1x_minimal.py:121-140 | start_ranging writes 0x01 to 0x0086 then 0x40 to 0x0087; stop_ranging writes only 0x00 to 0x0087 |
| Minimal.GetDistanceNotReady | vl53l1x_minimal.py:146-149 | when the ready bit is clear, get_distance makes one read, writes nothing and returns None |
| Minimal.GetDistanceReady | vl53l1x_minimal.py:146-156 | when ready, it reads 0x0031 and 0x0096, writes 0x01 to 0x0086 once, and never addresses the range status 0x0089 |
| Minimal.GetDistanceResult | vl53l1x_minimal.py:142-165 | it returns a distance iff ready and 20 < d < 8000; the distance is the two bytes, high first |
| Minimal.Sensor.Open | vl53l1x_minimal.py:28-44 | true iff SMBus() and the probe both succeeded; the bus stays open once SMBus() succeeded |
| Minimal.Sensor.WriteReg | vl53l1x_minimal.py:46-63 | on an open bus, one transaction with the address bytes and the data; nothing on a closed one |
| Minimal.Sensor.ReadReg | vl53l1x_minimal.py:65-79 | on an open bus, one write-then-read transaction returning the bytes, zeros on error; zeros and no call on a closed one |
| Minimal.Sensor.SoftReset | vl53l1x_minimal.py:86-88 | the two reset writes |
| Minimal.Sensor.WaitForFirmware | vl53l1x_minimal.py:92-95 | exactly Polls status reads |
| Minimal.Sensor.ConfigureMeasurement | vl53l1x_minimal.py:101-106 | the first four configuration writes |
| Minimal.Sensor.ConfigureWindow | vl53l1x_minimal.py:107-110 | the SD window and phase writes |
| Minimal.Sensor.ConfigureTiming | vl53l1x_minimal.py:113-117 | the timing writes and the interrupt configuration |
| Minimal.Sensor.Configure | vl53l1x_minimal.py:101-117 | the eleven configuration writes in order |
| Minimal.Sensor.InitSensor | vl53l1x_minimal.py:81-119 | reset, wait and configuration calls, nothing when the bus is closed |
| Minimal.Sensor.StartRanging | vl53l1x_minimal.py:121-135 | stop_variable becomes 0, then the clear and the start |
| Minimal.Sensor.StopRanging | vl53l1x_minimal.py:137-140 | the stop write, then stop_variable becomes 1 |
| Minimal.Sensor.GetDistance | vl53l1x_minimal.py:142-165 | get_distance's calls and filtered reading; None and no call on a closed bus |
| Minimal.Sensor.Close | vl53l1x_minimal.py:167-172 | when the bus is open: the stop write, then the close; otherwise nothing |
| Simple.WordReply | vl53l1x_simple.py:85-94 | read_word gives None iff the block read raised, else the word whose high and low bytes are the two bytes read |
| Simple.GetDistanceCallsShape | vl53l1x_simple.py:101-128 | get_distance triggers 0x40 first, writes the interrupt clear exactly once and last, and never reads the range status |
| Simple.GetDistanceAccepts | vl53l1x_simple.py:101-128 | it returns a reading iff the word read succeeded and is non-zero and below 8190; the reading is that word |
| Simple.Sensor.Init | vl53l1x_simple.py:50-68 | true iff SMBus() and the probe of register 0x00 succeed; the bus stays open after a failed probe |
| Simple.Sensor.WriteByte | vl53l1x_simple.py:70-75 | one write_byte_data on an open bus, nothing otherwise |
| Simple.Sensor.ReadByte | vl53l1x_simple.py:77-83 | one read_byte_data giving the byte or None; None and no call on a closed bus |
| Simple.Sensor.ReadWord | vl53l1x_simple.py:85-94 | one two-byte block read giving the word or None; None and no call on a closed bus |
| Simple.Sensor.StartMeasurement | vl53l1x_simple.py:96-99 | writes 0x40 to SYSTEM_MODE_START |
| Simple.Sensor.GetDistance | vl53l1x_simple.py:101-128 | the three calls of get_distance, whatever the read gave, and the filtered reading |
| Simple.Sensor.Close | vl53l1x_simple.py:130-134 | closes the bus only when init opened it |
| Simple.BandCountsThresholds | vl53l1x_simple.py:186-193 | the indicator's band is the number of boundaries 100, 300, 1000 the distance reached |
| Simple.BandMonotone | vl53l1x_simple.py:186-193 | a farther reading never gets a closer band |
| Simple.ChangeOf | vl53l1x_simple.py:196-202 | a change is shown iff there was a previous reading and they differ by more than 5; up and down amounts reconstruct the new reading |
| Simple.Session.Record | vl53l1x_simple.py:165-209 | a reading bumps the count, shows its band and change and becomes the last reading; a failure bumps the error count, reported every tenth |
| Advanced.AppendKeepsLast | vl53l1x_advanced.py:111-112 | a deque with maxlen holding the last maxlen readings still holds the last maxlen after an append, and never more |
| Advanced.MinStep | vl53l1x_advanced.py:113 | the running minimum stays the minimum of all readings added |
| Advanced.MaxStep | vl53l1x_advanced.py:114 | the running maximum, from 0, stays the maximum of the positive readings added |
| Advanced.Reader.Initialize | vl53l1x_advanced.py:52-94 | true iff every library call succeeded; the sensor is kept once its constructor returned |
| Advanced.Reader.ReadWithStats | vl53l1x_advanced.py:96-135 | no sensor: None; raised: errors+1 and None; else count+1, positive readings appended and folded into min/max, stats empty iff history empty |
| Advanced.Reader.Record | vl53l1x_advanced.py:111-114 | a positive reading is appended to the deque and folded into min and max |
| Advanced.Reader.Bounds | vl53l1x_advanced.py:44-49 | min <= max once a reading is in; every positive reading ever seen lies between them; the history fits its size |
| Advanced.Reader.CalculateVelocity | vl53l1x_advanced.py:137-155 | None iff the history is shorter than the window, else the consecutive differences of the last window entries |
| Advanced.PySuffix | vl53l1x_advanced.py:150 | Python's `[-w:]`: w elements for 0 < w <= length, the whole list for w = 0 |
| Advanced.Differences | vl53l1x_advanced.py:153-155 | one element fewer, each the difference of consecutive entries |
| Advanced.ConsecutiveDifferences | vl53l1x_advanced.py:151-155 | the loop computes exactly the consecutive differences |
| Advanced.DifferencesTelescope | vl53l1x_advanced.py:153-157 | the differences sum to the newest entry minus the oldest |
| Advanced.VelocityWindow | vl53l1x_advanced.py:147-157 | a filled window of w >= 2 gives w - 1 differences summing to newest minus oldest of the window |
| Advanced.StateCountsThresholds | vl53l1x_advanced.py:159-180 | the object state's rank is the number of thresholds 50, 100, 300, 800, 1500 reached |
| Advanced.StateMonotone | vl53l1x_advanced.py:159-180 | a farther object is never in a closer state |
| Bands.ReachedMonotone | vl53l1x_advanced.py:159-180 | a larger distance reaches at least as many ascending thresholds |

## Left out

- Sleeps, prints, the emoji and labels of the display, `argparse`, signal handling, `json` and `datetime`: they do not affect the register traffic or the counters.
- Floating point: the Python statistics (mean, median, standard deviation), and the centimetre and metre conversions that the Python loops and the C `printDistance` print.
- Advanced.Reader.CalculateVelocity: returns the differences, not their `statistics.mean`. This is weaker than the source because the mean is a float. VelocityWindow states the sum the mean divides.
- Advanced.Reader.ReadWithStats: the library's `get_distance` is taken to return an int. A `None` would raise inside the `try` after the counter increment, and that case is not modelled.
- The library objects of `vl53l1x_advanced.py`: the VL53L1X constructor, open, mode, timing and start_ranging. They are represented by `InitOutcome` and `Reading`. The display modes, the summary and cleanup are left out.
- `vl53l1x_adafruit.py` and `vl53l1x_sensor_reader.py` are not part of this model. They drive the sensor through third-party libraries, not through registers.
- Register addresses are `u16` and written data are bytes, as in every call the drivers make. Out-of-range arguments are not modelled.
- Minimal.Sensor.Close and Simple.Sensor.Close: an exception raised by `bus.close()` itself is not modelled.
- The wiringPi library and the smbus2 transport are oracles (`reply`, `answer`, `fails`, `rx`), not implementations.
- The `mode` argument of the minimal driver's `start_ranging` is ignored by the source, so it is not a parameter.
- The C main loop's periodic "waiting" message and the simple loop's error message are output only. The decision to report on every tenth error is modelled.
- WiringPiC.RunStats.Observe: `count`, `errors` and `sum` are C `int`s incremented forever, but the model uses unbounded integers. The overflow of `sum` after about 2^31/8000 readings is undefined behaviour in C and is not modelled. The source never reads `sum`.
