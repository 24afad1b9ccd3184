# embd drivers: GPIO registers, bit-banged display buses, XPT2046 touch and UDOO board identification

This project is a Dafny model of the register-level and bus-level core of the
`embd` Go hardware library, with proofs about that model. It covers four groups.

- **Memory-mapped GPIO drivers.**
  - Raspberry Pi (BCM283x), `RpiGpio`:
    - the mapped window is an `array<bv32>` of 1024 words, with a ghost log of the stores made to it;
    - `SetDirection`, `Write` and `Read` work on the function-select, set, clear and level registers;
    - the pull-up/down sequence works on words 37 and 38/39.
  - UDOO Neo (i.MX6 SoloX), `UdooGpio`:
    - seven bank windows hold the DR, GDIR and PSR registers;
    - pad-control words live in the IOMUXC window;
    - there is a guarded `writeGpioReg` with its OR/XOR bit update, pad-table lookups and the pad pull computation.
- **Bit-banged display buses.**
  - Each pin write is an event `Drive(role, level)` appended to the trace of a `PinBus.Connection`.
  - A failing write is recorded, and a write whose error the Go code checks ends the operation.
  - `Play` is the reference interpreter for a table of writes; each driver routine is proved equal to `Play` over its table.
  - R61526 8080 parallel bus (`R61526`): command and data writes, 16-bit data, cursor window, user commands and screen clear.
  - ST7565 (`St7565`): command and data writes, `write8`, page addressing and screen clear.
- **XPT2046 touch controller.**
  - Bit-banged variant (`XptGpio`, with the sample filter in `TouchFilter`):
    - start, send and receive framing;
    - 10-sample in-place exchange sort with a trimmed mean;
    - the uint16 acceptance rule of `TOUCH_XPT_ReadXY`.
  - SPI variant (`XptSpi`): control bytes, response assembly, the filter as written, integer acceptance and the pressure formula.
- **UDOO board identification** (`BoardInfo`): the model-string table, the OTP unique id, `ModelName`, and the `Revision` line search over cpuinfo text.

What lies outside the model:
- **Hardware inputs become parameters.** These are the pin-level failures and DOUT samples (a `Wiring`), the SPI replies and failures (an `Oracle`), and the contents of the files read (`Result` values).
- **Sysfs outcomes become parameters.** Export, open, unregister and close outcomes are `bool` parameters.
- **Go panics become preconditions.** Examples are an index outside the mapped window, a nil pad-control window, and a division by zero.

## Model

| member | source | states |
|---|---|---|
| PinBus.Connection.Write | controller/r61526/r61526.go:612-627 | a write to a wired pin appends its event and reports the pin's failure; a write to a pin that is not wired (nil) appends nothing and succeeds |
| PinBus.Connection.Read | controller/r61526/xpt2046.go:348-362 | reading a wired pin appends a sample event and returns that position's level; an unwired pin reads Low |
| PinBus.Connection.Transfer | controller/r61526/r61526.go:400-433 | performing a table of pin writes appends exactly the events of the reference interpreter `Play` and reports its outcome |
| PinBus.PlayAppend | controller/r61526/r61526.go:35-67 | running two tables back to back is the same as running their concatenation, the second starting where the first stopped (stop-at-first-error composition) |
| PinBus.PlayPrefix | controller/r61526/r61526.go:400-433 | a run's trace is always a prefix of the error-free trace; the full trace when it succeeds, a strict prefix ending in the failing write when it fails |
| PinBus.PlayEmits | controller/r61526/r61526.go:400-433 | the trace of a run is a prefix of the error-free trace, and equals it when the run succeeds |
| PinBus.PlayFailsLast | controller/r61526/r61526.go:400-433 | a failed run stops right after the write that failed: its last event is that write |
| PinBus.PlayReliable | controller/r61526/r61526.go:400-433 | with no failing write in range, a run succeeds and emits every write to a wired pin |
| PinBus.PlayUnchecked | controller/st7565/st7565.go:228-243 | a table whose errors are all ignored always succeeds, whatever fails |
| PinBus.PlayOnlyWired | controller/r61526/r61526.go:612-615 | every event of a run concerns a wired pin: nil pins never appear |
| PinBus.EmittedAllWired | controller/r61526/r61526.go:612-627 | when every pin of a table is wired, the writes emitted are exactly the table's writes |
| PinBus.EmittedAppend | controller/r61526/r61526.go:35-67 | the emitted writes of a concatenation are the concatenation of the emitted writes |
| PinBus.IdealAppend | controller/r61526/r61526.go:35-67 | the error-free trace of a concatenation is the concatenation of the error-free traces |
| PinBus.CountPutsAppend | controller/r61526/r61526.go:474-512 | the number of writes of a given level to a pin adds up over concatenation |
| PinBus.CountPutsNone | controller/r61526/r61526.go:532-550 | a table that never names a pin has no write to it |
| PinBus.RepeatIdeal | controller/r61526/r61526.go:90-94 | k error-free repetitions of a table emit k copies of its writes, k times its length |
| PinBus.RepeatNext | controller/r61526/r61526.go:90-94 | one more repetition extends the trace of k repetitions to that of k + 1 |
| PinBus.RanThen | controller/r61526/r61526.go:98-110 | a successful part followed by the next part is the run of both parts together |
| PinBus.RanStop | controller/r61526/r61526.go:98-110 | once a part fails, the whole run has the same trace and fails, whatever would have followed |
| PinBus.ThenAssoc | controller/r61526/r61526.go:35-67 | sequencing runs is associative |
| R61526.ChangeGrb | controller/r61526/r61526.go:69-77 | result bits 0-4 are colour bits 11-15, bit 5 is always 0, bits 6-10 are colour bits 5-9, bit 11 is colour bit 0 or bit 10, bits 12-15 are colour bits 1-4 |
| R61526.Db8RoundTrip | controller/r61526/r61526.go:532-550 | decoding the eight data lines driven by fillDB8 gives back the byte: line DBi carries bit i |
| R61526.DbOnly | controller/r61526/r61526.go:532-550 | fillDB8 drives only data lines |
| R61526.DbRoles | controller/r61526/r61526.go:532-550 | every pin fillDB8 drives is a bus pin |
| R61526.Data16Halves | controller/r61526/r61526.go:488-489 | the high and low bytes written by WriteData16 reassemble into the 16-bit value |
| R61526.WiredIdeal | controller/r61526/r61526.go:400-512 | with all bus pins wired and no failure, any bus table succeeds and emits exactly its writes |
| R61526.WriteCmdEmits | controller/r61526/r61526.go:400-433 | without failures WriteCmd emits CS=0, RD=1, RS=0, WR=0, DB0..DB7 = the command's bits 0..7, WR=1, CS=1 |
| R61526.WriteCmdIgnoresFinalCs | controller/r61526/r61526.go:429-432 | when only the final CS=1 write fails, WriteCmd still succeeds with all 14 events |
| R61526.CmdPhase | controller/r61526/r61526.go:400-433 | a command write selects RS low once and never RS high |
| R61526.WriteDataEmits | controller/r61526/r61526.go:436-472 | without failures WriteData emits CS=0, RD=1, RS=1, WR=0, the data bits, WR=1, CS=1 |
| R61526.WriteDataWithoutRd | controller/r61526/r61526.go:436-472 | with the RD line omitted, WriteData emits the same frame without the RD event |
| R61526.DataPhase | controller/r61526/r61526.go:436-472 | a data write selects RS high once and never RS low |
| R61526.WriteData16Emits | controller/r61526/r61526.go:474-512 | without failures WriteData16 emits CS=0, RD=1, RS=1, high byte, WR=0, WR=1, low byte, WR=0, WR=1, CS=1 |
| R61526.Data16Ideal | controller/r61526/r61526.go:474-512 | the error-free trace of WriteData16 is that frame, with the high byte first |
| R61526.Data16WrStrobes | controller/r61526/r61526.go:474-512 | WriteData16 drives WR low exactly twice and high exactly twice |
| R61526.Data16Select | controller/r61526/r61526.go:474-512 | WriteData16 asserts CS once and releases it once |
| R61526.Parallel8080.FillDB8 | controller/r61526/r61526.go:532-550 | fillDB8 drives DB0..DB7 in ascending order, stopping at the first failing write |
| R61526.Parallel8080.WriteCmd | controller/r61526/r61526.go:400-433 | WriteCmd performs its table with the final CS error ignored |
| R61526.Parallel8080.WriteData | controller/r61526/r61526.go:436-472 | WriteData performs its table with the WR=1 and CS=1 errors ignored |
| R61526.Parallel8080.WriteData16 | controller/r61526/r61526.go:474-512 | WriteData16 performs its table, aborting on the first checked error |
| R61526.CursorNext | controller/r61526/r61526.go:35-67 | each successful SetCursor step extends the prefix; a failing one ends the whole sequence |
| R61526.CursorStop | controller/r61526/r61526.go:35-67 | a failure in a SetCursor prefix is the failure of the whole sequence |
| R61526.Lcd.SetCursor | controller/r61526/r61526.go:35-67 | SetCursor runs cmd 0x2A, xStart, xEnd, cmd 0x2B, yStart, yEnd, cmd 0x2C in that order, stopping at the first error |
| R61526.UserNext | controller/r61526/r61526.go:98-110 | each successful parameter write extends ExecUserCmd's prefix; a failing one ends it |
| R61526.UserStop | controller/r61526/r61526.go:98-110 | a failure after k parameters is the failure of the whole command |
| R61526.UserPhases | controller/r61526/r61526.go:98-110 | a user command selects RS low exactly once and RS high once per parameter |
| R61526.Lcd.ExecUserCmd | controller/r61526/r61526.go:98-110 | ExecUserCmd writes the command, then each parameter in order as data, aborting on the first error |
| R61526.ClearIdeal | controller/r61526/r61526.go:80-96 | with no failure, the clear loop emits 479 × 319 copies of the WriteData16 frame of the converted colour |
| R61526.Lcd.Clear | controller/r61526/r61526.go:80-96 | Clear sets the cursor to (0, 0, 319, 479), returns its error if it fails, and otherwise makes 479 × 319 WriteData16 calls of the converted colour with their errors ignored |
| R61526.Lcd.FillScreen | controller/r61526/r61526.go:88-94 | the nested loop appends exactly the repeated WriteData16 traces |
| R61526.NewGpioPins | controller/r61526/r61526.go:560-596 | succeeds iff every non-nil pin is created; on success the pin set is the non-nil keys and all are set to output; on failure nothing is kept |
| R61526.KeySetSnoc | controller/r61526/r61526.go:565-568 | the collected pin set grows by a key exactly when the key is non-nil |
| R61526.KeySetWitness | controller/r61526/r61526.go:565-568 | every collected pin comes from a key at some position |
| RpiGpio.FselShift | host/rpi/rpiDigitalpin.go:232-235 | the function-select shift `(n % 10) * 3` leaves room for the 3-bit field in a 32-bit word |
| RpiGpio.PinMaskOneHot | host/rpi/rpiDigitalpin.go:288-300 | the value stored by Write has exactly one bit set, bit `n & 31` |
| RpiGpio.FunctionSelectField | host/rpi/rpiDigitalpin.go:240-248 | after SetDirection the pin's 3-bit field is 000 for input and 001 for output |
| RpiGpio.FunctionSelectKeeps | host/rpi/rpiDigitalpin.go:240-248 | SetDirection keeps every bit of the word outside the pin's field |
| RpiGpio.SelectAfterClear | host/rpi/rpiDigitalpin.go:245-246 | the output path's double store gives the same word as the single output update |
| RpiGpio.LevelOf | host/rpi/rpiDigitalpin.go:267-273 | Read's result is always 0 or 1 |
| RpiGpio.LevelOfBit | host/rpi/rpiDigitalpin.go:267-273 | the uint8 mask reads 1 iff its shift is below 32 and the word has that bit (both directions) |
| RpiGpio.HighPinsReadLow | host/rpi/rpiDigitalpin.go:267 | pins 32 to 255 always read 0, because `1 << uint8(n)` is zero as a uint32 |
| RpiGpio.LowPinsReadBit | host/rpi/rpiDigitalpin.go:267-273 | pins below 32 read 1 iff their bit of the level word is set |
| RpiGpio.LowPinHigh | host/rpi/rpiDigitalpin.go:267-273 | a pin below 32 that reads 1 has its bit of the level word set |
| RpiGpio.LowBitHigh | host/rpi/rpiDigitalpin.go:267-273 | a pin below 32 whose bit of the level word is set reads 1 |
| RpiGpio.PullSelect | host/rpi/rpiDigitalpin.go:452-453 | for pull down or up, the low two bits of word 37 become the pull code |
| RpiGpio.PullSelectKeeps | host/rpi/rpiDigitalpin.go:452-453 | selecting a pull code keeps every other bit of word 37 |
| RpiGpio.PullCleared | host/rpi/rpiDigitalpin.go:454-455 | clearing leaves the low two bits of word 37 at 0 |
| RpiGpio.PullEndsCleared | host/rpi/rpiDigitalpin.go:451-467 | whichever code was selected, the final word 37 is the original with its low two bits cleared |
| RpiGpio.PullStores | host/rpi/rpiDigitalpin.go:445-468 | gpioPullMode makes four stores for a known pull code (0..2) and three otherwise |
| RpiGpio.GpioMemory.Put | host/rpi/rpiDigitalpin.go:245-246 | a store changes exactly one word and is logged |
| RpiGpio.PullMode | host/rpi/rpiDigitalpin.go:443-469 | on a mapped window gpioPullMode makes its stores in order: code to word 37, one-hot to clock word n/32+38, clear word 37, zero clock word; word 37 ends cleared, the clock word ends 0, and nothing else changes |
| RpiGpio.StorePullCode | host/rpi/rpiDigitalpin.go:451-456 | on a mapped window only word 37 changes, and it becomes the selected code |
| RpiGpio.Pin.Init | host/rpi/rpiDigitalpin.go:154-180 | an initialized pin returns no error and stays initialized; an unmapped window gives "memory map not init"; otherwise the pin becomes initialized iff export and open succeed |
| RpiGpio.Pin.SetDirection | host/rpi/rpiDigitalpin.go:222-254 | on success word n/10 gets its field set to 000 or 001 (output by clear-then-set) and no other word changes; an uninitialized pin on an unmapped window gives "memory map not init"; on any error nothing is stored; afterwards the pin is initialized iff it was already or init succeeded now |
| RpiGpio.Pin.Read | host/rpi/rpiDigitalpin.go:257-274 | on success returns the level of word n/32+13 under the uint8 mask; an uninitialized pin on an unmapped window gives "memory map not init"; on any error returns 0; afterwards the pin is initialized iff it was already or init succeeded now |
| RpiGpio.Pin.Write | host/rpi/rpiDigitalpin.go:277-302 | on success stores exactly `1 << (n & 31)` into word n/32+10 for Low and word n/32+7 otherwise, with no other change; an uninitialized pin on an unmapped window gives "memory map not init"; on any error nothing is stored; afterwards the pin is initialized iff it was already or init succeeded now; only the register the value selects needs to lie in the window |
| RpiGpio.Pin.PullUpPin | host/rpi/rpiDigitalpin.go:372-376 | on a mapped window PullUp returns nil after the pull-up store sequence, leaving word 37 with its pull bits cleared, the clock word 0 and every other word unchanged |
| RpiGpio.Pin.PullDownPin | host/rpi/rpiDigitalpin.go:379-382 | on a mapped window PullDown returns nil after the pull-down store sequence, leaving word 37 with its pull bits cleared, the clock word 0 and every other word unchanged |
| RpiGpio.Pin.Watch | host/rpi/rpiDigitalpin.go:427-433 | Watch always fails with "not implemented" |
| RpiGpio.Pin.StopWatching | host/rpi/rpiDigitalpin.go:435-438 | StopWatching always fails with "not implemented" |
| RpiGpio.Pin.Close | host/rpi/rpiDigitalpin.go:385-388 | Close always fails with StopWatching's error, before unregistering |
| UdooGpio.FindPad | host/udoo/udooDigitalpin.go:225-246 | the pad search returns the first table entry whose pin number matches, or none if no entry matches |
| UdooGpio.FindPadFirst | host/udoo/udooDigitalpin.go:226-231 | an entry preceded by no match for the pin is the one found |
| UdooGpio.PadThreeMissing | host/udoo/udooDigitalpin.go:64-103 | pin 3 has no pad entry in the table |
| UdooGpio.PadBankOneRegistered | host/udoo/udooDigitalpin.go:64-103 | pins 4 to 25 all have pad entries |
| UdooGpio.GpioMemory.BankBase | host/udoo/udooDigitalpin.go:248-273 | banks 1..7 give their window; any other bank is an error |
| UdooGpio.GpioMemory.ReadGpioReg | host/udoo/udooDigitalpin.go:275-289 | succeeds iff io is 1..31, the memory is mapped and the bank is 1..7, checked in that order; the value is bit io of the register |
| UdooGpio.GpioMemory.ReadGpioRegBit | host/udoo/udooDigitalpin.go:286-288 | a successful register read is 0 or 1 |
| UdooGpio.GpioMemory.WriteGpioReg | host/udoo/udooDigitalpin.go:290-317 | errors for a bad bank, io 0 or above 31, unmapped memory or a read-only register, with no change; otherwise only bit io of that one word changes: OR for high, XOR for low |
| UdooGpio.BitValueBinary | host/udoo/udooDigitalpin.go:286-288 | a register bit value is at most 1 |
| UdooGpio.OrSetsBit | host/udoo/udooDigitalpin.go:310-311 | a high write sets the pin's bit |
| UdooGpio.OrKeepsOthers | host/udoo/udooDigitalpin.go:310-311 | a high write keeps every other bit |
| UdooGpio.XorFlipsBit | host/udoo/udooDigitalpin.go:312-315 | a low write toggles the pin's bit instead of clearing it |
| UdooGpio.LowWriteOnClearBitSetsIt | host/udoo/udooDigitalpin.go:312-315 | a low write to a bit that is already 0 sets it to 1 |
| UdooGpio.XorKeepsOthers | host/udoo/udooDigitalpin.go:312-315 | a low write keeps every other bit |
| UdooGpio.ReadValue | host/udoo/udooDigitalpin.go:440-452 | Read returns 1 iff the pin's bit of PSR is set, and always 0 or 1 |
| UdooGpio.GpioMemory.ReadGpioPadCtl | host/udoo/udooDigitalpin.go:225-234 | a registered pin reads the IOMUXC word at its pad offset / 4; an unregistered one gives "dont register" and 0 |
| UdooGpio.GpioMemory.WriteGpioPadCtl | host/udoo/udooDigitalpin.go:236-246 | a registered pin stores into the IOMUXC word at its pad offset / 4; an unregistered one gives "dont register" and changes nothing; no GPIO bank word changes |
| UdooGpio.PadPullFields | host/udoo/udooDigitalpin.go:613-657 | with a pull setting, bits 0-11 are kept, bit 12 is 0, bit 13 is 1, bits 14-15 are the setting and nothing lies above them |
| UdooGpio.PadPullOff | host/udoo/udooDigitalpin.go:613-657 | with pull off only bit 12 is cleared |
| UdooGpio.GpioMemory.GpioPullMode | host/udoo/udooDigitalpin.go:613-657 | fails iff the pin has no pad entry, and never writes the pad register back |
| UdooGpio.Pin.Init | host/udoo/udooDigitalpin.go:343-369 | idempotent once initialized; errors when the memory is not mapped; otherwise initializes iff the sysfs steps succeed |
| UdooGpio.Pin.SetDirection | host/udoo/udooDigitalpin.go:415-437 | writes GDIR bit n%32 of bank n/32+1 (OR for output, XOR for input); a pin with n%32 == 0 always errors; an uninitialized pin on unmapped memory gives "memory map not init"; no other word changes; afterwards the pin is initialized iff it was already or init succeeded now |
| UdooGpio.Pin.Read | host/udoo/udooDigitalpin.go:440-452 | returns the PSR bit of the pin, or 0 with the error; an uninitialized pin on unmapped memory gives "memory map not init"; afterwards the pin is initialized iff it was already or init succeeded now |
| UdooGpio.Pin.ReadLevel | host/udoo/udooDigitalpin.go:444-450 | after init, Read succeeds iff the memory is mapped, the bank is at most 7 and io is not 0, and then gives 1 exactly when the pin's bit of PSR is set |
| UdooGpio.Pin.Write | host/udoo/udooDigitalpin.go:455-470 | writes DR bit n%32 of bank n/32+1 (XOR for Low, OR otherwise); an uninitialized pin on unmapped memory gives "memory map not init"; no other word changes; afterwards the pin is initialized iff it was already or init succeeded now |
| UdooGpio.Pin.PullUp | host/udoo/udooDigitalpin.go:540-544 | PullUp reports success whatever gpioPullMode returned |
| UdooGpio.Pin.PullDown | host/udoo/udooDigitalpin.go:546-550 | PullDown reports success whatever gpioPullMode returned |
| UdooGpio.Pin.Close | host/udoo/udooDigitalpin.go:553-583 | succeeds iff unregistering succeeds and, for an initialized pin, releasing its files succeeds; the pin stays initialized only on a failure |
| St7565.DbOrder | controller/st7565/st7565.go:461-479 | the position-to-line order used by fillDB8 always names one of DB0..DB7 |
| St7565.Db8Order | controller/st7565/st7565.go:461-479 | fillDB8 drives DB4, DB5, DB6, DB7, then DB0, DB1, DB2, DB3 |
| St7565.Db8RoundTrip | controller/st7565/st7565.go:461-479 | decoding the driven lines gives back the byte: DBi carries bit i despite the order |
| St7565.DbRoles | controller/st7565/st7565.go:461-479 | fillDB8 drives only data lines of the bus |
| St7565.DbOnly | controller/st7565/st7565.go:461-479 | fillDB8 drives no control line |
| St7565.WiredIdeal | controller/st7565/st7565.go:196-243 | with all bus pins wired and no failure, a bus table succeeds and emits exactly its writes |
| St7565.WriteCmdEmits | controller/st7565/st7565.go:196-225 | without failures WriteCmd emits CS=0, DCX=0, WR=0, the DB writes, WR=1 |
| St7565.WriteCmdKeepsSelect | controller/st7565/st7565.go:196-225 | WriteCmd asserts CS once and never deasserts it |
| St7565.WriteDataEmits | controller/st7565/st7565.go:228-243 | without failures WriteData emits CS=0, DCX=1, WR=0, the DB writes, WR=1 |
| St7565.DataTraceIdeal | controller/st7565/st7565.go:228-243 | without failures the data frame is its 12 writes in order |
| St7565.WriteDataFrame | controller/st7565/st7565.go:228-243 | even with failures WriteData always emits CS=0, DCX=1, WR=0 first and WR=1 last, 4 to 12 events |
| St7565.DataTraceFrame | controller/st7565/st7565.go:228-243 | the same frame bound for any 8-line data table |
| St7565.Write8Emits | controller/st7565/st7565.go:482-520 | without failures write8 emits WR=1, CS=0, DCX = 0 for a command and 1 for data, the DB writes, WR=0, WR=1, CS=1 |
| St7565.Write8Releases | controller/st7565/st7565.go:482-520 | write8 asserts CS once and releases it once |
| St7565.PageByteSmall | controller/st7565/st7565.go:139-141 | the pages 0..7 that Clear uses are all within the page limit |
| St7565.PageCmdFields | controller/st7565/st7565.go:116 | the page command is `page \| 0xB0`: the low nibble is the page and the high nibble is 0xB |
| St7565.PageCmdRange | controller/st7565/st7565.go:116 | the page command lies in 0xB0..0xB8 |
| St7565.ColumnRoundTrip | controller/st7565/st7565.go:121-130 | the column's high nibble from the first command and its low nibble from the second reassemble the column |
| St7565.ColumnCommandRanges | controller/st7565/st7565.go:121-130 | the first column command has high nibble 1 and the second has high nibble 0 |
| St7565.PageStepsCommands | controller/st7565/st7565.go:109-132 | a valid setPage is the page command, the upper-column command and the lower-column command, 36 writes |
| St7565.Display.FillDB8 | controller/st7565/st7565.go:461-479 | fillDB8 runs its table and stops at the first failing write |
| St7565.Display.WriteCmd | controller/st7565/st7565.go:196-225 | WriteCmd runs its table and aborts on the first error |
| St7565.Display.WriteData | controller/st7565/st7565.go:228-243 | WriteData appends its frame and ignores every error |
| St7565.Display.Write8 | controller/st7565/st7565.go:482-520 | write8 runs its table, aborting on the first error |
| St7565.Display.SetPage | controller/st7565/st7565.go:109-132 | page > 8 errors before any write; otherwise the page command is sent, and only then is column > 0x83 rejected; the column commands follow, stopping at the first error |
| St7565.DataRepeatIdeal | controller/st7565/st7565.go:150-152 | without failures, k data writes emit k copies of the data frame, 12k events |
| St7565.DataRepeatNext | controller/st7565/st7565.go:150-152 | one more data write extends k writes to k + 1 |
| St7565.Display.FillPage | controller/st7565/st7565.go:150-152 | the inner loop appends 128 data frames |
| St7565.ClearTableShape | controller/st7565/st7565.go:139-148 | each page's setPage table has 36 bus writes and never raises DCX |
| St7565.CmdKeepsDcxLow | controller/st7565/st7565.go:196-225 | a command never drives DCX high |
| St7565.PageRunIdeal | controller/st7565/st7565.go:139-153 | without failures one page is setPage and 128 data frames, 36 + 128 × 12 events |
| St7565.PageDataCount | controller/st7565/st7565.go:139-153 | one page holds exactly 128 DCX-high (data) writes |
| St7565.CopiesCount | controller/st7565/st7565.go:150-152 | k copies of a trace hold k times each event |
| St7565.ClearPageIdeal | controller/st7565/st7565.go:139-153 | without failures, each page of Clear succeeds with 36 + 1536 events, 128 of them data writes |
| St7565.StagesIdeal | controller/st7565/st7565.go:139-155 | k successful stages of a fixed size give k times that size |
| St7565.StagesCount | controller/st7565/st7565.go:139-155 | k successful stages each holding c copies of an event hold k × c of it |
| St7565.StagesStop | controller/st7565/st7565.go:142-144 | after a failing stage nothing further runs |
| St7565.StageNext | controller/st7565/st7565.go:139-155 | one more stage extends the run of i stages to i + 1 |
| St7565.ClearIdeal | controller/st7565/st7565.go:135-160 | without failures Clear's eight pages succeed with 8 × 1572 events and exactly 1024 data writes |
| St7565.ClearAdvance | controller/st7565/st7565.go:139-155 | each page run extends Clear's trace by one stage |
| St7565.PageFail | controller/st7565/st7565.go:142-144 | a failing setPage ends the page run with that failure |
| St7565.PageDone | controller/st7565/st7565.go:139-153 | a successful setPage followed by 128 data writes is a successful page run |
| St7565.Display.ClearOnePage | controller/st7565/st7565.go:139-153 | one page of Clear: setPage(page, 4), then 128 zero data writes if it succeeded |
| St7565.Display.Clear | controller/st7565/st7565.go:135-160 | Clear runs the pages 0..7 in order, stops at the first setPage error and returns it, and otherwise ends with CS=1 |
| XptGpio.ControlByteFields | controller/r61526/xpt2046.go:32-34 | the control byte has the start bit 7 set, the channel in bits 4-6 and the conversion mode in bit 3 |
| XptGpio.ControlByteValues | controller/r61526/xpt2046.go:397-415 | the channel and conversion constants give the control bytes 0xD0, 0x90 (the read-Y command), 0xB0 and 0xC0 for X, Y, Z1 and Z2 in 12-bit mode, and 0xD8 and 0xB8 for X and Z1 in 8-bit mode; the convertor driver uses the same constants |
| XptGpio.TouchPins.Drive1 | controller/r61526/xpt2046.go:333-346 | one pin write appends its event if the pin is wired and nothing otherwise |
| XptGpio.TouchPins.Start | controller/r61526/xpt2046.go:142-158 | MockSPIStart emits CLK=0, CS=1, DIN=1, CLK=1, CS=0 and always returns nil |
| XptGpio.SendShape | controller/r61526/xpt2046.go:160-171 | mockSPIWrite emits CLK=0, then for each bit, most significant first: DIN = bit, CLK=0, CLK=1 |
| XptGpio.SendByte | controller/r61526/xpt2046.go:160-171 | a full byte is 25 events, and the DIN write of step i carries bit 7 - i |
| XptGpio.ShlTopBit | controller/r61526/xpt2046.go:166-168 | after i left shifts, bit 7 of the shifted byte is bit 7 - i of the original |
| XptGpio.TouchPins.SpiWrite | controller/r61526/xpt2046.go:160-171 | the shifting loop emits exactly that event sequence |
| XptGpio.TouchPins.ReadBit | controller/r61526/xpt2046.go:178-183 | one read cycle emits CLK=1, CLK=0 and samples DOUT |
| XptGpio.CycleBit | controller/r61526/xpt2046.go:178-183 | every sampled bit is Low or High |
| XptGpio.ShiftInNext | controller/r61526/xpt2046.go:178-183 | each cycle doubles the accumulator and adds the new bit |
| XptGpio.ShiftInBound | controller/r61526/xpt2046.go:173-186 | k accumulated 0/1 bits give a value below 2^k |
| XptGpio.ShiftInBits | controller/r61526/xpt2046.go:173-186 | the accumulated value's k bits, most significant first, are the sampled bits: accumulation is lossless |
| XptGpio.SpiReadRange | controller/r61526/xpt2046.go:173-186 | mockSPIRead's result is in [0, 4095] |
| XptGpio.TouchPins.SpiRead | controller/r61526/xpt2046.go:173-186 | mockSPIRead emits CLK=0 and twelve read cycles, and returns the MSB-first value of the samples |
| XptGpio.TouchPins.Convert | controller/r61526/xpt2046.go:205-212 | one conversion is the command write followed by a read |
| XptGpio.ConversionRange | controller/r61526/xpt2046.go:205-212 | each conversion's value is in [0, 4095] |
| XptGpio.ConversionSize | controller/r61526/xpt2046.go:205-212 | with all touch pins wired one conversion is 64 events |
| XptGpio.Chain | controller/r61526/xpt2046.go:205-212 | k chained stages give k values |
| XptGpio.ChainNext | controller/r61526/xpt2046.go:205-212 | one more stage appends its events and its value |
| XptGpio.ChainRange | controller/r61526/xpt2046.go:205-212 | bounds on every stage's value bound every collected value |
| XptGpio.ChainSize | controller/r61526/xpt2046.go:205-212 | k stages of a fixed size give k times that size |
| XptGpio.ChainStep | controller/r61526/xpt2046.go:205-212 | performing the next stage at the end of the trace extends the chain by one |
| XptGpio.TouchPins.Gather | controller/r61526/xpt2046.go:205-212 | the sample loop stores the ten conversion values in order |
| XptGpio.ReadDataDone | controller/r61526/xpt2046.go:192-231 | CLK low, CS low, ten conversions and CS high make up XptReadData's trace, and its value is the filter of the samples |
| XptGpio.ReadDataRange | controller/r61526/xpt2046.go:192-231 | XptReadData's filtered value is in [0, 4095] |
| XptGpio.ReadDataSize | controller/r61526/xpt2046.go:192-231 | with all touch pins wired XptReadData is 643 events |
| XptGpio.TouchPins.ReadData | controller/r61526/xpt2046.go:192-231 | XptReadData performs that trace, returns the trimmed mean of the sorted samples as a uint16, and never fails |
| XptGpio.TouchPins.ReadFour | controller/r61526/xpt2046.go:45-57 | the readings are taken in the order X, Y, X, Y |
| XptGpio.ChainFour | controller/r61526/xpt2046.go:45-57 | four stages performed in turn are the chain of four, with values in that order |
| XptGpio.DeltaSmall | controller/r61526/xpt2046.go:58-64 | for 12-bit inputs the uint16 difference is at most 50 iff the first lies between the second and the second + 50 |
| XptGpio.AcceptRejectsRising | controller/r61526/xpt2046.go:58-64 | any reading where x2 > x1 or y2 > y1 is rejected, because of the uint16 wrap |
| XptGpio.AcceptTwelveBit | controller/r61526/xpt2046.go:58-77 | for 12-bit inputs a reading is accepted iff both second readings are at most 50 below the first and the masked average is in range |
| XptGpio.AcceptedPoint | controller/r61526/xpt2046.go:67-77 | an accepted point has a zero low nibble, x >= 100 and y <= 4000 |
| XptGpio.Touch.Init | controller/r61526/xpt2046.go:24-27 | Init selects 12-bit conversion and returns nil |
| XptGpio.Touch.SetMode | controller/r61526/xpt2046.go:29-31 | SetMode stores the conversion mode |
| XptGpio.Touch.ReadXY | controller/r61526/xpt2046.go:36-78 | TOUCH_XPT_ReadXY emits the start sequence and four readings, and returns exactly the acceptance rule applied to their uint16 values |
| TouchFilter.GoDivTruncates | controller/r61526/xpt2046.go:227 | the average divides as Go does: the remainder is zero or has the sign of the dividend, and is smaller than the divisor in magnitude, so the quotient truncates toward zero |
| TouchFilter.SortDescFacts | controller/r61526/xpt2046.go:217-223 | the reference sort is descending and a permutation of its input |
| TouchFilter.InsertPerm | controller/r61526/xpt2046.go:217-223 | insertion keeps the multiset |
| TouchFilter.InsertDescending | controller/r61526/xpt2046.go:217-223 | inserting into a descending sequence keeps it descending |
| TouchFilter.LengthSortDesc | controller/r61526/xpt2046.go:217-223 | sorting keeps the length |
| TouchFilter.DescendingUnique | controller/r61526/xpt2046.go:217-223 | two descending sequences with the same elements are equal, so any correct descending sort gives the reference result |
| TouchFilter.Swap | controller/r61526/xpt2046.go:220-222 | the exchange swaps two entries and keeps everything else |
| TouchFilter.ExchangeSort | controller/r61526/xpt2046.go:217-223 | the in-place exchange sort leaves the first `count` entries descending and a permutation of the originals, and the rest unchanged |
| TouchFilter.Average | controller/r61526/xpt2046.go:224-228 | the sum of entries 2..count-3 divided by count - 4 with truncation |
| TouchFilter.Filter | controller/r61526/xpt2046.go:217-228 | sorting then averaging in place gives the filter value of the original samples |
| TouchFilter.SumBounds | controller/r61526/xpt2046.go:224-226 | a sum of m values in [lo, hi] is in [m × lo, m × hi] |
| TouchFilter.DivBounds | controller/r61526/xpt2046.go:227 | truncating division of such a sum by m stays in [lo, hi] |
| TouchFilter.MaxIsBound | controller/r61526/xpt2046.go:217-228 | the maximum is a sample and bounds every sample from above |
| TouchFilter.MinIsBound | controller/r61526/xpt2046.go:217-228 | the minimum is a sample and bounds every sample from below |
| TouchFilter.SortedWithin | controller/r61526/xpt2046.go:217-223 | every sorted entry lies between the minimum and the maximum sample |
| TouchFilter.FilterBounds | controller/r61526/xpt2046.go:217-228 | with at least five samples the filtered value lies between the minimum and maximum sample |
| TouchFilter.FilterRange | controller/r61526/xpt2046.go:217-228 | samples all in [lo, hi] give a filtered value in [lo, hi] |
| TouchFilter.FilterConstant | controller/r61526/xpt2046.go:217-228 | if all samples equal v, the filtered value is v |
| TouchFilter.FilterZeros | convertors/xpt2046/xpt2046.go:143-156 | any number of zero samples other than 4 filters to 0 |
| XptSpi.SpiBus.TransferAndReceiveData | convertors/xpt2046/xpt2046.go:113-119 | every transfer is logged; a failing one leaves the buffer; a successful one puts the reply in bytes 0 and 1 |
| XptSpi.Frames | convertors/xpt2046/xpt2046.go:134-139 | k frames are k copies of `[ctrl, 0, 0]` |
| XptSpi.AssembleBytes | convertors/xpt2046/xpt2046.go:121-123 | `data[0] << 8 \| data[1]` is in [0, 65535] and gives back both bytes |
| XptSpi.ReadingAt | convertors/xpt2046/xpt2046.go:108-124 | a reading fails iff its transfer fails, is 0 when it fails, and is in [0, 65535] |
| XptSpi.Xpt.ReadValue | convertors/xpt2046/xpt2046.go:108-124 | readValue sends `[ctrl, 0, 0]` and returns the assembled reply, or (0, error) when the transfer fails |
| XptSpi.Failures | convertors/xpt2046/xpt2046.go:134-139 | at most k of k readings fail |
| XptSpi.Xpt.CollectOne | convertors/xpt2046/xpt2046.go:135-138 | a reading is stored and counted only when it fails, and what it stores is 0 |
| XptSpi.Xpt.Collect | convertors/xpt2046/xpt2046.go:134-139 | ten readings are sent; the count is the number of failed ones and every stored sample is 0 |
| XptSpi.FilterSpecZero | convertors/xpt2046/xpt2046.go:130-157 | the filter of the stored samples is always 0 |
| XptSpi.Xpt.ReadFilterValue | convertors/xpt2046/xpt2046.go:130-157 | readFilterValue sends ten frames and always returns 0 with a nil error |
| XptSpi.Abs | convertors/xpt2046/xpt2046.go:83-84 | the absolute difference is the difference or its negation, never negative |
| XptSpi.AcceptExactly | convertors/xpt2046/xpt2046.go:81-100 | a reading is accepted iff both differences are at most 50 and the truncated averages give x >= 100 and y <= 4000, and the point is those averages with no mask |
| XptSpi.AcceptSymmetric | convertors/xpt2046/xpt2046.go:81-100 | swapping the two readings does not change the outcome |
| XptSpi.AcceptZeros | convertors/xpt2046/xpt2046.go:81-100 | the readings readFilterValue produces (all 0) are always rejected |
| XptSpi.Xpt.ReadXY | convertors/xpt2046/xpt2046.go:65-101 | TOUCH_XPT_ReadXY sends ten frames each for X, Y, X, Y and always rejects the reading |
| XptSpi.PressureZ1Zero | convertors/xpt2046/xpt2046.go:53-55 | z1 = 0 is treated as z1 = 1 |
| XptSpi.PressureLowerBound | convertors/xpt2046/xpt2046.go:56-62 | the pressure is at least -(x / div), with div 256 in 8-bit mode and 4096 otherwise, and equals it when z2 < z1 |
| XptSpi.Xpt.ReadTouchPressure | convertors/xpt2046/xpt2046.go:41-63 | reads X, Z1 and Z2 in that order and returns the pressure of those readings with a nil error |
| XptSpi.Xpt.SetMode | convertors/xpt2046/xpt2046.go:25-27 | SetMode stores the conversion mode |
| BoardInfo.TrimLeftFacts | host/udoo/boardInfo.go:111 | trimming the left removes a white-space prefix and leaves a suffix that does not start with white space |
| BoardInfo.TrimRightFacts | host/udoo/boardInfo.go:111 | trimming the right removes a white-space suffix and leaves a prefix that does not end with white space |
| BoardInfo.TrimSpaceSlice | host/udoo/boardInfo.go:111 | the trimmed string is a slice of the input with white space on both sides |
| BoardInfo.TrimSpaceIdempotent | host/udoo/boardInfo.go:111 | trimming twice is trimming once |
| BoardInfo.Split | host/udoo/boardInfo.go:90-92 | splitting gives one more part than there are separators, and no part holds a separator |
| BoardInfo.SplitJoin | host/udoo/boardInfo.go:90-92 | joining the parts with the separator gives back the input |
| BoardInfo.JoinSplit | host/udoo/boardInfo.go:90-92 | splitting a join of separator-free parts gives back the parts |
| BoardInfo.SplitPlain | host/udoo/boardInfo.go:92-93 | a line without the separator is a single part |
| BoardInfo.ManyColonsSkipped | host/udoo/boardInfo.go:93-96 | a line with two or more colons is never an entry, so it is skipped |
| BoardInfo.FindRevisionSkip | host/udoo/boardInfo.go:93-96 | a leading line that is not the Revision entry does not change the result |
| BoardInfo.FindRevisionFirst | host/udoo/boardInfo.go:90-101 | the result is the trimmed value of the first Revision line |
| BoardInfo.FindRevisionNone | host/udoo/boardInfo.go:90-102 | with no Revision line the result is "" |
| BoardInfo.FindRevisionSource | host/udoo/boardInfo.go:90-101 | a non-empty result comes from a Revision line preceded by none |
| BoardInfo.GetRevisionError | host/udoo/boardInfo.go:84-89 | a failed cpuinfo read returns "" with the error |
| BoardInfo.ClassifyTable | host/udoo/boardInfo.go:113-136 | the six model strings map to their model, M4 and LVDS15 flags |
| BoardInfo.ClassifyFlags | host/udoo/boardInfo.go:113-136 | a recognised model has exactly one of M4 and LVDS15; the classified model is one of the five UDOO models and its uid is not set here |
| BoardInfo.ClassifyUnknown | host/udoo/boardInfo.go:30-32 | an unrecognised string leaves the zero value: Neo Basic with no M4 and no LVDS15 |
| BoardInfo.UidParts | host/udoo/boardInfo.go:138-144 | the uid is trimmed CFG0 then trimmed CFG1 when both reads succeed, and "" otherwise |
| BoardInfo.GetBoardInfoOutcome | host/udoo/boardInfo.go:106-147 | a failed model read gives the zero info with its error; otherwise the classified model with the uid and no error |
| BoardInfo.GetBoardInfoTrims | host/udoo/boardInfo.go:111 | surrounding white space in the model file does not matter |
| BoardInfo.ModelNameNonEmpty | host/udoo/boardInfo.go:69-82 | ModelName is non-empty exactly for the three Neo models and the x86 |
| BoardInfo.BoardModelNames | host/udoo/boardInfo.go:69-147 | a board's model name is "" iff it was read as a Quad or a Dual |

## Left out

- Opening and memory-mapping `/dev/mem` and `/dev/gpiomem`, and `RPIMemClose`: OS I/O. The windows are arrays that already exist, with a `mapped` / `initialized` flag.
- Sysfs export, unexport and the value, active_low and edge files, and `drv.Unregister`: file I/O and collaborators. Each outcome is a `bool` parameter of the operation that uses it.
- `TimePulse` on both boards: wall-clock busy polling.
- Every delay (`time.Sleep`, `usDealy`, the empty busy loop in XptReadData): no-ops.
- The `memlock` mutexes: the model is sequential.
- The UDOO `Watch` and `StopWatching`: they only call the sysfs edge file and the interrupt registry, which are not part of this model.
- The UDOO pad-control offset (`padctrlOft`) and the IOMUXC window are not declared in the driver file: each pad entry carries an abstract offset, and the pad operations require a mapped IOMUXC window when a pin is registered, because the driver would otherwise dereference a nil slice.
- RpiGpio.PullStores: its contract gives the number of stores only; the values stored and their order are stated by `RpiGpio.PullMode`.
- Index panics become preconditions: a Raspberry Pi register index outside the 1024-word window; the Raspberry Pi pull sequence (`RpiGpio.PullMode`, `RpiGpio.StorePullCode`, `RpiGpio.Pin.PullUpPin`, `RpiGpio.Pin.PullDownPin`) on an unmapped window, where `PullUp` and `PullDown` index the nil register slice without calling `init`; and a division by zero in the SPI filter when exactly four readings fail (`XptSpi.Xpt.ReadFilterValue` and `XptSpi.Xpt.ReadXY`).
- A nil pin in the ST7565 connection would panic; the model requires every bus role to be wired.
- Vendor init command tables, fonts, text and picture drawing, `Init` routines of the displays, the demo `main` and the samples directory: vendor configuration and demonstration code, not logic.
- Constructors and pin plumbing, which only create, configure and release pins: ST7565 `NewGPIO` / `newGPIOConnection` / `Close`, touch `NewTouchGpio`, `newTouchGPIOPins`, `InitDirection`, `PinInst` and `Close`. Only `newGPIOPins` of the R61526 is modelled, with pin creation and direction setting as outcome functions.
- The touch pins' read errors are folded into the DOUT sample oracle: the only caller ignores them and uses 0.
- `math.Abs(float64(...))` is integer absolute value; the arguments are exact integers.
- The SPI `TransferAndReceiveData` is foreign: an oracle that gives, per transfer, failure or a two-byte reply.
- The convertor's `New`, `ReadX`, `ReadY`, `ReadZ1` and `ReadZ2` are single `ReadValue` calls with a channel constant, not separate members.
- The file reads of board information are inputs of type `Result<string, string>`; `TrimSpace` works on Unicode white space of decoded strings, with no UTF-8 decoding.
- `host/rpi/rpi_mem_digitalpin.go` is not part of this model: it duplicates the register arithmetic and does not compile. `host/udoo/udoo.go` (pin map and registration) and the generated syscall constants are not part of it either.
- The board test's expectation that Neo Extended has LVDS15 disagrees with `host/udoo/boardInfo.go:122-125`; the model follows the code.
- Pin numbers are natural numbers; negative logical ids are not modelled.
