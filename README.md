# Ebyte radio-module driver, modelled in Dafny

This project models the driver that the TTGO T-Beam arbitrator firmware uses to control an Ebyte packet-radio module. The module is half-duplex. The driver talks to it over a UART, selects its operating mode with the M0/M1 pins, and learns that the module is busy from the AUX pin. The model covers both generations of the driver:

- the current, generic `EbyteModule` (`driver.dfy`);
- the older `Ebyte_E34` port (`driver_e34.dfy`).

It also covers the pieces the drivers are built on:

- the wrap-safe millisecond timing test (`timing.dfy`, `waits.dfy`, `auxwait.dfy`);
- the response statuses (`status.dfy`);
- the byte-exact configuration records, in both the E34 and E28 bit layouts (`codec.dfy`);
- fixed-transmission frames and payload fragmentation (`framing.dfy`);
- mode codes and mode pins, and the E28 mode object (`modes.dfy`);
- the transmit queue (`queue.dfy`);
- the string helpers (`helper.dfy`);
- the preference-topic labels (`pref.dfy`).

The node is an environment, `Hardware.Board`. Its parts are:

- The clock: the k-th `millis()` reading is `clockAt(k)`.
- AUX: the i-th `digitalRead` of AUX is `auxAt(i)`.
- The UART transmit side: every buffer handed to `write` is logged in `sent`. The bytes the port accepted go to `tx`, and the i-th write accepts at most `acceptAt(i)` bytes.
- The UART receive side: the receive buffer is `rx`. While the n-th blocking read waits, the bytes `arrivalAt(n)` arrive.
- The pins: the output pins are a map from pin number to level.

The polling loops of the source terminate because the clock is assumed live: every deadline is eventually reached. `Timing.CountingClockIsLive` shows that this assumption can be met. The driver methods are proved against this environment, and their `ensures` give the exact new state:

- the log of frames written;
- the bytes consumed from the receive buffer;
- the pin map;
- the committed mode;
- the AUX readings and the accepted byte counts that decided the status.

## Model

| member | source | states |
|---|---|---|
| `Timing.Elapsed` | Main/ebyte_module.cpp:141-146 | the reference elapsed time: the unique d < 2^32 with (t_prev + d) mod 2^32 = t |
| `Timing.IsTimeout` | Main/ebyte_module.cpp:141-146 | `is_timeout`, written with both branches and C's wrapping arithmetic, holds exactly when the wrapped elapsed time is at least the timeout |
| `Timing.OverflowBranchIsElapsed` | Main/ebyte_module.cpp:144-145 | the overflow branch `ULONG_MAX - (t_prev - t) + 1` never wraps itself and equals the wrapped difference |
| `Timing.ElapsedExceeds` | Main/ebyte_e34.cpp:167-170 | the E34 inline test holds exactly when the wrapped elapsed time is strictly greater than the timeout |
| `Timing.ExceedsIsTimeoutPlusOne` | Main/ebyte_e34.cpp:167-170 | the strict E34 test is the current driver's test with one more millisecond |
| `Timing.NoTimeNeverExceeds` | Main/ebyte_e34.cpp:197-205 | with t equal to t_prev, the strict test is false for every timeout |
| `Timing.LiveReachesStrict` | Main/ebyte_e34.cpp:163-176 | on a live clock every strict deadline below ULONG_MAX is also reached |
| `Waits.Expired` | Main/ebyte_module.cpp:141-146 | the deadline test of either generation: strict `>` or non-strict `>=` on the wrapped elapsed time |
| `Waits.DelayEndUnique` | Main/ebyte_module.cpp:153-165 | a delay ends at exactly one clock reading, the first expired one |
| `Waits.LiveCanExpire` | Main/ebyte_module.cpp:153-165 | on a live clock every wait can end, except a strict wait for ULONG_MAX |
| `Waits.StrictMaxNeverExpires` | Main/ebyte_e34.cpp:200-204 | no 32-bit difference exceeds ULONG_MAX, so a strict wait for it never ends |
| `Waits.AuxOutcomeUnique` | Main/ebyte_module.cpp:206-231 | the AUX and clock readings decide both the number of AUX readings and the status |
| `Waits.AuxHighAtOnce` | Main/ebyte_module.cpp:212-213 | when AUX is already HIGH, the wait succeeds after one reading |
| `Waits.AuxOutcomeReadings` | Main/ebyte_module.cpp:212-226 | every AUX reading but the last was LOW, and the last was HIGH exactly on success |
| `AuxWait.PollAux` | Main/ebyte_module.cpp:212-226 | the AUX loop ends with success at the first HIGH reading, or with a timeout at the first expired clock reading after a LOW one, and takes exactly that many readings |
| `Status.Code` | Main/ebyte_module.h:102-117 | status codes run 1..14 |
| `Status.FromCode` | Main/ebyte_e34_def.h:15-30 | exactly the values 1..14 name a status, and they name it back |
| `Status.CodeRoundTrip` | Main/ebyte_module.h:102-117 | the codes are consecutive and distinct: every status decodes back from its code |
| `Status.CodeInjective` | Main/ebyte_e34_def.h:15-30 | no two statuses share a code |
| `Status.Desc` | Main/ebyte_module.h:121-139 | `desc()` is total, exactly the values outside 1..14 read "Invalid status!", and each code in 1..14 reads its generation's message, the current one with the unexpanded `STR` texts |
| `Status.DescGenerationsAgree` | Main/ebyte_module.h:121-139 | the two generations' message tables (the E34 one at Main/ebyte_e34_def.h:160-177) differ exactly for wrong-UART-config and packet-too-big; the current texts carry the macro names `EBYTE_CONFIG_BAUD` and `EBYTE_MODULE_BUFFER_SIZE`, since `STR` (Main/helper.h:18) stringifies its argument unexpanded |
| `Status.AndThen` | Main/ebyte_module.cpp:297-300 | a chain of steps succeeds exactly when both succeed; otherwise the first failure is returned |
| `Codec.CommandByte` | Main/ebyte_module.h:72-78 | every program command is a byte in C0..C4 |
| `Codec.CommandOfByte` | Main/ebyte_e34_def.h:41-47 | exactly the bytes C0..C4 are commands, each naming its own command |
| `Codec.CommandByteRoundTrip` | Main/ebyte_module.h:72-78 | every command has its own byte |
| `Codec.CommandFrame` | Main/ebyte_module.cpp:268-273 | a program command is sent as the command byte three times |
| `Codec.SpeedRoundTrip` | Main/ebyte_module.h:204-241 | air rate in bits 0-2, baud in bits 3-5 and parity in bits 6-7 decode back to the same fields |
| `Codec.SpeedByteRoundTrip` | Main/ebyte_e34_def.h:114-123 | the three Speed fields cover all 8 bits: every byte decodes and re-encodes to itself |
| `Codec.DecodeOption` | Main/ebyte_e28.h:135-167 | an Option byte decodes into the layout asked for |
| `Codec.OptionRoundTrip` | Main/ebyte_e34_def.h:125-140 | both Option layouts (E34: power, FEC, wake-up, IO drive, fixed; E28: power, IO drive, LBT, reserved, fixed) decode back what was encoded |
| `Codec.OptionByteRoundTrip` | Main/ebyte_e28.h:135-167 | in both layouts the Option fields cover all 8 bits |
| `Codec.EncodeConfiguration` | Main/ebyte_module.h:277-284 | the record packs into 6 bytes, with HEAD, ADDH, ADDL and CHAN at offsets 0, 1, 2 and 4 (SPED and OPTION are pinned down by the round trips) |
| `Codec.DecodeConfiguration` | Main/ebyte_e34_def.h:142-149 | 6 bytes decode into a record of the requested layout |
| `Codec.ConfigurationRoundTrip` | Main/ebyte_e34_def.h:142-149 | decoding an encoded record gives back every field |
| `Codec.ConfigurationBytesRoundTrip` | Main/ebyte_module.h:277-284 | encoding a decoded record gives back every byte |
| `Codec.ParityOf` | Main/ebyte_module.h:232-239 | parity codes 0 and 3 are 8N1; 1 is 8O1 and 2 is 8E1 |
| `Codec.ConfigBaudCode` | Main/ebyte_e28.h:49-58 | the code that means 9600 bps in each layout |
| `Codec.BaudRateIncreasing` | Main/ebyte_module.h:166-175 | in both baud tables, higher codes mean faster UARTs |
| `Codec.ConfigBaudCodeUnique` | Main/ebyte_e34_def.h:56-65 | 9600 bps has exactly one code per layout: 0b011 on the E34 and 0b010 on the E28 |
| `Codec.AirRateOf` | Main/ebyte_module.h:206-214 | E34 air-rate codes 4..7 are N/A; the E28 code 0 is auto, and every E28 code has a rate |
| `Codec.AirRateDistinct` | Main/ebyte_e28.h:92-105 | E28 air-rate codes name distinct rates; on the E34 only 2 and 3 coincide, besides the unused codes |
| `Codec.PowerDecreasing` | Main/ebyte_e28.h:137-145 | in both power tables (20/14/8/2 and 12/10/7/4 dBm), a higher code means less power |
| `Codec.OptionMeaningAcrossLayouts` | Main/ebyte_module.h:243-275 | both layouts read the power and the fixed-transmission bit from the same place; the E34 FEC bit is the E28 IO-drive bit |
| `Codec.EncodeModuleInformation` | Main/ebyte_e34_def.h:151-156 | the identification record is 4 bytes, and HEAD comes first |
| `Codec.DecodeModuleInformation` | Main/ebyte_e34_def.h:151-156 | 4 bytes decode into a record that re-encodes to them |
| `Codec.ModuleInformationRoundTrip` | Main/ebyte_e34_def.h:151-156 | decoding an encoded identification record gives it back |
| `Codec.Hex2` | Main/ebyte_e28.h:189 | `%02X` prints a byte as exactly two characters |
| `Codec.HexDigitRoundTrip` | Main/ebyte_e28.h:189 | each upper-case hexadecimal digit parses back to its value |
| `Codec.Hex2RoundTrip` | Main/ebyte_e28.h:189 | the two `%02X` digits parse back to the byte |
| `Codec.VersionInfoLayout` | Main/ebyte_e28.h:188-190 | the text is always 27 characters, fits the 30-byte buffer with its terminator, and holds the three bytes at fixed places |
| `Codec.EbyteVersion.constructor` | Main/ebyte_module.h:297-300 | allocates a fresh reply buffer of `maxlen` bytes |
| `Codec.EbyteVersion.E28` | Main/ebyte_e28.h:179 | the E28 reply buffer is 4 bytes |
| `Codec.EbyteVersion.GetLength` | Main/ebyte_module.h:305 | the length reported is the size of the reply buffer |
| `Codec.EbyteVersion.IsValid` | Main/ebyte_module.h:307 | a reply is valid exactly when it starts with the read-version command byte C3 |
| `Codec.EbyteVersion.GetInfo` | Main/ebyte_e28.h:180-191 | the series, version and features bytes can be read back from the text |
| `Framing.FixedFrame` | Main/ebyte_module.cpp:535-549 | a fixed-transmission frame is ADDH, ADDL, CHAN and then the payload, 3 bytes longer than the payload |
| `Framing.FixedFrameRoundTrip` | Main/ebyte_module.h:87-92 | the receiver reads back the header and the payload |
| `Framing.FixedFrameFits` | Main/ebyte_module.h:57 | a fixed frame fits one 250-byte transmission exactly when its payload is at most 247 bytes |
| `Framing.BroadcastFrame` | Main/ebyte_module.cpp:531-533 | a broadcast is a fixed frame addressed 0xFF 0xFF |
| `Framing.ShortTransfer` | Main/ebyte_module.cpp:440-462 | a transfer that moved everything goes on to the handshake; one that moved nothing is no-response; any other is size-mismatch |
| `Framing.FragmentsConcat` | Main/ebyte_module.cpp:561-577 | joining the frames of a payload in order gives back the payload |
| `Framing.FragmentsShape` | Main/ebyte_module.cpp:561-577 | a payload has ceil(size/250) frames, and frame k is the slice starting at 250·k |
| `Framing.FrameCountStep` | Main/ebyte_module.cpp:566-567 | frame k exists exactly when 250·k bytes do not yet cover the payload |
| `Framing.FragmentAt` | Main/ebyte_module.cpp:566-574 | the step of the fragmenting loop: the next frame is the next slice of up to 250 bytes, and another follows exactly when bytes remain |
| `Framing.FragmentsBounded` | Main/ebyte_module.cpp:567 | every frame holds 1 to 250 bytes |
| `Framing.QueuedFramesBounded` | Main/ebyte_module.cpp:569 | queueing a payload's frames in order keeps every queued chunk a frame |
| `Framing.FragmentsSmall` | Main/ebyte_module.cpp:565 | an empty payload has no frames, and one of at most 250 bytes is a single frame |
| `Framing.CString` | Main/ebyte_module.cpp:494-506 | the text of a NUL-terminated buffer has no NUL, and is either the whole buffer or a prefix followed by a NUL |
| `Hardware.IndexOf` | Main/ebyte_module.cpp:486-492 | the position of the first delimiter, or the length when there is none |
| `Queue.Queue.constructor` | Main/queue.h:24 | `q_init` makes an empty queue |
| `Queue.Queue.Length` | Main/queue.h:27 | the length is 0 exactly when the queue is empty |
| `Queue.Queue.Enqueue` | Main/queue.h:25 | on success the chunk is appended at the back; on failure (NULL) the queue is unchanged |
| `Queue.Queue.Dequeue` | Main/queue.h:26 | removes the front chunk, if any |
| `Queue.Queue.Item` | Main/queue.h:28 | the chunk at a byte-sized position, counted from the oldest; none past the end |
| `Helper.IsNumeric` | Main/helper.cpp:23-48 | true exactly for non-empty strings of digits with at most one '.', no digit being required |
| `Helper.TwoDotsNotNumeric` | Main/helper.cpp:37-40 | a second '.' makes a string non-numeric |
| `Helper.ForeignCharNotNumeric` | Main/helper.cpp:45 | any character other than a digit or '.' makes a string non-numeric |
| `Helper.NumericExamples` | Main/helper.cpp:27-47 | "" is not numeric, while "." and "5." are; "-5" and "1.2.3" are not |
| `Helper.ExtractIntAsWritten` | Main/helper.cpp:53-65 | a zero conversion is accepted and stored only for numeric text; a non-zero one is accepted without being stored |
| `Helper.ExtractIntLosesValue` | Main/helper.cpp:56-64 | "42" is reported as extracted while the caller's variable keeps 0 |
| `Helper.ExtractInt` | Main/helper.cpp:53-65 | accepted exactly when the conversion is non-zero or the text is numeric, and then the caller's variable holds the number |
| `Pref.TopicCode` | Main/pref.h:8-16 | topic codes run 0..6 |
| `Pref.TopicOfCode` | Main/pref.h:8-16 | exactly the values 0..6 are topics, each naming its own topic |
| `Pref.TopicCodeRoundTrip` | Main/pref.h:8-16 | every topic decodes back from its code |
| `Pref.DescLabels` | Main/pref.h:18-27 | only PREF_CHANNEL lacks a label ("Not yet implemented!"), and the other labels are all different |
| `Modes.PinLevels` | Main/ebyte_module.cpp:94-117 | M0 carries bit 0 of the mode code and M1 carries bit 1 |
| `Modes.PinLevelsInjective` | Main/ebyte_e34.cpp:327-356 | different mode codes drive different pin levels |
| `Modes.DrivePins` | Main/ebyte_module.cpp:94-117 | `setMode` writes M0 and then M1, and no other pin changes |
| `Modes.DrivePinsSelectsMode` | Main/ebyte_e34.cpp:327-356 | with two distinct mode pins, the levels driven read back as the mode code |
| `Modes.DrivePinsOverwrite` | Main/ebyte_module.cpp:296-311 | entering mode 3 and then restoring a mode leaves the pins as if only the restored mode had been set |
| `Modes.ModeTableNamesTheCodes` | Main/ebyte_e34_def.h:32-39 | sleep and program share code 3, the pin modes are exactly 0..3, and MODE_INIT is not one of them |
| `Modes.E28Description` | Main/ebyte_e28.h:204-213 | "Invalid mode!" is returned exactly for codes other than 0 and 4..7 |
| `Modes.EbyteModeE28.constructor` | Main/ebyte_module.h:324 | a mode object starts with the given code, 0 by default |
| `Modes.EbyteModeE28.SetMode` | Main/ebyte_module.h:326-327 | `getMode` returns the code `setMode` stored last |
| `Modes.EbyteModeE28.SetModeDefault` | Main/ebyte_e28.h:200 | the default E28 mode is code 4, which is correct and not the configuration mode |
| `Modes.EbyteModeE28.SetModeConfig` | Main/ebyte_e28.h:201-202 | the configuration mode is code 7, and `isModeConfig` then holds |
| `Modes.EbyteModeE28.Description` | Main/ebyte_e28.h:204-213 | the description is the E28 mode table's entry for the stored code |
| `Modes.ConfigIsCorrect` | Main/ebyte_e28.h:201-203 | the configuration code passes `isModeCorrect` and has a description |
| `Modes.CorrectButDescribedInvalid` | Main/ebyte_e28.h:203-213 | `isModeCorrect` and `description` disagree exactly on codes 1..3 |
| `Driver.PinOf` | Main/ebyte_module.h:393-397 | a `byte` stored in an `int8_t` pin field: 255 becomes -1, "not wired" |
| `Driver.EbyteModule.constructor` | Main/ebyte_module.cpp:35-48 | stores the pins, starts with an empty transmit queue, 9600 bps and mode 0 |
| `Driver.EbyteModule.ManagedDelay` | Main/ebyte_module.cpp:153-165 | returns at the first clock reading at least `timeout` ms after the first one |
| `Driver.EbyteModule.AuxReady` | Main/ebyte_module.cpp:206-231 | not-implemented without an AUX pin; otherwise success at the first HIGH reading, or a timeout once `is_timeout` fires |
| `Driver.EbyteModule.WaitCompleteResponse` | Main/ebyte_module.cpp:172-186 | returns the AUX status unchanged: not-implemented and no reading without AUX, else the readings decide |
| `Driver.EbyteModule.CleanUARTBuffer` | Main/ebyte_module.cpp:200-204 | the receive buffer ends empty |
| `Driver.EbyteModule.SetMode` | Main/ebyte_module.cpp:88-135 | an invalid code changes nothing but the clock; a valid one drives both pins, commits only on success and empties the receive buffer whatever the outcome |
| `Driver.EbyteModule.GetMode` | Main/ebyte_module.cpp:77-79 | the committed mode is always a pin mode |
| `Driver.EbyteModule.Begin` | Main/ebyte_module.cpp:64-69 | true exactly when mode 0 was entered with a successful handshake; never true without an AUX pin |
| `Driver.EbyteModule.CheckUARTConfiguration` | Main/ebyte_module.cpp:425-430 | program mode is refused exactly when the UART is not at 9600 bps |
| `Driver.EbyteModule.WriteProgramCommand` | Main/ebyte_module.cpp:268-273 | writes one frame, the command three times |
| `Driver.EbyteModule.EnterProgramMode` | Main/ebyte_module.cpp:284-289 | wrong-uart-config exactly when not at 9600 bps, with nothing touched; otherwise the mode-3 switch |
| `Driver.EbyteModule.RestoreMode` | Main/ebyte_module.cpp:302-310 | the pins end as the previous mode sets them, as if mode 3 had never been entered; the status is the handshake's over the AUX readings `setMode` took |
| `Driver.EbyteModule.GetConfiguration` | Main/ebyte_module.cpp:281-318 | wrong-uart-config exactly when the UART is not at 9600, with nothing touched; otherwise the status is the first failure among entering mode 3, the 6-byte read (short reads classified, a full one ending with the handshake), restoring the previous mode and the head check (C0 or C2), each step tied to its own AUX readings; C1 C1 C1 only once in mode 3, the previous mode restored whenever it was sent |
| `Driver.EbyteModule.SetConfiguration` | Main/ebyte_module.cpp:320-354 | wrong-uart-config exactly when the UART is not at 9600; otherwise the first failure among entering mode 3, sending the record with HEAD = `saveType` (classified by the bytes the port took, then the handshake), restoring the mode, and `saveType` being C0 or C2, each step tied to its AUX readings |
| `Driver.EbyteModule.GetModuleInformation` | Main/ebyte_module.cpp:356-393 | wrong-uart-config exactly when the UART is not at 9600; otherwise the first failure among entering mode 3, the 4-byte read, restoring the mode and the reply starting with C3, each step tied to its AUX readings |
| `Driver.EbyteModule.ResetModule` | Main/ebyte_module.cpp:395-416 | wrong-uart-config exactly when the UART is not at 9600; otherwise the first failure among entering mode 3, the handshake after C4 C4 C4 and restoring the mode, each tied to its AUX readings; success only after all of it |
| `Driver.EbyteModule.SendStruct` | Main/ebyte_module.cpp:440-452 | over 250 bytes: packet-too-big and nothing written; otherwise the write is classified, and a full write is followed by the handshake |
| `Driver.EbyteModule.ReceiveStruct` | Main/ebyte_module.cpp:454-462 | takes the first bytes that arrive, up to `size`, classifies a short read, and follows a full one with the handshake |
| `Driver.EbyteModule.ReceiveMessage` | Main/ebyte_module.cpp:470-476 | returns everything that arrives until the read times out |
| `Driver.EbyteModule.ReceiveMessageFixedSize` | Main/ebyte_module.cpp:478-484 | a struct read: up to `size` bytes from what is buffered and arrives; a short read fails as no-response or size-mismatch without touching AUX, a full one returns the handshake's status |
| `Driver.EbyteModule.ReceiveMessageUntil` | Main/ebyte_module.cpp:486-492 | returns the text before the delimiter, consumes the delimiter, and leaves the rest buffered |
| `Driver.EbyteModule.ReceiveMessageString` | Main/ebyte_module.cpp:494-506 | the text of the bytes read, up to the first NUL, with the short-read status |
| `Driver.EbyteModule.SendMessage` | Main/ebyte_module.cpp:513-521 | a struct send: over 250 bytes refused unsent; otherwise the port takes a prefix, a short write fails as classified, a full one returns the handshake's status; on success the port took exactly the message |
| `Driver.EbyteModule.SendFixedMessage` | Main/ebyte_module.cpp:527-549 | sends the header and the payload as one frame of size + 3 bytes; a payload over 247 bytes is too big; otherwise the status is the struct send's classification and handshake |
| `Driver.EbyteModule.SendBroadcastFixedMessage` | Main/ebyte_module.cpp:523-533 | a fixed frame to 0xFF 0xFF; packet-too-big with nothing written over 247 payload bytes, otherwise the struct send's status: the write classified by the bytes the port took, then the handshake |
| `Driver.EbyteModule.LengthMessageQueueTx` | Main/ebyte_module.cpp:557-559 | 0 exactly when nothing is queued |
| `Driver.EbyteModule.FragmentMessageQueueTx` | Main/ebyte_module.cpp:561-577 | queues a prefix of the payload's frames, in order; success exactly when all ceil(size/250) frames were queued, else buf-too-small after a refused enqueue |
| `Driver.EbyteModule.ProcessMessageQueueTx` | Main/ebyte_module.cpp:579-600 | empty queue: 0 and nothing touched; otherwise the AUX wait of 100 ms decides: when it ends without AUX HIGH (or AUX is not wired) nothing is sent and 0 returned; when it succeeds the oldest frame is sent, and the frame is removed and its length returned exactly when that send (its classification and handshake) succeeds |
| `Driver.EbyteModule.Drain` | Main/ebyte_module.cpp:54-58 | dequeuing until the length is 0 empties the queue |
| `DriverE34.Low8` | Main/ebyte_e34.cpp:251 | an 8-bit length keeps the count modulo 256, and is exact below 256 |
| `DriverE34.StringLengthWraps` | Main/ebyte_e34.cpp:600 | a 300-character text gets the size 44 |
| `DriverE34.EbyteE34.constructor` | Main/ebyte_e34.cpp:43-97 | stores the rate and the pins given, -1 for the others, and starts in mode 0 |
| `DriverE34.EbyteE34.ManagedDelayAsWritten` | Main/ebyte_e34.cpp:196-210 | the loop's exit test never holds: `t` is never re-read |
| `DriverE34.EbyteE34.ManagedDelay` | Main/ebyte_e34.cpp:196-210 | returns at the first clock reading more than `timeout` ms after the first one |
| `DriverE34.EbyteE34.WaitCompleteResponse` | Main/ebyte_e34.cpp:157-189 | without AUX, success and no reading; with AUX, the strict-deadline outcome of the readings, returned at once on timeout |
| `DriverE34.EbyteE34.CleanUARTBuffer` | Main/ebyte_e34.cpp:224-228 | the receive buffer ends empty |
| `DriverE34.EbyteE34.SetMode` | Main/ebyte_e34.cpp:317-366 | with no mode pin wired, writes no pin; otherwise an invalid code changes nothing but the clock; commits only on success and keeps the receive buffer |
| `DriverE34.EbyteE34.GetMode` | Main/ebyte_e34.cpp:368 | with mode pins wired, the committed mode is a pin mode |
| `DriverE34.EbyteE34.Begin` | Main/ebyte_e34.cpp:104-150 | drives each wired mode pin HIGH, then enters mode 0; true exactly when that handshake succeeded |
| `DriverE34.EbyteE34.Raised` | Main/ebyte_e34.cpp:118-127 | each wired mode pin is HIGH, and no other pin changes |
| `DriverE34.EbyteE34.CheckUARTConfiguration` | Main/ebyte_e34.cpp:424-429 | program mode is refused exactly when the UART is not at 9600 bps |
| `DriverE34.EbyteE34.WriteProgramCommand` | Main/ebyte_e34.cpp:370-375 | writes one frame, the command three times |
| `DriverE34.EbyteE34.EnterProgramMode` | Main/ebyte_e34.cpp:380-386 | wrong-uart-config exactly when not at 9600 bps, with nothing touched; otherwise the mode-3 switch |
| `DriverE34.EbyteE34.RestoreMode` | Main/ebyte_e34.cpp:397-411 | the pins end as the previous mode sets them; the status is the handshake's over the AUX readings `setMode` took |
| `DriverE34.EbyteE34.GetConfiguration` | Main/ebyte_e34.cpp:377-422 | as in the current driver: wrong-uart-config exactly off 9600, otherwise the first failure among entering mode 3, the 6-byte read, the restore and the head check, each tied to its AUX readings; the bytes come from what was already buffered and then from what arrives |
| `DriverE34.EbyteE34.SetConfiguration` | Main/ebyte_e34.cpp:431-471 | wrong-uart-config exactly off 9600; otherwise the first failure among entering mode 3, sending the record with HEAD = `saveType` (packet-too-big when the handle's limit is below 6), the restore, and `saveType` being C0 or C2 |
| `DriverE34.EbyteE34.GetModuleInformation` | Main/ebyte_e34.cpp:473-521 | wrong-uart-config exactly off 9600; otherwise the first failure among entering mode 3, the 4-byte read, the restore and the reply starting with C3, each tied to its AUX readings |
| `DriverE34.EbyteE34.ResetModule` | Main/ebyte_e34.cpp:523-546 | wrong-uart-config exactly off 9600; otherwise the first failure among entering mode 3, the handshake after C4 C4 C4 and the restore, each tied to its AUX readings |
| `DriverE34.EbyteE34.SendStruct` | Main/ebyte_e34.cpp:244-274 | over MAX_SIZE_TX_PACKET + 2 bytes: packet-too-big and nothing written; the 8-bit count is classified; success empties the receive buffer |
| `DriverE34.EbyteE34.ReceiveStruct` | Main/ebyte_e34.cpp:287-311 | takes the first bytes up to `size` and classifies the 8-bit count; a full read is followed by the handshake |
| `DriverE34.EbyteE34.ReceiveMessage` | Main/ebyte_e34.cpp:548-560 | returns everything that arrives, then empties the buffer |
| `DriverE34.EbyteE34.ReceiveMessageUntil` | Main/ebyte_e34.cpp:562-574 | returns the text before the delimiter, and leaves the rest buffered |
| `DriverE34.EbyteE34.ReceiveMessageFixed` | Main/ebyte_e34.cpp:576-587 | a struct read of `size` bytes, the count read kept in 8 bits and classified, a full read ending with the handshake; the buffer is emptied whatever the outcome |
| `DriverE34.EbyteE34.ReceiveInitialMessage` | Main/ebyte_e34.cpp:659-677 | a short read is an error with no text; a full one is returned as text |
| `DriverE34.EbyteE34.SendMessage` | Main/ebyte_e34.cpp:589-595 | a struct send of the message bytes: over the handle's limit refused unsent; otherwise the port takes a prefix, the 8-bit count is classified, a full write returns the handshake's status |
| `DriverE34.EbyteE34.SendMessageStringAsWritten` | Main/ebyte_e34.cpp:597-611 | only the first length mod 256 characters are sent, so a text of 256 or more is not the frame sent; the status is the send of that prefix, so it is success whenever the prefix went out whole and the handshake succeeded |
| `DriverE34.EbyteE34.SendMessageString` | Main/ebyte_e34.cpp:597-611 | the whole text is sent, or refused as too big; a sent text's status is the struct send's (8-bit count classified, then the handshake) |
| `DriverE34.EbyteE34.SendFixedMessage` | Main/ebyte_e34.cpp:636-653 | the header and the payload as one frame of size + 3 bytes; the status is the struct send's classification and handshake |
| `DriverE34.EbyteE34.SendFixedMessageStringAsWritten` | Main/ebyte_e34.cpp:613-618 | the frame carries only the first length mod 256 characters, so for a text of 256 or more the frame sent is not the text's frame; the status is that shorter frame's send |
| `DriverE34.EbyteE34.SendBroadcastFixedMessage` | Main/ebyte_e34.cpp:655-657 | a fixed frame to 0xFF 0xFF; packet-too-big with nothing written past MAX_SIZE_TX_PACKET + 2 bytes, otherwise the status of the struct send (8-bit count classified, then the handshake) |
| `DriverE34.EbyteE34.SendFixedMessageString` | Main/ebyte_e34.cpp:613-618 | the whole text as the payload of one fixed frame, or refused when an 8-bit size cannot describe it; packet-too-big past MAX_SIZE_TX_PACKET + 2 bytes, otherwise the frame's send status |
| `DriverE34.EbyteE34.SendBroadcastFixedMessageString` | Main/ebyte_e34.cpp:620-622 | a text of at most 255 bytes that fits goes out as one frame to 0xFF 0xFF, with the frame's send status; a longer one is refused with nothing touched |

## Left out

- Serial-port setup and teardown are not modelled: `changeBpsRate`, `getBpsRate`, `setBpsRate`, `available`, `flush`, the `hs->begin`/`setTimeout` calls in `begin`, and the wait for the port. They are hardware I/O. The port is modelled only as the transmit log and the receive buffer.
- `millis()`, `digitalRead`, `digitalWrite`, `taskYIELD` and `vTaskDelay` are not modelled as such. They are the environment's readings and effects in `Hardware.Board`. The scheduler is not modelled.
- Printing is not modelled: `printParameters`, `printHead`, the debug output, `term_printf` and `getVersionInfo`'s printing.
- `malloc`, `free`, `memcpy` and `init_stack` are not modelled. Buffers are byte sequences. A failed allocation, and the over-allocation in `init_stack`, are not modelled.
- The mavlink bypass, the loopback script, and the headers that only select a module or declare externs are not part of this model.
- `pref_setup`, `pref_load`, `pref_apply` and `pref_save` are declared without a body in the headers. Only their default topic, `Pref.DEFAULT_TOPIC`, is modelled.
- The queue's implementation file is not part of this model. `q_enqueue` failure is an environment oracle, `allocOk`. The length and data that `q_dequeue` returns are not used by the driver and are not modelled.
- Polling loops terminate only because the clock is assumed live: every deadline is eventually reached. A stopped clock, on which the source would spin forever, is outside the model.
- The E34 strict waits (`ManagedDelay`, `WaitCompleteResponse`) require a timeout below ULONG_MAX. On a live clock a strict wait for ULONG_MAX still never ends (`Waits.StrictMaxNeverExpires`). The driver only passes 2, 40, 50, 100 and 1000.
- `Driver.EbyteModule.ReceiveMessageString` and `DriverE34.EbyteE34.ReceiveInitialMessage` take the text from the bytes read. Past a short read, the source's buffer holds uninitialised bytes, and in the E34 variant no NUL terminator. Those bytes are not modelled.
- Bytes that arrive between `readString` and the flush that follows it (`DriverE34.EbyteE34.ReceiveMessage`) are not modelled. The flush is modelled as emptying the buffer.
- The current driver's `mode` field is not declared in its header. It is modelled as an integer starting at mode 0. The header declares `setMode(EbyteMode*)`, but the code takes a mode code, which is what is modelled. Likewise, the header declares four `sendFixedTxModeMessage` overloads (Main/ebyte_module.h:362-365), but the code defines `sendFixedMessage` and `sendBroadcastFixedMessage` (Main/ebyte_module.cpp:523-549). The model uses the code's names.
- `current_mode`, `createMode`, `createVersion` and the E28 `addrChanToConfig`/`speedToConfig`/`optionToConfig` are declared without a body. They are not modelled.
- Names that the E34 driver uses but the headers do not define are handled as follows:
  - `MAX_SIZE_TX_PACKET` is a constant parameter of the handle, `maxSizeTxPacket`.
  - `UART_BPS_RATE_9600` is read as 9600 bps.
  - `BROADCAST_ADDRESS` is read as 0xFF.
  - The `E32_*` statuses are the shared statuses of `Status`.
  - `MODE_2_POWER_SAVING` is code 2.
- `Driver.EbyteModule.constructor` takes the mode pins as a sequence, so the source's `mPin_cnt` argument is the sequence's length. It requires at least two pins, because `setMode` always drives `mPins[0]` and `mPins[1]`.
- The six E34 constructors are merged into one with default pins. The serial configuration and the `txE32pin`/`rxE32pin` arguments are stored as `txPin`/`rxPin`.
- The E34 header declares `receiveMessageFixedSize` and `receiveMessageString`, but the code has no bodies for them, so they are not modelled. The code's `receiveMessage(size)` and `receiveInitialMessage` are modelled instead.
- `DriverE34.EbyteE34.SendMessageString`, `DriverE34.EbyteE34.SendFixedMessageString` and `DriverE34.EbyteE34.SendBroadcastFixedMessageString` model the corrected String overloads. A text too long for its size variable is refused instead of truncated. Both truncating overloads are listed under Findings, with `SendMessageStringAsWritten` and `SendFixedMessageStringAsWritten` modelling them as written.
- `DriverE34.EbyteE34.ManagedDelay` is the corrected delay, and every E34 operation that waits is built on it, not on `ManagedDelayAsWritten`. These are `SetMode`, `WaitCompleteResponse`, `Begin`, `WriteProgramCommand`, `EnterProgramMode`, `RestoreMode`, the four sessions, `SendStruct`, `ReceiveStruct` and the send and receive wrappers over them. Their contracts describe the driver as evidently intended. As written, each of them never returns, because the as-written delay loops forever (see Findings).
- `Helper.ExtractInt` and `Helper.ExtractIntAsWritten` take `String::toInt` as a parameter. They do not model the narrowing of its `long` result into `int`.
- `DriverE34.EbyteE34.SendStruct` and `DriverE34.EbyteE34.ReceiveStruct` require a size below 2^16, because the source's parameter is `uint16_t`. The String overloads that feed them check this first.
- `Driver.EbyteModule.SendStruct` and the other methods of the current driver never see a size over `size_t`. Sizes are unbounded naturals.

## Findings

| source | as written | input that shows it | evidently intended | confidence | as-written member | corrected member |
|---|---|---|---|---|---|---|
| Main/ebyte_e34.cpp:196-210 | `t` is set to `t_prev` once, before the loop, and never re-read, so the exit test `(t - t_prev) > timeout` is false on every iteration and `managedDelay` never returns | any call, e.g. the `managedDelay(40)` that starts every `setMode` | read `millis()` on every iteration, as the current driver's `managedDelay` does (Main/ebyte_module.cpp:153-165) | high; not executed | `DriverE34.EbyteE34.ManagedDelayAsWritten` | `DriverE34.EbyteE34.ManagedDelay` |
| Main/helper.cpp:53-65 | when `toInt` is non-zero, `extract_int` returns true without assigning `*ret` | the text "42", with the caller's variable holding 0: reported as extracted, and the variable still holds 0 | store the converted number before returning true | high; not executed | `Helper.ExtractIntLosesValue` | `Helper.ExtractInt` |
| Main/ebyte_e34.cpp:597-611 | the length of the text is stored in a `byte`, so only `length mod 256` characters are sent, and the status can report success | a 300-character text: 44 characters are sent | send the whole text, or refuse a text the size variable cannot hold | medium; not executed | `DriverE34.EbyteE34.SendMessageStringAsWritten` | `DriverE34.EbyteE34.SendMessageString` |
| Main/ebyte_e34.cpp:613-618 | `sendFixedMessage(..., String)` also stores the length in a `byte`, so the frame carries only `length mod 256` characters | a 300-character text: a frame with 44 payload bytes is sent | send the whole text, or refuse a text the size variable cannot hold | medium; not executed | `DriverE34.EbyteE34.SendFixedMessageStringAsWritten` | `DriverE34.EbyteE34.SendFixedMessageString` |
