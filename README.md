# uBloxGPS demonstration program: receiver commands and port settings

This project models the two self-contained pieces of logic in the demonstration program
`main.cpp` of the uBloxGPS library and proves their properties in Dafny.

1. **The UBX configuration commands.** `SetUpGPS` writes seven hard-coded CFG-MSG frames.
   Six of them turn off the standard NMEA sentences (GLL, GSV, GSA, GGA, VTG, RMC) and the
   last turns on the UBX NAV-PVT message. `SetUpdate1Hz`, `SetUpdate2Hz`, `SetUpdate5Hz` and
   `SetUpdate10Hz` each write one hard-coded CFG-RATE frame.
   - Module `UbxFrame` defines the UBX frame layout: sync bytes `0xB5 0x62`, class, id, a
     little-endian 16-bit payload length, the payload, and the two-byte running (8-bit
     Fletcher) checksum over class through payload. It defines `BuildFrame` and the predicate
     `IsWellFormedUbxFrame`.
   - The running checksum is proved equal to a closed form: CK_A is the byte sum and CK_B
     the weighted byte sum, both modulo 256.
   - Well-formed frames are exactly the frames `BuildFrame` makes, and `BuildFrame` is
     injective.
   - Module `GpsCommands` writes every array of the source out byte for byte. It proves
     that each array is the frame `BuildFrame` makes from its class, id and payload, so
     every checksum byte in the source is correct.
   - It also proves what the writes configure. Each write hands over the whole array:
     16 bytes for CFG-MSG and 14 for CFG-RATE. The six disable frames target six
     different NMEA sentences of class `0xF0`, with rate 0 on every port. The enable frame
     targets NAV-PVT (`0x01`/`0x07`) with rate 1 on UART1 only. Each CFG-RATE frame has a
     measurement period that, multiplied by the rate in its name, gives 1000 ms, with
     navRate 1 and timeRef 1.
2. **The serial port settings of `setup()`.** Module `PortSettings` models how the `[port]`
   settings become serial port settings.
   - Data bits: 7, 6 and 5 select those sizes. Every other value selects 8, and a critical
     message is logged unless the value is 8: the `default` label falls through into
     `case 8`.
   - Parity is compared after lower-casing. "no", "even", "odd", "space" and "mark" select
     a parity. Anything else selects no parity and logs an error.
   - Stop bits: 2 selects two stop bits. Every other value selects one, and a critical
     message is logged unless the value is 1.
   - Flow control is compared after lower-casing. "no", "hardware" and "software" select a
     mode. Anything else logs an error and assigns no value, which the model writes as
     `None`.
   - `Setup` puts the four decoders together and lists the critical messages in the order
     `setup()` logs them, each at most once. Nothing is logged exactly when the configuration is valid.
   - Strings that differ only in letter case give the same settings. Lower-casing covers A to Z
     and the Kelvin sign U+212A, the one other character that lower-cases to a letter of an accepted name (`k`).

The serial port, QSettings and the Qt event loop are not modelled as effects. A write on
the port is a `WriteCall` value (the buffer and the byte count), and the settings read from
the file are the fields of a `PortConfig`.

## Model

| member | source | states |
|---|---|---|
| `UbxFrame.UbxChecksum` | main.cpp:194-249 | The running checksum that ends every array: for each byte CK_A += byte, then CK_B += CK_A, both mod 256. Its partner `ChecksumClosedForm` proves it equal to the byte sum and the weighted byte sum mod 256 |
| `UbxFrame.ChecksumClosedForm` | main.cpp:194-195 | The running checksum (CK_A += byte, CK_B += CK_A, both mod 256) equals CK_A = byte sum mod 256 and CK_B = weighted byte sum mod 256, for every byte sequence |
| `UbxFrame.ChecksumStep` | main.cpp:194-195 | Proof helper for `ChecksumClosedForm`: one step of the running checksum keeps both checksum bytes equal to the closed form of the longer sequence |
| `UbxFrame.ResidueStep` | main.cpp:194-195 | Proof helper for `ChecksumClosedForm`: the checksum step on residues commutes with reduction modulo 256 |
| `UbxFrame.ChecksumOfSums` | main.cpp:194-195 | Consequence of `ChecksumClosedForm` that the frame proofs use: a byte sequence whose plain and weighted sums are known has the checksum those sums give modulo 256 |
| `UbxFrame.WeightedSumSnoc` | main.cpp:194-195 | Proof helper for `ChecksumClosedForm`: appending a byte adds it to the weighted sum with the weight left for its position |
| `UbxFrame.WeightedSumShift` | main.cpp:194-195 | Proof helper for `ChecksumClosedForm`: raising every weight by one adds the plain sum once more |
| `UbxFrame.SumSnoc` | main.cpp:194-195 | Proof helper for `ChecksumClosedForm`: appending a byte adds it to the plain sum |
| `UbxFrame.ReadLe16` | main.cpp:194 | The length field is read low byte first (`0x08,0x00` is 8) and can hold at most 65535; its partner `Le16` writes a value so that it reads back |
| `UbxFrame.Le16` | main.cpp:194 | The two length bytes, low byte first, read back as the length they encode |
| `UbxFrame.Le16Unique` | main.cpp:194 | Each 16-bit value has exactly one little-endian encoding: re-encoding a read field gives back its two bytes |
| `UbxFrame.BuildFrame` | main.cpp:194 | A built frame has the payload length plus 8 bytes: the sync bytes, class and id, a length field reading the payload length, the payload, and the checksum of class through payload |
| `UbxFrame.IsWellFormedUbxFrame` | main.cpp:194-249 | A frame is well formed when it has the sync bytes, a length field counting exactly its payload, and the checksum of class through payload as its last two bytes; its partner `WellFormedIffBuilt` proves these are exactly the frames `BuildFrame` makes |
| `UbxFrame.WellFormedIffBuilt` | main.cpp:194-214 | A byte sequence is a well-formed UBX frame if and only if it is the frame BuildFrame makes from its own class, id and payload |
| `UbxFrame.BuildFrameInjective` | main.cpp:194-214 | Two equal built frames have the same class, id and payload |
| `GpsCommands.CfgMsgPayload` | main.cpp:194 | The CFG-MSG payload is 8 bytes: the target class, the target id, then the six per-port rates |
| `GpsCommands.CfgRatePayload` | main.cpp:222 | The CFG-RATE payload is 6 bytes whose three little-endian fields read back as measurement period, navigation rate and time reference |
| `GpsCommands.CfgMsgFrameSays` | main.cpp:194 | A built CFG-MSG frame is well formed, 16 bytes long, class 0x06 id 0x01, and carries the target class, target id and per-port rates it was built from |
| `GpsCommands.CfgRateFrameSays` | main.cpp:222 | A built CFG-RATE frame is well formed, 14 bytes long, class 0x06 id 0x08, and its three fields read back as the values it was built from |
| `GpsCommands.CfgMsgFrame` | main.cpp:194 | A CFG-MSG frame is the sync bytes, the 12 checksummed bytes and their checksum |
| `GpsCommands.CfgRateFrame` | main.cpp:222 | A CFG-RATE frame is the sync bytes, the 10 checksummed bytes and their checksum |
| `GpsCommands.GllFrameIsBuilt` | main.cpp:194 | The GLL disable array is exactly BuildFrame(CFG, MSG, [0xF0, 0x01, 0, 0, 0, 0, 0, 0]), checksum included |
| `GpsCommands.GsvFrameIsBuilt` | main.cpp:197 | The GSV disable array is exactly the built frame for NMEA id 0x03 with all rates zero |
| `GpsCommands.GsaFrameIsBuilt` | main.cpp:200 | The GSA disable array is exactly the built frame for NMEA id 0x02 with all rates zero |
| `GpsCommands.GgaFrameIsBuilt` | main.cpp:203 | The GGA disable array is exactly the built frame for NMEA id 0x00 with all rates zero |
| `GpsCommands.VtgFrameIsBuilt` | main.cpp:206 | The VTG disable array is exactly the built frame for NMEA id 0x05 with all rates zero |
| `GpsCommands.RmcFrameIsBuilt` | main.cpp:209 | The RMC disable array is exactly the built frame for NMEA id 0x04 with all rates zero |
| `GpsCommands.PvtFrameIsBuilt` | main.cpp:213 | The NAV-PVT enable array is exactly the built frame for class 0x01 id 0x07 with rate 1 on UART1 only |
| `GpsCommands.Rate1HzFrameIsBuilt` | main.cpp:222 | The 1 Hz array is exactly the built CFG-RATE frame for 1000 ms, navRate 1, timeRef 1 |
| `GpsCommands.Rate2HzFrameIsBuilt` | main.cpp:231 | The 2 Hz array is exactly the built CFG-RATE frame for 500 ms, navRate 1, timeRef 1 |
| `GpsCommands.Rate5HzFrameIsBuilt` | main.cpp:240 | The 5 Hz array is exactly the built CFG-RATE frame for 200 ms, navRate 1, timeRef 1 |
| `GpsCommands.Rate10HzFrameIsBuilt` | main.cpp:249 | The 10 Hz array is exactly the built CFG-RATE frame for 100 ms, navRate 1, timeRef 1 |
| `GpsCommands.SetUpGps` | main.cpp:191-215 | SetUpGPS makes seven 16-byte writes: the frames turning off GLL, GSV, GSA, GGA, VTG and RMC in that order, then the frame turning on NAV-PVT |
| `GpsCommands.DisableCommand` | main.cpp:194-210 | The frame that turns one NMEA sentence off: CFG-MSG for class 0xF0 and the sentence id with all six rates 0; its partner `DisableCommandSays` states what the frame says |
| `GpsCommands.EnablePvtCommand` | main.cpp:213 | The frame that turns NAV-PVT on: CFG-MSG for 0x01/0x07 with rate 1 on UART1 only; its partner `EnablePvtCommandSays` states what the frame says |
| `GpsCommands.DisableCommandSays` | main.cpp:194-210 | Every disable command is a well-formed 16-byte CFG-MSG frame for its NMEA id with rate 0 on all six ports |
| `GpsCommands.EnablePvtCommandSays` | main.cpp:213-214 | The enable command is a well-formed 16-byte CFG-MSG frame for NAV-PVT with rates [0, 1, 0, 0, 0, 0] |
| `GpsCommands.CommandWritesSay` | main.cpp:191-215 | Those seven writes, in that order, hand over whole 16-byte frames that turn the six sentences off and NAV-PVT on |
| `GpsCommands.SetUpGpsDisablesNmeaEnablesPvt` | main.cpp:191-215 | The writes of SetUpGPS are well-formed, whole 16-byte CFG-MSG frames: six turn NMEA sentences off on every port, the last turns NAV-PVT on at rate 1 on UART1 |
| `GpsCommands.DisabledSentencesAreTheStandardSix` | main.cpp:193-210 | The six sentence ids turned off are pairwise different and are exactly 0 to 5 (GGA, GLL, GSA, GSV, RMC, VTG) |
| `GpsCommands.PortRates` | main.cpp:194-214 | Disable payloads carry rate 0 on every port; the enable payload has exactly one non-zero rate, 1, on port 1 |
| `GpsCommands.SetUpdate1Hz` | main.cpp:220-224 | SetUpdate1Hz writes all 14 bytes of the built CFG-RATE frame for 1000 ms |
| `GpsCommands.SetUpdate2Hz` | main.cpp:229-233 | SetUpdate2Hz writes all 14 bytes of the built CFG-RATE frame for 500 ms |
| `GpsCommands.SetUpdate5Hz` | main.cpp:238-242 | SetUpdate5Hz writes all 14 bytes of the built CFG-RATE frame for 200 ms |
| `GpsCommands.SetUpdate10Hz` | main.cpp:247-251 | SetUpdate10Hz writes all 14 bytes of the built CFG-RATE frame for 100 ms |
| `GpsCommands.RateCommandSays` | main.cpp:220-251 | A whole CFG-RATE write whose period times hz is 1000 ms sets hz solutions per second with navRate 1 and timeRef 1 |
| `GpsCommands.SetUpdate1HzSetsRate` | main.cpp:220-224 | SetUpdate1Hz sets 1 solution per second: period 1000 ms, navRate 1, timeRef 1, whole well-formed frame |
| `GpsCommands.SetUpdate2HzSetsRate` | main.cpp:229-233 | SetUpdate2Hz sets 2 solutions per second: period 500 ms |
| `GpsCommands.SetUpdate5HzSetsRate` | main.cpp:238-242 | SetUpdate5Hz sets 5 solutions per second: period 200 ms |
| `GpsCommands.SetUpdate10HzSetsRate` | main.cpp:247-251 | SetUpdate10Hz sets 10 solutions per second: period 100 ms |
| `PortSettings.LowerChar` | main.cpp:66 | Lower-casing maps A to Z to a to z and the Kelvin sign to k, leaves every other character alone, and never yields a character that lower-cases further |
| `PortSettings.ToLower` | main.cpp:66 | Lower-casing keeps the length and lower-cases each character in place |
| `PortSettings.ToLowerFixesLowerCase` | main.cpp:66 | The result of lower-casing is lower case, and lower-casing leaves a string unchanged exactly when it is already lower case |
| `PortSettings.ToLowerIdempotent` | main.cpp:66 | Lower-casing twice is lower-casing once |
| `PortSettings.EqualIgnoringCaseIff` | main.cpp:66 | Two strings agree letter for letter up to case if and only if their lower-cased forms are equal |
| `PortSettings.DecodeDataBits` | main.cpp:47-63 | A critical message is logged exactly when the value is outside 5 to 8; then 8 data bits are used, otherwise the value's own size |
| `PortSettings.DataBitsRoundTrip` | main.cpp:48-62 | Each data-bits size decodes from its own number without a message |
| `PortSettings.DecodeParity` | main.cpp:65-80 | Accepted values name the parity chosen, after lower-casing; a rejected value names no parity and selects no parity |
| `PortSettings.KelvinSignSpellsMark` | main.cpp:66-76 | "MAR" followed by the Kelvin sign lower-cases to "mark" and selects mark parity without a message |
| `PortSettings.NotAParityName` | main.cpp:67-79 | A string other than the five literals is no parity's name |
| `PortSettings.ParityNameHasNoUpperCase` | main.cpp:67-75 | No parity name has a character that lower-casing changes |
| `PortSettings.ParityNameIsLowerCase` | main.cpp:66-67 | Each parity name is its own lower-cased form |
| `PortSettings.ParityRoundTrip` | main.cpp:65-80 | Each parity decodes from its own name without a message |
| `PortSettings.DecodeStopBits` | main.cpp:82-93 | Two stop bits exactly for 2; a critical message exactly when the value is neither 1 nor 2; an accepted value is the count chosen |
| `PortSettings.StopBitsRoundTrip` | main.cpp:84-92 | Each stop-bits setting decodes from its own count without a message |
| `PortSettings.DecodeFlowControl` | main.cpp:95-105 | An accepted value names the mode chosen, after lower-casing; a rejected value names no mode and leaves no mode chosen |
| `PortSettings.NotAFlowControlName` | main.cpp:97-103 | A string other than the three literals is no flow control's name |
| `PortSettings.FlowControlNameHasNoUpperCase` | main.cpp:97-101 | No flow control name has a character that lower-casing changes |
| `PortSettings.FlowControlNameIsLowerCase` | main.cpp:95-97 | Each flow control name is its own lower-cased form |
| `PortSettings.FlowControlRoundTrip` | main.cpp:95-105 | Each flow control mode decodes from its own name |
| `PortSettings.LogIf` | main.cpp:59-104 | One check of setup(): its message is added exactly when its setting was rejected, after every message of an earlier check, so the log stays in check order |
| `PortSettings.CriticalMessages` | main.cpp:59-104 | Each of the four messages is logged exactly when its setting was rejected; each appears at most once, in the order data bits, parity, stop bits, flow control |
| `PortSettings.Setup` | main.cpp:44-120 | The port gets the name and baud rate as read and the decoded data bits, parity, stop bits and flow control; each critical message is logged exactly when its setting is rejected, at most once and in the order setup() checks the settings |
| `PortSettings.SetupLogsNothingIffValid` | main.cpp:47-105 | setup() logs no critical message if and only if all four settings are ones it accepts |
| `PortSettings.DecodingIgnoresCase` | main.cpp:66-95 | Parity and flow-control strings that differ only in letter case decode alike |
| `PortSettings.SetupIgnoresCase` | main.cpp:44-120 | Two configurations whose strings differ only in letter case set up the same port and log the same messages |

## Left out

- The `uBloxGPS` class is not part of this model: the frame decoder `FeedMe`, the NAV-PVT record, the fix number and the position callback. `uBloxGPS.h` is not part of this model either.
- `loop()` (main.cpp:133-181) reads the serial port and prints the PVT fields. This is I/O and floating-point formatting over the `uBloxGPS` state, which is left out.
- `PositionUpdateCallback` (main.cpp:30-33) only prints. `main()` (main.cpp:254-299) runs the Qt event loop, a stop timer and the port's `readyRead` handler. Both are event-driven I/O.
- QSettings file reading is not modelled. The values it returns are the fields of `PortConfig`, and `QVariant::toInt` is taken as already applied: a missing or non-numeric entry arrives as the integer that call returns (0), which every decoder rejects like any other invalid value.
- The `qDebug` echo of the settings (main.cpp:107-112) and the `QSerialPort` setters (main.cpp:115-120) are not modelled as effects. Their arguments are the `SerialSettings` record.
- The calls to `SetUpGPS` and `SetUpdate1Hz` are commented out in `setup()` (main.cpp:124-125). The commands are modelled as the functions themselves, not as part of `Setup`.
- `Serial2.write` is modelled as a `WriteCall` value. Partial writes and transport errors are not modelled.
- PortSettings.LowerChar: lower-cases A to Z and the Kelvin sign U+212A (to `k`) and leaves every other character unchanged, where `QString::toLower` also lower-cases the other non-ASCII letters. Apart from these two, only U+0130 lower-cases to an ASCII letter: `i`, with or without a combining dot, and no accepted name has an `i`. Every other non-ASCII letter lower-cases to a non-ASCII character. So a string holding any of them is rejected both by the model and by `setup()`, and the decoded settings agree.
- PortSettings.ToLower: applies `LowerChar` to each character, so it differs from `QString::toLower` only on the characters named above, and the same reasoning applies.
- PortSettings.DecodeFlowControl: for a rejected value the source leaves `flowCtl` uninitialised and still passes it to `setFlowControl`. The C++ value is indeterminate, so the model returns `None` and does not say which mode the port ends up with.
- `baudRate` is passed through as an unbounded integer. Its `qint32` range is not modelled because nothing depends on it.
