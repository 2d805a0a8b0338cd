# Arduino PC monitor: verified model of the LCD pipeline

This project models, in Dafny, the deterministic core of the HWiNFO LCD
monitor (`HWiNFO_LCD_C_Sharp/Arduino_Monitor/Form1.cs`). While connected
(between the connect and disconnect buttons), once a second the program
reads sensor records from HWiNFO's shared memory. It looks up a few
readings by label and renders four lines for a 20x4 serial character LCD:
the clock, then CPU, RAM and GPU load bars. The lines go over the serial
port as text mixed with control codes:
- 23-27 are bar glyphs;
- 28 and 29 switch the backlight on and off;
- 30 is a line break;
- 31 clears the screen.

Every line is also mirrored into a four-slot preview box on the window.

Modules, one per file:

| file | module | models |
|---|---|---|
| `int32_arith.dfy` | `Int32Arith` | C#'s truncating `/` and `%`, and unchecked 32-bit `int`/`uint` wrap-around |
| `text.dfy` | `Text` | repetition, padding, ASCII upper-casing |
| `decimal.dfy` | `Decimal` | `{0,w}` integer alignment and zero-padded date fields, with parsers |
| `lcd_codes.dfy` | `LcdCodes` | the control alphabet and the fixed sequences written on connect, disconnect, error and after each line |
| `receiver.dfy` | `Receiver` | a reference LCD receiver that gives each control code the meaning its name declares; the partner for every wire property |
| `bar_graph.dfy` | `BarGraph` | the bar quantiser and the padded bar line of `HAO` |
| `preview.dfy` | `Preview` | `sendToPreviewScreen`: glyph replacement and the rotating slot index |
| `clock.dfy` | `Clock` | the en-US "ddd yyyy-MM-dd HH:mm" / "HH mm" clock line |
| `sensors.dfy` | `Sensors` | the reading record and `List.Find` by label, optionally by unit |
| `shared_memory.dfy` | `SharedMemory` | the header layout and the record schedule of `readMemory` |
| `render.dfy` | `Render` | the `HAO` and `LIU` layouts |
| `controller.dfy` | `Controller` | connect, disconnect, close, the render tick and the auto-connect schedule |
| `wrappers.dfy` | `Wrappers` | `Option` and `Result` |

The render state is an immutable `Session` value threaded through each render.
It holds the blinking-colon flag `bColon` and the preview (index, four slots,
text box). The port is reduced to whether it is open. Inputs are:
- whether `port.Open()` succeeds;
- whether the HWiNFO process runs;
- the shared-memory bytes;
- the record decoder;
- the clock;
- floating-point figures, already formatted.

## Model

| member | source | states |
|---|---|---|
| Int32Arith.Rem | HWiNFO_LCD_C_Sharp/Arduino_Monitor/Form1.cs:388-393 | C# `%` with its `/`: the value is quotient times divisor plus remainder; the remainder has the dividend's sign and is smaller than the divisor |
| Int32Arith.Wrap32 | HWiNFO_LCD_C_Sharp/Arduino_Monitor/Form1.cs:333-337 | unchecked `int` arithmetic gives a value congruent mod 2^32 to the exact one; it is exact when no overflow occurs |
| Int32Arith.WrapU32 | HWiNFO_LCD_C_Sharp/Arduino_Monitor/Form1.cs:265 | unchecked `uint` arithmetic: congruent mod 2^32, exact when in range |
| Decimal.IntStringRoundTrip | HWiNFO_LCD_C_Sharp/Arduino_Monitor/Form1.cs:396 | parsing the text of an `int` gives back the `int` |
| Decimal.AlignedRoundTrip | HWiNFO_LCD_C_Sharp/Arduino_Monitor/Form1.cs:430 | stripping the `{0,w}` padding and parsing gives back the number, for every width |
| Decimal.AlignedExactWidth | HWiNFO_LCD_C_Sharp/Arduino_Monitor/Form1.cs:396 | `{0,w}` is exactly `w` columns iff -10^(w-1) < n < 10^w; otherwise it is wider, never truncated |
| Decimal.ZeroPaddedRoundTrip | HWiNFO_LCD_C_Sharp/Arduino_Monitor/Form1.cs:372 | a zero-padded date field parses back to its number |
| Decimal.DigitsLength | HWiNFO_LCD_C_Sharp/Arduino_Monitor/Form1.cs:396 | a number's digits fit in `k` columns iff it is below 10^k |
| Receiver.FeedConnect | HWiNFO_LCD_C_Sharp/Arduino_Monitor/Form1.cs:111-112 | whatever the screen showed, the connect sequence [28, 31] leaves it lit and empty |
| Receiver.FeedDisconnect | HWiNFO_LCD_C_Sharp/Arduino_Monitor/Form1.cs:76-79 | whatever the screen showed, the disconnect sequence [31, 29] leaves it dark and empty |
| Receiver.FeedErrorFrame | HWiNFO_LCD_C_Sharp/Arduino_Monitor/Form1.cs:213-218 | an error frame [28, 31] + msg + [30] leaves the screen lit, showing exactly the one message row |
| Receiver.FeedLine | HWiNFO_LCD_C_Sharp/Arduino_Monitor/Form1.cs:381 | a line followed by one line break completes exactly one row |
| Receiver.FeedEncode | HWiNFO_LCD_C_Sharp/Arduino_Monitor/Form1.cs:380-432 | round trip: lines without command codes, each followed by one break, become exactly those rows on the screen |
| Receiver.EncodeInjective | HWiNFO_LCD_C_Sharp/Arduino_Monitor/Form1.cs:380-432 | two command-free frames with the same characters on the wire are the same frame |
| BarGraph.ClampLaws | HWiNFO_LCD_C_Sharp/Arduino_Monitor/Form1.cs:387 | clamping is idempotent and order-preserving, never exceeds 99, and leaves a value unchanged iff it is at most 99 |
| BarGraph.Bar | HWiNFO_LCD_C_Sharp/Arduino_Monitor/Form1.cs:387-393 | a bar has at most 10 cells, each a glyph code in 23..27 |
| BarGraph.PartialGlyphClosedForm | HWiNFO_LCD_C_Sharp/Arduino_Monitor/Form1.cs:389-393 | the five-threshold chain picks glyph level ceil(r/2) for remainder r in 0..9, and no glyph for 0 |
| BarGraph.BarClosedForm | HWiNFO_LCD_C_Sharp/Arduino_Monitor/Form1.cs:387-393 | every bar is the canonical bar of its fill level: full cells, then one glyph for the rest |
| BarGraph.FillOfBarOfLevel | HWiNFO_LCD_C_Sharp/Arduino_Monitor/Form1.cs:388-393 | reading a canonical bar's glyph levels back gives its fill level |
| BarGraph.BarFill | HWiNFO_LCD_C_Sharp/Arduino_Monitor/Form1.cs:387-393 | the glyph levels of the bar of v sum to ceil(min(v,99)/2) fifths of a cell, and to 0 for v <= 0 |
| BarGraph.BarSameIffLevelSame | HWiNFO_LCD_C_Sharp/Arduino_Monitor/Form1.cs:387-393 | two values draw the same bar iff they deserve the same fill level, in both directions |
| BarGraph.BarLength | HWiNFO_LCD_C_Sharp/Arduino_Monitor/Form1.cs:388-393 | the bar is `c/10 + (c%10 >= 1 ? 1 : 0)` cells for the clamped value c > 0; no cells for v <= 0 |
| BarGraph.BarMonotone | HWiNFO_LCD_C_Sharp/Arduino_Monitor/Form1.cs:387-393 | a larger value never draws a shorter bar or a lower fill |
| BarGraph.BarSaturates | HWiNFO_LCD_C_Sharp/Arduino_Monitor/Form1.cs:387 | every value above 99 draws the bar of 99 |
| BarGraph.BarLine | HWiNFO_LCD_C_Sharp/Arduino_Monitor/Form1.cs:384-396 | a bar line is max(14, prefix + bar) columns plus the suffix: padding never truncates |
| BarGraph.BarLineParts | HWiNFO_LCD_C_Sharp/Arduino_Monitor/Form1.cs:384-396 | a bar line reads, left to right: the prefix, the bar, only spaces, the suffix |
| BarGraph.BarLineColumns | HWiNFO_LCD_C_Sharp/Arduino_Monitor/Form1.cs:394-396 | with a prefix of at most 4 characters the suffix starts exactly at column 14, after spaces only |
| BarGraph.AppendBar | HWiNFO_LCD_C_Sharp/Arduino_Monitor/Form1.cs:387-393 | the full-glyph loop and the threshold chain append exactly the bar |
| BarGraph.AppendPadding | HWiNFO_LCD_C_Sharp/Arduino_Monitor/Form1.cs:394-395 | the padding loop, with its bound fixed before it starts, pads to the column and never truncates |
| BarGraph.BuildBarLine | HWiNFO_LCD_C_Sharp/Arduino_Monitor/Form1.cs:384-396 | the imperative line builder produces the bar line |
| Preview.ReplaceLaws | HWiNFO_LCD_C_Sharp/Arduino_Monitor/Form1.cs:289 | after String.Replace, `from` no longer occurs (unless it is `to`); a string without `from`, or a replacement of a character by itself, is unchanged; no new character other than `to` appears |
| Preview.MirrorChainIsMirror | HWiNFO_LCD_C_Sharp/Arduino_Monitor/Form1.cs:289-293 | the five chained `Replace` calls equal one character-by-character map: glyphs 23..27 become '2','4','6','8','='; no glyph is left; every other character is kept |
| Preview.Send | HWiNFO_LCD_C_Sharp/Arduino_Monitor/Form1.cs:288-303 | the slot at the current index receives the mirrored line and no other slot changes; the index advances and wraps from 4 to 1; the text box shows the four slots joined by line breaks |
| Preview.FourSendsRotate | HWiNFO_LCD_C_Sharp/Arduino_Monitor/Form1.cs:295-300 | four sends return the index to its start and leave the four mirrored lines in consecutive slots, in the order sent, wrapping after slot 4 |
| Clock.Stamp | HWiNFO_LCD_C_Sharp/Arduino_Monitor/Form1.cs:371-377 | the clock line is 20 columns wide; column 17 is ':' or ' ' as the flag says |
| Clock.StampFields | HWiNFO_LCD_C_Sharp/Arduino_Monitor/Form1.cs:372 | the day name, year, month, day, hour and minute parse back from their columns |
| Clock.StampColumns | HWiNFO_LCD_C_Sharp/Arduino_Monitor/Form1.cs:371-377 | the day name sits in columns 0-2, the year in 4-7, month 9-10, day 12-13, hour 15-16, minute 18-19; both formats agree on the first 17 columns |
| Clock.StampToggleOnlySeparator | HWiNFO_LCD_C_Sharp/Arduino_Monitor/Form1.cs:371-378 | the two formats of one instant differ in the separator column only |
| Clock.StampIsDisplayText | HWiNFO_LCD_C_Sharp/Arduino_Monitor/Form1.cs:381 | the clock line carries no control command |
| Clock.UpperStamp | HWiNFO_LCD_C_Sharp/Arduino_Monitor/Form1.cs:380 | upper-casing for the preview changes the day name only |
| Sensors.FirstMatch | HWiNFO_LCD_C_Sharp/Arduino_Monitor/Form1.cs:385 | the index found matches the query and no earlier reading does; no index means no reading matches |
| Sensors.Find | HWiNFO_LCD_C_Sharp/Arduino_Monitor/Form1.cs:385-386 | a match exists iff a matching listed reading is returned; otherwise the default record with value 0 is returned |
| Sensors.FindIgnoresLater | HWiNFO_LCD_C_Sharp/Arduino_Monitor/Form1.cs:385 | readings after the first match do not change the result |
| Sensors.FindSkipsNonMatching | HWiNFO_LCD_C_Sharp/Arduino_Monitor/Form1.cs:355-356 | readings that do not match, placed in front, do not change the result |
| SharedMemory.U32RoundTrip | HWiNFO_LCD_C_Sharp/Arduino_Monitor/Form1.cs:149-162 | a little-endian `uint` header field reads back the value stored |
| SharedMemory.ElementOffsetModulo | HWiNFO_LCD_C_Sharp/Arduino_Monitor/Form1.cs:265 | record i starts at (offset + i*size) mod 2^32 |
| SharedMemory.Element | HWiNFO_LCD_C_Sharp/Arduino_Monitor/Form1.cs:265-268 | each record is exactly `dwSizeOfReadingElement` bytes |
| SharedMemory.ReadFromSucceeds | HWiNFO_LCD_C_Sharp/Arduino_Monitor/Form1.cs:263-274 | reading from record k on succeeds iff every later record's view fits in the region and the size passes `ToInt32` |
| SharedMemory.ReadFromRecords | HWiNFO_LCD_C_Sharp/Arduino_Monitor/Form1.cs:263-274 | a successful read from record k on yields one record per remaining index, each cut from its scheduled offset |
| SharedMemory.ReadFromOutOfRange | HWiNFO_LCD_C_Sharp/Arduino_Monitor/Form1.cs:265-267 | an out-of-range failure names a record index in range whose view does not fit |
| SharedMemory.RecordsCons | HWiNFO_LCD_C_Sharp/Arduino_Monitor/Form1.cs:265-268 | a record that fits, put in front of the records that follow it, gives the records from its own index |
| SharedMemory.ReadRecords | HWiNFO_LCD_C_Sharp/Arduino_Monitor/Form1.cs:257-262 | a missing region fails as unavailable, and a region shorter than the 44-byte header fails as out of range |
| SharedMemory.ReadRecordsSpec | HWiNFO_LCD_C_Sharp/Arduino_Monitor/Form1.cs:257-281 | a read succeeds iff the header fits and every scheduled record can be read; it then yields exactly `dwNumReadingElements` records, record i cut from its scheduled offset |
| SharedMemory.ReadMemory | HWiNFO_LCD_C_Sharp/Arduino_Monitor/Form1.cs:257-281 | the loop with early exits computes the same outcome as the schedule |
| SharedMemory.NoWrapInSmallRegion | HWiNFO_LCD_C_Sharp/Arduino_Monitor/Form1.cs:265 | in a region below 4 GiB where all records fit, no record address wraps |
| Render.WriteLines | HWiNFO_LCD_C_Sharp/Arduino_Monitor/Form1.cs:380-432 | with the port open, each line is written followed by exactly one line break, so the write ends with a break; with it closed nothing is written |
| Render.Hao | HWiNFO_LCD_C_Sharp/Arduino_Monitor/Form1.cs:363-434 | four lines; the colon flag flips; the clock line is 20 columns with the separator the old flag selects; the wire is the encoded frame, ending in a line break, iff the port is open |
| Render.FirstRender | HWiNFO_LCD_C_Sharp/Arduino_Monitor/Form1.cs:283-287 | the first render after process start shows the colon, clears the flag, and fills preview slots 1 to 4 in order |
| Render.HaoColonBlinks | HWiNFO_LCD_C_Sharp/Arduino_Monitor/Form1.cs:371-378 | two renders restore the flag, and their clock lines alternate ':' and ' ' |
| Render.HaoBars | HWiNFO_LCD_C_Sharp/Arduino_Monitor/Form1.cs:384-430 | each bar line holds its prefix, the bar of the looked-up load, and its suffix from column 14 |
| Render.TempBarLineWidth | HWiNFO_LCD_C_Sharp/Arduino_Monitor/Form1.cs:394-396 | a bar line with a temperature suffix is 20 columns iff the temperature is in -9..99 |
| Render.LinesWidth | HWiNFO_LCD_C_Sharp/Arduino_Monitor/Form1.cs:369-432 | for any 20-column clock line, every line is 20 columns when the temperatures are in -9..99 and the memory figure is four characters |
| Render.HaoColumns | HWiNFO_LCD_C_Sharp/Arduino_Monitor/Form1.cs:369-432 | the corollary of Render.LinesWidth for the actual clock line: every rendered line, clock included, is exactly 20 columns when the temperatures print in two columns and the memory figure in four |
| Render.HaoLinesAreDisplayText | HWiNFO_LCD_C_Sharp/Arduino_Monitor/Form1.cs:380-432 | no rendered line carries a control command |
| Render.HaoOnScreen | HWiNFO_LCD_C_Sharp/Arduino_Monitor/Form1.cs:380-432 | the LCD gains exactly the four rendered lines as rows |
| Render.HaoPreview | HWiNFO_LCD_C_Sharp/Arduino_Monitor/Form1.cs:380-431 | the preview holds the four mirrored lines, the clock upper-cased, from the current slot on; the index is back where it started |
| Render.AverageBounds | HWiNFO_LCD_C_Sharp/Arduino_Monitor/Form1.cs:337 | without overflow the DIMM average lies between the two values, rounded toward zero |
| Render.Liu | HWiNFO_LCD_C_Sharp/Arduino_Monitor/Form1.cs:305-360 | four lines; the colon flag is untouched; each line goes out followed by one line break iff the port is open |
| Render.LiuFanColumns | HWiNFO_LCD_C_Sharp/Arduino_Monitor/Form1.cs:357 | the fan line is 20 columns when both speeds are in 0..9999 |
| Render.LiuFanByUnit | HWiNFO_LCD_C_Sharp/Arduino_Monitor/Form1.cs:355-356 | the fan lookups skip same-named readings whose unit is not RPM |
| Controller.Connect | HWiNFO_LCD_C_Sharp/Arduino_Monitor/Form1.cs:91-121 | writes [28, 31] iff a real port was closed and opens, and nothing otherwise; the colon flag and preview index are kept |
| Controller.Disconnect | HWiNFO_LCD_C_Sharp/Arduino_Monitor/Form1.cs:71-88 | the port ends closed; [31, 29] is written iff it was open; the colon flag, preview index and slots are kept and only the preview text box is cleared |
| Controller.Close | HWiNFO_LCD_C_Sharp/Arduino_Monitor/Form1.cs:195-201 | the port ends closed; [31, 29] is written iff it was open; nothing else changes |
| Controller.DecodeAll | HWiNFO_LCD_C_Sharp/Arduino_Monitor/Form1.cs:268-272 | one reading per record: reading i is the decoding of record i |
| Controller.DecodeAllAppend | HWiNFO_LCD_C_Sharp/Arduino_Monitor/Form1.cs:263-273 | decoding is done record by record in index order: decoding a longer read extends the decoding of its prefix |
| Controller.PollTick | HWiNFO_LCD_C_Sharp/Arduino_Monitor/Form1.cs:203-245 | nothing is written while the port is closed; every write ends with a line break |
| Controller.TickReopensOnly | HWiNFO_LCD_C_Sharp/Arduino_Monitor/Form1.cs:204-208 | a closed real port is only reopened: no write, state otherwise unchanged |
| Controller.TickProducerDown | HWiNFO_LCD_C_Sharp/Arduino_Monitor/Form1.cs:210-220 | without the producer the shared memory is not consulted, and the LCD shows only the app error, lit |
| Controller.TickSensorError | HWiNFO_LCD_C_Sharp/Arduino_Monitor/Form1.cs:222-232 | a failed read leaves the LCD lit showing only the sensor error; the colon flag is kept |
| Controller.TickNoReadings | HWiNFO_LCD_C_Sharp/Arduino_Monitor/Form1.cs:234 | a region with no readings renders nothing and changes nothing |
| Controller.TickRenders | HWiNFO_LCD_C_Sharp/Arduino_Monitor/Form1.cs:234-238 | a read with readings flips the colon and puts exactly the four rendered lines on the LCD |
| Controller.ConnectThenDisconnect | HWiNFO_LCD_C_Sharp/Arduino_Monitor/Form1.cs:71-121 | connect then disconnect writes [28, 31, 31, 29]; the LCD is lit and empty, then dark and empty |
| Controller.DisconnectTwice | HWiNFO_LCD_C_Sharp/Arduino_Monitor/Form1.cs:76-80 | a second disconnect writes nothing |
| Controller.AutoDecision | HWiNFO_LCD_C_Sharp/Arduino_Monitor/Form1.cs:436-458 | connects exactly at weekends or from 18:00 (port chosen, box checked, connect enabled); disconnects exactly on weekdays before 18:00 (disconnect enabled) |
| Controller.AutoRespectsHours | HWiNFO_LCD_C_Sharp/Arduino_Monitor/Form1.cs:441-451 | never disconnects at a weekend; never connects on a weekday before 18:00 |
| Controller.AutoTick | HWiNFO_LCD_C_Sharp/Arduino_Monitor/Form1.cs:436-458 | a weekend tick never closes the port; a weekday-daytime tick writes nothing or the disconnect sequence |

## Behaviour of note

- Connecting and error frames send backlight-on (28), then clear (31).
- `bColon` and the preview index are never reset on reconnect. They start at `true` and 1 when the process starts.
- `readMemory` validates nothing in the header: no signature, version or size check. Any exception makes it return false, which the tick reports as a sensor error.
- When the region publishes no readings, the tick renders and writes nothing, so the LCD keeps its previous frame.
- Text written to the LCD is not filtered for codes 23 to 31. The model proves that every rendered line is free of the command codes 28 to 31 (backlight on/off, line break, clear) when its inputs are; the bar glyphs 23 to 27 are sent on purpose.
- The error messages read "HWiFNO …", as the program spells them.

## Left out

- `Form1.Designer.cs`: generated layout and event wiring, no logic.
- `OpenInfo_LCD_C#/OpenHardwareMonitorLCD/Form1.cs` and `OpenInfo_TDisplayS3_M1/monitor_mac.py`: separate programs (another sensor library, and a Python serial/JSON sampler); not part of this core.
- `HWiNFOisStarted` (process enumeration by regex) is the boolean input `producerRunning`.
- Marshalling of `HWiNFO_ELEMENT` from a record's bytes (ANSI strings, doubles) is the function input `decode`. The record struct is 316 bytes; a shorter record size would make `PtrToStructure` read past the buffer, which is not modelled.
- The double values of a reading: the layouts use only the result of the `(int)` cast, taken as the input `value`. The `{1:0.000}` and `{0,4:0.0}` float formats are inputs as formatted strings (`cpuVolts`, `dramVolts`, `ramUsed`).
- Memory-mapped file capacity is taken as the region's length. Page rounding of views, and the unreleased `mmf`/`accessor` handles, are not modelled.
- A record size of 0: .NET then maps a view to the end of the file. The model cuts an empty record instead.
- Exceptions while writing to the port inside `HAO` (line 240 mirrors "serial error" into the preview) are not modelled: writes always succeed. An exception from `port.Open()` in `timer2_Tick` is not caught by the program; the model keeps the port closed.
- Integer formatting uses "-" as the negative sign; the current culture's sign is not modelled.
- Clock.UpperStamp: `ToUpper` is modelled as ASCII upper-casing. Under a Turkish current culture "Fri" would upper-case differently.
- Timer enabling (Form1.cs lines 74, 94-95 and 105-108): `PollTick` is one tick when `timer2` fires. `timer2` runs only between a connect and a disconnect, and `timer1` only after a real-port connect. The model does not track which timers are enabled, so the reopen branch of `PollTick` is reached only in a connected session, never after the disconnect button.
- Tray icon, message boxes, status-bar text, button and combo-box enabling, and timer intervals are not modelled. The auto-connect decision takes the buttons' enabled flags as inputs.
- Serial settings (9600 baud, 8N1, RTS) are not modelled. The wire is a string of ASCII characters, one byte each.
- Clock.Valid: the day of month is bounded by 31, not by the month's length. Only the field widths matter to the line.
