# Happy GardenPI driver core, modelled in Dafny

This project models the logic of a Linux kernel driver for a garden
controller board and for the HD44780 16x2 character display attached to it.
The modelled parts are:

- the 4-bit display bus (`src/lcd.c`): initial levels, the enable pulse, the
  nibble write and the two-nibble send;
- the display module (`hhg_lcd.c`): validation and acquisition of its lines,
  the 8-bit initialiser, the send stubs and the single-open gate of the
  character device;
- board bring-up (`src/gpio_config.c`): validity checks, requests,
  directions, exports, and the release of every line on failure;
- relay control (`src/relay.c`): four active-low relays;
- the push button (`src/button.c`): the debounce window and busy gate of the
  interrupt top half, and the bounded bottom half;
- the command parser (`src/parser.c`): the tokenizer and the target dispatch;
- error records (`src/error.c`): creation, the last-error register, printing
  and freeing.

The kernel GPIO subsystem is modelled once, in `gpio.dfy`, as a class `Chip`.
It holds:

- the set of valid lines;
- the requested, exported and level state of each line;
- the trace of every call the driver makes, in order.

Each driver file becomes one module.

- **Imperative code** becomes methods on that object. Each method's `ensures`
  gives the whole new state in terms of specification functions (call lists,
  `ToSet`, `SetAll`, `OutputsAfter`, `WriteLevels`).
- **Properties the source promises** are proved as lemmas about those
  functions.
- **Driver-owned state** gets its own class: `DeviceGate` for `device_busy`,
  `ButtonIrq` for `old_jiffies`/`thread_busy`, `ErrorRegistry` for
  `last_error`, and `ParserRecord` for the caller's `hgd_parser_t`.
- **C strings** are modelled in `cstring.dfy` (`strlen`, `strncpy`,
  `strncmp`).
- **Board constants and kernel inputs** are parameters of the model: the line
  numbers, the relay identifiers, `jiffies`, the result of `vmalloc`, and
  `kstrtol`.

Where this description and the code disagree, the code is followed. The
display module does not negotiate a 4-bit or 8-bit mode, and it has no
power-on initialisation sequence. `hhg_lcd_init_4_bit` only validates and
requests its lines (the sequence is a `TODO`), `hhg_lcd_init_8_bit` only
logs, and the send primitives are stubs. The model states exactly that.

## Model

| member | source | states |
|---|---|---|
| LcdBus.Init | src/lcd.c:33-51 | all eight bus lines driven low, a wait recorded with its arguments as written (40000, 2000), then D4 and D5 high; the result is always true |
| LcdBus.Pulse | src/lcd.c:54-62 | enable written low, high, low with the three waits; only the enable line changes and it ends low |
| LcdBus.PulseRisesOnce | src/lcd.c:54-62 | from either starting level, the pulse's writes make exactly one rising edge on the enable line and leave it low |
| LcdBus.Write | src/lcd.c:64-72 | D4, D5, D6, D7 take bits 0, 1, 3, 4 of the value, then a pulse; the call trace and the new levels are given exactly, so RS, RW and BL keep their levels |
| LcdBus.WriteLevelsAt | src/lcd.c:64-72 | line by line after a write: enable low, each data line its bit (the later write wins where lines coincide), every other line unchanged |
| LcdBus.DataWritesKeepEnable | src/lcd.c:66-69 | the four data writes of a nibble never touch the enable line (distinct wiring) |
| LcdBus.WriteRisesOnce | src/lcd.c:64-72 | a nibble write makes exactly one rising edge on enable and leaves it low |
| LcdBus.Bit2Ignored | src/lcd.c:66-69 | writing v and writing v with bit 2 flipped make identical calls: D6 and D7 take bits 3 and 4, so bit 2 never reaches the bus |
| LcdBus.Send | src/lcd.c:74-78 | the calls are the write of v >> 4 followed by the write of v, and the levels left behind are those of v alone |
| LcdBus.WriteLevelsTwice | src/lcd.c:74-78 | a second write overwrites every line a first write drove, so the first nibble of a send leaves no trace in the levels |
| LcdBus.SendPulsesTwice | src/lcd.c:74-78 | a send makes exactly two rising edges on enable and leaves it low |
| LcdBus.SendFirstWriteDrivesD7Low | src/lcd.c:69 | for every byte, the first write of a send drives D7 low, because bit 4 of v >> 4 is zero |
| LcdBus.SendLosesBits2And6 | src/lcd.c:64-78 | as written, flipping bit 2 or bit 6 of a byte leaves every call of its send the same |
| LcdBus.SendCannotTellAFromE | src/lcd.c:64-78 | as written, 'A' and 'E' make identical sends |
| LcdBus.IntendedSendKeepsByte | src/lcd.c:64-78 | with the nibble write corrected to bits 0..3, two bytes whose sends make the same calls are the same byte |
| LcdBus.SendTouchesOnlyBus | src/lcd.c:64-78 | every line a send writes is a data line or enable, never RS, RW or the backlight |
| LcdBus.RisingEdgesAppend | src/lcd.c:74-78 | the rising edges of two call sequences in a row add up, the second counted from where the first left the line |
| HhgLcd.FourBitLines | hhg_lcd.c:161-181 | the lines checked and requested, in order: RS, RW only when gpio_rw > -1, EN, DB4..DB7 |
| HhgLcd.Init4Bit | hhg_lcd.c:141-186 | true (from -EINVAL) exactly when some configured line is invalid, with nothing requested or driven; otherwise each line is requested as an output driven low, in order, results ignored, and the result is false |
| HhgLcd.RequestFourBitLines | hhg_lcd.c:172-181 | the requests of the success path: the call trace, the requested set, and directions and levels given by OutputsAfter |
| HhgLcd.RequestLineLow | hhg_lcd.c:172-181 | one request keeps the relation between the chip state and the lines requested so far |
| HhgLcd.OutputsAfterAt | hhg_lcd.c:172-181 | exactly the lines that were free and are named become outputs driven low; an already held line keeps its state |
| HhgLcd.OutputsAfterAppend | hhg_lcd.c:172-181 | a request of a line already held, before or by an earlier request, changes nothing; a free line takes the new value |
| HhgLcd.Init8Bit | hhg_lcd.c:111-139 | requests nothing and is always false |
| HhgLcd.SendByte | hhg_lcd.c:190-195 | only a 1 ms sleep; no line changes |
| HhgLcd.SendCommand | hhg_lcd.c:197-200 | changes nothing |
| HhgLcd.SendData | hhg_lcd.c:203-206 | changes nothing |
| HhgLcd.SendStr | hhg_lcd.c:209-212 | changes nothing |
| HhgLcd.DeviceGate.constructor | hhg_lcd.c:224 | the busy counter starts at 0 |
| HhgLcd.DeviceGate.Open | hhg_lcd.c:484-496 | a positive counter gives -EBUSY and stays the same; otherwise the counter goes up by one and the result is 0 |
| HhgLcd.DeviceGate.Release | hhg_lcd.c:498-504 | always takes one off the counter and returns 0 |
| HhgLcd.OpenIsExclusive | hhg_lcd.c:484-504 | from idle: the first open succeeds, a second is refused, and after a release an open succeeds again |
| HhgLcd.UnmatchedReleaseAdmitsTwo | hhg_lcd.c:498-504 | a release without an open lets two opens in a row succeed |
| GpioConfig.AllPins | src/gpio_config.c:125-140 | the thirteen line numbers in the order of the checks, free, unexport and export |
| GpioConfig.RequestPins | src/gpio_config.c:163-179 | the twelve requested lines in order; relay input 2 is not among them |
| GpioConfig.OutputPins | src/gpio_config.c:65-76 | the twelve lines made outputs: all but the button, relay input 2 included |
| GpioConfig.DataLineMessagesNameButton | src/gpio_config.c:154-155 | the D4 and D5 failures carry the message "HGD_BUTTON_GPIO", and no other line except the button's does |
| GpioConfig.FirstInvalid | src/gpio_config.c:142-161 | the position of the first invalid line in check order, and none exactly when all are valid |
| GpioConfig.ConfigIsValid | src/gpio_config.c:142-161 | true exactly when all thirteen lines are valid; otherwise GpioNotValid with the message of the first invalid line; nothing changes |
| GpioConfig.GrantedIff | src/gpio_config.c:28-33 | after the earlier requests succeeded, a request succeeds exactly when the line is valid, not held before, and not named earlier |
| GpioConfig.FirstRefused | src/gpio_config.c:163-179 | the position of the first refused request: every earlier one is granted and this one is not |
| GpioConfig.AllGrantedIff | src/gpio_config.c:163-179 | all requests succeed exactly when every line is valid, none was held, and no two coincide |
| GpioConfig.RequestInOrder | src/gpio_config.c:163-179 | the requests in order, stopping at the first refusal: its position is FirstRefused, and the calls and requested set are the prefix up to it |
| GpioConfig.RequestStep | src/gpio_config.c:28-33 | one request either extends the granted prefix or marks the first refusal |
| GpioConfig.ConfigRequest | src/gpio_config.c:163-179 | true exactly when every request is granted; otherwise GpioRequestFailed with the refused line's message; the lines granted before stay requested |
| GpioConfig.ConfigFree | src/gpio_config.c:125-140 | releases exactly the thirteen lines, in order |
| GpioConfig.ConfigUnexport | src/gpio_config.c:108-123 | unexports exactly the same thirteen lines, in the same order |
| GpioConfig.DriveOutputsLow | src/gpio_config.c:65-76 | each listed line becomes an output driven low, in order |
| GpioConfig.ExportAll | src/gpio_config.c:87-99 | each listed line is exported, in order |
| GpioConfig.SetAllAt | src/gpio_config.c:65-76 | line by line after the outputs pass: the named lines take the value, others keep their entry |
| GpioConfig.ConfigInit | src/gpio_config.c:38-105 | true exactly when all lines are valid, all requests granted and the debounce (if built in) succeeds. A failed check makes no call but the free pass; a refused request leaves the requests up to it, then the free pass. Either way no line stays held, directions, levels and exports are unchanged, and the kind is reported. A debounce failure reports "Imppossible init debouce": the requests, the input and the debounce are the whole trace, the lines stay held, only the button's direction changes. On success the trace is requests, input, debounce if built in, outputs, exports; the button is an input, the twelve others are outputs driven low, and all thirteen are exported |
| GpioConfig.ConfigureLines | src/gpio_config.c:52-99 | the button made an input, then the debounce (a failure stops there, with levels and exports unchanged), then the outputs pass and the exports, with the exact trace and new state |
| GpioConfig.RequestedAmongAll | src/gpio_config.c:102-104 | the free pass releases whatever prefix of the requests was granted |
| GpioConfig.OutputLinesLow | src/gpio_config.c:65-76 | after bring-up every output line, relay input 2 included, is an output driven low |
| GpioConfig.ButtonStaysInput | src/gpio_config.c:52-76 | after bring-up the button is an input unless relay input 2, which is never requested, has the same number |
| Relay.RelayGpio | src/relay.c:22-37 | each relay identifier maps to its input line as an 8-bit value, and any other value maps to 0 |
| Relay.StateIn | src/relay.c:67-78 | a relay reads on exactly when its line is low; a value without a line reads off |
| Relay.WriteSetsState | src/relay.c:46-56 | writing !s to a relay's line puts it in state s and leaves relays on other lines unchanged |
| Relay.SetState | src/relay.c:46-56 | the relay ends in the requested state; it writes !s only when the state differs, so a repeat is a no-op; an unknown relay changes nothing |
| Relay.Init | src/relay.c:38-44 | afterwards all four relays read off; the trace grows by at most four writes, each driving a relay line high, and no other line's level changes |
| Relay.OffStaysOff | src/relay.c:38-44 | driving any line high never switches a relay on |
| Relay.Toggle | src/relay.c:58-65 | as written: the relay's line number is used as a relay identifier; a line changes only when that number is itself an identifier, and then that relay's line is inverted with exactly one write; otherwise nothing changes |
| Relay.ToggleMissesRelays | src/relay.c:58-65 | when no identifier equals a line number, the toggle never changes any line |
| Relay.ToggleOfRelayOneIsLost | src/relay.c:58-65 | identifiers 0..3 and inputs on 22, 24, 26, 28: toggling relay 0 resolves line 22, which is not an identifier, so nothing changes |
| Relay.ToggleIntended | src/relay.c:58-65 | the corrected toggle: a relay with a line flips its state by exactly one write that inverts its line, and no other line changes; one without a line changes nothing |
| Button.Elapsed | src/button.c:92 | the unsigned difference is the distance forward from old_jiffies to jiffies modulo the word size |
| Button.FirstWindowRejected | src/button.c:49 | with old_jiffies still 0, a press is let through exactly when jiffies >= 50 |
| Button.AcceptsAcrossWrap | src/button.c:92-96 | after the counter wraps, the distance counts the ticks up to the wrap plus those after it |
| Button.CloseSecondPressRejected | src/button.c:93-96 | a press fewer than 50 ticks after the last accepted one is always rejected, across a wrap too |
| Button.GetState | src/button.c:78-81 | pressed exactly when the line reads low |
| Button.ButtonIrq.constructor | src/button.c:49-54 | old_jiffies and thread_busy start at 0 |
| Button.ButtonIrq.Handler | src/button.c:89-117 | a press inside the window is handled with no state change. Any other press moves the window to jiffies, even when it is then dropped. A busy bottom half gives Handled with the counter unchanged; an idle one gives WakeThread with the counter incremented. At most one bottom half is pending |
| Button.ButtonIrq.ThreadFn | src/button.c:119-133 | run only after a wake (the counter at 1): exactly 100 iterations, each reading the button state and waiting 5 ms; then the counter goes back to 0, keeping at most one bottom half pending, and the result is Handled |
| Button.PressSequence | src/button.c:89-133 | a bounce inside the window is dropped, a press while busy is dropped but moves the window, and a later press wakes the bottom half again |
| Parser.TokensOfShape | src/parser.c:53-96 | a successful scan gives two space-free tokens within HDG_PARSER_MAX; the first starts the line, only spaces separate it from the second, which begins at `after` |
| Parser.ScanFormatted | src/parser.c:53-96 | "<t0> <t1>" followed by nothing or by a space and anything scans back to t0 and t1, with the LCD text starting at t1 |
| Parser.Cleared | src/parser.c:41 | the memset record: type 0, status 0, an empty 48-character buffer |
| Parser.Fill | src/parser.c:24-32 | the type is set first; -ERANGE or -EINVAL fails; any other result is stored truncated to 8 bits and succeeds |
| Parser.LcdBuff | src/parser.c:109 | the text is copied to the start of the cleared buffer; a text of up to 48 characters is followed by NULs |
| Parser.Dispatch | src/parser.c:98-128 | targets are compared in the order LED, BUTTON, LCD, RELAY_1..4: LED and BUTTON fill from the conversion, LCD always succeeds with the text after the first token, and an unknown target fails with the cleared record |
| Parser.ScanSpace | src/parser.c:55-67 | a space ends the first token or extends the gap after it |
| Parser.ScanChar | src/parser.c:70-92 | any other character extends the token being read |
| Parser.ScanOverflow | src/parser.c:74-88 | a token about to exceed HDG_PARSER_MAX means the line overflows |
| Parser.ScanDone | src/parser.c:57-60 | the scan stops at the end of the line or at the space after the second token, with the tokens of TokensOf |
| Parser.Tokenize | src/parser.c:43-96 | the scanning loop over the first len characters, with an index as wide as len (the corrected loop); on a NUL-free line its result is exactly TokensOf |
| Parser.LoopStep | src/parser.c:48-92 | one pass of the loop as written, with the index and no_buffer_overflow both `__u8` (they wrap from 255 to 0): a pass that goes on moves the index to i + 1 modulo 256, and only when i < len; it reports an overflow only on a non-space character at i < len with the counter at HDG_PARSER_MAX or more |
| Parser.WideMaxNeverOverflows | src/parser.c:48-92 | as written, with HDG_PARSER_MAX at 256 or more no run of passes ever ends in an overflow, because the `__u8` counter wraps before it reaches the bound |
| Parser.SpacesKeepGoing | src/parser.c:53-67 | over spaces after the first token, with the second token empty, every pass goes on: the index advances modulo 256 and nothing that could end the loop changes |
| Parser.BlankLineNeverEnds | src/parser.c:53-67 | as written, a line of 256 or more characters starting with 256 spaces never leaves the loop |
| Parser.BlankLineEndsWithWideIndex | src/parser.c:43-96 | with a full-width index the same line scans to two empty tokens |
| Parser.StepFollowsScan | src/parser.c:53-92 | below 256 characters on a NUL-free line, a pass of the loop as written either ends with the tokens of TokensOf or keeps agreeing with the scan at the next character |
| Parser.LoopFollowsScan | src/parser.c:53-96 | from any point where the loop as written agrees with the scan, the passes left end with the tokens of TokensOf |
| Parser.LoopAsWrittenBelow256 | src/parser.c:43-96 | on a NUL-free line shorter than 256 characters, the loop as written ends within len + 1 index tests with the tokens Tokenize computes |
| Parser.ParserRecord.constructor | src/parser.h:26-31 | a zeroed record |
| Parser.ParseParams | src/parser.c:34-129 | false for a NULL record; otherwise the record is cleared, and on a NUL-free line the result and the record are those of Parse |
| Parser.LcdTakesRestOfLine | src/parser.c:106-111 | "LCD <t1><rest>" succeeds with the whole of t1 and rest, up to the NUL, as the buffer, however long |
| CString.StrLen | src/parser.c:57 | strlen: the position of the first NUL, or the length when there is none |
| CString.Text | src/parser.c:57 | the characters before the first NUL |
| CString.TextOfNulFree | src/parser.c:109 | a NUL-free sequence is all text, with or without a NUL and anything after it |
| CString.StrnCpy | src/error.c:47 | strncpy into an n-character array: length n, the text cut to n, then NULs |
| CString.StrnCpyText | src/error.c:47 | the text read back from the array is the source text cut to n characters |
| Error.ErrorRecord.constructor | src/error.c:45-47 | the code is stored and the message strncpy'd into the 30-character array |
| Error.ErrorRegistry.constructor | src/error.c:29 | last_error starts NULL |
| Error.ErrorRegistry.New | src/error.c:32-50 | a NULL out-pointer or a failed allocation returns 0 and clears last_error (the second also nulls the slot); otherwise the slot holds a new record with the code and the message cut to 30, which becomes last_error, and the result is 1 |
| Error.ErrorRegistry.GetLast | src/error.c:88-91 | exactly the current last_error |
| Error.ErrorRegistry.Free | src/error.c:93-107 | an empty slot changes nothing; otherwise last_error is cleared only if it is this record, the slot is emptied, and the record stays allocated |
| Error.ErrorRegistry.Print | src/error.c:52-86 | a NULL record does nothing. With a note, a buffer is sized and the annotated line is printed into it, unless the allocation fails, which returns before any free; the line and its NUL fit the buffer. Without a note, the plain line is printed. With free, a matching last_error is cleared through a local copy |
| Error.PrintAndFreeKeepsCallerPointer | src/error.c:82-85 | after create, then print with free, last_error is NULL but the caller's pointer still points at the allocated record |
| Error.Annotated | src/error.c:62-71 | the line sprintf builds: name, note, code digits and message plus 13 fixed characters |
| Error.PrintBufferLen | src/error.c:63 | as written, the buffer size is the note, the format and the name: 21 characters more than note and name |
| Error.AnnotatedOverrun | src/error.c:63-71 | the line and its NUL overrun that size by the code's digits plus the message length, less 7 |
| Error.LoadTimeCallOverflows | src/happy_gardenpi_driver.c:95-97 | the driver's own load-time call (code 10, "test ciao", note "messaggio aggiuntivo") overruns the buffer by four characters, whatever HGD_NAME is |
| Error.SafePrintBufferLen | src/error.c:63 | the corrected size: name, note, 13 fixed characters, 10 digits, a full message array and the NUL |
| Error.SafePrintBufferFits | src/error.c:62-71 | the annotated line of any record, with its NUL, fits the corrected size |
| Error.DecimalOfU32 | src/error.c:71 | `%u` prints at most ten digits |

## Left out

- Kernel plumbing:
  - character-device, class and uevent registration, and module parameters;
  - the init and exit paths of `src/main.c`;
  - the fops read and write bodies of `hhg_lcd.c`;
  - IRQ registration and release in `src/button.c`;
  - the sysfs mirror.

  These are I/O glue around foreign kernel calls.
- Log output (`pr_info`, `pr_err`) is not modelled, except for the lines
  `hgd_error_print` prints, which are kept as a log. Sleeps and delays are
  recorded as calls with their arguments, and time does not pass.
- Concurrency is not modelled. The interrupt top half and bottom half, and
  opens on the display device, are taken as a sequence of calls. The atomic
  counters are unbounded integers, and their 32-bit wrap is not modelled.
- The mode negotiation and the power-on initialisation sequence of the
  display do not exist in the code. The commented-out call to the display
  send in `hgd_lcd_init` is not modelled.
- GpioConfig: the unrolled runs of thirteen (or twelve) calls are modelled as
  loops over the same lines in the same order. They make the same calls.
- GpioConfig: the errors passed to `hgd_error_new` are returned as a report
  (kind and message) instead of being built in the error registry.
  `ConfigInit` states only the kind of a check or request failure. The
  message is stated by `ConfigIsValid` and `ConfigRequest`.
- GpioConfig.ExportAll: `gpio_export` is modelled as always succeeding. The
  kernel refuses to export a line nobody requested, which can happen here to
  relay input 2.
- Gpio: a line that appears under two board names (pin aliasing) is handled
  like any other line. The kernel rules are modelled as a set of valid lines,
  with requests refused for invalid or held lines.
- Parser.Tokenize, Parser.ParseParams: the result is characterised exactly
  only when the first `len` characters hold no NUL. With a NUL inside a token, `strlen` of the
  second token can differ from its length, and the model states only bounds.
- Parser.LcdBuff: `strncpy` with `strlen` of the source as the count writes
  past the 48-character buffer for a longer text. The model keeps the whole
  text in a longer buffer instead of modelling the overrun.
- Parser: `kstrtol` is an uninterpreted function of the second token. The
  source passes it a NULL result pointer and stores its return code as the
  status; the model stores whatever that function returns, truncated to
  8 bits. HDG_PARSER_MAX and the target names come from a header that is not
  part of this model, so they are parameters.
- Error.ErrorRegistry.Print: the buffer is sized by the corrected
  SafePrintBufferLen, so the heap overrun of the size as written
  (src/error.c:63) is not modelled in it. That overrun is stated by
  PrintBufferLen and LoadTimeCallOverflows. The text of a message array
  without a NUL runs to the end of the array; in C, `%s` would read past it.
  The value of HGD_NAME is a parameter.
- Parser.Tokenize, Parser.ParseParams: the index is as wide as `len`, the
  corrected loop. The `__u8` index as written, and its endless loop for a
  long blank line, are modelled by LoopStep and LoopSteps only.
- Parser.Tokenize, Parser.ParseParams: the counter no_buffer_overflow
  (src/parser.c:48) is widened too. With HDG_PARSER_MAX at 256 or more the
  `__u8` counter wraps, the overflow check never fires and the tokens are
  written past `args`. These two report Overflow at the bound instead. The
  wrap is modelled by LoopStep and WideMaxNeverOverflows only.
- Parser.ParseParams: a second token of exactly HDG_PARSER_MAX characters
  leaves `args[1]` without a NUL, so `kstrtol` reads past it in C. The model
  passes `kstrtol` the token alone.
- Button: `unsigned long` is taken as 64 bits wide.
- LcdBus.Write, LcdBus.Send: the bit selection is modelled as written (bits
  0, 1, 3, 4). The corrected nibble write exists only as the call lists
  IntendedWriteCalls and IntendedSendCalls, not as a method on the chip.

## Findings

| source | as written | input that shows it | evidently intended | confidence | as-written member | corrected member |
|---|---|---|---|---|---|---|
| src/lcd.c:68-69 | hgd_lcd_write drives D6 and D7 from bits 3 and 4 of the value, skipping bit 2, where a 4-bit bus carries bits 0..3 of each nibble | the bytes 'A' and 'E' (bit 2 differs) make identical sends, and so do any two bytes differing in bit 6 | D4..D7 take bits 0, 1, 2 and 3 of the nibble | not executed | LcdBus.Bit2Ignored, LcdBus.SendCannotTellAFromE | LcdBus.IntendedSendKeepsByte |
| src/parser.c:53 | the scan's index is a `__u8` compared with a `size_t` len, so for len >= 256 it wraps back to 0 before reaching len | a write of 256 spaces: the second token stays empty, nothing breaks out, and the loop never ends | an index as wide as len, so that the scan stops at len | not executed | Parser.LoopStep, Parser.BlankLineNeverEnds | Parser.Tokenize, Parser.BlankLineEndsWithWideIndex |
| src/relay.c:63 | `hgd_relay_toggle` passes the relay's line number to `hgd_relay_set_state` and `hgd_relay_get_state`, which expect a relay identifier | identifiers 0..3, relay 0 on line 22: `get_relay_gpio(22)` is 0, so toggling relay 0 changes nothing | the relay itself flips its state | not executed | Relay.Toggle, Relay.ToggleOfRelayOneIsLost | Relay.ToggleIntended |
| src/error.c:63 | the annotated line's buffer is `strlen(msg) + strlen(fmt) + strlen(HGD_NAME)`. It leaves out the code's digits, the record's message and the NUL, and counts the format's conversion specifiers instead | the load-time call at src/happy_gardenpi_driver.c:95-97 (code 10, message "test ciao", note "messaggio aggiuntivo") needs four characters more than that size | a buffer large enough for the formatted line | not executed | Error.PrintBufferLen, Error.LoadTimeCallOverflows | Error.SafePrintBufferLen, Error.SafePrintBufferFits |
