# A Dafny model of the GLCD2USB SED1520 display driver

The driver in `sed1520/sed1520.c` runs on an AVR. It drives a 122 x 32
graphic LCD built from two SED1520 controllers. Controller 1 owns logical
columns 0..60 and controller 2 owns columns 61..121. The driver talks to them
through an 8-bit data port and a few control lines. It comes in two wirings:

- chip-select (`HAS_CS_LINES`): active-low CS1 and CS2 with one shared E;
- dual-enable: one enable per controller, E1 and E2.

The busy check (`BUSYCHECK`) is optional. The driver keeps its cursor in
`lcd_x`/`lcd_page`. It offers `glcdCommandWrite`, `glcdSetAddress`,
`glcdDataWrite`, `glcdDataRead`, `glcdClearScreen` and `glcdInit`, built on
the internal `glcdBusyWait` and `glcdInitHW`.

The model has three layers.

- **Register statements.** A `Machine` holds:
  - the cursor;
  - the bus wires: every control line level, data direction, data port register, and the value sampled during the current enable pulse;
  - a trace with one event per register write, `nop`, delay or pin read;
  - the values the data pins will show, as a supplied stream.

  `Signals` and `Transactions` model each source statement as one event.
- **An independent observer.** `Bus.After`, `Bus.Completes` and `Bus.Ends` decode the events. When an enable line falls, every controller that is selected and whose enable it is sees exactly one access. A0, R/W, the data port and the sampled value decide whether it is a command, a data write, a status read or a data read. A read carries the sampled value only while the data bus is an input (`Bus.Sampled`). When the reset line is driven low from high, both controllers see a hardware reset (`Bus.HardReset`, from `Bus.Resets`). The observer appends each access to the machine's log. The same observer serves both wirings.
- **Reference behaviour.** `Protocol` says what each operation should deliver to the controllers:
  - `CommandFor` and `AddressFor`;
  - `ReadFor`, `WrapFor`, `HardResets` and `InitFor`;
  - `ClearFor`, with the cursor function `Next`.

  `Driver` proves that every operation delivers exactly that in both wirings. Without the busy check the log matches exactly. With it the log matches once status reads are dropped (`Driver.Visible`).

The busy wait loops on values read from the pins. When the supplied values run out while the flag is still set, the machine halts. A halted machine stays as it is. Every driver operation after `glcdInitHW` keeps the invariants packaged in `Driver.Step`; that covers `glcdCommandWrite`, `glcdSetAddress`, `glcdDataWrite`, `glcdDataRead`, `glcdClearScreen` and the command part of `glcdInit`:
- the trace only grows;
- pin values are read from the front;
- the machine halts only once they are used up;
- a deselected bus stays deselected;
- low enables stay low;
- the reset line ends at the level it started.

`Step` looks at the reset line only at the two ends of an operation. A reset pulse in between would reach the log as hardware resets, and the contracts that state the log rule that out: every transaction from a deselected bus delivers exactly its reference accesses.

`glcdInitHW` itself does not keep them: it drives the data bus, pulses the reset line and leaves it high. `Driver.InitHW` states its exact trace and that the controllers see one hardware reset each and nothing else. `Driver.Init` states that the trace continues with exactly those statements before any command.

`Driver.Delivered` states what the controllers saw if the machine is still running.

Files: `bytes.dfy` (`unsigned char` and its `&`, `|` and truncation), `sed1520_defs.dfy` (the header's constants, command bytes and column routing), `bus.dfy` (lines, events, observer), `protocol.dfy`, `signals.dfy`, `transactions.dfy`, `driver.dfy`.

Notes on the code as written:

- **Clearing addresses the display nine times, not four.**
  - `glcdClearScreen` calls `glcdSetAddress(0, j)` for each of the four pages and `glcdSetAddress(0, 0)` at the end.
  - The 122nd `glcdDataWrite` of every page also wraps through `glcdSetAddress(0, lcd_page + 1)`. The last of these wraps names page 4 (`SET_PAGE_ADDRESS | 4`), which lies beyond the display's four pages. The final `glcdSetAddress(0, 0)` overrides it.
  - `Protocol.ClearFor` and `Driver.ClearScreen` follow the code. The data written is exactly 488 zero bytes, 244 per controller (`Protocol.ClearWritten`).
- **The first busy-check poll can reach both controllers.** In the chip-select wiring nothing raises CS1 or CS2 before the first status poll of `glcdInit`. Both lines are low from power-up, so the poll meant for controller 1 reads both controllers' status at once (`Driver.PowerUpPollReachesBoth`). Every later transaction starts from a deselected bus.
- **`Driver.Init` assumes any control-line state.** From any control-line state `glcdInit` still delivers the two hardware resets and its six commands. Each command goes to `CTRL1 + CTRL2`, and `glcdInitHW` leaves the data bus driven before the first one.
- **The reset-flag wait polls with a two-controller mask.** `glcdInit` calls `glcdBusyWait(STATUS_RESET, CTRL1 + CTRL2)` (line 72), although the comment on `glcdBusyWait` (lines 80-81) says only one controller may be checked at a time. In the dual-enable wiring the poll strobes E1 only, so only controller 1's reset flag is awaited. In the chip-select wiring both chip selects go low and both controllers answer the same read. `Protocol.PollTargets` and `Driver.ResetWait` follow the code as written.

## Model

| member | source | states |
|---|---|---|
| Bytes.Truncate | sed1520/sed1520.c:219-221 | Storing `lcd_x + 1` or `lcd_page + 1` in an `unsigned char` keeps the value when it fits. Otherwise the result differs from it by a multiple of 256. |
| Sed1520.BothIsUnion | sed1520/sed1520.h:29-30 | The mask `CTRL1 + CTRL2` equals `CTRL1 \| CTRL2` and keeps each controller's bit. The two bits are disjoint. |
| Sed1520.MaskBitsIndependent | sed1520/sed1520.c:138-140 | `mask & CTRL1` and `mask & CTRL2` test bit 0 and bit 1 of the mask. `controller & CTRL1` keeps controller 1's bit only, and is 0 exactly when that bit is clear. |
| Sed1520.BitTargets | sed1520/sed1520.c:149-152 | Each controller's own bit selects that controller and no other. `CTRL1 + CTRL2` selects both. |
| Sed1520.ColumnIsOr | sed1520/sed1520.c:320-325 | The model's column command is `SET_COLUMN_ADDRESS \| col` for every byte. For a column of one controller (0..60) the command byte stays below 0x40. |
| Sed1520.PageIsOr | sed1520/sed1520.c:322-326 | The model's page command is `SET_PAGE_ADDRESS \| page` for every byte, including pages above 7. |
| Sed1520.StartLineIsOr | sed1520/sed1520.c:75 | The model's start-line command is `DISPLAY_START_LINE \| line` for every byte. |
| Sed1520.StartLineZero | sed1520/sed1520.c:75 | `DISPLAY_START_LINE \| 0` is the start-line opcode itself. |
| Sed1520.Geometry | sed1520/sed1520.h:33-34 | The 122 columns split into two halves of 61. The 32 rows form 4 pages of 8. |
| Sed1520.StatusFlags | sed1520/sed1520.h:25-26 | The busy flag 0x80 and the reset flag 0x10 are disjoint. `s & STATUS_BUSY` is nonzero exactly when bit 7 of s is set, and `s & STATUS_RESET` exactly when bit 4 is. So the busy wait's loop test keeps polling exactly while that bit is set. |
| Sed1520.RouteRoundTrip | sed1520/sed1520.c:319-327 | The routing by `x < GLCD_XPIXELS / 2` maps columns 0..121 one-to-one onto pairs (controller, local column 0..60). |
| Protocol.RowWritten | sed1520/sed1520.c:193-196 | A run of writes over columns 0..n-1 gives controller 1 the first min(n, 61) bytes and controller 2 the rest, in order. |
| Protocol.AddressWritesNothing | sed1520/sed1520.c:308-328 | Addressing sends commands only, never display data. |
| Protocol.PageWritten | sed1520/sed1520.c:338-341 | One page of the clearing writes exactly 61 zero bytes to each controller. |
| Protocol.PagesWritten | sed1520/sed1520.c:337-342 | The first n pages of the clearing write exactly 61·n zero bytes to each controller. |
| Protocol.ClearWritten | sed1520/sed1520.c:333-344 | The whole clearing writes exactly 244 zero bytes to each controller, 488 in all, and no other data. |
| Protocol.NextIsRaster | sed1520/sed1520.c:218-221 | On the display, a transfer moves the cursor one place forward in raster order and keeps it within the columns. It wraps exactly at column 121. |
| Protocol.RunAcrossPage | sed1520/sed1520.c:339-341 | 122 transfers from column 0 of page p stay on page p until the last one. That one wraps to column 0 of page p + 1, so exactly one wrap occurs. |
| Protocol.RowSoFarSnoc | sed1520/sed1520.c:338-341 | Each iteration of the inner clearing loop adds one zero write to the column's owner. The 122nd also adds the wrap addressing, and the finished row is one page of `ClearFor`. |
| Signals.Level | sed1520/sed1520.c:143-144 | Setting or clearing a line that is neither an enable nor reset (`PORT \|= A0`, `PORT &= ~RW`) moves that line only. No access is delivered and no pulse ends. |
| Signals.ResetLevel | sed1520/sed1520.c:54-59 | Setting or clearing the reset line moves that line only. Lowering it from high resets both controllers; any other change of it delivers nothing. No pulse ends. |
| Signals.Port | sed1520/sed1520.c:146 | Writing the data port register changes the port value only. No line moves and nothing is delivered. |
| Signals.Direction | sed1520/sed1520.c:94 | Writing the data direction register turns the data bus to output or input. No line moves and nothing is delivered. |
| Signals.Raise | sed1520/sed1520.c:154 | Raising an enable starts a pulse in which nothing has been sampled yet. No access is delivered. |
| Signals.Fall | sed1520/sed1520.c:157 | Lowering a high enable ends its pulse. Each selected controller on that enable gets the access the bus shows. |
| Signals.Take | sed1520/sed1520.c:107 | `tmp = SED1520_DATA_PIN` reads the next supplied pin value and records it as sampled in the current pulse. |
| Signals.Wait | sed1520/sed1520.c:155-156 | Two `nop`s are recorded and change nothing else. |
| Signals.Wait1 | sed1520/sed1520.c:153 | One `nop` is recorded and changes nothing else. |
| Signals.Inert | sed1520/sed1520.c:56 | A delay, or making the control lines outputs, is recorded and moves no line. |
| Signals.Select | sed1520/sed1520.c:150 | `PORT &= ~CS1` (or `~CS2`) lowers that controller's chip select only. |
| Signals.DeselectBoth | sed1520/sed1520.c:158 | `PORT \|= (CS1 \| CS2)` raises both chip selects in one write and changes nothing else. |
| Signals.Pulse | sed1520/sed1520.c:161-164 | A write strobe delivers one access to each selected controller whose enable it is, and to no other. It records one pulse and leaves that enable low. |
| Signals.ReadPulse | sed1520/sed1520.c:111-116 | A read strobe reads the next pin value and delivers it with the access of each selected controller on that enable. It leaves the enable low. |
| Signals.SelectMask | sed1520/sed1520.c:149-152 | Lowers CS1 if `controller & CTRL1` and CS2 if `controller & CTRL2`, in that order. Nothing else changes. |
| Signals.GatedFired | sed1520/sed1520.c:98-108 | The shared E pulse reaches the masked controllers and any controller whose chip select was already low. |
| Signals.GatedStrobe | sed1520/sed1520.c:148-158 | A chip-select write cycle delivers exactly the gated controllers' accesses with one E pulse. It leaves E low, both chip selects high and the other lines alone. |
| Signals.ReadCycle | sed1520/sed1520.c:250-262 | The optional dummy read samples nothing. The real read delivers the next pin value. One pin value is used. |
| Signals.GatedRead | sed1520/sed1520.c:244-263 | A chip-select read cycle delivers to the gated controllers the dummy read (if any), then the sampled read. It ends deselected. |
| Signals.SeparateStrobes | sed1520/sed1520.c:159-171 | A dual-enable write cycle pulses E1 if controller 1 is masked, then E2 if controller 2 is. Each pulse delivers one access to its own controller. |
| Signals.PulseIf | sed1520/sed1520.c:160-165 | A conditional dual-enable pulse delivers the access to that controller only when taken. Otherwise nothing happens. |
| Signals.SeparateRead | sed1520/sed1520.c:265-292 | A dual-enable read cycle on the owner's enable gives one dummy access, then the access with the next pin value. |
| Transactions.Strobes | sed1520/sed1520.c:148-172 | The strobe of either wiring delivers one access to each controller it reaches, and records its enable pulses. |
| Transactions.SettleFacts | sed1520/sed1520.c:157-158 | After a write strobe both chip selects are high. E is low in the chip-select wiring, and in the dual-enable wiring E1 and E2 are low if they were pulsed. Enables that were low stay low. A0, R/W, the data port and the reset line are unchanged. |
| Transactions.CommandsReady | sed1520/sed1520.c:148-172 | From a deselected bus, or for `CTRL1 + CTRL2`, a command strobe reaches exactly the controllers in the mask. |
| Transactions.WriteSetup | sed1520/sed1520.c:143-146 | Setting A0 and R/W for a write and loading the data port leaves chip selects, enables, reset and reachability alone. |
| Transactions.CommandCycle | sed1520/sed1520.c:143-172 | A command cycle delivers `Command(c, cmd)` to the controllers in the mask (exactly those, when ready). It pulses the right enables and ends deselected, with A0 and R/W low. |
| Transactions.PolledQuiet | sed1520/sed1520.c:98-124 | From a deselected bus one poll reads the status of exactly the polled controllers. In the chip-select wiring those are the masked ones. In the dual-enable wiring it is controller 1 if its bit is set, else controller 2. |
| Transactions.Poll | sed1520/sed1520.c:97-125 | With the data bus an input, one poll reads one pin value as status, delivers only status reads and pulses one enable. It ends with both chip selects high. |
| Transactions.ReadSetup | sed1520/sed1520.c:91-95 | The read set-up puts A0 at the given level (low for a status read, high for a data read) and raises R/W. It turns the data bus to input with the pull-ups on (0xFF). No chip select, enable or reset line moves. |
| Transactions.PollStep | sed1520/sed1520.c:97-126 | One more poll extends the loop's record by exactly one pin value's status reads and one pulse. |
| Transactions.PollLogged | sed1520/sed1520.c:107-109 | After one more poll the log has that sample's status reads at the end and still adds only status reads. |
| Transactions.PollRun | sed1520/sed1520.c:97-126 | The polls stop at the first value with the flag clear, or after every value has been read with it set. |
| Transactions.PollLoop | sed1520/sed1520.c:97-126 | The loop halts iff every supplied value has the flag set. Otherwise it reads up to and including the first clear one. From a deselected bus the log gains exactly the status reads of those values. |
| Transactions.BusyWait | sed1520/sed1520.c:83-129 | With controller 0 nothing happens. Otherwise it turns the data bus to input, since the polls record their samples only then, and polls as `PollLoop` says. When it returns, the pull-up value 0xFF is still in the port and the data bus is driven again. |
| Transactions.PollStatus | sed1520/sed1520.c:91-128 | For a nonzero mask on a running machine, the wait halts iff every supplied value has the flag set. Otherwise it reads up to the first clear value, adds only status reads (exactly those values' reads from a deselected bus), and leaves the data bus driven with 0xFF in the port. |
| Transactions.DataWriteCycle | sed1520/sed1520.c:186-216 | From a deselected bus a data write delivers exactly `WriteData(c, b)` to the owning controller, with one pulse on its enable. It ends settled. |
| Transactions.DeliverOne | sed1520/sed1520.c:192-215 | On a deselected bus, a strobe for one controller's bit reaches that controller alone, with one pulse. |
| Transactions.DataReadCycle | sed1520/sed1520.c:244-293 | With the data bus an input and from a deselected bus, a data read delivers a dummy read, then a read returning the next pin value, both to the owner, with two pulses. |
| Transactions.AfterReadFacts | sed1520/sed1520.c:262-263 | After the read strobes both chip selects are high, the enables low if they were, and the reset line and data port unchanged. |
| Driver.WaitReady | sed1520/sed1520.c:138-141 | The busy waits before a transaction add only status reads, and nothing without the busy check. They move no cursor and keep the bus invariants. |
| Driver.CommandWrite | sed1520/sed1520.c:135-173 | When the bus is ready for the mask, `glcdCommandWrite` delivers the command to exactly the masked controllers, up to status reads. Without the busy check the log is exact and no pin value is used. It ends deselected, and with `CTRL1 + CTRL2` every enable is low. |
| Driver.CommandOne | sed1520/sed1520.c:320-321 | From a deselected bus, a command to `CTRL1` or `CTRL2` alone reaches only that controller. |
| Driver.ColumnsLeft | sed1520/sed1520.c:320-321 | From a deselected bus, column x goes to controller 1, then column 0 to controller 2. |
| Driver.AddressLeft | sed1520/sed1520.c:319-323 | For x < 61 the controllers receive controller 1 column x, controller 2 column 0, and page p on both, in that order. |
| Driver.AddressRight | sed1520/sed1520.c:324-327 | For x ≥ 61 only controller 2 receives column x − 61, then page p. |
| Driver.SetAddress | sed1520/sed1520.c:308-328 | `glcdSetAddress(x, p)` moves the cursor to (x, p) and delivers `AddressFor(x, p)`. Without the busy check it is exact and never halts. |
| Driver.Advance | sed1520/sed1520.c:218-221 | After a transfer the cursor is `Next` of where it was. Only at the right edge is `AddressFor(0, page + 1)` re-issued. Otherwise the bus is untouched. |
| Driver.DataWrite | sed1520/sed1520.c:178-222 | `glcdDataWrite(b)` delivers `WriteData` to the owner of `lcd_x`, followed by the wrap addressing when it wraps, and advances the cursor. Without the busy check it is exact, with one enable pulse when it does not wrap. |
| Driver.ClearStep | sed1520/sed1520.c:339-341 | One inner-loop iteration keeps the clearing invariant. The page's record grows by one zero write, and by the wrap after the last. |
| Driver.ClearRow | sed1520/sed1520.c:339-341 | The inner loop's 122 writes of 0 complete page j's record. |
| Driver.ClearPage | sed1520/sed1520.c:337-341 | One page addresses (0, j) and writes 122 zeros. It ends with the cursor at column 0 of page j + 1. |
| Driver.ClearRound | sed1520/sed1520.c:337-342 | One outer-loop iteration appends one page to the clearing record. |
| Driver.ClearPages | sed1520/sed1520.c:337-342 | The outer loop delivers the four pages in order and ends at column 0 of page 4. |
| Driver.ClearScreen | sed1520/sed1520.c:333-344 | From a deselected bus `glcdClearScreen` delivers exactly `ClearFor`: 488 zero writes plus nine addressings. It ends at (0, 0), deselected. Without the busy check it is exact and never halts. |
| Driver.ReadTransfer | sed1520/sed1520.c:237-295 | The read part of `glcdDataRead` halts iff no pin value is left. Otherwise it returns the next pin value and delivers `ReadFor` to the owner with two pulses. The real read carries that value, which needs the data bus turned to input. It then drives the data bus again, with the pull-up value 0xFF left in the port. |
| Driver.ReadAt | sed1520/sed1520.c:232-295 | The busy waits, then the read. The value and the delivered reads are as `ReadTransfer` says, including the sampled value that only an input bus records. The port is left at 0xFF. |
| Driver.DataRead | sed1520/sed1520.c:227-303 | `glcdDataRead` returns the next pin value and delivers the dummy read, the real read carrying that value (sampled from the input bus), and the wrap addressing, if any. It advances the cursor like a write. |
| Driver.PortsUp | sed1520/sed1520.c:47-53 | The data bus becomes an output and the control lines outputs. No line level moves. |
| Driver.ResetPulse | sed1520/sed1520.c:54-60 | Reset goes high, low for 2 ms, then high again, ending high. Whatever its level before, each controller is reset exactly once. No other line moves and nothing else reaches the controllers. |
| Driver.InitHW | sed1520/sed1520.c:44-61 | `glcdInitHW` emits the port set-up and reset pulse. It leaves the data bus driven and reset high. The controllers see one hardware reset each and no other access. |
| Driver.CommandBoth | sed1520/sed1520.c:70 | A command to `CTRL1 + CTRL2` reaches both controllers, controller 1 first, from any control-line state with the data bus driven. It leaves every enable low and the bus deselected. |
| Driver.ResetWait | sed1520/sed1520.c:71-73 | The reset-flag wait adds only status reads, and nothing without the busy check. |
| Driver.ResetBoth | sed1520/sed1520.c:70-73 | Reset reaches both controllers, followed by the wait for the reset flag. |
| Driver.DisplayUp | sed1520/sed1520.c:74-75 | Display-on, then start line 0, each reaches both controllers. |
| Driver.InitCommands | sed1520/sed1520.c:70-75 | The command part of `glcdInit` delivers exactly `InitFor`: reset, display on, start line 0, each to both controllers. |
| Driver.Init | sed1520/sed1520.c:66-76 | The trace of `glcdInit` goes on with the port set-up and the reset pulse of `glcdInitHW`, before any command. From any bus state it delivers one hardware reset to each controller and then `InitFor`. It leaves the bus idle with reset high and the cursor unchanged. Without the busy check it is exact and never halts. |
| Driver.PowerUp | sed1520/sed1520.c:39 | At power-up the cursor is (0, 0) and nothing has run. Every port bit is low, so no enable is high, both chip selects are active, reset is asserted and the data bus is an input. |
| Driver.Start | sed1520/sed1520.c:39-76 | Right after power-up, the trace of `glcdInit` begins with the port set-up and reset pulse. It leaves the cursor at (0, 0). What the controllers saw is exactly one hardware reset each, then the six init commands (up to status reads with the busy check). |
| Driver.PowerUpPollReachesBoth | sed1520/sed1520.c:44-102 | In the chip-select wiring the first poll of `glcdInit`, meant for controller 1, reads the status of both controllers, because power-up leaves CS1 and CS2 low. From a deselected bus the same poll reads controller 1 only. |

## Left out

- Reset polarity: the source raises the reset line last to select the 68-family interface. The model records the hardware reset when the line is driven low from high and does not model the interface selection.
- Timing: `asm("nop")` and `_delay_ms` appear as trace events only. The model has no clock, so pulse widths and the 2 ms reset pulse are not checked against the controller's timing.
- AVR port registers: the bit positions of the lines (`sed1520conf.h`) and the DDR writes appear as named lines and events. The control DDR write has no effect on the modelled levels. The data DDR decides only whether a read records its sample.
- Pull-ups: `SED1520_DATA_PORT = 0xFF` before a read is recorded, and the port is stated to hold 0xFF afterwards. Its electrical effect on undriven data pins is not modelled.
- Controller internals: display RAM, the column counter's auto-increment, and the contents of the status byte are not modelled. Values read from the data pins come from a supplied sequence. So `Driver.DataRead` relates the value it returns to the pins, not to what was written earlier.
- Non-termination: a busy wait whose flag never clears within the supplied pin values ends in a halted state, not in an endless loop.
- Driver.WaitReady: with the busy check compiled in, it is stated up to status reads. The exact polls are stated in `Transactions.BusyWait`, not repeated for each caller.
- Driver.CommandWrite: with the busy check compiled in, the delivered commands are stated up to status reads (`Visible`), and exactly only without it.
- Driver.DataWrite: the delivered accesses are stated for a deselected starting bus, which is how every transaction after the first leaves it. Up to status reads with the busy check.
- Driver.ReadTransfer: it halts when no pin value is left. That marks the end of the supplied input; `glcdDataRead` itself never blocks. Its delivered reads are stated for a deselected starting bus.
- Driver.ReadAt: the delivered reads are stated for a deselected starting bus, and up to status reads with the busy check.
- Driver.DataRead: the delivered reads are stated for a deselected starting bus, and up to status reads with the busy check.
- Driver.DataRead: the returned value is tied to the pin values only without the busy check. With it, the value depends on how many status polls came first.
- Driver.SetAddress: the delivered accesses are stated for a deselected starting bus. Up to status reads with the busy check.
- Driver.ClearScreen: the delivered accesses are stated for a deselected starting bus. Up to status reads with the busy check.
- Driver.Start: with the busy check, what the controllers saw is stated up to status reads.
- Other commands: `DISPLAY_OFF`, `ADC_*`, `STATIC_DRIVE_*`, `DUTY_RATIO_*` and the read-modify-write commands are defined as constants only. The driver never sends them.
