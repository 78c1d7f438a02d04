# Game Boy Advance hardware-timing core

A Dafny model of the hardware-timing core of the VBA-DS Game Boy Advance
emulator (a port of VisualBoyAdvance). It covers:

- the I/O register file;
- the register writes the CPU makes;
- the four DMA channels and their transfers;
- the four hardware timers, including cascade mode and deferred control writes;
- the LCD line timing with its V-count match;
- the interrupt latch;
- the scheduler pass that advances all of these by the cycles the CPU has run;
- the cartridge's serial EEPROM;
- the frame-buffer line copy;
- the header check of a saved state.

The emulator keeps its state in globals that its functions update in place,
so the hardware is a class, `Gba.Machine`:

- registers the core reads live in fields (`video`, `irq`, `channels`,
  `timers`, `clock`, `cpu`);
- every one of them is also mirrored, at its halfword, in the register file
  `io: array<bv16>`, and the invariant `Mirrored()` states that they agree;
- the frame buffer is `pix: array<bv16>`;
- the memory a DMA transfer sees is a map from addresses to units.

Each method states its new state in terms of a pure function. The functions
live in the modules below, and the properties the hardware promises are
proved about those functions as lemmas.

| module | file | what it holds |
|---|---|---|
| `Timers` | timers.dfy | prescaler, period, counter and overflow arithmetic; cascade counting; one scheduler pass over the bank in index order; the interrupt bits it raises; deferred control writes (`applyTimer`) |
| `Lcd` | lcd.dfy | the line/blank phase machine (1008 + 224 cycles per line, 228 lines); the V-count match bit of DISPSTAT |
| `Dma` | dma.dfy | steps, alignment, unit counts and wait-state cost of a transfer; the stores a transfer makes; each channel's share of a trigger in priority order |
| `Io` | io.dfy | what each register write stores (masks, IF acknowledge, DISPCNT and DISPSTAT, SIOCNT, POSTFLG, WAITCNT wait tables); the reset image |
| `Sched` | sched.dfy | the next-event horizon (`CPUUpdateTicks`); the IRQ delay countdown; the end-of-pass interrupt check |
| `State` | state.dfy | the register groups and the mirror relation between fields and register file |
| `Gba` | machine.dfy | the `Machine` class: reset, `CPUCompareVCOUNT`, `doDMA`, `CPUCheckDMA`, `CPUUpdateRegister`, `applyTimer`, and the event pass of `CPULoop` |
| `Eeprom` | eeprom.dfy | the EEPROM's five-state serial protocol as a class over its data and shift-buffer arrays |
| `Display` | display.dfy | `display_draw_line` and `display_clear` over the frame-buffer array |
| `Savestate` | savestate.dfy | the version and title check of `CPUReadState` |

Integer widths:

- Registers are `bv16`.
- Counters, cursors and addresses are integers, with the 16-bit and 32-bit
  wrap-around written out (`Timers.Wrap16`, `Dma.Wrap32`).

## Model

| member | source | states |
|---|---|---|
| `Sched.Horizon` | source/gba/GBA.cpp:235-266 | the next stop is no later than the LCD and sound countdowns, any cycle-clocked running timer, and a nonzero IRQ delay, and equals one of them |
| `Sched.HorizonPositive` | source/gba/GBA.cpp:235-266 | when every countdown it looks at is positive, the horizon is at least one cycle, so a pass always advances |
| `Sched.HorizonLatched` | source/gba/GBA.cpp:1959-1962 | latching an interrupt (delay 7) with the stop clamped to 7 keeps the stop within the new horizon |
| `Sched.Countdown` | source/gba/GBA.cpp:1630-1635 | the IRQ delay after a pass never goes negative; a nonzero delay reaches zero exactly when the pass covers it, and is otherwise reduced by the pass |
| `Sched.Check` | source/gba/GBA.cpp:1938-1971 | an interrupt is taken only when deliverable, and exactly when a pending one has run out its delay or the CPU is halted; taking one wakes the CPU; a running CPU with nothing pending latches with delay 7; otherwise halt and stop are unchanged |
| `Sched.LatchDelay` | source/gba/GBA.cpp:1945-1963 | a running CPU never takes an interrupt in the check that latches it; the next check takes it exactly when the pass in between covers the 7-cycle delay |
| `Timers.Scale` | source/gba/GBA.cpp:79-85 | a prescaler selection means at least one CPU cycle per timer tick |
| `Timers.ShiftOf` | source/gba/GBA.cpp:1349 | control bits 0-1 select one of the four prescaler shifts (0, 6, 8, 10) |
| `Timers.Wrap16` | source/gba/GBA.cpp:1795 | a stored counter fits in 16 bits and values already in range are unchanged |
| `Timers.Period` | source/gba/GBA.cpp:1354 | a timer reloaded with `reload` overflows every `0x10000 - reload` ticks, each of `Scale(shift)` cycles |
| `Timers.CounterRange` | source/gba/GBA.cpp:1795 | between overflows the counter a read reports stays within [reload, 0xFFFF], and at an overflow it reads reload - 1, wrapped |
| `Timers.Elapse` | source/gba/GBA.cpp:1783-1794 | a pass overflows a clocked timer exactly when it uses all the cycles left, and always leaves at least one cycle |
| `Timers.OverflowCount` | source/gba/GBA.cpp:1781-1797 | over any run of passes a clocked timer overflows once per period: the number of overflows and the cycles left follow from the cycles consumed alone |
| `Timers.CascadeStep` | source/gba/GBA.cpp:1801-1819 | one overflow from below increments a cascaded counter, which overflows exactly at 0xFFFF and then reloads |
| `Timers.CascadeCount` | source/gba/GBA.cpp:1801-1819 | a cascaded timer holding `d` counts `0x10000 - d` overflows from below before it overflows once and reloads |
| `Timers.After` | source/gba/GBA.cpp:1779-1912 | a timer after its share of a pass still satisfies the timer invariant |
| `Timers.PassedUpTo` | source/gba/GBA.cpp:1779-1912 | the bank after the pass has gone over its first n timers keeps its shape |
| `Timers.PassStart` | source/gba/GBA.cpp:1779-1912 | before the pass has gone over any timer, the bank is unchanged |
| `Timers.RaisedIntoIs` | source/gba/GBA.cpp:1789-1906 | raising the timers' interrupt bits one after another is raising their union at once |
| `Timers.IrqBitsNext` | source/gba/GBA.cpp:1789-1906 | going over one more timer adds exactly its own interrupt bit |
| `Timers.OverflowBit` | source/gba/GBA.cpp:1789-1792 | a timer raises its flag (0x08 << i) exactly when it overflows with control bit 6 set, and no other bit |
| `Timers.IrqBitIs` | source/gba/GBA.cpp:1789-1906 | a timer's interrupt bit in the pass is its overflow bit |
| `Timers.ClockedStep` | source/gba/GBA.cpp:1822-1835 | a cycle-clocked timer takes the pass's cycles from those it has left, as `Elapse` says, and reports its counter from them |
| `Timers.CascadedStep` | source/gba/GBA.cpp:1801-1819 | a cascaded timer whose lower neighbour overflowed in the pass takes one `CascadeStep` |
| `Timers.IdleStep` | source/gba/GBA.cpp:1779-1912 | a stopped timer, or a cascaded one whose neighbour did not overflow, is untouched and does not overflow |
| `Timers.PassedNext` | source/gba/GBA.cpp:1779-1912 | going over timer n changes timer n alone, which still holds its value from before the pass |
| `Timers.PassKeeps` | source/gba/GBA.cpp:1779-1912 | a pass keeps every timer's switch, control, prescaler and reload, and keeps every running timer with cycles left |
| `Timers.CascadeOrder` | source/gba/GBA.cpp:1799-1911 | overflows ripple upwards within one pass: a cascaded timer overflows exactly when its neighbour did and it held 0xFFFF, and raises its flag exactly then with bit 6 set |
| `Timers.IrqBitsSelect` | source/gba/GBA.cpp:1789-1906 | each timer owns its flag: the pass's flags restricted to timer i's bit are timer i's own bit |
| `Timers.BelowSelect` | source/gba/GBA.cpp:1789-1906 | the union of four per-timer bits, each none or its own flag, restricted to one flag is that timer's bit |
| `Timers.Apply` | source/gba/GBA.cpp:1347-1362 | a deferred control write sets the switch from bit 7, the control from the value masked by 0xC7, and the prescaler from bits 0-1; only a stopped timer that starts is reloaded with a full period; any other timer keeps its counter and cycles |
| `Timers.StartedOverflow` | source/gba/GBA.cpp:1350-1357 | a timer that has just started overflows after exactly one period of its new prescaler |
| `Timers.WriteBit` | source/gba/GBA.cpp:1209 | timer i's pending-write bit is 1 << i |
| `Timers.Applied` | source/gba/GBA.cpp:1345-1408 | applying pending writes keeps the bank's shape |
| `Timers.AppliedAt` | source/gba/GBA.cpp:1345-1408 | after the writes of timers 0 to n - 1, timer j has its write applied exactly when j < n and its bit is pending, and is unchanged otherwise |
| `Timers.AppliedNone` | source/gba/GBA.cpp:1986-1987 | with no write pending, applying changes nothing |
| `Timers.AppliedKeeps` | source/gba/GBA.cpp:1345-1408 | applying pending writes keeps every running timer with cycles left, and leaves timers without a pending write unchanged |
| `Timers.Stopped` | source/gba/GBA.cpp:1510-1556 | a timer after reset is off, with zero counter, control and reload |
| `Lcd.Next` | source/gba/GBA.cpp:1640-1766 | an LCD event toggles H-blank; leaving H-blank advances the line (from 227 back to 0) and adds 1008 cycles, entering it adds 224; the V-blank bit afterwards is set exactly on lines 160-227 |
| `Lcd.VblankEntry` | source/gba/GBA.cpp:1686-1742 | V-blank starts on an event exactly when the controller leaves H-blank on line 159 |
| `Lcd.Run` | source/gba/GBA.cpp:1640-1766 | any sequence of events from the top of the frame keeps the phase well-formed |
| `Lcd.MatchLine` | source/gba/GBA.cpp:399 | the V-count match line is DISPSTAT's high byte |
| `Lcd.MatchStatus` | source/gba/GBA.cpp:397-414 | after the V-count check DISPSTAT bit 2 is set exactly on the selected line; bits 0-1 and 3-15 are unchanged |
| `Lcd.Blanks` | source/gba/GBA.cpp:1650-1735 | DISPSTAT with bit 0 set exactly in V-blank and bit 1 exactly in H-blank, other bits unchanged |
| `Lcd.SettingsKept` | source/gba/GBA.cpp:397-414 | statuses that agree in the high byte and bit 5 select the same match line and interrupt |
| `Lcd.LineStarts` | source/gba/GBA.cpp:1640-1766 | after 2k events from the top of the frame, line k starts drawing after k lines of 1232 cycles, in V-blank exactly from line 160 |
| `Lcd.Frame` | source/gba/GBA.cpp:1640-1766 | one frame is 456 events and 280896 cycles, after which the controller is back at the top of the frame |
| `Dma.Wrap32` | source/gba/GBA.cpp:450 | cursors and addresses wrap at 32 bits |
| `Dma.Unit` | source/gba/GBA.cpp:484-485 | a 16-bit transfer moves the low half of a unit, a 32-bit transfer the whole word |
| `Dma.StepOf` | source/gba/GBA.cpp:522-545 | address control 0 or 3 steps by +4, 1 by -4 (modulo 2^32), 2 keeps the address |
| `Dma.HalfStep` | source/gba/GBA.cpp:469-470 | the halved step is a 32-bit value |
| `Dma.HalfStepHalves` | source/gba/GBA.cpp:469-470 | a 16-bit transfer's steps are half the 32-bit ones: +2, -2 or 0 |
| `Dma.UnitStep` | source/gba/GBA.cpp:442-470 | the per-unit step is a 32-bit value |
| `Dma.Align` | source/gba/GBA.cpp:444 | the source is aligned down to the unit size and the drop is below one unit |
| `Dma.Scaled` | source/gba/GBA.cpp:450-461 | n steps added one after another give a 32-bit value |
| `Dma.At` | source/gba/GBA.cpp:450-461 | the address of unit k is a 32-bit value |
| `Dma.MovedNext` | source/gba/GBA.cpp:447-490 | one more unit of a transfer stores that unit at its own destination address |
| `Dma.CopyStep` | source/gba/GBA.cpp:456-463 | one step of the copying loop stores the unit read at the source cursor and moves both cursors by one step |
| `Dma.FillStep` | source/gba/GBA.cpp:447-452 | one step of the filling loop stores zero and moves the destination cursor |
| `Dma.MovedFrame` | source/gba/GBA.cpp:447-490 | a transfer changes no address other than its destinations |
| `Dma.FillZeroes` | source/gba/GBA.cpp:445-453 | a transfer from below 0x02000000 while the CPU runs outside the BIOS leaves zero at every destination |
| `Dma.CopyDelivers` | source/gba/GBA.cpp:456-463 | when source and destination ranges are apart, every destination receives the unit from its source address |
| `Dma.Region` | source/gba/GBA.cpp:426-437 | the wait-state region is the address's top byte, clamped to 15 |
| `Dma.TransferCost` | source/gba/GBA.cpp:494-511 | a transfer of c units costs at least 2c + 4 cycles |
| `Dma.CostPerUnit` | source/gba/GBA.cpp:494-511 | each extra unit costs one sequential access at each end plus two cycles; a single unit costs the set-up plus a first access at each end |
| `Dma.UnitCount` | source/gba/GBA.cpp:782-784 | a count of zero means 0x4000 units on channels 0-2 and 0x10000 on channel 3 (lines 558 and 783); any other count is taken as is |
| `Dma.ChannelBit` | source/gba/GBA.cpp:518 | each channel has its own nonzero bit in a trigger's mask |
| `Dma.PlanOf` | source/gba/GBA.cpp:606-640 | a fired channel's steps come from its address controls and its unit size from bit 10; sound FIFO transfers on channels 1 and 2 move four 32-bit words to a fixed destination |
| `Dma.DmaFlag` | source/gba/GBA.cpp:561-566 | channel ch's interrupt flag is bit 8 + ch |
| `Dma.ControlAfter` | source/gba/GBA.cpp:573-577 | after a transfer the enable bit stays set exactly for a repeating channel on a non-immediate trigger; the other bits are kept |
| `Dma.Latch` | source/gba/GBA.cpp:1086-1087 | a latched address has the low register as its low half and the high register as its high half |
| `Dma.AtNext` | source/gba/GBA.cpp:450-461 | unit k + 1 is one step beyond unit k, modulo 2^32 |
| `Dma.ScaledIsProduct` | source/gba/GBA.cpp:450-461 | after n units a cursor has moved by n times its step, modulo 2^32 |
| `Dma.RunChannel` | source/gba/GBA.cpp:517-579 | one channel's share of a trigger keeps the bus well-formed |
| `Dma.Transfer` | source/gba/GBA.cpp:557-559 | a fired channel's transfer keeps the bus well-formed |
| `Dma.TransferBy` | source/gba/GBA.cpp:424-513 | a transfer makes exactly the stores of `Moved` from the aligned source, leaves the cursors after the last unit, and adds its cost to the DMA debt |
| `Dma.Complete` | source/gba/GBA.cpp:561-577 | the completion of a fired channel keeps the bus well-formed |
| `Dma.Signal` | source/gba/GBA.cpp:561-566 | the interrupt part of a completion touches only the flags |
| `Dma.Reload` | source/gba/GBA.cpp:568-571 | the reload part of a completion touches only the channels |
| `Dma.Finish` | source/gba/GBA.cpp:573-577 | the control part of a completion touches only the channels |
| `Dma.Advanced` | source/gba/GBA.cpp:557-577 | a fired channel's new registers and cursors are a well-formed channel |
| `Dma.RunAll` | source/gba/GBA.cpp:515-804 | a trigger keeps the bus well-formed |
| `Dma.RunUpTo` | source/gba/GBA.cpp:515-804 | the first n channels' shares keep the bus well-formed |
| `Dma.FiredBus` | source/gba/GBA.cpp:517-579 | a fired channel's share stores what its transfer stores, raises its flag exactly when bit 14 is set, and adds the transfer's cost |
| `Dma.FiredChannels` | source/gba/GBA.cpp:517-579 | a fired channel's share changes only its own channel, as `Advanced` says |
| `Dma.CompleteFlags` | source/gba/GBA.cpp:561-566 | a completion raises the channel's flag exactly when bit 14 asks for it; it stores nothing and costs nothing |
| `Dma.CompleteChannels` | source/gba/GBA.cpp:568-577 | a completion reloads the destination in reload mode, clears enable unless the channel repeats, and changes no other channel |
| `Dma.ChannelIsolated` | source/gba/GBA.cpp:517-579 | a channel's share never changes another channel |
| `Dma.ChannelEffect` | source/gba/GBA.cpp:517-579 | after a fired channel its enable bit is cleared unless it repeats on a non-immediate trigger; a channel that does not fire is untouched |
| `Dma.AdvancedDest` | source/gba/GBA.cpp:568-571 | the destination cursor is reloaded from its registers exactly in reload mode, and otherwise left after the last unit |
| `Dma.ControlAfterChannel` | source/gba/GBA.cpp:517-579 | after a channel's share, each control register is as `ControlAfter` leaves it if that channel fired, and unchanged otherwise |
| `Dma.RunUpToControl` | source/gba/GBA.cpp:515-804 | after the first n shares each channel's control depends only on whether that channel fired |
| `Dma.RunAllControl` | source/gba/GBA.cpp:515-804 | after a trigger each channel's control depends only on whether that channel fired |
| `Dma.SignalsBelowNext` | source/gba/GBA.cpp:561-566 | counting one more channel adds exactly whether it signals |
| `Dma.BitsApart` | source/gba/GBA.cpp:518-742 | distinct channels have disjoint mask bits |
| `Dma.Started` | source/gba/GBA.cpp:1084-1088 | starting a channel changes only its cursors |
| `Dma.SingleChannel` | source/gba/GBA.cpp:1084-1088 | a trigger whose mask selects one channel runs that channel alone |
| `Dma.SingleSignal` | source/gba/GBA.cpp:1084-1088 | with one channel selected, a signal can only come from that channel |
| `Dma.ChannelKeepsFlags` | source/gba/GBA.cpp:561-566 | one channel's share of a trigger never lowers an interrupt flag |
| `Dma.RunUpToKeepsFlags` | source/gba/GBA.cpp:515-804 | the first n channels' shares of a trigger never lower an interrupt flag |
| `Dma.RunAllKeepsFlags` | source/gba/GBA.cpp:515-804 | a whole trigger never lowers an interrupt flag |
| `Dma.RunUpToIdle` | source/gba/GBA.cpp:515-804 | with no channel enabled a trigger leaves the bus exactly as it was: no store, no flag, no cost |
| `Io.ClearFlags` | source/gba/GBA.cpp:1300-1303 | writing IF clears exactly the flags set in the value and keeps the others |
| `Io.ClearFlagsEdges` | source/gba/GBA.cpp:1300-1303 | writing 0 to IF changes nothing; writing 0xFFFF clears every flag |
| `Io.StoreMask` | source/gba/GBA.cpp:862-1024 | registers outside the graphics range store the whole value |
| `Io.StoreMaskCases` | source/gba/GBA.cpp:878-935 | background offsets keep nine bits, reference-point high halves twelve, and unmasked registers all sixteen |
| `Io.DmaMaskFacts` | source/gba/GBA.cpp:1056-1202 | source high halves keep 11 bits on channel 0 and 12 on the others; destination high halves keep 12 bits only on channel 3; the control mask clears bits 0-4 and keeps bit 11 only on channel 3 |
| `Io.DisplayControl` | source/gba/GBA.cpp:821 | a DISPCNT write stores every bit but bit 3, which reads 0 |
| `Io.DisplayEffect` | source/gba/GBA.cpp:810-846 | a DISPCNT write withholds newly enabled background layers (starting the delay), and restarts the line when forced blank is cleared; a prohibited mode 6 or 7 replaces the old value first |
| `Io.ForcedBlankCleared` | source/gba/GBA.cpp:817-835 | a write restarts drawing exactly when it clears a set forced-blank bit 7 |
| `Io.Withheld` | source/gba/GBA.cpp:819-833 | the layers shown right after a write are the written ones, minus background layers that were off before |
| `Io.DisplayStatus` | source/gba/GBA.cpp:855-858 | a DISPSTAT write keeps bits 0-2, clears bits 6-7 and takes the rest from the value |
| `Io.SerialControl` | source/gba/GBA.cpp:1237-1259 | SIOCNT loses its start bit; a start in internal-clock mode with the IRQ bit set completes at once and also clears bit 15 |
| `Io.PostFlag` | source/gba/GBA.cpp:1334-1338 | a POSTFLG/HALTCNT write stores the value without bit 0, and zero exactly for 0 or 1 |
| `Io.KeyInput` | source/gba/GBA.cpp:1701-1702 | KEYINPUT reads 0 for each pressed key among the ten, with the upper bits clear |
| `Io.PakWait` | source/gba/GBA.cpp:1306-1314 | the first-access wait WAITCNT selects for a game-pak region is 2-8 cycles |
| `Io.PakSeqWait` | source/gba/GBA.cpp:1306-1314 | the sequential wait WAITCNT selects is 1-8 cycles |
| `Io.WaitTables` | source/gba/GBA.cpp:1304-1320 | a WAITCNT write changes only regions 8-14, whose 32-bit waits are built from their 16-bit waits |
| `Io.InitialWaitsAreWaitCntZero` | source/gba/GBA.cpp:93-100 | the initial wait tables are those a WAITCNT write of 0 selects, except region 14's 32-bit entries |
| `Savestate.CheckHeader` | source/gba/GBA.cpp:297-320 | a saved state is rejected as unsupported exactly when its version is outside [oldest, newest]; as for another game exactly when the version is fine but the titles differ; otherwise accepted |
| `Savestate.SameTitle` | source/gba/GBA.cpp:312 | the byte-by-byte comparison holds exactly when the titles are equal |
| `Savestate.RestoredDelay` | source/gba/GBA.cpp:326-332 | an interrupt is pending after a restore exactly when the saved delay is positive; the restored delay is the saved one when positive and zero otherwise, so never negative |
| `Display.DrawLine` | source/gba/Display.c:61-86 | row `line` of the frame buffer receives the low 16 bits of the 240 composed pixels; no other pixel changes |
| `Display.Copied` | source/gba/Display.c:61-86 | the frame with row `line` replaced by the low 16 bits of the first 240 entries of the source, every other pixel kept |
| `Dma.ClearVideo` | source/gba/GBA.cpp:1433-1440 | after reset's fills every unit of OAM (0x400 bytes), palette RAM (0x400 bytes) and VRAM (0x20000 bytes) reads zero and every other unit reads as before |
| `Display.Spread` | source/gba/Display.c:58 | a byte fill leaves the low byte of the value in both halves of each pixel: the low eight bits and the high eight bits are each that byte |
| `Display.Filled` | source/gba/Display.c:58 | a byte fill over `count` bytes changes exactly the first count / 2 pixels |
| `Display.Memset` | source/gba/Display.c:58 | the byte fill over the frame buffer matches `Filled` |
| `Display.ClearAsWritten` | source/gba/Display.c:56-59 | the clear as written fills zero bytes with the buffer size |
| `Display.ClearAsWrittenKeeps` | source/gba/Display.c:56-59 | as written, the clear leaves every picture as it was |
| `Display.Clear` | source/gba/Display.c:56-59 | the corrected clear leaves every pixel zero |
| `Display.ClearBlanks` | source/gba/Display.c:56-59 | the corrected fill blanks every picture, whatever it held |
| `Eeprom.AddressBits` | source/gba/CartridgeEEprom.c:108-131 | the address phase ends after 17 bits on the 64 Kbit part and after 9 bits otherwise |
| `Eeprom.BitOf` | source/gba/CartridgeEEprom.c:74-75 | a read sends one bit of the byte: 0 or 1 |
| `Eeprom.ShiftIn` | source/gba/CartridgeEEprom.c:101-102 | shifting a bit into a buffer byte puts it in bit 0 and moves the old low seven bits up |
| `Eeprom.ByteRoundTrip` | source/gba/CartridgeEEprom.c:70-82 | shifting in the eight bits a read sends for a byte rebuilds that byte, whatever the buffer held |
| `Eeprom.DecodeAddressAsWritten` | source/gba/CartridgeEEprom.c:108-133 | the address as written is 6 bits on the small part and 14 bits on the large one, high bits from the first byte and low bits from the second |
| `Eeprom.AddressOverrunAsWritten` | source/gba/CartridgeEEprom.c:112-113 | on the large part the address as written reaches block 0x3FFF, whose bytes lie beyond the 0x2000-byte store |
| `Eeprom.DecodeAddress` | source/gba/CartridgeEEprom.c:108-133 | the address used always names a block inside the store, and equals the address as written whenever that one does |
| `Eeprom.Eeprom.constructor` | source/gba/CartridgeEEprom.c:29-35 | the part starts idle, as the small part, with zeroed arrays |
| `Eeprom.Eeprom.Init` | source/gba/CartridgeEEprom.c:37-40 | every byte of the store is erased to 0xFF |
| `Eeprom.Eeprom.Reset` | source/gba/CartridgeEEprom.c:42-49 | the machine returns to idle with cleared counters and the new size |
| `Eeprom.Eeprom.Read` | source/gba/CartridgeEEprom.c:51-87 | outside a read transfer the line reads 1 and nothing changes; a read transfer sends four 0 bits and then the 64 bits of the addressed block, most significant bit first, and returns to idle after the last one |
| `Eeprom.Eeprom.EndAddress` | source/gba/CartridgeEEprom.c:110-146 | the end of the address phase decodes the block address with the corrected `Eeprom.DecodeAddress` (see Findings) and starts a read when the second command bit is set, or a write that keeps the bit just received as the first data bit |
| `Eeprom.Eeprom.Commit` | source/gba/CartridgeEEprom.c:166-169 | the eight buffered bytes replace the addressed block and nothing else changes |
| `Eeprom.Eeprom.ShiftBit` | source/gba/CartridgeEEprom.c:156-162 | one received bit is shifted into the current buffer byte and counted, and the byte cursor stays at the bit count divided by eight |
| `Eeprom.Eeprom.AddressBit` | source/gba/CartridgeEEprom.c:100-149 | an address-phase bit shifts into the current buffer byte; the last address bit decodes the block address with the corrected `Eeprom.DecodeAddress` (see Findings) and starts a read when bit 6 of the first byte is set, otherwise a write whose first data bit is the bit just received |
| `Eeprom.Eeprom.DataBit` | source/gba/CartridgeEEprom.c:155-177 | a data bit shifts into the buffer; the 64th bit stores the eight buffered bytes at the addressed block and leaves every other byte of the store unchanged; the 65th returns to idle |
| `Eeprom.Eeprom.Write` | source/gba/CartridgeEEprom.c:89-179 | a write from idle opens the address phase; a write during a read aborts it; address and data bits shift into the buffer, the block address decoded with the corrected `Eeprom.DecodeAddress` (see Findings); the 64th data bit commits the block and the 65th ends the transfer |
| `Gba.Countdown` | source/gba/GBA.cpp:415-421 | the layer delay counts positive values down by one and keeps the rest |
| `Gba.DelayAfterStep` | source/gba/GBA.cpp:415-421 | one more V-count check counts the layer delay down once more |
| `Gba.LayersAfterStep` | source/gba/GBA.cpp:415-421 | one more V-count check shows DISPCNT exactly when the delay before it is 2, and keeps the shown layers otherwise |
| `Gba.EventPhase` | source/gba/GBA.cpp:1640-1766 | the video state after an LCD event encodes `Lcd.Next` of the phase before it, and DISPCNT is untouched |
| `Gba.VblankFlagsKeep` | source/gba/GBA.cpp:1642-1675 | an LCD event in V-blank never lowers an interrupt flag |
| `Gba.LineEndKeeps` | source/gba/GBA.cpp:1678-1749 | the end of H-blank on a visible line never lowers an interrupt flag |
| `Gba.HblankKeeps` | source/gba/GBA.cpp:1750-1765 | entering H-blank on a visible line never lowers an interrupt flag |
| `Gba.VblankBusKeeps` | source/gba/GBA.cpp:1701-1742 | arriving at line 160 never lowers an interrupt flag |
| `Gba.EventKeepsFlags` | source/gba/GBA.cpp:1640-1766 | no LCD event lowers an interrupt flag |
| `Gba.VblankRaises` | source/gba/GBA.cpp:1713-1742 | arriving at line 160 leaves the V-blank flag raised when DISPSTAT bit 3 enables it and the keypad flag raised when KEYINPUT meets KEYCNT, whatever the V-blank DMA trigger does |
| `Gba.EventIdle` | source/gba/GBA.cpp:1742-1759 | with no DMA channel enabled an LCD event stores nothing, keeps every channel and adds no DMA debt |
| `Gba.RaiseKeeps` | source/gba/GBA.cpp:1659-1663 | raising a flag keeps every flag raised before |
| `Gba.TimerRaiseKeeps` | source/gba/GBA.cpp:1789-1792 | the timers' overflow bits only add flags to those already raised |
| `Gba.DmaChannelOf` | source/gba/GBA.cpp:1056-1202 | the DMA registers from 0xB0 to 0xDF are four blocks of twelve bytes, one per channel |
| `Gba.DmaSlotOf` | source/gba/GBA.cpp:1056-1202 | within a channel's block the even addresses select its six registers, the control register last |
| `Gba.Machine.constructor` | source/gba/GBA.cpp:1432-1581 | a new machine is in its reset state and satisfies the machine invariant, with the LCD at a full drawing period |
| `Gba.Machine.Reset` | source/gba/GBA.cpp:1432-1581 | reset fills OAM, palette RAM and VRAM with zero and keeps every other memory unit, clears the frame buffer (with the corrected `Display.Clear`), writes the register file's reset image, gives every register variable its reset value, restarts the LCD at the top of the frame, stops the timers and idles the channels |
| `Gba.Machine.ResetRegisters` | source/gba/GBA.cpp:1445-1566 | the register variables take their reset values and the LCD countdown is 1008 |
| `Gba.Machine.ResetBanks` | source/gba/GBA.cpp:1486-1564 | the DMA channels go idle and the timers stop |
| `Gba.Machine.ResetIsValid` | source/gba/GBA.cpp:1443-1530 | the reset values satisfy the machine invariant at the top of the frame |
| `Gba.Machine.ResetIo` | source/gba/GBA.cpp:1443-1530 | the register file holds the reset image |
| `Gba.Machine.Store` | source/gba/GBA.cpp:230-233 | storing an unmirrored slot changes that slot alone and keeps the mirror |
| `Gba.Machine.SetFlags` | source/gba/GBA.cpp:230-233 | IF and its slot change together |
| `Gba.Machine.SetEnable` | source/gba/GBA.cpp:1295-1296 | IE and its slot change together |
| `Gba.Machine.SetMaster` | source/gba/GBA.cpp:1329-1330 | IME and its slot change together |
| `Gba.Machine.RaiseFlags` | source/gba/GBA.cpp:406-407 | raising flags adds them to IF and its slot |
| `Gba.Machine.RaiseBits` | source/gba/GBA.cpp:1789-1906 | raising bits adds them to IF and touches no unmirrored slot |
| `Gba.Machine.SetStatus` | source/gba/GBA.cpp:401-413 | DISPSTAT and its slot change together |
| `Gba.Machine.SetLine` | source/gba/GBA.cpp:1648-1681 | VCOUNT and its slot change together |
| `Gba.Machine.SetKeys` | source/gba/GBA.cpp:1702 | KEYINPUT and its slot change together |
| `Gba.Machine.CompareVCount` | source/gba/GBA.cpp:397-422 | DISPSTAT's match bit follows VCOUNT; the V-count interrupt is raised on a match with bit 5 set; the layer delay counts down and, when it passes 2, the shown layers become DISPCNT; the LCD phase is kept |
| `Gba.Machine.MatchVCount` | source/gba/GBA.cpp:399-414 | the match half of the V-count check, as `CompareVCount` |
| `Gba.Machine.CountDownLayers` | source/gba/GBA.cpp:415-421 | the layer delay counts down, and the shown layers become DISPCNT when it passes 2 |
| `Gba.Machine.DoDma` | source/gba/GBA.cpp:424-513 | a transfer makes the stores of `Dma.Moved` from the aligned source, leaves both cursors after the last unit, and adds `TransferCost` to the DMA debt |
| `Gba.Machine.FillUnits` | source/gba/GBA.cpp:445-453 | the fill loop stores zero at each destination, as `Dma.Moved` with fill set |
| `Gba.Machine.CopyUnits` | source/gba/GBA.cpp:456-463 | the copy loop stores each source unit at its destination, as `Dma.Moved` |
| `Gba.Machine.SetControl` | source/gba/GBA.cpp:575-576 | a channel's control register and its slot change together |
| `Gba.Machine.CheckDma` | source/gba/GBA.cpp:515-804 | a trigger does to the bus what `Dma.RunAll` says, records the trigger, keeps IE and IME, and stops the CPU at once exactly when a firing channel asks for an interrupt |
| `Gba.Machine.RunNext` | source/gba/GBA.cpp:515-804 | after channel ch's share, the bus is the first ch + 1 shares of `Dma.RunUpTo`; IE and IME are kept |
| `Gba.Machine.RunChannel` | source/gba/GBA.cpp:517-579 | one channel's share of a trigger, as `Dma.RunChannel`; IE and IME are kept |
| `Gba.Machine.Fire` | source/gba/GBA.cpp:520-578 | a firing channel's transfer, then its completion: the bus afterwards is `Dma.Complete` of `Dma.Transfer`, which for a firing channel is its share `Dma.RunChannel` (`Dma.RunFired`); IE and IME are kept |
| `Gba.Machine.Transfer` | source/gba/GBA.cpp:557-559 | a firing channel's transfer, as `Dma.Transfer`, keeping its control register |
| `Gba.Machine.Move` | source/gba/GBA.cpp:557-559 | the units of a transfer and the cursors it leaves, as `Dma.Transfer` |
| `Gba.Machine.Complete` | source/gba/GBA.cpp:561-577 | a fired channel's completion, as `Dma.Complete`; IE and IME are kept; the CPU stops at once when bit 14 asks for an interrupt |
| `Gba.Machine.Signal` | source/gba/GBA.cpp:561-566 | the channel's flag is raised exactly when bit 14 asks for it, and the CPU stops at once then; IE and IME are kept |
| `Gba.Machine.Reload` | source/gba/GBA.cpp:568-571 | in reload mode the destination cursor is reloaded from its registers, as `Dma.Reload` |
| `Gba.Machine.EndControl` | source/gba/GBA.cpp:573-577 | the enable bit is cleared in the register and its slot unless the channel repeats on a non-immediate trigger |
| `Gba.Machine.MoveCursors` | source/gba/GBA.cpp:557-559 | only the channel's cursors change |
| `Gba.Machine.StopIfRequested` | source/gba/GBA.cpp:1297-1298 | the CPU is stopped at once exactly when IME is on, an enabled flag is raised and the CPU accepts IRQs |
| `Gba.Machine.WriteEnable` | source/gba/GBA.cpp:1294-1299 | IE keeps the fourteen interrupt sources of the value, and the CPU is stopped at once when an interrupt can be requested |
| `Gba.Machine.WriteMaster` | source/gba/GBA.cpp:1328-1333 | IME keeps bit 0 of the value, and the CPU is stopped at once when an interrupt can be requested |
| `Gba.Machine.WriteFlags` | source/gba/GBA.cpp:1300-1303 | an IF write acknowledges the flags set in the value, as `Io.ClearFlags` |
| `Gba.Machine.SetDisplay` | source/gba/GBA.cpp:821-822 | DISPCNT and its slot change together |
| `Gba.Machine.SetDisplayControl` | source/gba/GBA.cpp:812-834 | DISPCNT takes `Io.DisplayControl` of the value, and the shown layers and layer delay follow `Io.DisplayEffect` |
| `Gba.Machine.RestartLine` | source/gba/GBA.cpp:837-845 | restarting a line gives it a full drawing period, clears both blank bits, and runs the V-count check |
| `Gba.Machine.WriteDisplayControl` | source/gba/GBA.cpp:810-854 | a DISPCNT write stores the masked value and sets the shown layers and layer delay by `Io.DisplayEffect`; when it clears forced blank outside V-blank the line restarts: a full drawing period, both blank bits clear, the V-count match and its interrupt, and one count of the layer delay; otherwise the clock, DISPSTAT, VCOUNT and IF are kept |
| `Gba.Machine.WriteStatus` | source/gba/GBA.cpp:855-858 | a DISPSTAT write follows `Io.DisplayStatus` and keeps the LCD phase |
| `Gba.Machine.WriteVideo` | source/gba/GBA.cpp:810-1055 | DISPCNT stores its masked value; DISPSTAT follows `Io.DisplayStatus` and keeps the LCD phase; VCOUNT leaves the register file alone; the model leaves the sound slots alone, because `soundEvent`, which receives those writes, is not modelled; other display registers store the value through their mask; only a DISPCNT write can touch the clock, IF and the shown layers |
| `Gba.Machine.WriteDmaRegister` | source/gba/GBA.cpp:1056-1075 | an address or count write changes that register of that channel only, and the count register reads back 0 |
| `Gba.Machine.StartDma` | source/gba/GBA.cpp:1084-1089 | a channel switched on latches its cursors and runs an immediate trigger for itself alone; IE and IME are kept |
| `Gba.Machine.WriteDmaControl` | source/gba/GBA.cpp:1076-1091 | the control value is stored through the channel's mask, and the channel starts exactly when the write switches its enable bit on (`ControlWritten`) |
| `Gba.Machine.WriteDma` | source/gba/GBA.cpp:1056-1202 | an address or count write changes only that register of the addressed channel, through its mask, and nothing else; a control write does what `ControlWritten` says |
| `Gba.Machine.WriteReload` | source/gba/GBA.cpp:1203-1206 | a reload write changes only that timer's reload |
| `Gba.Machine.WriteTimerControl` | source/gba/GBA.cpp:1207-1211 | a control write is held as pending, marks the timer's pending bit, and stops the CPU at once |
| `Gba.Machine.WriteTimer` | source/gba/GBA.cpp:1203-1236 | a reload write changes only that timer's reload; a control write is held as that timer's pending value, marks its pending bit, and stops the CPU at once |
| `Gba.Machine.CompleteSerial` | source/gba/GBA.cpp:1251-1253 | a completed serial transfer reads 0xFF and raises the serial interrupt |
| `Gba.Machine.WriteSerial` | source/gba/GBA.cpp:1237-1259 | SIOCNT stores `Io.SerialControl` of the value, and an immediate completion raises the serial interrupt |
| `Gba.Machine.WriteWaitControl` | source/gba/GBA.cpp:1304-1327 | a WAITCNT write sets the wait tables by `Io.WaitTables`, sets prefetch from bit 14, and stores the value without bit 15 |
| `Gba.Machine.WriteLink` | source/gba/GBA.cpp:1237-1293 | SIOCNT as `WriteSerial` (only it touches IF); a KEYINPUT write can only set key bits; KEYCNT keeps its mask 0xC3FF; SIODATA8 is stored at the RCNT slot; other registers store the value |
| `Gba.Machine.WriteInterrupt` | source/gba/GBA.cpp:1294-1333 | IE and IME writes as `WriteEnable` and `WriteMaster`, stopping the CPU at once when an interrupt can be requested; an IF write acknowledges flags and keeps the clock |
| `Gba.Machine.WriteControl` | source/gba/GBA.cpp:1294-1341 | IE, IF and IME writes as `WriteInterrupt`; WAITCNT as `WriteWaitControl`; POSTFLG stores `Io.PostFlag` of the value; unnamed system registers store the value; only IE and IME writes touch the clock and only WAITCNT the wait tables and prefetch |
| `Gba.Machine.UpdateRegister` | source/gba/GBA.cpp:806-1343 | every register write keeps the machine invariant |
| `Gba.Machine.SetCounter` | source/gba/GBA.cpp:1795 | a timer and its counter slot change together |
| `Gba.Machine.ClockTick` | source/gba/GBA.cpp:1822-1835 | a cycle-clocked timer's share of a pass, as `Timers.After`, reporting whether it overflowed |
| `Gba.Machine.CascadeTick` | source/gba/GBA.cpp:1801-1819 | a cascaded timer's share of a pass, as `Timers.After`, reporting whether it overflowed |
| `Gba.Machine.CountTimer` | source/gba/GBA.cpp:1799-1837 | timer i's counting, as `Timers.After` |
| `Gba.Machine.TickTimer` | source/gba/GBA.cpp:1799-1837 | after timer i's share the bank is `Timers.PassedUpTo` i + 1, and IF holds the bits raised so far |
| `Gba.Machine.PassIrq` | source/gba/GBA.cpp:1789-1792 | timer i's bit is added to IF |
| `Gba.Machine.TimerPass` | source/gba/GBA.cpp:1779-1912 | the timers' share of a pass leaves the bank as `Timers.PassedUpTo` all four timers, and raises exactly `Timers.IrqBits` in IF |
| `Gba.Machine.TickAll` | source/gba/GBA.cpp:1779-1912 | the loop over the four timers, as `TimerPass` |
| `Gba.Machine.SetTimer` | source/gba/GBA.cpp:1353-1360 | a timer and both its register slots change together |
| `Gba.Machine.ApplyOne` | source/gba/GBA.cpp:1347-1362 | timer i's pending write takes effect as `Timers.Applied` says |
| `Gba.Machine.ApplyTimer` | source/gba/GBA.cpp:1345-1408 | pending control writes take effect as `Timers.Applied` says, none stays pending, and the next stop is recomputed as the horizon |
| `Gba.Machine.ApplyAll` | source/gba/GBA.cpp:1345-1405 | the loop of `applyTimer` over the four timers, as `Timers.Applied` |
| `Gba.Machine.SetPhase` | source/gba/GBA.cpp:1666-1672 | VCOUNT, DISPSTAT and their slots change together |
| `Gba.Machine.LeaveVblankLine` | source/gba/GBA.cpp:1645-1653 | leaving H-blank in V-blank advances the line, clears H-blank and runs the V-count check |
| `Gba.Machine.VblankHblankStart` | source/gba/GBA.cpp:1654-1664 | entering H-blank in V-blank sets the H-blank bit and raises the H-blank interrupt when bit 4 enables it |
| `Gba.Machine.WrapFrame` | source/gba/GBA.cpp:1666-1674 | past the last line both blank bits clear, VCOUNT returns to 0 and the V-count check runs |
| `Gba.Machine.VblankLineStep` | source/gba/GBA.cpp:1643-1664 | the H-blank half of an LCD event in V-blank leaves the video state `VblankStep` (next line and V-count check, or H-blank set), raises the V-count or H-blank interrupt as the enabling bits say, and counts the layer delay down once when a V-count check runs |
| `Gba.Machine.VblankEvent` | source/gba/GBA.cpp:1642-1675 | an LCD event in V-blank leaves the video state `VblankVideo` (one `Lcd.Next` step), raises IF as `VblankFlags`, and counts the layer delay down once per V-count check it runs; IE and IME are kept |
| `Gba.Machine.ReadKeypad` | source/gba/GBA.cpp:1701-1731 | KEYINPUT takes the joypad reading, and the keypad interrupt is raised as `Io.KeypadIrq` says |
| `Gba.Machine.StartVblank` | source/gba/GBA.cpp:1701-1742 | arriving at line 160 reads the keypad into KEYINPUT, enters V-blank, and leaves the bus as `VblankBus`: the keypad and V-blank flags raised as enabled, then the V-blank DMA trigger on all channels; IF bit 0 is set afterwards when DISPSTAT bit 3 was set, and IF bit 12 when the keypad condition holds; IE and IME are kept |
| `Gba.Machine.EnterVblank` | source/gba/GBA.cpp:1701-1741 | before the V-blank DMA trigger: VCOUNT is 160, KEYINPUT holds the joypad reading, V-blank is set and H-blank cleared, and the keypad and V-blank flags are raised as enabled, nothing else in IE, IF or IME changing |
| `Gba.Machine.MarkVblank` | source/gba/GBA.cpp:1734-1741 | V-blank is set, H-blank cleared, and the V-blank interrupt raised when bit 3 enables it |
| `Gba.Machine.AdvanceLine` | source/gba/GBA.cpp:1680-1744 | leaving H-blank on a visible line advances the line and clears H-blank; at line 160 it reads the keypad and does what `StartVblank` does, and otherwise the bus and KEYINPUT are untouched |
| `Gba.Machine.VisibleLineEnd` | source/gba/GBA.cpp:1678-1749 | the end of H-blank on a visible line leaves the video state `LineEndVideo` and the bus `LineEndBus`, reads the keypad exactly at line 160, and counts the layer delay down once |
| `Gba.Machine.EnterHblank` | source/gba/GBA.cpp:1755-1764 | entering H-blank on a visible line sets the H-blank bit and leaves the bus as `HblankBus`: the H-blank DMA trigger, then the H-blank flag when bit 4 enables it; IE and IME are kept |
| `Gba.Machine.HblankStart` | source/gba/GBA.cpp:1750-1765 | the current line is copied into its frame-buffer row (as `Display.Copied`), then H-blank starts as `EnterHblank` says |
| `Gba.Machine.LcdEvent` | source/gba/GBA.cpp:1640-1766 | an LCD event moves the controller to `Lcd.Next` of its phase, adds that event's cycles to the LCD countdown, and does what `EventDone` says to the display, the bus, IF, the triggers and the frame buffer |
| `Gba.Machine.VblankLcd` | source/gba/GBA.cpp:1642-1675 | an LCD event in V-blank, as `EventDone`, moving to the next phase |
| `Gba.Machine.LineEndLcd` | source/gba/GBA.cpp:1678-1749 | the end of H-blank on a visible line, as `EventDone`, moving to the next phase and owing the DMA cycles of `AfterEvent` |
| `Gba.Machine.DrawLcd` | source/gba/GBA.cpp:1750-1765 | the end of a line's drawing, as `EventDone`, moving to the next phase and owing the DMA cycles of `AfterEvent` |
| `Gba.Machine.EventBody` | source/gba/GBA.cpp:1642-1766 | the three kinds of LCD event, chosen by DISPSTAT's blank bits, as `EventDone` |
| `Gba.Machine.CountDown` | source/gba/GBA.cpp:1630-1637 | a pass counts down the IRQ delay (never below zero) and the LCD countdown |
| `Gba.Machine.LcdPass` | source/gba/GBA.cpp:1630-1766 | the LCD event happens exactly when the pass uses up the LCD countdown (`LcdPassed`); the bus, IF and the DMA debt become those of `PassBus`; the phase and LCD countdown follow `Lcd.Next` or count down |
| `Gba.Machine.PassKeeps` | source/gba/GBA.cpp:1630-1912 | a pass never lowers an interrupt flag, and with no DMA channel enabled it stores nothing, keeps the channels and adds no DMA debt |
| `Gba.Machine.PassShares` | source/gba/GBA.cpp:1630-1912 | the LCD, sound and timer shares of a pass, as `Passed`, with the countdowns each runs down |
| `Gba.Machine.CountedShares` | source/gba/GBA.cpp:1772-1912 | the sound countdown runs down and restarts with a full period; the timers count and raise their overflow bits unless the CPU is stopped; the display, memory and channels are untouched |
| `Gba.Machine.TimersUnlessStopped` | source/gba/GBA.cpp:1779-1912 | a stopped CPU skips the timers' share; otherwise it is `TimerShare` |
| `Gba.Machine.SoundTick` | source/gba/GBA.cpp:1772-1776 | the sound countdown runs down and restarts with a full period when it runs out |
| `Gba.Machine.TimerShare` | source/gba/GBA.cpp:1779-1912 | the timers' share of a pass, as `TimerPass`, keeping the machine invariant |
| `Gba.Machine.SetNext` | source/gba/GBA.cpp:1921 | the next stop is the horizon, and at least one cycle away |
| `Gba.Machine.UpdatePass` | source/gba/GBA.cpp:1628-1921 | one pass of c cycles does what `Passed` says (the LCD event when due, then the timers unless the CPU is stopped, their flags after the LCD's), counts down the IRQ delay, sound and LCD, owes the DMA cycles of `PassBus`, and sets the next stop to the horizon; it never lowers an interrupt flag, and with no DMA channel enabled and no debt it stores nothing, keeps the channels and owes nothing |
| `Gba.Machine.CheckInterrupt` | source/gba/GBA.cpp:1938-1971 | the CPU takes, latches or ignores an interrupt as `CheckOutcome` (`Sched.Check`) says, leaving the CPU as `CpuAfter`; a new latch clamps the next stop to 7 cycles, and the stop stays within the horizon |
| `Gba.Machine.SetLatch` | source/gba/GBA.cpp:1945-1969 | the CPU after the check's outcome is `CpuAfter` of it |
| `Gba.Machine.LatchClock` | source/gba/GBA.cpp:1959-1962 | the IRQ delay takes the check's value, and a new latch clamps the next stop to 7 cycles |
| `Gba.Machine.PayDma` | source/gba/GBA.cpp:1923-1932 | a DMA-debt pass covers the debt but not beyond the next stop, and the debt drops by that much |
| `Gba.Machine.RunEvents` | source/gba/GBA.cpp:1621-1993 | when the event handling finishes, every cycle the CPU ran plus every cycle of DMA debt has been passed through the hardware, the debt is paid, no timer write is pending, and the next stop is within both the horizon and the remaining budget; no interrupt flag is lowered; with no DMA pending and no channel enabled it finishes within the cycles run past the stop plus one passes, storing nothing |
| `Gba.Machine.Settle` | source/gba/GBA.cpp:1986-1990 | pending timer writes take effect, which recomputes the next stop, and the stop is clamped to the remaining budget |
| `Gba.Machine.Passes` | source/gba/GBA.cpp:1628-1984 | the passes cover the CPU's cycles and the DMA debt they create, cycle for cycle; no interrupt flag is lowered; with no DMA pending and no channel enabled they pay no debt, store nothing, and finish within remaining + 1 passes; the first pass may cover zero cycles |
| `Gba.Machine.Step` | source/gba/GBA.cpp:1628-1984 | one pass does what `Passed` says; then the DMA debt it leaves is paid first, up to the horizon, or else the interrupt check runs as `CheckOutcome` and the next pass takes the remaining cycles up to the next stop; cycles still to pass are conserved, and with no DMA the remaining cycles strictly drop |
| `Gba.Machine.Follow` | source/gba/GBA.cpp:1923-1984 | after a pass, DMA debt is paid first: min(debt, next stop) cycles, the CPU untouched; otherwise the interrupt check runs as `CheckOutcome`, and the next pass takes min(remaining, next stop) cycles, the passes ending exactly when none remain; nothing but the clock and CPU changes |

## Left out

- Rendering and sound, which are outside this model:
  - the composition of a line (`gfx_line_render`) is an input: the line buffer `lineMix`;
  - `display_draw_screen`, `gfx_frame_new` and `gfx_buffers_clear` are not modelled;
  - `gfx_renderer_choose` and the BG reference-point updates are not modelled;
  - the sound unit's tick (`psoundTickfn`), `soundEvent`, `soundTimerOverflow` and `interp_rate` are not modelled; a write to a sound register (GBA.cpp:1037-1054) leaves the register file as it was in the model, where `soundEvent` would store it.
  - The sound countdown restarts with the period passed to the constructor, because the sound tick constant is defined outside these files.
- The link cable (`LINK_EMULATION`), the motion sensor, and frame-rate counting with the clock: `lastTime` and `speed` are I/O.
- `GBA_LOGGING` output.
- The CPU's instruction execution (`armExecute` and `thumbExecute`), `CPU::interrupt` beyond counting interrupts, and `cpuBreakLoop`.
- The joypad reading is a parameter (`joy`).
- Memory:
  - the memory map is a map from addresses to units;
  - 8-bit and 16-bit access lanes, open bus, and BIOS protection are not modelled.
- Gba.Machine.RunEvents: the event handling is bounded by a `fuel` count of passes. The source loop can run longer, since DMA debt created in H-blank can extend it. The postcondition states the cycles, debt and timer writes only for a run that finished within the fuel; it proves that a run with no DMA pending and no channel enabled does finish.
- Gba.Machine.Passes: bounded by the same `fuel`, with the same caveat. The state after the run is stated through the cycles covered, the debt paid, the flags kept and the termination of a run without DMA, not as the composition of every pass's `Passed`.
- Gba.Machine.Step: when the interrupt check latches, the next stop is stated only as lying within the horizon and bounding the next pass, not as the horizon before the check clamped to 7 cycles (`Follow` states that clamp).
- Gba.Machine.RunEvents requires the next stop to be within the horizon when it starts (a next stop of 0, the zero-cycle first pass after a timer-control, IE, IME or DMA-interrupt write, is accepted). The source keeps this, but the model does not prove it across the CPU's register writes: `UpdateRegister` states only the machine invariant.
- Gba.Machine.UpdateRegister states only that the machine invariant is kept. The per-register effects are the contracts of `WriteVideo`, `WriteDma`, `WriteTimer`, `WriteLink` and `WriteControl`, to which it dispatches by address range.
- Gba.Machine.WriteVideo states the stored DISPCNT but not the layer and line-restart effects of a DISPCNT write; `WriteDisplayControl` states them.
- Gba.Machine.Reset clears the frame buffer with the corrected `Display.Clear`. As written, `display_clear` leaves every pixel unchanged (see Findings), so the source's reset keeps the previous picture.
- `timerOverflow` is the overflow chain local to one pass; it is not a field.
- The clamp of the DMA debt at zero (GBA.cpp:1930-1931) never applies, because a debt pass never exceeds the debt.
- The DMA registers of channels 1 and 2 are reached through the same per-channel code as channel 0.
- Savestates:
  - writing and reading the gzip stream is not modelled;
  - the variable table is not modelled;
  - `display_read_state` and the battery-file I/O of the EEPROM are not modelled.
  - Only the header check and the restored IRQ delay are modelled.
- The ROM and BIOS loaders, `CPUInit`, `CPUInitMemory` and `CPUCleanUp`.
- Register writes come in as even byte addresses below 0x400, the form the memory unit hands to `CPUUpdateRegister`.
- A write to 0x12a (SIODATA8) is stored at the slot of 0x134 (RCNT), as the code does.

## Findings

| source | as written | input that shows it | evidently intended | confidence | as-written member | corrected member |
|---|---|---|---|---|---|---|
| source/gba/CartridgeEEprom.c:112-113 | the 64 Kbit part decodes a 14-bit block address and the write stores at `(address << 3) + i` in a 0x2000-byte array | a write command with address bits 0x3FFF (first byte 0x3F, second 0xFF) selects block 0x3FFF, byte 0x1FFF8, past the end of the store | the block address stays within the 1024 blocks of the store | not executed | `Eeprom.AddressOverrunAsWritten` | `Eeprom.DecodeAddress` |
| source/gba/Display.c:56-59 | `memset(pix, width * height * sizeof(guint32), 0)` passes the size as the fill byte and 0 as the length | any frame buffer: a clear fills zero bytes and leaves every pixel as it was | fill the whole frame buffer with zero: `width * height * 2` bytes, the size of the `guint16` buffer allocated at Display.c:53 (merely swapping the two arguments would fill `width * height * 4` bytes, twice the buffer) | not executed | `Display.ClearAsWrittenKeeps` | `Display.ClearBlanks` |
