/** The emulator's hardware-timing core: the I/O registers and their mirror in
    the register file, the DMA channels, the timer bank, the LCD timing, the
    interrupt latch, and the scheduler pass that advances all of them by the
    cycles the CPU has used. The CPU interpreter, the memory map and the sound
    unit are collaborators outside this model: the CPU is seen through its
    program counter, its IRQ-enable bit and its halt/stop state, memory
    through `Dma.Memory`, and sound through its countdown. */
module Gba {
  import Timers
  import Lcd
  import Dma
  import Io
  import Sched
  import Display
  import opened State

  const IdleChannel := Dma.Channel(0, 0, 0, 0, 0, 0, 0, 0)
  const IdleTimer := Timers.Timer(false, 0, 0, 0, 0, 0, 0)

  /** One step of the layer delay: positive values count down, others stay. */
  function Countdown(d: int): (r: int)
    ensures d > 0 ==> r == d - 1
    ensures d <= 0 ==> r == d
  {
    if d > 0 then d - 1 else d
  }

  /** The layer delay after k V-count checks. */
  function DelayAfter(d: int, k: nat): int
  {
    if k == 0 then d else DelayAfter(Countdown(d), k - 1)
  }

  /** The layers shown after k V-count checks that start with delay `d`: the
      DISPCNT value `cnt` takes over at the check where the delay passes from
      2 to 1. */
  function LayersAfter(layers: bv16, d: int, cnt: bv16, k: nat): bv16
    decreases k
  {
    if k == 0 then layers else LayersAfter(if d == 2 then cnt else layers, Countdown(d), cnt, k - 1)
  }

  /** The DMA channel whose registers hold the address `a` (twelve bytes per
      channel from 0xB0). */
  function DmaChannelOf(a: int): (ch: int)
    requires 0xB0 <= a < 0xE0
    ensures 0 <= ch < 4 && 0xB0 + 12 * ch <= a < 0xB0 + 12 * ch + 12
  {
    (a - 0xB0) / 12
  }

  /** Which of its six registers (0-4 the addresses and count, 5 the control)
      the address `a` selects within its channel. */
  function DmaSlotOf(a: int): (k: int)
    requires 0xB0 <= a < 0xE0
    ensures 0 <= k <= 5 && (a % 2 == 0 ==> a == 0xB0 + 12 * DmaChannelOf(a) + 2 * k)
  {
    (a - 0xB0) % 12 / 2
  }

  /** `f` with `bit` raised when `raise` holds. */
  function Raise(f: bv16, bit: bv16, raise: bool): bv16
  {
    if raise then f | bit else f
  }

  /** The LCD phase DISPSTAT and VCOUNT encode. */
  function PhaseOf(v: Video): Lcd.Phase
  {
    Lcd.Phase(v.vCount, v.dispStat & 1 != 0, v.dispStat & 2 != 0)
  }

  /** The display registers after the first half of an LCD event in V-blank:
      leaving H-blank moves to the next line and runs the V-count check;
      otherwise H-blank starts. */
  function VblankStep(v: Video): Video
  {
    if v.dispStat & 2 != 0 then
      v.(vCount := v.vCount + 1, dispStat := Lcd.MatchStatus(Lcd.Blanks(v.dispStat, true, false), v.vCount + 1))
    else v.(dispStat := Lcd.Blanks(v.dispStat, true, true))
  }

  /** The display registers after an LCD event in V-blank: past the last
      line VCOUNT returns to 0, both blank bits are cleared and VCOUNT is
      checked again. */
  function VblankVideo(v: Video): Video
  {
    var w := VblankStep(v);
    if w.vCount >= Lcd.Lines then w.(vCount := 0, dispStat := Lcd.MatchStatus(Lcd.Blanks(w.dispStat, false, false), 0))
    else w
  }

  /** IF after an LCD event in V-blank: the V-count interrupt of each check
      that matches with bit 5 set, and the H-blank interrupt when H-blank
      starts with bit 4 set. */
  function VblankFlags(v: Video, f: bv16): bv16
  {
    var w := VblankStep(v);
    var g := if v.dispStat & 2 != 0 then Raise(f, 4, Lcd.MatchRaises(Lcd.Blanks(v.dispStat, true, false), w.vCount))
             else Raise(f, 2, v.dispStat & 16 != 0);
    if w.vCount >= Lcd.Lines then Raise(g, 4, Lcd.MatchRaises(Lcd.Blanks(w.dispStat, false, false), 0)) else g
  }

  /** The V-count checks an LCD event in V-blank runs. */
  function VblankChecks(v: Video): nat
  {
    (if v.dispStat & 2 != 0 then 1 else 0) + (if VblankStep(v).vCount >= Lcd.Lines then 1 else 0)
  }

  /** The display registers after the end of H-blank on a visible line: the
      next line, H-blank cleared, V-blank set on arriving at line 160, and
      the V-count check. */
  function LineEndVideo(v: Video): Video
  {
    var line := v.vCount + 1;
    v.(vCount := line, dispStat := Lcd.MatchStatus(Lcd.Blanks(v.dispStat, line == Lcd.VisibleLines, false), line))
  }

  /** The bus on arriving at line 160: the keypad interrupt when the new
      KEYINPUT `keys` meets KEYCNT, the V-blank interrupt when DISPSTAT bit 3
      enables it, then the V-blank DMA trigger. */
  function VblankBus(b: Dma.Bus, w: Dma.Waits, pc: int, stat: bv16, keys: bv16, keyControl: bv16, stopped: bool): Dma.Bus
    requires Dma.BusOk(b) && Dma.WaitsOk(w)
  {
    var f := Raise(Raise(b.flags, 0x1000, Io.KeypadIrq(keys, keyControl, stopped)), 1, stat & 8 != 0);
    Dma.RunAll(b.(flags := f), w, pc, 1, 0xF)
  }

  /** The bus after the end of H-blank on a visible line: V-blank's effects
      on arriving at line 160, then the V-count interrupt when the check
      matches with bit 5 set. */
  function LineEndBus(b: Dma.Bus, w: Dma.Waits, pc: int, v: Video, keys: bv16, keyControl: bv16, stopped: bool): Dma.Bus
    requires Dma.BusOk(b) && Dma.WaitsOk(w)
  {
    var line := v.vCount + 1;
    var m := if line == Lcd.VisibleLines then VblankBus(b, w, pc, v.dispStat, keys, keyControl, stopped) else b;
    m.(flags := Raise(m.flags, 4, Lcd.MatchRaises(Lcd.Blanks(v.dispStat, line == Lcd.VisibleLines, false), line)))
  }

  /** The bus on entering H-blank on a visible line: the H-blank DMA trigger,
      then the H-blank interrupt when DISPSTAT bit 4 enables it. */
  function HblankBus(b: Dma.Bus, w: Dma.Waits, pc: int, stat: bv16): Dma.Bus
    requires Dma.BusOk(b) && Dma.WaitsOk(w)
  {
    var r := Dma.RunAll(b, w, pc, 2, 0xF);
    r.(flags := Raise(r.flags, 2, stat & 16 != 0))
  }

  /** The display registers after an LCD event. */
  function EventVideo(v: Video): Video
  {
    if v.dispStat & 1 != 0 then VblankVideo(v)
    else if v.dispStat & 2 != 0 then LineEndVideo(v)
    else v.(dispStat := Lcd.Blanks(v.dispStat, false, true))
  }

  /** The V-count checks an LCD event runs. */
  function EventChecks(v: Video): nat
  {
    if v.dispStat & 1 != 0 then VblankChecks(v) else if v.dispStat & 2 != 0 then 1 else 0
  }

  /** The LCD event reads the keypad: it arrives at line 160. */
  predicate ReadsKeys(v: Video)
  {
    v.dispStat & 1 == 0 && v.dispStat & 2 != 0 && v.vCount + 1 == Lcd.VisibleLines
  }

  /** The DMA triggers an LCD event raises. */
  function EventTriggers(v: Video): seq<Trigger>
  {
    if ReadsKeys(v) then [Trigger(1, 0xF)]
    else if Draws(v) then [Trigger(2, 0xF)]
    else []
  }

  /** The bus after an LCD event; `keys` is KEYINPUT as read if the event
      arrives at line 160, `keyControl` is KEYCNT. */
  function EventBus(b: Dma.Bus, w: Dma.Waits, pc: int, v: Video, keys: bv16, keyControl: bv16, stopped: bool): Dma.Bus
    requires Dma.BusOk(b) && Dma.WaitsOk(w)
  {
    if v.dispStat & 1 != 0 then b.(flags := VblankFlags(v, b.flags))
    else if v.dispStat & 2 != 0 then LineEndBus(b, w, pc, v, keys, keyControl, stopped)
    else HblankBus(b, w, pc, v.dispStat)
  }

  /** The registers an LCD event leaves agree with the phase machine: the
      controller moves to `Lcd.Next`'s phase. */
  lemma EventPhase(v: Video)
    requires Lcd.WellFormed(PhaseOf(v))
    ensures PhaseOf(EventVideo(v)) == Lcd.Next(PhaseOf(v)).next
    ensures EventVideo(v).dispCnt == v.dispCnt
  {
  }

  /** An LCD event never lowers an interrupt flag. */
  lemma EventKeepsFlags(b: Dma.Bus, w: Dma.Waits, pc: int, v: Video, keys: bv16, keyControl: bv16, stopped: bool)
    requires Dma.BusOk(b) && Dma.WaitsOk(w)
    ensures Dma.KeepsFlags(b.flags, EventBus(b, w, pc, v, keys, keyControl, stopped).flags)
  {
    if v.dispStat & 1 != 0 {
      VblankFlagsKeep(v, b.flags);
    } else if v.dispStat & 2 != 0 {
      LineEndKeeps(b, w, pc, v, keys, keyControl, stopped);
    } else {
      HblankKeeps(b, w, pc, v.dispStat);
    }
  }

  /** An LCD event in V-blank never lowers a flag. */
  lemma VblankFlagsKeep(v: Video, f: bv16)
    ensures Dma.KeepsFlags(f, VblankFlags(v, f))
  {
    var x := VblankStep(v);
    var first := v.dispStat & 2 != 0;
    TwoRaisesKeep(f, if first then 4 else 2,
      if first then Lcd.MatchRaises(Lcd.Blanks(v.dispStat, true, false), x.vCount) else v.dispStat & 16 != 0,
      x.vCount >= Lcd.Lines && Lcd.MatchRaises(Lcd.Blanks(x.dispStat, false, false), 0));
  }

  /** Two raises in a row keep every flag. */
  lemma TwoRaisesKeep(f: bv16, bit: bv16, first: bool, second: bool)
    ensures Dma.KeepsFlags(f, Raise(Raise(f, bit, first), 4, second))
  {
    RaiseKeeps(f, bit, first);
    RaiseAfterKeeps(f, Raise(f, bit, first), 4, second);
  }

  /** Arriving at line 160 raises the V-blank interrupt when DISPSTAT bit 3
      enables it and the keypad interrupt when KEYINPUT meets KEYCNT; the
      V-blank DMA that follows lowers neither. */
  lemma VblankBusRaises(b: Dma.Bus, w: Dma.Waits, pc: int, stat: bv16, keys: bv16, keyControl: bv16, stopped: bool)
    requires Dma.BusOk(b) && Dma.WaitsOk(w)
    ensures var m := VblankBus(b, w, pc, stat, keys, keyControl, stopped);
      && (stat & 8 != 0 ==> m.flags & 1 != 0)
      && (Io.KeypadIrq(keys, keyControl, stopped) ==> m.flags & 0x1000 != 0)
  {
    var k := Raise(b.flags, 0x1000, Io.KeypadIrq(keys, keyControl, stopped));
    var f := Raise(k, 1, stat & 8 != 0);
    var m := VblankBus(b, w, pc, stat, keys, keyControl, stopped);
    RaiseKeeps(k, 1, stat & 8 != 0);
    Dma.RunAllKeepsFlags(b.(flags := f), w, pc, 1, 0xF);
    Dma.RunAllAfterKeeps(k, b.(flags := f), w, pc, 1, 0xF);
    Dma.KeptBit(f, m.flags, 1);
    Dma.KeptBit(k, m.flags, 0x1000);
  }

  /** The end of H-blank on a visible line never lowers a flag. */
  lemma LineEndKeeps(b: Dma.Bus, w: Dma.Waits, pc: int, v: Video, keys: bv16, keyControl: bv16, stopped: bool)
    requires Dma.BusOk(b) && Dma.WaitsOk(w)
    ensures Dma.KeepsFlags(b.flags, LineEndBus(b, w, pc, v, keys, keyControl, stopped).flags)
  {
    var line := v.vCount + 1;
    if line == Lcd.VisibleLines {
      var m := VblankBus(b, w, pc, v.dispStat, keys, keyControl, stopped);
      VblankBusKeeps(b, w, pc, v.dispStat, keys, keyControl, stopped);
      RaiseAfterKeeps(b.flags, m.flags, 4, Lcd.MatchRaises(Lcd.Blanks(v.dispStat, true, false), line));
    } else {
      RaiseKeeps(b.flags, 4, Lcd.MatchRaises(Lcd.Blanks(v.dispStat, false, false), line));
    }
  }

  /** Entering H-blank on a visible line never lowers a flag. */
  lemma HblankKeeps(b: Dma.Bus, w: Dma.Waits, pc: int, stat: bv16)
    requires Dma.BusOk(b) && Dma.WaitsOk(w)
    ensures Dma.KeepsFlags(b.flags, HblankBus(b, w, pc, stat).flags)
  {
    Dma.RunAllKeepsFlags(b, w, pc, 2, 0xF);
    RaiseAfterKeeps(b.flags, Dma.RunAll(b, w, pc, 2, 0xF).flags, 2, stat & 16 != 0);
  }

  /** Raising a bit after a change that kept every flag still keeps them. */
  lemma RaiseAfterKeeps(x: bv16, y: bv16, bit: bv16, raise: bool)
    requires Dma.KeepsFlags(x, y)
    ensures Dma.KeepsFlags(x, Raise(y, bit, raise))
  {
    if raise { OrKeeps(x, y, bit); }
  }

  /** Raising a bit keeps every flag. */
  lemma RaiseKeeps(f: bv16, bit: bv16, raise: bool)
    ensures Dma.KeepsFlags(f, Raise(f, bit, raise))
  {
  }

  /** Arriving at line 160 never lowers a flag. */
  lemma VblankBusKeeps(b: Dma.Bus, w: Dma.Waits, pc: int, stat: bv16, keys: bv16, keyControl: bv16, stopped: bool)
    requires Dma.BusOk(b) && Dma.WaitsOk(w)
    ensures Dma.KeepsFlags(b.flags, VblankBus(b, w, pc, stat, keys, keyControl, stopped).flags)
  {
    var k := Raise(b.flags, 0x1000, Io.KeypadIrq(keys, keyControl, stopped));
    var f := Raise(k, 1, stat & 8 != 0);
    RaiseKeeps(b.flags, 0x1000, Io.KeypadIrq(keys, keyControl, stopped));
    RaiseAfterKeeps(b.flags, k, 1, stat & 8 != 0);
    Dma.RunAllAfterKeeps(b.flags, b.(flags := f), w, pc, 1, 0xF);
  }

  /** Arriving at line 160 raises the V-blank interrupt when DISPSTAT bit 3
      enables it, and the keypad interrupt when KEYINPUT meets KEYCNT, and
      runs the V-blank DMA trigger after raising them. */
  lemma VblankRaises(b: Dma.Bus, w: Dma.Waits, pc: int, v: Video, keys: bv16, keyControl: bv16, stopped: bool)
    requires Dma.BusOk(b) && Dma.WaitsOk(w) && ReadsKeys(v)
    ensures var r := EventBus(b, w, pc, v, keys, keyControl, stopped);
      && (v.dispStat & 8 != 0 ==> r.flags & 1 != 0)
      && (Io.KeypadIrq(keys, keyControl, stopped) ==> r.flags & 0x1000 != 0)
  {
    var k := Raise(b.flags, 0x1000, Io.KeypadIrq(keys, keyControl, stopped));
    var f := Raise(k, 1, v.dispStat & 8 != 0);
    var m := VblankBus(b, w, pc, v.dispStat, keys, keyControl, stopped);
    var r := EventBus(b, w, pc, v, keys, keyControl, stopped);
    var raise := Lcd.MatchRaises(Lcd.Blanks(v.dispStat, true, false), Lcd.VisibleLines);
    RaiseKeeps(k, 1, v.dispStat & 8 != 0);
    Dma.RunAllKeepsFlags(b.(flags := f), w, pc, 1, 0xF);
    Dma.RunAllAfterKeeps(k, b.(flags := f), w, pc, 1, 0xF);
    RaiseAfterKeeps(f, m.flags, 4, raise);
    RaiseAfterKeeps(k, m.flags, 4, raise);
    assert r.flags == Raise(m.flags, 4, raise);
    Dma.KeptBit(f, r.flags, 1);
    Dma.KeptBit(k, r.flags, 0x1000);
  }

  /** With no DMA channel enabled an LCD event stores nothing and owes no
      DMA cycles, and the channels stay as they were. */
  lemma EventIdle(b: Dma.Bus, w: Dma.Waits, pc: int, v: Video, keys: bv16, keyControl: bv16, stopped: bool)
    requires Dma.BusOk(b) && Dma.WaitsOk(w) && Dma.Idle(b.ch)
    ensures var r := EventBus(b, w, pc, v, keys, keyControl, stopped);
      r.mem == b.mem && r.ch == b.ch && r.cost == b.cost
  {
    if v.dispStat & 1 == 0 {
      if v.dispStat & 2 != 0 {
        if v.vCount + 1 == Lcd.VisibleLines {
          var f := Raise(Raise(b.flags, 0x1000, Io.KeypadIrq(keys, keyControl, stopped)), 1, v.dispStat & 8 != 0);
          Dma.RunUpToIdle(b.(flags := f), w, pc, 1, 0xF, 4);
        }
      } else {
        Dma.RunUpToIdle(b, w, pc, 2, 0xF, 4);
      }
    }
  }

  /** One more V-count check counts the layer delay down once more. */
  lemma {:induction false} DelayAfterStep(d: int, k: nat)
    ensures DelayAfter(d, k + 1) == Countdown(DelayAfter(d, k))
  {
    if k > 0 {
      DelayAfterStep(Countdown(d), k - 1);
    }
  }

  /** One more V-count check shows DISPCNT's layers exactly when the delay it
      finds is 2. */
  lemma {:induction false} LayersAfterStep(l: bv16, d: int, cnt: bv16, k: nat)
    ensures LayersAfter(l, d, cnt, k + 1) == if DelayAfter(d, k) == 2 then cnt else LayersAfter(l, d, cnt, k)
    decreases k
  {
    if k > 0 {
      LayersAfterStep(if d == 2 then cnt else l, Countdown(d), cnt, k - 1);
    }
  }

  /** The display registers, the layers shown and their delay, and KEYINPUT:
      the state an LCD event changes besides the bus and the frame buffer. */
  datatype Screen = Screen(video: Video, layers: bv16, delay: int, keys: bv16)

  /** The display state after an LCD event; `joy` is the joypad state read
      if the event arrives at line 160. */
  function EventScreen(s: Screen, joy: bv16): Screen
  {
    var k := EventChecks(s.video);
    Screen(EventVideo(s.video), LayersAfter(s.layers, s.delay, s.video.dispCnt, k), DelayAfter(s.delay, k),
           if ReadsKeys(s.video) then Io.KeyInput(joy) else s.keys)
  }

  /** The LCD event ends a line's drawing period. */
  predicate Draws(v: Video)
  {
    v.dispStat & 1 == 0 && v.dispStat & 2 == 0
  }

  /** The frame buffer after an LCD event: the end of a drawing period
      copies the renderer's line `src` into row VCOUNT. */
  function PixAfter(v: Video, pix: seq<bv16>, src: seq<bv32>): seq<bv16>
    requires |pix| == Display.Width * Display.Height && |src| >= Display.Width
    requires Draws(v) ==> 0 <= v.vCount < Display.Height
  {
    if Draws(v) then Display.Copied(pix, v.vCount, src) else pix
  }

  /** The outcome of the interrupt check (the IF/IME test of CPULoop) for
      the CPU `cpu`, the interrupt delay left `delay` and the interrupt
      controller `irq`. */
  function CheckOutcome(cpu: Cpu, delay: int, irq: Irq): Sched.Latch
    requires delay >= 0
  {
    Sched.Check(Sched.Latch(cpu.latched, cpu.halted, cpu.stopped, delay, false),
                Sched.Deliverable(irq.flags, irq.enable, irq.master, cpu.armIrq, cpu.stopped))
  }

  /** The CPU after the interrupt check's outcome `l`: the latch, the halt
      and stop state it leaves, and one more interrupt taken if it hands
      one over. */
  function CpuAfter(cpu: Cpu, l: Sched.Latch): Cpu
  {
    cpu.(latched := l.pending, halted := l.halted, stopped := l.stopped,
         interrupts := if l.taken then cpu.interrupts + 1 else cpu.interrupts)
  }

  /** IF after the timers' share of a pass: the overflow bits of the timer
      bank `ts` over `c` cycles are raised unless the CPU is stopped. */
  function TimerRaise(f: bv16, ts: Timers.Bank, c: int, stopped: bool): bv16
    requires Timers.BankShape(ts) && Timers.PassFits(ts, c)
  {
    if stopped then f else f | Timers.IrqBits(ts, c)
  }

  /** Raising more bits keeps every flag kept so far. */
  /** The timers' overflows only add flags to those already raised. */
  lemma TimerRaiseKeeps(x: bv16, y: bv16, ts: Timers.Bank, c: int, stopped: bool)
    requires Timers.BankShape(ts) && Timers.PassFits(ts, c) && Dma.KeepsFlags(x, y)
    ensures Dma.KeepsFlags(x, TimerRaise(y, ts, c, stopped))
  {
    if !stopped {
      OrKeeps(x, y, Timers.IrqBits(ts, c));
    }
  }

  lemma OrKeeps(x: bv16, y: bv16, z: bv16)
    requires Dma.KeepsFlags(x, y)
    ensures Dma.KeepsFlags(x, y | z)
  {
  }

  class Machine {
    var video: Video
    // the layers the renderer shows, and the countdown before newly enabled
    // layers appear
    var layers: bv16
    var layerDelay: int
    // KEYINPUT (P1): a key reads 0 while pressed
    var keyInput: bv16
    var irq: Irq
    var channels: seq<Dma.Channel>
    var timers: Timers.Bank
    // timers with a control write not yet applied, one bit per timer
    var timerPending: bv16
    var waits: Dma.Waits
    var clock: Clock
    // the sound unit's tick period
    const soundPeriod: int
    var cpu: Cpu
    var mem: Dma.Memory
    // the register file, one halfword per register
    const io: array<bv16>
    // the frame buffer
    const pix: array<bv16>
    // the line the renderer has just composed
    const lineMix: array<bv32>
    // every DMA trigger raised so far
    ghost var triggers: seq<Trigger>

    /** Sizes of the arrays and the four channels and timers, and the ranges
        of the values kept as integers. */
    predicate Shape()
      reads this`channels, this`timers, this`waits, this`cpu
    {
      && io.Length == 0x200 && pix.Length == Display.Width * Display.Height
      && lineMix.Length == Display.Width
      && |channels| == 4 && (forall ch :: 0 <= ch < 4 ==> Dma.ChannelOk(channels[ch]))
      && Timers.BankShape(timers) && Dma.WaitsOk(waits) && Dma.IsWord(cpu.pc)
    }

    /** Every register the core keeps in a variable reads back its value from
        the register file. */
    predicate Mirrored()
      reads this`video, this`keyInput, this`irq, this`channels, this`timers, io
    {
      && io.Length == 0x200
      && RegsMirror(io[..], video, keyInput, irq)
      && DmaMirror(io[..], channels)
      && TimerMirror(io[..], timers)
    }

    /** The LCD phase DISPSTAT and VCOUNT encode. */
    function Phase(): Lcd.Phase
      reads this`video
    {
      PhaseOf(video)
    }

    /** Countdowns the scheduler relies on. The LCD countdown may reach zero
        only inside a pass, just before its event is handled. */
    predicate SchedOk()
      reads this`clock
    {
      0 <= clock.lcd <= Lcd.DrawCycles && clock.sound >= 1 && soundPeriod >= 1
      && clock.irq >= 0 && clock.dma >= 0
    }

    /** A running timer always has cycles left. */
    predicate TimersOk()
      reads this`timers
    {
      |timers| == 4 && forall i :: 0 <= i < 4 && timers[i].on ==> timers[i].ticks >= 1
    }

    /** Everything above, with the LCD in a well-formed phase. */
    predicate Core()
      reads this`video, this`keyInput, this`irq, this`channels, this`timers, this`waits
      reads this`cpu, this`clock, io
    {
      Shape() && Mirrored() && Lcd.WellFormed(Phase()) && SchedOk() && TimersOk()
    }

    /** The machine between passes: no LCD event is outstanding. */
    predicate Valid()
      reads this`video, this`keyInput, this`irq, this`channels, this`timers, this`waits
      reads this`cpu, this`clock, io
    {
      Core() && clock.lcd >= 1
    }

    /** Cycles until the next event. */
    function Horizon(): int
      requires Timers.BankShape(timers)
      reads this`timers, this`clock
    {
      Sched.Horizon(clock.lcd, clock.sound, timers, clock.irq)
    }

    /** The DMA-visible state as a value. */
    function Bus(): Dma.Bus
      reads this`mem, this`channels, this`irq, this`clock
    {
      Dma.Bus(mem, channels, irq.flags, clock.dma)
    }

    /** The display state an LCD event changes besides the bus. */
    function View(): Screen
      reads this`video, this`layers, this`layerDelay, this`keyInput
    {
      Screen(video, layers, layerDelay, keyInput)
    }

    /** The bus after the LCD event due now; `joy` is the joypad state read
        if the event arrives at line 160. */
    function AfterEvent(joy: bv16): Dma.Bus
      requires Shape() && clock.dma >= 0
      reads this`mem, this`channels, this`irq, this`clock, this`waits, this`cpu, this`timers, this`video, io
    {
      EventBus(Bus(), waits, cpu.pc, video, Io.KeyInput(joy), io[KeyControlIndex], cpu.stopped)
    }

    /** The bus after the LCD share of a pass of `c` cycles: the LCD event's
        when its countdown reaches zero, the present bus otherwise. */
    function PassBus(c: int, joy: bv16): Dma.Bus
      requires Shape() && clock.dma >= 0
      reads this`mem, this`channels, this`irq, this`clock, this`waits, this`cpu, this`timers, this`video, io
    {
      if clock.lcd == c then AfterEvent(joy) else Bus()
    }

    /** A pass only raises interrupt flags, and with no DMA channel enabled
        it stores nothing, leaves the channels as they were and adds no DMA
        debt. */
    lemma PassKeeps(c: int, joy: bv16)
      requires Valid() && 0 <= c <= Horizon()
      ensures Timers.PassFits(timers, c)
      ensures Dma.KeepsFlags(irq.flags, TimerRaise(PassBus(c, joy).flags, timers, c, cpu.stopped))
      ensures Dma.Idle(channels) ==>
        PassBus(c, joy).mem == mem && PassBus(c, joy).ch == channels && PassBus(c, joy).cost == clock.dma
    {
      assert Timers.PassFits(timers, c);
      var b := PassBus(c, joy);
      if clock.lcd == c {
        var keys, keyControl := Io.KeyInput(joy), io[KeyControlIndex];
        assert b == EventBus(Bus(), waits, cpu.pc, video, keys, keyControl, cpu.stopped);
        EventKeepsFlags(Bus(), waits, cpu.pc, video, keys, keyControl, cpu.stopped);
        if Dma.Idle(channels) {
          EventIdle(Bus(), waits, cpu.pc, video, keys, keyControl, cpu.stopped);
        }
      } else {
        assert b == Bus();
      }
      TimerRaiseKeeps(irq.flags, b.flags, timers, c, cpu.stopped);
    }

    /** The display state after the LCD share of a pass of `c` cycles. */
    function PassScreen(c: int, joy: bv16): Screen
      reads this`clock, this`video, this`layers, this`layerDelay, this`keyInput
    {
      if clock.lcd == c then EventScreen(View(), joy) else View()
    }

    /** What the LCD share of a pass of `c` cycles does to the display state,
        the recorded triggers, the frame buffer, memory and the channels: the
        LCD event when its countdown reaches zero, nothing otherwise. */
    twostate predicate LcdPassed(c: int, joy: bv16)
      requires old(Valid())
      reads this`video, this`layers, this`layerDelay, this`keyInput, this`triggers, pix, lineMix
      reads this`mem, this`channels
    {
      var e := old(clock.lcd) == c;
      var b := old(PassBus(c, joy));
      && View() == old(PassScreen(c, joy))
      && triggers == old(triggers) + (if e then EventTriggers(old(video)) else [])
      && pix[..] == (if e then PixAfter(old(video), old(pix[..]), lineMix[..]) else old(pix[..]))
      && mem == b.mem && channels == b.ch
    }

    /** What a pass of `c` cycles does besides the clock and the CPU: the LCD
        share, then the timers' share unless the CPU is stopped, their
        overflows raising flags after the LCD event's. `joy` is the joypad
        state read if V-blank starts. */
    twostate predicate Passed(c: int, joy: bv16)
      requires old(Valid()) && 0 <= c <= old(Horizon())
      reads this`video, this`layers, this`layerDelay, this`keyInput, this`triggers, pix, lineMix
      reads this`mem, this`channels, this`irq, this`timers
    {
      && LcdPassed(c, joy)
      && irq == old(irq).(flags := TimerRaise(old(PassBus(c, joy)).flags, old(timers), c, old(cpu.stopped)))
      && timers == (if old(cpu.stopped) then old(timers) else Timers.PassedUpTo(old(timers), c, 4))
    }

    /** Allocates the register file, frame buffer and line buffer, and resets
        the machine. `soundPeriod` is the sound unit's tick period; `pc` is
        where the CPU starts. */
    constructor(soundPeriod: int, pc: int)
      requires soundPeriod >= 1 && Dma.IsWord(pc)
      ensures Valid() && AtReset()
      ensures this.soundPeriod == soundPeriod && cpu.pc == pc && timerPending == 0
      ensures clock == Clock(Lcd.DrawCycles, soundPeriod, 0, 0, 0, 0)
      ensures fresh(io) && fresh(pix) && fresh(lineMix)
    {
      this.soundPeriod := soundPeriod;
      io := new bv16[0x200];
      pix := new bv16[Display.Width * Display.Height];
      lineMix := new bv32[Display.Width];
      video := Video(0, 0, 0);
      layers := 0;
      layerDelay := 0;
      keyInput := 0;
      irq := Irq(0, 0, 0);
      channels := [IdleChannel, IdleChannel, IdleChannel, IdleChannel];
      timers := [IdleTimer, IdleTimer, IdleTimer, IdleTimer];
      timerPending := 0;
      waits := Io.InitialWaits;
      clock := Clock(Lcd.DrawCycles, soundPeriod, 0, 0, 0, 0);
      cpu := Cpu(pc, false, false, false, false, 0, false);
      mem := map[];
      triggers := [];
      new;
      Io.InitialWaitsOk();
      Reset();
    }

    /** The registers at reset: forced blank, line 0 at the top of the frame,
        no key pressed, interrupts off, DMA channels idle, timers stopped. */
    predicate AtReset()
      reads this`video, this`keyInput, this`irq, this`channels, this`timers
    {
      && video.dispCnt == 0x80 && video.dispStat == 0 && video.vCount == 0
      && keyInput == 0x3FF && irq == Irq(0, 0, 0)
      && channels == [IdleChannel, IdleChannel, IdleChannel, IdleChannel]
      && |timers| == 4
      && forall i :: 0 <= i < 4 ==> !timers[i].on && timers[i].counter == 0 && timers[i].control == 0
    }

    /** Reset of the I/O state: the frame buffer and the register file are
        cleared, the register file gets its reset image, every register
        variable takes its reset value, the LCD restarts at the top of the
        frame with a full drawing period, timers stop and DMA channels go idle.
        OAM, palette RAM and VRAM are filled with zero. Wait tables, pending timer writes, the interrupt delay, the sound
        countdown and the layer delay are left as they are. */
    method Reset()
      requires Shape() && SchedOk()
      modifies this`video, this`layers, this`keyInput, this`irq, this`channels, this`timers
      modifies this`clock, this`cpu, this`mem, io, pix
      ensures Valid() && AtReset() && Phase() == Lcd.Top
      ensures forall a :: Dma.Load(mem, a) == if Dma.VideoMemory(a) then 0 else Dma.Load(old(mem), a)
      ensures forall k :: 0 <= k < 0x200 ==> io[k] == Io.ResetValue(k)
      ensures forall i :: 0 <= i < pix.Length ==> pix[i] == 0
      ensures forall i :: 0 <= i < 4 ==> timers[i] == Timers.Stopped(old(timers[i]))
      ensures clock == old(clock).(lcd := Lcd.DrawCycles)
      ensures cpu == old(cpu).(halted := false)
      ensures layers == 0x80 && layerDelay == old(layerDelay)
    {
      mem := Dma.ClearVideo(mem);
      Display.Clear(pix);
      ResetIo();
      ResetRegisters();
      ResetIsValid();
    }

    /** The register variables at reset. */
    method ResetRegisters()
      requires Shape()
      modifies this`video, this`layers, this`keyInput, this`irq, this`channels, this`timers
      modifies this`clock, this`cpu
      ensures AtReset() && Shape()
      ensures forall i :: 0 <= i < 4 ==> timers[i] == Timers.Stopped(old(timers[i]))
      ensures clock == old(clock).(lcd := Lcd.DrawCycles)
      ensures cpu == old(cpu).(halted := false)
      ensures layers == 0x80
    {
      ResetBanks();
      video := Video(0x80, 0, 0);
      layers := 0x80;
      keyInput := 0x3FF;
      irq := Irq(0, 0, 0);
      cpu := cpu.(halted := false);
      clock := clock.(lcd := Lcd.DrawCycles);
    }

    /** Timers stop and DMA channels go idle. */
    method ResetBanks()
      requires |timers| == 4
      modifies this`channels, this`timers
      ensures channels == [IdleChannel, IdleChannel, IdleChannel, IdleChannel]
      ensures forall ch :: 0 <= ch < 4 ==> Dma.ChannelOk(channels[ch])
      ensures Timers.BankShape(timers)
      ensures forall i :: 0 <= i < 4 ==> timers[i] == Timers.Stopped(old(timers[i]))
    {
      timers := [Timers.Stopped(timers[0]), Timers.Stopped(timers[1]),
                 Timers.Stopped(timers[2]), Timers.Stopped(timers[3])];
      channels := [IdleChannel, IdleChannel, IdleChannel, IdleChannel];
    }

    /** The reset values satisfy the machine invariant. */
    lemma ResetIsValid()
      requires Shape() && SchedOk() && clock.lcd == Lcd.DrawCycles && AtReset()
      requires forall k :: 0 <= k < 0x200 ==> io[k] == Io.ResetValue(k)
      ensures Valid() && Phase() == Lcd.Top
    {
      var r := io[..];
      assert RegsMirror(r, video, keyInput, irq);
      forall j | 0 <= j < 24
        ensures r[0x58..0x70][j] == DmaImage(channels)[j]
      {
        assert Io.ResetValue(0x58 + j) == 0;
      }
      assert r[0x58..0x70] == DmaImage(channels);
      forall j | 0 <= j < 8
        ensures r[0x80..0x88][j] == TimerImage(timers)[j]
      {
        assert Io.ResetValue(0x80 + j) == 0;
      }
      assert r[0x80..0x88] == TimerImage(timers);
    }

    /** The register file's reset image: cleared, then the display control,
        the affine scale factors, KEYINPUT and the sound bias written. */
    method ResetIo()
      requires io.Length == 0x200
      modifies io
      ensures forall k :: 0 <= k < 0x200 ==> io[k] == Io.ResetValue(k)
    {
      var k := 0;
      while k < 0x200
        invariant 0 <= k <= 0x200
        invariant forall j :: 0 <= j < k ==> io[j] == 0
      {
        io[k] := 0;
        k := k + 1;
      }
      io[DispCntIndex] := 0x80;
      io[VCountIndex] := 0;
      io[0x10] := 0x100;
      io[0x13] := 0x100;
      io[0x18] := 0x100;
      io[0x1B] := 0x100;
      io[KeyInputIndex] := 0x3FF;
      io[0x44] := 0x200;
    }

    /** A store to a register-file slot no variable mirrors. */
    method Store(k: int, value: bv16)
      requires Mirrored() && Plain(k)
      modifies io
      ensures io[..] == old(io[..])[k := value]
      ensures Mirrored()
    {
      ghost var r := io[..];
      io[k] := value;
      assert io[..] == r[k := value];
      BanksStore(r, channels, timers, k, value);
      assert RegsMirror(io[..], video, keyInput, irq);
    }

    /** Sets IF and mirrors it. */
    method SetFlags(flags: bv16)
      requires Mirrored()
      modifies this`irq, io
      ensures irq == old(irq).(flags := flags)
      ensures io[..] == old(io[..])[IfIndex := flags]
      ensures Mirrored() && Plains(io[..]) == Plains(old(io[..]))
    {
      ghost var r := io[..];
      irq := irq.(flags := flags);
      io[IfIndex] := flags;
      assert io[..] == r[IfIndex := flags];
      BanksStore(r, channels, timers, IfIndex, flags);
      assert RegsMirror(io[..], video, keyInput, irq);
      PlainsKept(r, IfIndex, flags);
    }

    /** Sets IE and mirrors it. */
    method SetEnable(enable: bv16)
      requires Mirrored()
      modifies this`irq, io
      ensures irq == old(irq).(enable := enable)
      ensures io[..] == old(io[..])[IeIndex := enable]
      ensures Mirrored() && Plains(io[..]) == Plains(old(io[..]))
    {
      ghost var r := io[..];
      irq := irq.(enable := enable);
      io[IeIndex] := enable;
      assert io[..] == r[IeIndex := enable];
      BanksStore(r, channels, timers, IeIndex, enable);
      assert RegsMirror(io[..], video, keyInput, irq);
      PlainsKept(r, IeIndex, enable);
    }

    /** Sets IME and mirrors it. */
    method SetMaster(master: bv16)
      requires Mirrored()
      modifies this`irq, io
      ensures irq == old(irq).(master := master)
      ensures io[..] == old(io[..])[ImeIndex := master]
      ensures Mirrored() && Plains(io[..]) == Plains(old(io[..]))
    {
      ghost var r := io[..];
      irq := irq.(master := master);
      io[ImeIndex] := master;
      assert io[..] == r[ImeIndex := master];
      BanksStore(r, channels, timers, ImeIndex, master);
      assert RegsMirror(io[..], video, keyInput, irq);
      PlainsKept(r, ImeIndex, master);
    }

    /** Raises interrupt flags. */
    method RaiseFlags(bits: bv16)
      requires Mirrored()
      modifies this`irq, io
      ensures irq == old(irq).(flags := old(irq.flags) | bits)
      ensures io[..] == old(io[..])[IfIndex := irq.flags]
      ensures Mirrored() && Plains(io[..]) == Plains(old(io[..]))
    {
      SetFlags(irq.flags | bits);
    }

    /** Raises interrupt bits when there are any; IF is written only then. */
    method RaiseBits(bits: bv16)
      requires Mirrored()
      modifies this`irq, io
      ensures irq == old(irq).(flags := old(irq.flags) | bits)
      ensures Mirrored() && Plains(io[..]) == Plains(old(io[..]))
    {
      if bits != 0 {
        RaiseFlags(bits);
      } else {
        assert irq.flags | bits == irq.flags;
      }
    }

    /** Sets DISPSTAT and mirrors it. */
    method SetStatus(stat: bv16)
      requires Mirrored()
      modifies this`video, io
      ensures video == old(video).(dispStat := stat)
      ensures io[..] == old(io[..])[DispStatIndex := stat]
      ensures Mirrored() && Plains(io[..]) == Plains(old(io[..]))
    {
      ghost var r := io[..];
      video := video.(dispStat := stat);
      io[DispStatIndex] := stat;
      assert io[..] == r[DispStatIndex := stat];
      BanksStore(r, channels, timers, DispStatIndex, stat);
      assert RegsMirror(io[..], video, keyInput, irq);
      PlainsKept(r, DispStatIndex, stat);
    }

    /** Sets VCOUNT and mirrors it. */
    method SetLine(line: int)
      requires Mirrored() && 0 <= line <= 0xFFFF
      modifies this`video, io
      ensures video == old(video).(vCount := line)
      ensures io[..] == old(io[..])[VCountIndex := line as bv16]
      ensures Mirrored() && Plains(io[..]) == Plains(old(io[..]))
    {
      ghost var r := io[..];
      video := video.(vCount := line);
      io[VCountIndex] := line as bv16;
      assert io[..] == r[VCountIndex := line as bv16];
      BanksStore(r, channels, timers, VCountIndex, line as bv16);
      assert RegsMirror(io[..], video, keyInput, irq);
      PlainsKept(r, VCountIndex, line as bv16);
    }

    /** Sets KEYINPUT and mirrors it. */
    method SetKeys(keys: bv16)
      requires Mirrored()
      modifies this`keyInput, io
      ensures keyInput == keys
      ensures io[..] == old(io[..])[KeyInputIndex := keys]
      ensures Mirrored() && Plains(io[..]) == Plains(old(io[..]))
    {
      ghost var r := io[..];
      keyInput := keys;
      io[KeyInputIndex] := keys;
      assert io[..] == r[KeyInputIndex := keys];
      BanksStore(r, channels, timers, KeyInputIndex, keys);
      assert RegsMirror(io[..], video, keyInput, irq);
      PlainsKept(r, KeyInputIndex, keys);
    }

    /** The V-count match check: DISPSTAT bit 2 is set exactly when VCOUNT
        equals the line selected in DISPSTAT's high byte, and a match raises
        the V-count interrupt when bit 5 enables it. It also counts down the
        delay before newly enabled layers appear. */
    method CompareVCount()
      requires Mirrored()
      modifies this`video, this`irq, this`layers, this`layerDelay, io
      ensures video == old(video).(dispStat := Lcd.MatchStatus(old(video.dispStat), old(video.vCount)))
      ensures irq == old(irq).(flags := Raise(old(irq.flags), 4, Lcd.MatchRaises(old(video.dispStat), old(video.vCount))))
      ensures layerDelay == Countdown(old(layerDelay))
      ensures layers == if old(layerDelay) == 2 then video.dispCnt else old(layers)
      ensures Mirrored() && Plains(io[..]) == Plains(old(io[..]))
      ensures Phase() == old(Phase())
    {
      MatchVCount();
      CountDownLayers();
    }

    /** The match half of the V-count check. */
    method MatchVCount()
      requires Mirrored()
      modifies this`video, this`irq, io
      ensures video == old(video).(dispStat := Lcd.MatchStatus(old(video.dispStat), old(video.vCount)))
      ensures irq == old(irq).(flags := Raise(old(irq.flags), 4, Lcd.MatchRaises(old(video.dispStat), old(video.vCount))))
      ensures Mirrored() && Plains(io[..]) == Plains(old(io[..]))
    {
      var raise := Lcd.MatchRaises(video.dispStat, video.vCount);
      SetStatus(Lcd.MatchStatus(video.dispStat, video.vCount));
      if raise {
        RaiseFlags(4);
      }
    }

    /** A layer enabled through DISPCNT appears when the delay, counted down by
        each V-count check, passes from 2 to 1. */
    method CountDownLayers()
      modifies this`layers, this`layerDelay
      ensures layerDelay == Countdown(old(layerDelay))
      ensures layers == if old(layerDelay) == 2 then video.dispCnt else old(layers)
    {
      if layerDelay > 0 {
        layerDelay := layerDelay - 1;
        if layerDelay == 1 {
          layers := video.dispCnt;
        }
      }
    }

    /** One transfer of `c` units from `s0` to `d0` with steps `si` and `di`
        (doDMA): the source is aligned to the unit size, the steps are halved
        for 16-bit units, and each unit is read and stored in turn, or zero is
        stored when the source lies below work RAM while the CPU runs outside
        the BIOS. Returns the cursors after the last unit and owes the
        transfer's cycles. */
    method DoDma(s0: int, d0: int, si: int, di: int, c: int, word: bool) returns (s: int, d: int)
      requires Dma.IsWord(s0) && Dma.IsWord(d0) && Dma.IsWord(si) && Dma.IsWord(di) && c >= 1
      requires Dma.WaitsOk(waits)
      modifies this`mem, this`clock
      ensures var a := Dma.Align(s0, word);
        var fill := Dma.Fill(a, cpu.pc);
        && mem == Dma.Moved(old(mem), a, d0, Dma.UnitStep(si, word), Dma.UnitStep(di, word), c, word, fill)
        && s == (if fill then a else Dma.At(a, Dma.UnitStep(si, word), c))
        && d == Dma.At(d0, Dma.UnitStep(di, word), c)
      ensures clock == old(clock).(dma := old(clock.dma) + Dma.TransferCost(waits, s0, d0, c, word))
    {
      s := Dma.Align(s0, word);
      d := d0;
      var a := s;
      var ss := Dma.UnitStep(si, word);
      var ds := Dma.UnitStep(di, word);
      if Dma.Fill(s, cpu.pc) {
        d := FillUnits(a, d0, ss, ds, c, word);
      } else {
        s, d := CopyUnits(a, d0, ss, ds, c, word);
      }
      clock := clock.(dma := clock.dma + Dma.TransferCost(waits, s0, d0, c, word));
    }

    /** The filling loop of a transfer: zero is stored at each destination
        address in turn, and the source cursor stays put. */
    method FillUnits(a: int, d0: int, ss: int, ds: int, c: int, word: bool) returns (d: int)
      requires Dma.IsWord(d0) && Dma.IsWord(ds) && c >= 0
      modifies this`mem
      ensures mem == Dma.Moved(old(mem), a, d0, ss, ds, c, word, true)
      ensures d == Dma.At(d0, ds, c)
    {
      d := d0;
      var n := 0;
      while n != c
        invariant 0 <= n <= c
        invariant mem == Dma.Moved(old(mem), a, d0, ss, ds, n, word, true)
        invariant d == Dma.At(d0, ds, n)
      {
        Dma.FillStep(old(mem), a, d0, ss, ds, n, word, mem, d);
        mem := mem[d := 0];
        d := Dma.Wrap32(d + ds);
        n := n + 1;
      }
    }

    /** The copying loop of a transfer: each unit is read at the source cursor
        and stored at the destination cursor, and both cursors step on. */
    method CopyUnits(a: int, d0: int, ss: int, ds: int, c: int, word: bool) returns (s: int, d: int)
      requires Dma.IsWord(a) && Dma.IsWord(d0) && Dma.IsWord(ss) && Dma.IsWord(ds) && c >= 0
      modifies this`mem
      ensures mem == Dma.Moved(old(mem), a, d0, ss, ds, c, word, false)
      ensures s == Dma.At(a, ss, c) && d == Dma.At(d0, ds, c)
    {
      s, d := a, d0;
      var n := 0;
      while n != c
        invariant 0 <= n <= c
        invariant mem == Dma.Moved(old(mem), a, d0, ss, ds, n, word, false)
        invariant s == Dma.At(a, ss, n) && d == Dma.At(d0, ds, n)
      {
        Dma.CopyStep(old(mem), a, d0, ss, ds, n, word, mem, s, d);
        mem := mem[d := Dma.Unit(Dma.Load(mem, s), word)];
        d := Dma.Wrap32(d + ds);
        s := Dma.Wrap32(s + ss);
        n := n + 1;
      }
    }

    /** Stores channel ch's control register and mirrors it. */
    method SetControl(ch: int, cntH: bv16)
      requires Mirrored() && |channels| == 4 && 0 <= ch < 4
      modifies this`channels, io
      ensures channels == old(channels)[ch := old(channels[ch]).(cntH := cntH)]
      ensures Mirrored() && Plains(io[..]) == Plains(old(io[..]))
    {
      ghost var r := io[..];
      var c := channels[ch].(cntH := cntH);
      channels := channels[ch := c];
      io[DmaIndex(ch, 5)] := cntH;
      assert io[..] == r[DmaIndex(ch, 5) := DmaReg(c, 5)];
      DmaWrite(r, old(channels), ch, 5, c);
      TimerStore(r, timers, DmaIndex(ch, 5), cntH);
      PlainsKept(r, DmaIndex(ch, 5), cntH);
      assert RegsMirror(io[..], video, keyInput, irq);
    }

    /** A DMA trigger (CPUCheckDMA): channels 0 to 3 take their share in
        priority order, and the trigger is recorded. The CPU stops for the
        scheduler at once when a channel that fires asks for an interrupt. */
    method CheckDma(reason: bv16, mask: bv16)
      requires Shape() && Mirrored() && clock.dma >= 0
      modifies this`mem, this`clock, this`channels, this`irq, io, this`triggers
      ensures Shape() && Mirrored() && Plains(io[..]) == Plains(old(io[..]))
      ensures irq == old(irq).(flags := irq.flags)
      ensures Bus() == Dma.RunAll(old(Bus()), waits, cpu.pc, reason, mask)
      ensures triggers == old(triggers) + [Trigger(reason, mask)]
      ensures clock == old(clock).(dma := clock.dma, next := clock.next)
      ensures clock.next == if Dma.SignalsBelow(old(channels), reason, mask, 4) then old(clock.total) else old(clock.next)
    {
      ghost var b := Bus();
      for ch := 0 to 4
        invariant Shape() && Mirrored() && Plains(io[..]) == Plains(old(io[..]))
        invariant Bus() == Dma.RunUpTo(b, waits, cpu.pc, reason, mask, ch)
        invariant triggers == old(triggers) && irq == old(irq).(flags := irq.flags)
        invariant clock == old(clock).(dma := clock.dma, next := clock.next)
        invariant clock.next == if Dma.SignalsBelow(b.ch, reason, mask, ch) then old(clock.total) else old(clock.next)
      {
        RunNext(b, ch, reason, mask, old(clock.next));
      }
      assert Dma.RunAll(b, waits, cpu.pc, reason, mask) == Bus();
      triggers := triggers + [Trigger(reason, mask)];
    }

    /** Channel ch's share of a trigger after the channels before it have
        had theirs; `b` is the bus before the trigger and `next` the CPU's
        stopping point then. */
    method RunNext(ghost b: Dma.Bus, ch: int, reason: bv16, mask: bv16, ghost next: int)
      requires Shape() && Mirrored() && 0 <= ch < 4 && Dma.BusOk(b)
      requires Bus() == Dma.RunUpTo(b, waits, cpu.pc, reason, mask, ch)
      requires clock.next == if Dma.SignalsBelow(b.ch, reason, mask, ch) then clock.total else next
      modifies this`mem, this`clock, this`channels, this`irq, io
      ensures Shape() && Mirrored() && Plains(io[..]) == Plains(old(io[..]))
      ensures irq == old(irq).(flags := irq.flags)
      ensures Bus() == Dma.RunUpTo(b, waits, cpu.pc, reason, mask, ch + 1)
      ensures clock == old(clock).(dma := clock.dma, next := clock.next)
      ensures clock.next == if Dma.SignalsBelow(b.ch, reason, mask, ch + 1) then clock.total else next
    {
      Dma.RunUpToControl(b, waits, cpu.pc, reason, mask, ch, ch);
      Dma.SignalsBelowNext(b.ch, reason, mask, ch);
      RunChannel(ch, reason, mask);
    }

    /** Channel ch's share of a DMA trigger (one block of CPUCheckDMA): the
        channel runs when it is enabled, selected by the mask and timed for
        this trigger. */
    method RunChannel(ch: int, reason: bv16, mask: bv16)
      requires Shape() && Mirrored() && 0 <= ch < 4 && clock.dma >= 0
      modifies this`mem, this`clock, this`channels, this`irq, io
      ensures Shape() && Mirrored() && Plains(io[..]) == Plains(old(io[..]))
      ensures irq == old(irq).(flags := irq.flags)
      ensures Bus() == Dma.RunChannel(old(Bus()), waits, cpu.pc, ch, reason, mask)
      ensures clock == old(clock).(dma := clock.dma, next := clock.next)
      ensures clock.next == if Dma.Signals(ch, old(channels[ch].cntH), reason, mask)
                            then old(clock.total) else old(clock.next)
    {
      var cntH := channels[ch].cntH;
      if cntH & 0x8000 != 0 && mask & Dma.ChannelBit(ch) != 0 {
        if (cntH >> 12) & 3 == reason {
          Dma.RunFired(Bus(), waits, cpu.pc, ch, reason, mask);
          Fire(ch, reason);
        }
      }
    }

    /** A channel that fires: its transfer, then its completion. */
    method Fire(ch: int, reason: bv16)
      requires Shape() && Mirrored() && 0 <= ch < 4 && clock.dma >= 0
      modifies this`mem, this`clock, this`channels, this`irq, io
      ensures Shape() && Mirrored() && Plains(io[..]) == Plains(old(io[..]))
      ensures irq.enable == old(irq.enable) && irq.master == old(irq.master)
      ensures Bus() == Dma.Complete(Dma.Transfer(old(Bus()), waits, cpu.pc, ch, reason), ch, reason)
      ensures clock == old(clock).(dma := clock.dma, next := clock.next)
      ensures clock.next == if old(channels[ch].cntH) & 0x4000 != 0 then old(clock.total) else old(clock.next)
    {
      ghost var b := Bus();
      Transfer(ch, reason);
      ghost var t := Bus();
      assert t == Dma.Transfer(b, waits, cpu.pc, ch, reason);
      Complete(ch, reason);
      assert Bus() == Dma.Complete(t, ch, reason);
    }

    /** A firing channel's transfer, run from its cursors; the cursors are
        left after the last unit. */
    method Transfer(ch: int, reason: bv16)
      requires Shape() && Mirrored() && 0 <= ch < 4 && clock.dma >= 0
      modifies this`mem, this`clock, this`channels
      ensures Shape() && Mirrored()
      ensures Bus() == Dma.Transfer(old(Bus()), waits, cpu.pc, ch, reason)
      ensures clock == old(clock).(dma := clock.dma)
      ensures channels[ch].cntH == old(channels[ch].cntH)
    {
      var s, d := Move(ch, reason);
      MoveCursors(ch, s, d);
    }

    /** The units of a firing channel's transfer; returns where its cursors
        end. */
    method Move(ch: int, reason: bv16) returns (s: int, d: int)
      requires Shape() && 0 <= ch < 4 && clock.dma >= 0
      modifies this`mem, this`clock
      ensures Dma.IsWord(s) && Dma.IsWord(d)
      ensures Dma.Transfer(old(Bus()), waits, cpu.pc, ch, reason)
              == Dma.Bus(mem, channels[ch := channels[ch].(source := s, dest := d)], irq.flags, clock.dma)
      ensures clock == old(clock).(dma := clock.dma)
    {
      var c := channels[ch];
      var p := Dma.PlanOf(ch, c.cntL, c.cntH, reason);
      ghost var b := Bus();
      s, d := DoDma(c.source, c.dest, p.srcStep, p.dstStep, p.count, p.word);
      Dma.TransferBy(b, waits, cpu.pc, ch, reason, mem, s, d);
    }

    /** A firing channel's completion (the end of its block of CPUCheckDMA). */
    method Complete(ch: int, reason: bv16)
      requires Shape() && Mirrored() && 0 <= ch < 4 && clock.dma >= 0
      modifies this`clock, this`channels, this`irq, io
      ensures Shape() && Mirrored() && Plains(io[..]) == Plains(old(io[..]))
      ensures irq == old(irq).(flags := irq.flags)
      ensures Bus() == Dma.Complete(old(Bus()), ch, reason)
      ensures clock == old(clock).(next := clock.next)
      ensures clock.next == if old(channels[ch].cntH) & 0x4000 != 0 then old(clock.total) else old(clock.next)
    {
      Signal(ch);
      Reload(ch);
      EndControl(ch, reason);
    }

    /** Raises the channel's interrupt flag when bit 14 asks for one; the CPU
        then stops for the scheduler at once. */
    method Signal(ch: int)
      requires Shape() && Mirrored() && 0 <= ch < 4 && clock.dma >= 0
      modifies this`clock, this`irq, io
      ensures Shape() && Mirrored() && Plains(io[..]) == Plains(old(io[..]))
      ensures irq == old(irq).(flags := irq.flags)
      ensures Bus() == Dma.Signal(old(Bus()), ch)
      ensures clock == old(clock).(next := clock.next)
      ensures clock.next == if channels[ch].cntH & 0x4000 != 0 then old(clock.total) else old(clock.next)
    {
      if channels[ch].cntH & 0x4000 != 0 {
        RaiseFlags(Dma.DmaFlag(ch));
        clock := clock.(next := clock.total);
      }
    }

    /** In reload mode the destination cursor is reloaded from its registers. */
    method Reload(ch: int)
      requires Shape() && Mirrored() && 0 <= ch < 4 && clock.dma >= 0
      modifies this`channels
      ensures Shape() && Mirrored()
      ensures Bus() == Dma.Reload(old(Bus()), ch)
    {
      var c := channels[ch];
      if Dma.DestMode(c.cntH) == 3 {
        MoveCursors(ch, c.source, Dma.Latch(c.dadL, c.dadH));
      }
    }

    /** The enable bit is cleared, in the register file too, unless the channel
        repeats on a non-immediate trigger. */
    method EndControl(ch: int, reason: bv16)
      requires Shape() && Mirrored() && 0 <= ch < 4 && clock.dma >= 0
      modifies this`channels, io
      ensures Shape() && Mirrored() && Plains(io[..]) == Plains(old(io[..]))
      ensures Bus() == Dma.Finish(old(Bus()), ch, reason)
    {
      var c := channels[ch];
      if c.cntH & 0x200 == 0 || reason == 0 {
        SetControl(ch, c.cntH & 0x7FFF);
      } else {
        assert channels[ch := c.(cntH := Dma.ControlAfter(c.cntH, reason))] == channels;
      }
    }

    /** Leaves channel ch's cursors at `s` and `d`; no register changes. */
    method MoveCursors(ch: int, s: int, d: int)
      requires Mirrored() && |channels| == 4 && 0 <= ch < 4
      modifies this`channels
      ensures channels == old(channels)[ch := old(channels[ch]).(source := s, dest := d)]
      ensures Mirrored()
    {
      channels := channels[ch := channels[ch].(source := s, dest := d)];
      DmaKeep(io[..], old(channels), ch, channels[ch]);
    }
  
    /** An interrupt can be requested now: IME is on, an enabled flag is
        raised and the CPU accepts IRQs. A write of IE or IME that makes this
        hold stops the CPU for the scheduler at once. */
    predicate IrqRequested()
      reads this`irq, this`cpu
    {
      irq.master & 1 != 0 && irq.flags & irq.enable != 0 && cpu.armIrq
    }

    /** Stops the CPU for the scheduler at once when an interrupt is requested. */
    method StopIfRequested()
      modifies this`clock
      ensures clock == if IrqRequested() then old(clock).(next := old(clock.total)) else old(clock)
    {
      if irq.master & 1 != 0 && irq.flags & irq.enable != 0 && cpu.armIrq {
        clock := clock.(next := clock.total);
      }
    }

    /** A write of IE: only the fourteen interrupt sources are kept. */
    method WriteEnable(value: bv16)
      requires Mirrored()
      modifies this`irq, this`clock, io
      ensures irq == old(irq).(enable := value & 0x3FFF)
      ensures io[..] == old(io[..])[IeIndex := value & 0x3FFF]
      ensures Mirrored()
      ensures clock == if IrqRequested() then old(clock).(next := old(clock.total)) else old(clock)
    {
      SetEnable(value & 0x3FFF);
      StopIfRequested();
    }

    /** A write of IME: only bit 0 is kept. */
    method WriteMaster(value: bv16)
      requires Mirrored()
      modifies this`irq, this`clock, io
      ensures irq == old(irq).(master := value & 1)
      ensures io[..] == old(io[..])[ImeIndex := value & 1]
      ensures Mirrored()
      ensures clock == if IrqRequested() then old(clock).(next := old(clock.total)) else old(clock)
    {
      SetMaster(value & 1);
      StopIfRequested();
    }

    /** A write of IF acknowledges the flags set in the value. */
    method WriteFlags(value: bv16)
      requires Mirrored()
      modifies this`irq, io
      ensures irq == old(irq).(flags := Io.ClearFlags(old(irq.flags), value))
      ensures io[..] == old(io[..])[IfIndex := irq.flags]
      ensures Mirrored()
    {
      SetFlags(Io.ClearFlags(irq.flags, value));
    }
  
    /** Sets DISPCNT and mirrors it. */
    method SetDisplay(cnt: bv16)
      requires Mirrored()
      modifies this`video, io
      ensures video == old(video).(dispCnt := cnt)
      ensures io[..] == old(io[..])[DispCntIndex := cnt]
      ensures Mirrored() && Plains(io[..]) == Plains(old(io[..]))
    {
      ghost var r := io[..];
      video := video.(dispCnt := cnt);
      io[DispCntIndex] := cnt;
      assert io[..] == r[DispCntIndex := cnt];
      BanksStore(r, channels, timers, DispCntIndex, cnt);
      assert RegsMirror(io[..], video, keyInput, irq);
      PlainsKept(r, DispCntIndex, cnt);
    }

    /** The register half of a DISPCNT write: the control value is stored
        without the CGB bit, and the layers shown are the written ones except
        backgrounds being switched on, which wait for a delay of four V-count
        checks. Returns what else the write asks for. */
    method SetDisplayControl(value: bv16) returns (w: Io.DisplayWrite)
      requires Mirrored()
      modifies this`video, this`layers, this`layerDelay, io
      ensures w == Io.DisplayEffect(old(video.dispCnt), value)
      ensures video == old(video).(dispCnt := Io.DisplayControl(value))
      ensures io[..] == old(io[..])[DispCntIndex := Io.DisplayControl(value)]
      ensures layers == w.layers
      ensures layerDelay == if w.delayed then 4 else old(layerDelay)
      ensures Mirrored() && Plains(io[..]) == Plains(old(io[..]))
    {
      w := Io.DisplayEffect(video.dispCnt, value);
      SetDisplay(Io.DisplayControl(value));
      layers := w.layers;
      if w.delayed {
        layerDelay := 4;
      }
    }

    /** Leaving forced blank outside V-blank restarts the current line: a whole
        drawing period lies ahead, both blank bits are cleared, and the
        V-count check runs. */
    method RestartLine()
      requires Mirrored()
      modifies this`video, this`irq, this`layers, this`layerDelay, this`clock, io
      ensures clock == old(clock).(lcd := Lcd.DrawCycles)
      ensures video == old(video).(dispStat := Lcd.MatchStatus(Lcd.Blanks(old(video.dispStat), false, false), old(video.vCount)))
      ensures Phase() == old(Phase()).(vblank := false, hblank := false)
      ensures irq == old(irq).(flags := Raise(old(irq.flags), 4, Lcd.MatchRaises(Lcd.Blanks(old(video.dispStat), false, false), old(video.vCount))))
      ensures layerDelay == Countdown(old(layerDelay))
      ensures layers == if old(layerDelay) == 2 then video.dispCnt else old(layers)
      ensures Mirrored() && Plains(io[..]) == Plains(old(io[..]))
    {
      clock := clock.(lcd := Lcd.DrawCycles);
      SetStatus(Lcd.Blanks(video.dispStat, false, false));
      CompareVCount();
    }

    /** A write of DISPCNT (register 0x00). */
    method WriteDisplayControl(value: bv16)
      requires Valid()
      modifies this`video, this`irq, this`layers, this`layerDelay, this`clock, io
      ensures Valid() && Plains(io[..]) == Plains(old(io[..]))
      ensures video.dispCnt == Io.DisplayControl(value)
      ensures var w := Io.DisplayEffect(old(video.dispCnt), value);
        var restart := w.restart && old(video.dispStat) & 1 == 0;
        var delay := if w.delayed then 4 else old(layerDelay);
        && (restart ==>
              && clock == old(clock).(lcd := Lcd.DrawCycles) && Phase() == old(Phase()).(hblank := false)
              && video == old(video).(dispCnt := Io.DisplayControl(value),
                                      dispStat := Lcd.MatchStatus(Lcd.Blanks(old(video.dispStat), false, false), old(video.vCount)))
              && irq == old(irq).(flags := Raise(old(irq.flags), 4,
                                                 Lcd.MatchRaises(Lcd.Blanks(old(video.dispStat), false, false), old(video.vCount))))
              && layerDelay == Countdown(delay)
              && layers == if delay == 2 then Io.DisplayControl(value) else w.layers)
        && (!restart ==> clock == old(clock) && video == old(video).(dispCnt := video.dispCnt)
                         && irq == old(irq) && layers == w.layers && layerDelay == delay)
    {
      var w := SetDisplayControl(value);
      if w.restart && video.dispStat & 1 == 0 {
        RestartLine();
      }
    }

    /** A write of DISPSTAT (register 0x04): the blank and match bits are
        read-only, so the LCD phase is kept. */
    method WriteStatus(value: bv16)
      requires Valid()
      modifies this`video, io
      ensures Valid() && Plains(io[..]) == Plains(old(io[..]))
      ensures video == old(video).(dispStat := Io.DisplayStatus(old(video.dispStat), value))
      ensures Phase() == old(Phase())
    {
      SetStatus(Io.DisplayStatus(video.dispStat, value));
    }

    /** A write of a display or sound register (addresses below 0xB0): DISPCNT
        and DISPSTAT as above, VCOUNT is read-only, sound registers go to the
        sound unit, and every other register stores the write through its
        mask. */
    method WriteVideo(a: int, value: bv16)
      requires Valid() && 0 <= a < 0xB0 && a % 2 == 0
      modifies this`video, this`irq, this`layers, this`layerDelay, this`clock, io
      ensures Valid()
      ensures a == 0 ==> video.dispCnt == Io.DisplayControl(value) && io[DispCntIndex] == Io.DisplayControl(value)
      ensures a == 4 ==> video == old(video).(dispStat := Io.DisplayStatus(old(video.dispStat), value)) && Phase() == old(Phase())
      ensures a != 0 ==> clock == old(clock) && irq == old(irq) && layers == old(layers) && layerDelay == old(layerDelay)
      ensures a == 6 || Io.IsSound(a) ==> io[..] == old(io[..]) && video == old(video)
      ensures a != 0 && a != 4 && a != 6 && !Io.IsSound(a) ==>
        io[..] == old(io[..])[a / 2 := value & Io.StoreMask(a)] && video == old(video)
    {
      if a == 0 {
        WriteDisplayControl(value);
      } else if a == 4 {
        WriteStatus(value);
      } else if a != 6 && !Io.IsSound(a) {
        Store(a / 2, value & Io.StoreMask(a));
      }
    }
  
    /** A write of one of channel ch's address or count registers (k = 0-4,
        `v` already masked): the value is kept for the next start; the count
        register reads back 0. */
    method WriteDmaRegister(ch: int, k: int, v: bv16)
      requires Shape() && Mirrored() && 0 <= ch < 4 && 0 <= k < 5
      modifies this`channels, io
      ensures channels == old(channels)[ch := WithReg(old(channels[ch]), k, v)]
      ensures io[..] == old(io[..])[DmaIndex(ch, k) := if k == 4 then 0 else v]
      ensures Shape() && Mirrored() && Plains(io[..]) == Plains(old(io[..]))
    {
      ghost var r := io[..];
      var c := WithReg(channels[ch], k, v);
      channels := channels[ch := c];
      io[DmaIndex(ch, k)] := DmaReg(c, k);
      assert io[..] == r[DmaIndex(ch, k) := DmaReg(c, k)];
      DmaWrite(r, old(channels), ch, k, c);
      TimerStore(r, timers, DmaIndex(ch, k), DmaReg(c, k));
      PlainsKept(r, DmaIndex(ch, k), DmaReg(c, k));
      assert RegsMirror(io[..], video, keyInput, irq);
    }

    /** A channel switched on: its cursors are latched from its address
        registers and an immediate trigger selecting it alone is raised. */
    method StartDma(ch: int)
      requires Shape() && Mirrored() && 0 <= ch < 4 && clock.dma >= 0
      modifies this`mem, this`clock, this`channels, this`irq, io, this`triggers
      ensures Shape() && Mirrored() && Plains(io[..]) == Plains(old(io[..]))
      ensures irq == old(irq).(flags := irq.flags)
      ensures Bus() == Dma.RunChannel(Dma.Started(old(Bus()), ch), waits, cpu.pc, ch, 0, Dma.ChannelBit(ch))
      ensures triggers == old(triggers) + [Trigger(0, Dma.ChannelBit(ch))]
      ensures clock == old(clock).(dma := clock.dma, next := clock.next)
      ensures clock.next == if Dma.Signals(ch, old(channels[ch].cntH), 0, Dma.ChannelBit(ch))
                            then old(clock.total) else old(clock.next)
    {
      var c := channels[ch];
      MoveCursors(ch, Dma.Latch(c.sadL, c.sadH), Dma.Latch(c.dadL, c.dadH));
      ghost var b := Bus();
      Dma.SingleChannel(b, waits, cpu.pc, 0, ch, 4);
      Dma.SingleSignal(channels, 0, ch);
      CheckDma(0, Dma.ChannelBit(ch));
    }

    /** What a write of `value` to channel ch's control register does: the
        value is stored through the channel's mask, and when it switches the
        enable bit on the channel starts, raising an immediate trigger for it
        alone; only interrupt flags change in the interrupt controller. */
    twostate predicate ControlWritten(ch: int, value: bv16)
      requires 0 <= ch < 4 && old(Dma.BusOk(Bus())) && Dma.WaitsOk(waits)
      reads this`mem, this`clock, this`channels, this`irq, this`triggers, this`waits, this`cpu
    {
      var v := value & Io.DmaMask(ch, 5);
      var b := old(Bus()).(ch := old(channels)[ch := old(channels[ch]).(cntH := v)]);
      && irq == old(irq).(flags := irq.flags)
      && if old(channels[ch].cntH) & 0x8000 == 0 && v & 0x8000 != 0 then
           && Bus() == Dma.RunChannel(Dma.Started(b, ch), waits, cpu.pc, ch, 0, Dma.ChannelBit(ch))
           && triggers == old(triggers) + [Trigger(0, Dma.ChannelBit(ch))]
           && clock.dma >= 0 && clock == old(clock).(dma := clock.dma, next := clock.next)
         else Bus() == b && triggers == old(triggers) && clock == old(clock)
    }

    /** A write of channel ch's control register: the value is stored through
        the channel's mask, and a write that switches the enable bit on starts
        the channel. */
    method WriteDmaControl(ch: int, value: bv16)
      requires Shape() && Mirrored() && 0 <= ch < 4 && clock.dma >= 0
      modifies this`mem, this`clock, this`channels, this`irq, io, this`triggers
      ensures Shape() && Mirrored() && Plains(io[..]) == Plains(old(io[..]))
      ensures ControlWritten(ch, value)
    {
      var start := (channels[ch].cntH ^ value) & 0x8000 != 0;
      var v := value & Io.DmaMask(ch, 5);
      SetControl(ch, v);
      if start && v & 0x8000 != 0 {
        StartDma(ch);
      }
    }
  
    /** A write of a DMA register (addresses 0xB0-0xDF, twelve bytes per
        channel): the control register as above, the others through their
        masks. */
    method WriteDma(a: int, value: bv16)
      requires Valid() && 0xB0 <= a < 0xE0 && a % 2 == 0
      modifies this`mem, this`clock, this`channels, this`irq, io, this`triggers
      ensures Valid() && Plains(io[..]) == Plains(old(io[..]))
      ensures var ch := DmaChannelOf(a);
        var k := DmaSlotOf(a);
        k < 5 ==> channels == old(channels)[ch := WithReg(old(channels[ch]), k, value & Io.DmaMask(ch, k))]
                  && clock == old(clock) && triggers == old(triggers) && mem == old(mem) && irq == old(irq)
      ensures DmaSlotOf(a) == 5 ==> ControlWritten(DmaChannelOf(a), value)
    {
      var ch := DmaChannelOf(a);
      var k := DmaSlotOf(a);
      if k < 5 {
        WriteDmaRegister(ch, k, value & Io.DmaMask(ch, k));
      } else {
        WriteDmaControl(ch, value);
      }
    }

    /** A write of timer i's reload register (TMxCNT_L): the value is taken at
        the timer's next start or overflow; the counter register keeps reading
        the running count. */
    method WriteReload(i: int, value: bv16)
      requires Mirrored() && Timers.BankShape(timers) && 0 <= i < 4
      modifies this`timers
      ensures timers == old(timers)[i := old(timers[i]).(reload := value as int)]
      ensures Mirrored() && Timers.BankShape(timers)
    {
      timers := timers[i := timers[i].(reload := value as int)];
      TimerKeep(io[..], old(timers), i, timers[i]);
    }

    /** A write of timer i's control register (TMxCNT_H): the value waits for
        the scheduler, which is asked to stop the CPU at once and then applies
        it. */
    method WriteTimerControl(i: int, value: bv16)
      requires Mirrored() && Timers.BankShape(timers) && 0 <= i < 4
      modifies this`timers, this`timerPending, this`clock
      ensures timers == old(timers)[i := old(timers[i]).(written := value)]
      ensures timerPending == old(timerPending) | Timers.WriteBit(i)
      ensures clock == old(clock).(next := old(clock.total))
      ensures Mirrored() && Timers.BankShape(timers)
    {
      timers := timers[i := timers[i].(written := value)];
      TimerKeep(io[..], old(timers), i, timers[i]);
      timerPending := timerPending | Timers.WriteBit(i);
      clock := clock.(next := clock.total);
    }

    /** A write of a timer register (addresses 0x100-0x10F, four bytes per
        timer). */
    method WriteTimer(a: int, value: bv16)
      requires Valid() && 0x100 <= a < 0x110 && a % 2 == 0
      modifies this`timers, this`timerPending, this`clock
      ensures Valid()
      ensures var i := (a - 0x100) / 4;
        if a % 4 == 0 then
          timers == old(timers)[i := old(timers[i]).(reload := value as int)]
          && timerPending == old(timerPending) && clock == old(clock)
        else
          timers == old(timers)[i := old(timers[i]).(written := value)]
          && timerPending == old(timerPending) | Timers.WriteBit(i) && clock == old(clock).(next := old(clock.total))
    {
      var i := (a - 0x100) / 4;
      if a % 4 == 0 {
        WriteReload(i, value);
      } else {
        WriteTimerControl(i, value);
      }
    }
  
    /** A serial transfer without a link completes at once: the received
        data reads 0xFF and the serial interrupt is raised. */
    method CompleteSerial()
      requires Mirrored()
      modifies this`irq, io
      ensures irq == old(irq).(flags := old(irq.flags) | 0x80)
      ensures io[..] == old(io[..])[0x95 := 0xFF][IfIndex := irq.flags]
      ensures Mirrored() && Plains(io[..]) == Plains(old(io[..])[0x95 := 0xFF])
    {
      Store(0x95, 0xFF);
      RaiseFlags(0x80);
    }

    /** A write of SIOCNT (register 0x128) with no link attached. */
    method WriteSerial(value: bv16)
      requires Mirrored()
      modifies this`irq, io
      ensures var sc := Io.SerialControl(value);
        && irq == (if sc.completes then old(irq).(flags := old(irq.flags) | 0x80) else old(irq))
        && io[..] == (if sc.completes then old(io[..])[0x95 := 0xFF][IfIndex := irq.flags] else old(io[..]))[0x94 := sc.control]
      ensures Mirrored()
    {
      var sc := Io.SerialControl(value);
      if sc.completes {
        CompleteSerial();
      }
      Store(0x94, sc.control);
    }

    /** A write of WAITCNT (register 0x204): the game-pak wait tables are
        rebuilt, bit 14 switches bus prefetch, and bit 15 is read-only. */
    method WriteWaitControl(value: bv16)
      requires Shape() && Mirrored()
      modifies this`waits, this`cpu, io
      ensures waits == Io.WaitTables(old(waits), value)
      ensures cpu == old(cpu).(prefetch := value & 0x4000 != 0)
      ensures io[..] == old(io[..])[WaitCntIndex := value & 0x7FFF]
      ensures Shape() && Mirrored()
    {
      waits := Io.WaitTables(waits, value);
      cpu := cpu.(prefetch := value & 0x4000 != 0);
      Store(WaitCntIndex, value & 0x7FFF);
    }

    /** A write of a serial, keypad or other register between 0xE0 and 0x1FF
        outside the timers. The link port is not attached: SIODATA8 lands in
        the register file at RCNT's slot (0x134). A KEYINPUT write can only
        release keys; KEYCNT keeps its defined bits. */
    method WriteLink(a: int, value: bv16)
      requires Valid() && (0xE0 <= a < 0x100 || 0x110 <= a < 0x200) && a % 2 == 0
      modifies this`keyInput, this`irq, io
      ensures Valid()
      ensures a == 0x130 ==> keyInput == old(keyInput) | (value & 0x3FF)
      ensures a != 0x130 ==> keyInput == old(keyInput)
      ensures a != 0x128 ==> irq == old(irq)
      ensures a == 0x128 ==> var sc := Io.SerialControl(value);
        && irq == (if sc.completes then old(irq).(flags := old(irq.flags) | 0x80) else old(irq))
        && io[..] == (if sc.completes then old(io[..])[0x95 := 0xFF][IfIndex := irq.flags] else old(io[..]))[0x94 := sc.control]
      ensures a == 0x12a ==> io[..] == old(io[..])[0x9A := value]
      ensures a == 0x132 ==> io[..] == old(io[..])[KeyControlIndex := value & 0xC3FF]
      ensures a != 0x128 && a != 0x12a && a != 0x130 && a != 0x132 ==> io[..] == old(io[..])[a / 2 := value]
    {
      if a == 0x128 {
        WriteSerial(value);
      } else if a == 0x12a {
        Store(0x9A, value);
      } else if a == 0x130 {
        SetKeys(keyInput | (value & 0x3FF));
      } else if a == 0x132 {
        Store(KeyControlIndex, value & 0xC3FF);
      } else {
        Store(a / 2, value);
      }
    }

    /** A write of IE, IF or IME. */
    method WriteInterrupt(a: int, value: bv16)
      requires Valid() && (a == 0x200 || a == 0x202 || a == 0x208)
      modifies this`irq, this`clock, io
      ensures Valid()
      ensures a == 0x200 ==> irq == old(irq).(enable := value & 0x3FFF)
      ensures a == 0x202 ==> irq == old(irq).(flags := Io.ClearFlags(old(irq.flags), value))
      ensures a == 0x208 ==> irq == old(irq).(master := value & 1)
      ensures a != 0x202 ==> clock == if IrqRequested() then old(clock).(next := old(clock.total)) else old(clock)
      ensures a == 0x202 ==> clock == old(clock)
    {
      if a == 0x200 {
        WriteEnable(value);
      } else if a == 0x202 {
        WriteFlags(value);
      } else {
        WriteMaster(value);
      }
    }

    /** A write of a system-control register (addresses 0x200-0x3FF). */
    method WriteControl(a: int, value: bv16)
      requires Valid() && 0x200 <= a < 0x400 && a % 2 == 0
      modifies this`irq, this`clock, this`waits, this`cpu, io
      ensures Valid()
      ensures a == 0x200 ==> irq == old(irq).(enable := value & 0x3FFF)
      ensures a == 0x202 ==> irq == old(irq).(flags := Io.ClearFlags(old(irq.flags), value))
      ensures a == 0x208 ==> irq == old(irq).(master := value & 1)
      ensures a == 0x200 || a == 0x208 ==> clock == if IrqRequested() then old(clock).(next := old(clock.total)) else old(clock)
      ensures a != 0x200 && a != 0x208 ==> clock == old(clock)
      ensures a == 0x204 ==> waits == Io.WaitTables(old(waits), value) && cpu == old(cpu).(prefetch := value & 0x4000 != 0)
                             && io[..] == old(io[..])[WaitCntIndex := value & 0x7FFF]
      ensures a != 0x204 ==> waits == old(waits) && cpu == old(cpu)
      ensures a != 0x200 && a != 0x202 && a != 0x208 ==> irq == old(irq)
      ensures a == 0x300 ==> io[..] == old(io[..])[0x180 := Io.PostFlag(value)]
      ensures a != 0x200 && a != 0x202 && a != 0x204 && a != 0x208 && a != 0x300 ==>
        io[..] == old(io[..])[a / 2 := value]
    {
      if a == 0x200 || a == 0x202 || a == 0x208 {
        WriteInterrupt(a, value);
      } else if a == 0x204 {
        WriteWaitControl(value);
      } else if a == 0x300 {
        Store(0x180, Io.PostFlag(value));
      } else {
        Store(a / 2, value);
      }
    }

    /** A CPU write of an I/O register (CPUUpdateRegister) at the even byte
        address `a` below 0x400. */
    method UpdateRegister(a: int, value: bv16)
      requires Valid() && 0 <= a < 0x400 && a % 2 == 0
      modifies this`video, this`layers, this`layerDelay, this`keyInput, this`irq, this`channels
      modifies this`timers, this`timerPending, this`waits, this`clock, this`cpu, this`mem
      modifies io, this`triggers
      ensures Valid()
    {
      if a < 0xB0 {
        WriteVideo(a, value);
      } else if a < 0xE0 {
        WriteDma(a, value);
      } else if 0x100 <= a < 0x110 {
        WriteTimer(a, value);
      } else if a < 0x200 {
        WriteLink(a, value);
      } else {
        WriteControl(a, value);
      }
    }
  
    /** Replaces timer i by `t`, which keeps the control register, and mirrors
        its counter. */
    method SetCounter(i: int, t: Timers.Timer)
      requires Mirrored() && Timers.BankShape(timers) && 0 <= i < 4 && Timers.TimerOk(t)
      requires t.control == timers[i].control
      modifies this`timers, io
      ensures timers == old(timers)[i := t]
      ensures io[..] == old(io[..])[TimerIndex(i, 0) := TimerReg(t, 0)]
      ensures Mirrored() && Timers.BankShape(timers) && Plains(io[..]) == Plains(old(io[..]))
    {
      ghost var r := io[..];
      timers := timers[i := t];
      io[TimerIndex(i, 0)] := TimerReg(t, 0);
      assert io[..] == r[TimerIndex(i, 0) := TimerReg(t, 0)];
      TimerWrite(r, old(timers), i, 0, t);
      DmaStore(r, channels, TimerIndex(i, 0), TimerReg(t, 0));
      PlainsKept(r, TimerIndex(i, 0), TimerReg(t, 0));
      assert RegsMirror(io[..], video, keyInput, irq);
    }

    /** A timer counting cycles: the pass's cycles are taken from those left,
        a period is added back on overflow, and the counter register shows the
        count. `b` is the bank before the pass. */
    method ClockTick(ghost b: Timers.Bank, i: int, c: int) returns (overflow: bool)
      requires Mirrored() && Timers.BankShape(timers) && Timers.BankShape(b) && Timers.PassFits(b, c)
      requires 0 <= i < 4 && timers[i] == b[i] && Timers.Clocked(b, i)
      modifies this`timers, io
      ensures timers == old(timers)[i := Timers.After(b, c, i)]
      ensures overflow == Timers.Overflowed(b, c, i)
      ensures Mirrored() && Plains(io[..]) == Plains(old(io[..]))
    {
      var t := timers[i];
      var e := Timers.Elapse(t.ticks, Timers.Period(t.reload, t.shift), c);
      Timers.ClockedStep(b, c, i);
      SetCounter(i, t.(ticks := e.ticks, counter := Timers.Counter(e.ticks, t.shift)));
      overflow := e.overflow;
    }

    /** A cascaded timer: it counts one when the timer below it overflowed in
        this pass, and overflows from 0xFFFF to its reload value. */
    method CascadeTick(ghost b: Timers.Bank, i: int, c: int, below: bool) returns (overflow: bool)
      requires Mirrored() && Timers.BankShape(timers) && Timers.BankShape(b) && Timers.PassFits(b, c)
      requires 0 < i < 4 && timers[i] == b[i] && Timers.Cascaded(b, i)
      requires below == Timers.Overflowed(b, c, i - 1)
      modifies this`timers, io
      ensures timers == old(timers)[i := Timers.After(b, c, i)]
      ensures overflow == Timers.Overflowed(b, c, i)
      ensures Mirrored() && Plains(io[..]) == Plains(old(io[..]))
    {
      if below {
        var t := timers[i];
        var r := Timers.CascadeStep(t.counter, t.reload);
        Timers.CascadedStep(b, c, i);
        SetCounter(i, t.(counter := r.value));
        overflow := r.overflow;
      } else {
        overflow := false;
        Timers.IdleStep(b, c, i);
        assert timers[i := Timers.After(b, c, i)] == timers;
      }
    }

    /** The counting half of timer i's share of a pass. */
    method CountTimer(ghost b: Timers.Bank, i: int, c: int, below: bool) returns (overflow: bool)
      requires Mirrored() && Timers.BankShape(timers) && Timers.BankShape(b) && Timers.PassFits(b, c)
      requires 0 <= i < 4 && timers[i] == b[i]
      requires below == (i > 0 && Timers.Overflowed(b, c, i - 1))
      modifies this`timers, io
      ensures timers == old(timers)[i := Timers.After(b, c, i)]
      ensures overflow == Timers.Overflowed(b, c, i)
      ensures Mirrored() && Plains(io[..]) == Plains(old(io[..]))
    {
      if !timers[i].on {
        overflow := false;
        Timers.IdleStep(b, c, i);
        assert timers[i := Timers.After(b, c, i)] == timers;
      } else if i > 0 && timers[i].control & 4 != 0 {
        overflow := CascadeTick(b, i, c, below);
      } else {
        overflow := ClockTick(b, i, c);
      }
    }

    /** Timer i's share of a pass, after timers 0 to i - 1 have had theirs;
        `below` tells whether timer i - 1 overflowed in this pass. The
        overflow raises the timer's interrupt flag when control bit 6 enables
        it. */
    method TickTimer(ghost b: Timers.Bank, ghost xs: seq<bv16>, ghost f: bv16, i: int, c: int, below: bool)
      returns (overflow: bool)
      requires Mirrored() && Timers.BankShape(b) && Timers.PassFits(b, c) && 0 <= i < 4
      requires xs == Timers.Raised(b, c)
      requires timers == Timers.PassedUpTo(b, c, i)
      requires irq.flags == Timers.RaisedInto(f, xs, i)
      requires below == (i > 0 && Timers.Overflowed(b, c, i - 1))
      modifies this`timers, this`irq, io
      ensures timers == Timers.PassedUpTo(b, c, i + 1)
      ensures irq == old(irq).(flags := Timers.RaisedInto(f, xs, i + 1))
      ensures overflow == Timers.Overflowed(b, c, i)
      ensures Mirrored() && Plains(io[..]) == Plains(old(io[..]))
    {
      Timers.PassedNext(b, c, i);
      var control := timers[i].control;
      overflow := CountTimer(b, i, c, below);
      PassIrq(xs, f, i, Timers.OverflowBit(control, i, overflow));
    }

    /** Raises bit i of `xs` in the flags that already hold the bits below
        it. */
    method PassIrq(ghost xs: seq<bv16>, ghost f: bv16, i: int, bit: bv16)
      requires Mirrored() && 0 <= i < |xs| && bit == xs[i]
      requires irq.flags == Timers.RaisedInto(f, xs, i)
      modifies this`irq, io
      ensures irq == old(irq).(flags := Timers.RaisedInto(f, xs, i + 1))
      ensures Mirrored() && Plains(io[..]) == Plains(old(io[..]))
    {
      RaiseBits(bit);
    }

    /** The timers' share of a pass of `c` cycles (the timer blocks of
        CPULoop): timers 0 to 3 in turn, each cascaded timer seeing whether
        the one below it overflowed in this pass. */
    method TimerPass(c: int)
      requires Mirrored() && Timers.BankShape(timers) && Timers.PassFits(timers, c)
      modifies this`timers, this`irq, io
      ensures timers == Timers.PassedUpTo(old(timers), c, 4)
      ensures irq == old(irq).(flags := old(irq.flags) | Timers.IrqBits(old(timers), c))
      ensures Mirrored() && Plains(io[..]) == Plains(old(io[..]))
    {
      Timers.PassStart(timers, c);
      Timers.RaisedIntoIs(irq.flags, Timers.Raised(timers, c), 4);
      TickAll(timers, Timers.Raised(timers, c), irq.flags, c);
    }

    /** The loop of the timers' share of a pass over the bank `b` it started
        from, adding the bits `xs` to the flags `f`. */
    method TickAll(ghost b: Timers.Bank, ghost xs: seq<bv16>, ghost f: bv16, c: int)
      requires Mirrored() && Timers.BankShape(b) && Timers.PassFits(b, c)
      requires xs == Timers.Raised(b, c)
      requires timers == Timers.PassedUpTo(b, c, 0) && irq.flags == Timers.RaisedInto(f, xs, 0)
      modifies this`timers, this`irq, io
      ensures timers == Timers.PassedUpTo(b, c, 4)
      ensures irq == old(irq).(flags := Timers.RaisedInto(f, xs, 4))
      ensures Mirrored() && Plains(io[..]) == Plains(old(io[..]))
    {
      var below := false;
      for i := 0 to 4
        invariant Mirrored() && Plains(io[..]) == Plains(old(io[..]))
        invariant timers == Timers.PassedUpTo(b, c, i)
        invariant irq == old(irq).(flags := Timers.RaisedInto(f, xs, i))
        invariant below == (i > 0 && Timers.Overflowed(b, c, i - 1))
      {
        below := TickTimer(b, xs, f, i, c, below);
      }
    }

    /** Stores timer i with both its registers; a counter that does not
        change stores the value the register already holds. */
    method SetTimer(i: int, t: Timers.Timer)
      requires Mirrored() && Timers.BankShape(timers) && 0 <= i < 4 && Timers.TimerOk(t)
      modifies this`timers, io
      ensures timers == old(timers)[i := t]
      ensures io[..] == old(io[..])[TimerIndex(i, 0) := TimerReg(t, 0)][TimerIndex(i, 1) := t.control]
      ensures Mirrored() && Timers.BankShape(timers) && Plains(io[..]) == Plains(old(io[..]))
    {
      ghost var r := io[..];
      ghost var mid := timers[i].(control := t.control);
      timers := timers[i := t];
      io[TimerIndex(i, 1)] := t.control;
      ghost var r1 := io[..];
      assert r1 == r[TimerIndex(i, 1) := TimerReg(mid, 1)];
      TimerWrite(r, old(timers), i, 1, mid);
      io[TimerIndex(i, 0)] := TimerReg(t, 0);
      assert io[..] == r1[TimerIndex(i, 0) := TimerReg(t, 0)];
      TimerWrite(r1, old(timers)[i := mid], i, 0, t);
      assert old(timers)[i := mid][i := t] == timers;
      assert io[..] == r[TimerIndex(i, 0) := TimerReg(t, 0)][TimerIndex(i, 1) := t.control];
      DmaStore(r, channels, TimerIndex(i, 1), t.control);
      DmaStore(r1, channels, TimerIndex(i, 0), TimerReg(t, 0));
      PlainsKept(r, TimerIndex(i, 1), t.control);
      PlainsKept(r1, TimerIndex(i, 0), TimerReg(t, 0));
      assert RegsMirror(io[..], video, keyInput, irq);
    }

    /** Timer i's pending control write, if it has one, takes effect. */
    method ApplyOne(ghost b: Timers.Bank, p: bv16, i: int)
      requires Mirrored() && Timers.BankShape(b) && 0 <= i < 4
      requires timers == Timers.Applied(b, p, i)
      modifies this`timers, io
      ensures timers == Timers.Applied(b, p, i + 1)
      ensures Mirrored() && Plains(io[..]) == Plains(old(io[..]))
    {
      if Timers.IsPending(p, i) {
        Timers.AppliedAt(b, p, i, i);
        SetTimer(i, Timers.Apply(timers[i]));
      }
    }

    /** The scheduler's application of the pending timer control writes
        (applyTimer): each timer with a write pending takes it, in index
        order; the next stop is recomputed and nothing stays pending. */
    method ApplyTimer()
      requires Valid()
      modifies this`timers, this`timerPending, this`clock, io
      ensures timers == Timers.Applied(old(timers), old(timerPending), 4)
      ensures timerPending == 0 && clock == old(clock).(next := Horizon())
      ensures Valid() && Plains(io[..]) == Plains(old(io[..]))
    {
      ghost var b := timers;
      ApplyAll(b, timerPending);
      Timers.AppliedKeeps(b, old(timerPending));
      timerPending := 0;
      var h := Horizon();
      clock := clock.(next := h);
      assert h == Horizon();
    }

    /** The loop of applyTimer over the bank `b` it started from. */
    method ApplyAll(ghost b: Timers.Bank, p: bv16)
      requires Mirrored() && Timers.BankShape(b) && timers == b
      modifies this`timers, io
      ensures timers == Timers.Applied(b, p, 4)
      ensures Mirrored() && Plains(io[..]) == Plains(old(io[..]))
    {
      for i := 0 to 4
        invariant Mirrored() && Plains(io[..]) == Plains(old(io[..]))
        invariant timers == Timers.Applied(b, p, i)
      {
        ApplyOne(b, p, i);
      }
    }

    /** Sets VCOUNT and DISPSTAT and mirrors them. */
    method SetPhase(line: int, stat: bv16)
      requires Mirrored() && 0 <= line <= 0xFFFF
      modifies this`video, io
      ensures video == old(video).(vCount := line, dispStat := stat)
      ensures Mirrored() && Plains(io[..]) == Plains(old(io[..]))
    {
      SetLine(line);
      SetStatus(stat);
    }

    /** The end of a line's H-blank during V-blank: the next line starts its
        drawing period with H-blank cleared, and VCOUNT is compared. */
    method LeaveVblankLine()
      requires Mirrored() && 0 <= video.vCount < Lcd.Lines
      modifies this`video, this`irq, this`layers, this`layerDelay, io
      ensures video == old(video).(vCount := old(video.vCount) + 1,
        dispStat := Lcd.MatchStatus(Lcd.Blanks(old(video.dispStat), true, false), old(video.vCount) + 1))
      ensures irq == old(irq).(flags := Raise(old(irq.flags), 4, Lcd.MatchRaises(Lcd.Blanks(old(video.dispStat), true, false), old(video.vCount) + 1)))
      ensures layerDelay == Countdown(old(layerDelay))
      ensures layers == if old(layerDelay) == 2 then video.dispCnt else old(layers)
      ensures Mirrored() && Plains(io[..]) == Plains(old(io[..]))
    {
      SetPhase(video.vCount + 1, Lcd.Blanks(video.dispStat, true, false));
      CompareVCount();
    }

    /** The start of H-blank during V-blank: the H-blank bit is set for the
        shorter period, raising the H-blank interrupt when enabled. */
    method VblankHblankStart()
      requires Mirrored()
      modifies this`video, this`irq, io
      ensures video == old(video).(dispStat := Lcd.Blanks(old(video.dispStat), true, true))
      ensures irq == old(irq).(flags := Raise(old(irq.flags), 2, old(video.dispStat) & 16 != 0))
      ensures Mirrored() && Plains(io[..]) == Plains(old(io[..]))
    {
      var raise := video.dispStat & 16 != 0;
      SetStatus(Lcd.Blanks(video.dispStat, true, true));
      if raise {
        RaiseFlags(2);
      }
    }

    /** Past the last line: both blank bits are cleared, VCOUNT returns to 0
        and is compared. */
    method WrapFrame()
      requires Mirrored()
      modifies this`video, this`irq, this`layers, this`layerDelay, io
      ensures video == old(video).(vCount := 0,
        dispStat := Lcd.MatchStatus(Lcd.Blanks(old(video.dispStat), false, false), 0))
      ensures irq == old(irq).(flags := Raise(old(irq.flags), 4, Lcd.MatchRaises(Lcd.Blanks(old(video.dispStat), false, false), 0)))
      ensures layerDelay == Countdown(old(layerDelay))
      ensures layers == if old(layerDelay) == 2 then video.dispCnt else old(layers)
      ensures Mirrored() && Plains(io[..]) == Plains(old(io[..]))
    {
      SetPhase(0, Lcd.Blanks(video.dispStat, false, false));
      CompareVCount();
    }

    /** The first half of an LCD event during V-blank: the end of H-blank
        (the next line and its V-count check) or the start of H-blank. */
    method VblankLineStep()
      requires Mirrored() && Lcd.WellFormed(Phase()) && Phase().vblank
      modifies this`video, this`irq, this`layers, this`layerDelay, io
      ensures video == VblankStep(old(video))
      ensures irq == old(irq).(flags := if old(video.dispStat) & 2 != 0
        then Raise(old(irq.flags), 4, Lcd.MatchRaises(Lcd.Blanks(old(video.dispStat), true, false), video.vCount))
        else Raise(old(irq.flags), 2, old(video.dispStat) & 16 != 0))
      ensures var k := if old(video.dispStat) & 2 != 0 then 1 else 0;
        layerDelay == DelayAfter(old(layerDelay), k) && layers == LayersAfter(old(layers), old(layerDelay), old(video.dispCnt), k)
      ensures Mirrored() && Plains(io[..]) == Plains(old(io[..]))
    {
      if video.dispStat & 2 != 0 {
        DelayAfterStep(layerDelay, 0);
        LayersAfterStep(layers, layerDelay, video.dispCnt, 0);
        LeaveVblankLine();
      } else {
        VblankHblankStart();
      }
    }

    /** An LCD event during V-blank: the H-blank end or start, then the wrap
        to line 0 once the last line is passed. */
    method VblankEvent()
      requires Mirrored() && Lcd.WellFormed(Phase()) && Phase().vblank
      modifies this`video, this`irq, this`layers, this`layerDelay, io
      ensures video == VblankVideo(old(video))
      ensures irq == old(irq).(flags := VblankFlags(old(video), old(irq.flags)))
      ensures layerDelay == DelayAfter(old(layerDelay), VblankChecks(old(video)))
      ensures layers == LayersAfter(old(layers), old(layerDelay), old(video.dispCnt), VblankChecks(old(video)))
      ensures Mirrored() && Plains(io[..]) == Plains(old(io[..]))
    {
      ghost var v, l0, d0 := video, layers, layerDelay;
      ghost var k: nat := if video.dispStat & 2 != 0 then 1 else 0;
      VblankLineStep();
      if video.vCount >= Lcd.Lines {
        DelayAfterStep(d0, k);
        LayersAfterStep(l0, d0, v.dispCnt, k);
        WrapFrame();
        k := k + 1;
      }
      assert k == VblankChecks(v);
    }

    /** The keypad read at the start of V-blank: KEYINPUT takes the joypad
        state `joy`, and the keypad interrupt is raised when its condition
        holds for KEYCNT. */
    method ReadKeypad(joy: bv16)
      requires Mirrored()
      modifies this`keyInput, this`irq, io
      ensures keyInput == Io.KeyInput(joy)
      ensures irq == old(irq).(flags := Raise(old(irq.flags), 0x1000, Io.KeypadIrq(keyInput, old(io[KeyControlIndex]), cpu.stopped)))
      ensures io[KeyControlIndex] == old(io[KeyControlIndex])
      ensures Mirrored() && Plains(io[..]) == Plains(old(io[..]))
    {
      var keys := Io.KeyInput(joy);
      var raise := Io.KeypadIrq(keys, io[KeyControlIndex], cpu.stopped);
      SetKeys(keys);
      if raise {
        RaiseFlags(0x1000);
      }
    }

    /** The start of V-blank on arriving at line 160: the keypad is read,
        the V-blank bit is set and H-blank cleared, with their interrupts,
        and the V-blank DMA trigger runs. */
    method StartVblank(joy: bv16)
      requires Shape() && Mirrored() && clock.dma >= 0
      modifies this`keyInput, this`video, this`irq, this`mem, this`clock, this`channels, this`triggers, io
      ensures keyInput == Io.KeyInput(joy)
      ensures video == old(video).(vCount := Lcd.VisibleLines,
                                   dispStat := Lcd.Blanks(old(video.dispStat), true, false))
      ensures Bus() == VblankBus(old(Bus()), waits, cpu.pc, old(video.dispStat), Io.KeyInput(joy),
                                 old(io[KeyControlIndex]), cpu.stopped)
      ensures irq == old(irq).(flags := irq.flags)
      ensures old(video.dispStat) & 8 != 0 ==> irq.flags & 1 != 0
      ensures Io.KeypadIrq(Io.KeyInput(joy), old(io[KeyControlIndex]), cpu.stopped) ==> irq.flags & 0x1000 != 0
      ensures triggers == old(triggers) + [Trigger(1, 0xF)]
      ensures clock == old(clock).(dma := clock.dma, next := clock.next) && clock.dma >= 0
      ensures Shape() && Mirrored() && Plains(io[..]) == Plains(old(io[..]))
    {
      ghost var b, stat, keyControl := Bus(), video.dispStat, io[KeyControlIndex];
      EnterVblank(joy);
      CheckDma(1, 0xF);
      VblankBusRaises(b, waits, cpu.pc, stat, Io.KeyInput(joy), keyControl, cpu.stopped);
    }

    /** Line 160 before its DMA trigger: VCOUNT is set, the keypad is read
        and the V-blank bit is set, with their interrupts. */
    method EnterVblank(joy: bv16)
      requires Shape() && Mirrored()
      modifies this`keyInput, this`video, this`irq, io
      ensures keyInput == Io.KeyInput(joy)
      ensures video == old(video).(vCount := Lcd.VisibleLines,
                                   dispStat := Lcd.Blanks(old(video.dispStat), true, false))
      ensures irq == old(irq).(flags := Raise(Raise(old(irq.flags), 0x1000,
                                 Io.KeypadIrq(Io.KeyInput(joy), old(io[KeyControlIndex]), cpu.stopped)),
                               1, old(video.dispStat) & 8 != 0))
      ensures Shape() && Mirrored() && Plains(io[..]) == Plains(old(io[..]))
    {
      SetLine(Lcd.VisibleLines);
      ReadKeypad(joy);
      MarkVblank();
    }

    /** The V-blank bit is set and H-blank cleared, and the V-blank interrupt
        is raised when DISPSTAT bit 3 enables it. */
    method MarkVblank()
      requires Mirrored()
      modifies this`video, this`irq, io
      ensures video == old(video).(dispStat := Lcd.Blanks(old(video.dispStat), true, false))
      ensures irq == old(irq).(flags := Raise(old(irq.flags), 1, old(video.dispStat) & 8 != 0))
      ensures Mirrored() && Plains(io[..]) == Plains(old(io[..]))
    {
      var raise := video.dispStat & 8 != 0;
      SetStatus(Lcd.Blanks(video.dispStat, true, false));
      if raise {
        RaiseFlags(1);
      }
    }

    /** The end of H-blank on a visible line, before the V-count check: the
        line advances and H-blank is cleared; arriving at line 160 starts
        V-blank and its DMA trigger. */
    method AdvanceLine(joy: bv16)
      requires Shape() && Mirrored() && clock.dma >= 0 && 0 <= video.vCount < Lcd.VisibleLines
      modifies this`keyInput, this`video, this`irq, this`mem, this`clock, this`channels, this`triggers, io
      ensures video == old(video).(vCount := old(video.vCount) + 1,
        dispStat := Lcd.Blanks(old(video.dispStat), old(video.vCount) + 1 == Lcd.VisibleLines, false))
      ensures old(video.vCount) + 1 == Lcd.VisibleLines ==>
        && Bus() == VblankBus(old(Bus()), waits, cpu.pc, old(video.dispStat), Io.KeyInput(joy),
                              old(io[KeyControlIndex]), cpu.stopped)
        && keyInput == Io.KeyInput(joy)
      ensures old(video.vCount) + 1 != Lcd.VisibleLines ==> Bus() == old(Bus()) && keyInput == old(keyInput)
      ensures irq == old(irq).(flags := irq.flags)
      ensures triggers == old(triggers) + if video.vCount == Lcd.VisibleLines then [Trigger(1, 0xF)] else []
      ensures clock == old(clock).(dma := clock.dma, next := clock.next) && clock.dma >= 0
      ensures Shape() && Mirrored() && Plains(io[..]) == Plains(old(io[..]))
    {
      var line := video.vCount + 1;
      if line == Lcd.VisibleLines {
        StartVblank(joy);
      } else {
        SetPhase(line, Lcd.Blanks(video.dispStat, false, false));
      }
    }

    /** The end of H-blank on a visible line, with the V-count check. */
    method VisibleLineEnd(joy: bv16)
      requires Shape() && Mirrored() && clock.dma >= 0 && 0 <= video.vCount < Lcd.VisibleLines
      modifies this`keyInput, this`video, this`irq, this`mem, this`clock, this`channels, this`triggers
      modifies this`layers, this`layerDelay, io
      ensures video == LineEndVideo(old(video))
      ensures Bus() == LineEndBus(old(Bus()), waits, cpu.pc, old(video), Io.KeyInput(joy),
                                  old(io[KeyControlIndex]), cpu.stopped)
      ensures irq == old(irq).(flags := irq.flags)
      ensures keyInput == if old(video.vCount) + 1 == Lcd.VisibleLines then Io.KeyInput(joy) else old(keyInput)
      ensures layerDelay == Countdown(old(layerDelay))
      ensures layers == if old(layerDelay) == 2 then old(video.dispCnt) else old(layers)
      ensures triggers == old(triggers) + if video.vCount == Lcd.VisibleLines then [Trigger(1, 0xF)] else []
      ensures clock == old(clock).(dma := clock.dma, next := clock.next) && clock.dma >= 0
      ensures Shape() && Mirrored() && Plains(io[..]) == Plains(old(io[..]))
    {
      AdvanceLine(joy);
      CompareVCount();
    }

    /** The start of H-blank on a visible line, after the line is drawn: the
        H-blank bit is set, the H-blank DMA trigger runs, and the H-blank
        interrupt is raised when enabled. */
    method EnterHblank()
      requires Shape() && Mirrored() && clock.dma >= 0
      modifies this`video, this`irq, this`mem, this`clock, this`channels, this`triggers, io
      ensures video == old(video).(dispStat := Lcd.Blanks(old(video.dispStat), false, true))
      ensures Bus() == HblankBus(old(Bus()), waits, cpu.pc, old(video.dispStat))
      ensures irq == old(irq).(flags := irq.flags)
      ensures triggers == old(triggers) + [Trigger(2, 0xF)]
      ensures clock == old(clock).(dma := clock.dma, next := clock.next) && clock.dma >= 0
      ensures Shape() && Mirrored() && Plains(io[..]) == Plains(old(io[..]))
    {
      var raise := video.dispStat & 16 != 0;
      SetStatus(Lcd.Blanks(video.dispStat, false, true));
      CheckDma(2, 0xF);
      if raise {
        RaiseFlags(2);
      }
    }

    /** The start of H-blank on a visible line: the renderer's line is
        copied into the frame buffer row VCOUNT, then H-blank is entered. */
    method HblankStart()
      requires Shape() && Mirrored() && clock.dma >= 0 && 0 <= video.vCount < Lcd.VisibleLines
      modifies pix, this`video, this`irq, this`mem, this`clock, this`channels, this`triggers, io
      ensures video == old(video).(dispStat := Lcd.Blanks(old(video.dispStat), false, true))
      ensures Bus() == HblankBus(old(Bus()), waits, cpu.pc, old(video.dispStat))
      ensures irq == old(irq).(flags := irq.flags)
      ensures pix[..] == Display.Copied(old(pix[..]), old(video.vCount), lineMix[..])
      ensures triggers == old(triggers) + [Trigger(2, 0xF)]
      ensures clock == old(clock).(dma := clock.dma, next := clock.next) && clock.dma >= 0
      ensures Shape() && Mirrored() && Plains(io[..]) == Plains(old(io[..]))
    {
      Display.DrawLine(pix, video.vCount, lineMix);
      EnterHblank();
    }

    /** What an LCD event does besides the clock: the display state moves on
        as `EventScreen` says and the bus as `EventBus` says, the DMA triggers
        it raises are recorded, and the end of a drawing period leaves the
        renderer's line in the frame buffer. `joy` is the joypad state read
        if the event arrives at line 160. */
    twostate predicate EventDone(joy: bv16)
      requires old(Core())
      reads this`video, this`layers, this`layerDelay, this`keyInput, this`triggers, pix, lineMix
      reads this`mem, this`channels, this`irq
    {
      var b := old(AfterEvent(joy));
      && View() == EventScreen(old(View()), joy)
      && mem == b.mem && channels == b.ch && irq == old(irq).(flags := b.flags)
      && triggers == old(triggers) + EventTriggers(old(video))
      && pix[..] == PixAfter(old(video), old(pix[..]), lineMix[..])
    }

    /** The LCD event during V-blank. */
    method VblankLcd(joy: bv16)
      requires Core() && video.dispStat & 1 != 0
      modifies this`video, this`irq, this`layers, this`layerDelay, io
      ensures EventDone(joy) && Phase() == Lcd.Next(old(Phase())).next
      ensures Shape() && Mirrored() && Plains(io[..]) == Plains(old(io[..]))
    {
      EventPhase(video);
      VblankEvent();
    }

    /** The LCD event that ends H-blank on a visible line. */
    method LineEndLcd(joy: bv16)
      requires Core() && video.dispStat & 1 == 0 && video.dispStat & 2 != 0
      modifies this`keyInput, this`video, this`irq, this`mem, this`clock, this`channels, this`triggers
      modifies this`layers, this`layerDelay, io
      ensures EventDone(joy) && Phase() == Lcd.Next(old(Phase())).next
      ensures clock == old(clock).(dma := old(AfterEvent(joy)).cost, next := clock.next)
      ensures Shape() && Mirrored() && Plains(io[..]) == Plains(old(io[..]))
    {
      EventPhase(video);
      ghost var v, l0, d0 := video, layers, layerDelay;
      DelayAfterStep(d0, 0);
      LayersAfterStep(l0, d0, v.dispCnt, 0);
      VisibleLineEnd(joy);
      assert EventChecks(v) == 1 && video == EventVideo(v);
      assert layerDelay == DelayAfter(d0, 1) && layers == LayersAfter(l0, d0, v.dispCnt, 1);
      assert keyInput == if ReadsKeys(v) then Io.KeyInput(joy) else old(keyInput);
    }

    /** The LCD event that ends a visible line's drawing period. */
    method DrawLcd(joy: bv16)
      requires Core() && video.dispStat & 1 == 0 && video.dispStat & 2 == 0
      modifies pix, this`video, this`irq, this`mem, this`clock, this`channels, this`triggers, io
      ensures EventDone(joy) && Phase() == Lcd.Next(old(Phase())).next
      ensures clock == old(clock).(dma := old(AfterEvent(joy)).cost, next := clock.next)
      ensures Shape() && Mirrored() && Plains(io[..]) == Plains(old(io[..]))
    {
      EventPhase(video);
      HblankStart();
    }

    /** The LCD event without the countdown reload, by phase. */
    method EventBody(joy: bv16)
      requires Core()
      modifies pix, this`keyInput, this`video, this`irq, this`mem, this`clock, this`channels
      modifies this`triggers, this`layers, this`layerDelay, io
      ensures EventDone(joy) && Phase() == Lcd.Next(old(Phase())).next
      ensures clock == old(clock).(dma := old(AfterEvent(joy)).cost, next := clock.next)
      ensures Shape() && Mirrored() && Plains(io[..]) == Plains(old(io[..]))
    {
      if video.dispStat & 1 != 0 {
        VblankLcd(joy);
      } else if video.dispStat & 2 != 0 {
        LineEndLcd(joy);
      } else {
        DrawLcd(joy);
      }
    }

    /** The LCD event of a pass whose countdown reached zero: the controller
        moves to its next phase, and the countdown is reloaded with that
        phase's length. `joy` is the joypad state read if V-blank starts. */
    method LcdEvent(joy: bv16)
      requires Core() && clock.lcd == 0
      modifies pix, this`keyInput, this`video, this`irq, this`mem, this`clock, this`channels
      modifies this`triggers, this`layers, this`layerDelay, io
      ensures Valid() && Plains(io[..]) == Plains(old(io[..]))
      ensures EventDone(joy) && clock.dma == old(AfterEvent(joy)).cost
      ensures Phase() == Lcd.Next(old(Phase())).next && clock.lcd == Lcd.Next(old(Phase())).cycles
      ensures clock == old(clock).(lcd := clock.lcd, dma := clock.dma, next := clock.next)
    {
      var s := Lcd.Next(Phase());
      EventBody(joy);
      clock := clock.(lcd := s.cycles);
    }

    /** The countdowns at the head of a pass of `c` cycles: the interrupt
        delay, which stops at zero, and the LCD countdown. */
    method CountDown(c: int)
      requires Valid() && 0 <= c <= Horizon()
      modifies this`clock
      ensures clock == old(clock).(irq := Sched.Countdown(old(clock.irq), c), lcd := old(clock.lcd) - c)
      ensures Core()
    {
      clock := clock.(irq := Sched.Countdown(clock.irq, c), lcd := clock.lcd - c);
    }

    /** The interrupt delay and LCD share of a pass of `c` cycles: the LCD
        countdown runs down, and the LCD event is handled exactly when it
        reaches zero. The event only raises interrupt flags, and with no DMA
        channel enabled it leaves memory, the channels and the DMA debt as
        they were. `joy` is the joypad state read if V-blank starts. */
    method LcdPass(c: int, joy: bv16)
      requires Valid() && 0 <= c <= Horizon()
      modifies pix, this`keyInput, this`video, this`irq, this`mem, this`clock, this`channels
      modifies this`triggers, this`layers, this`layerDelay, io
      ensures Valid() && Plains(io[..]) == Plains(old(io[..]))
      ensures LcdPassed(c, joy)
      ensures irq == old(irq).(flags := old(PassBus(c, joy)).flags) && clock.dma == old(PassBus(c, joy)).cost
      ensures clock.lcd == if old(clock.lcd) == c then Lcd.Next(old(Phase())).cycles else old(clock.lcd) - c
      ensures Phase() == if old(clock.lcd) == c then Lcd.Next(old(Phase())).next else old(Phase())
      ensures clock == old(clock).(irq := Sched.Countdown(old(clock.irq), c), lcd := clock.lcd,
                                   dma := clock.dma, next := clock.next)
    {
      ghost var a := AfterEvent(joy);
      CountDown(c);
      assert AfterEvent(joy) == a;
      if clock.lcd == 0 {
        LcdEvent(joy);
      }
    }

    /** The sound countdown over a pass of `c` cycles: when it runs out the
        sound unit ticks and the countdown starts a new period. */
    method SoundTick(c: int)
      requires SchedOk() && 0 <= c <= clock.sound
      modifies this`clock
      ensures clock == old(clock).(sound := clock.sound)
      ensures clock.sound == if old(clock.sound) == c then soundPeriod else old(clock.sound) - c
      ensures SchedOk()
    {
      clock := clock.(sound := clock.sound - c);
      if clock.sound <= 0 {
        clock := clock.(sound := clock.sound + soundPeriod);
      }
    }

    /** The timers' share of a pass keeps the machine invariant. */
    method TimerShare(c: int)
      requires Valid() && Timers.PassFits(timers, c)
      modifies this`timers, this`irq, io
      ensures timers == Timers.PassedUpTo(old(timers), c, 4)
      ensures irq == old(irq).(flags := old(irq.flags) | Timers.IrqBits(old(timers), c))
      ensures Valid() && Plains(io[..]) == Plains(old(io[..]))
    {
      ghost var b := timers;
      TimerPass(c);
      forall i | 0 <= i < 4
        ensures timers[i].on ==> timers[i].ticks >= 1
      {
        Timers.PassKeeps(b, c, i);
      }
    }

    /** The next stop is the horizon (cpuNextEvent = CPUUpdateTicks()), at
        least one cycle away. */
    method SetNext()
      requires Valid()
      modifies this`clock
      ensures clock == old(clock).(next := Horizon()) && clock.next >= 1
      ensures Valid()
    {
      Sched.HorizonPositive(clock.lcd, clock.sound, timers, clock.irq);
      var h := Horizon();
      clock := clock.(next := h);
      assert h == Horizon();
    }

    /** One pass of `c` cycles (the body of updateLoop): the interrupt delay
        and the LCD countdown run down and the LCD event is handled when it
        is due, the sound countdown runs down, the timers count unless the
        CPU is stopped, and the next stop becomes the horizon. A pass never
        exceeds the horizon, so no countdown overshoots. It only raises
        interrupt flags, and with no DMA channel enabled it leaves the
        channels and the DMA debt as they were. */
    method UpdatePass(c: int, joy: bv16)
      requires Valid() && 0 <= c <= Horizon()
      modifies pix, this`keyInput, this`video, this`irq, this`mem, this`clock, this`channels
      modifies this`triggers, this`layers, this`layerDelay, this`timers, io
      ensures Valid() && Plains(io[..]) == Plains(old(io[..]))
      ensures Passed(c, joy) && clock.dma == old(PassBus(c, joy)).cost
      ensures clock.next == Horizon() && clock.next >= 1 && clock.total == old(clock.total)
      ensures clock.irq == Sched.Countdown(old(clock.irq), c)
      ensures clock.sound == if old(clock.sound) == c then soundPeriod else old(clock.sound) - c
      ensures clock.lcd == if old(clock.lcd) == c then Lcd.Next(old(Phase())).cycles else old(clock.lcd) - c
      ensures Phase() == if old(clock.lcd) == c then Lcd.Next(old(Phase())).next else old(Phase())
      ensures Dma.KeepsFlags(old(irq.flags), irq.flags)
      ensures old(clock.dma) == 0 && Dma.Idle(old(channels)) ==> channels == old(channels) && mem == old(mem) && clock.dma == 0
    {
      PassKeeps(c, joy);
      PassShares(c, joy);
      SetNext();
    }

    /** The shares of a pass of `c` cycles: the LCD, the sound countdown and
        the timers. */
    method PassShares(c: int, joy: bv16)
      requires Valid() && 0 <= c <= Horizon()
      modifies pix, this`keyInput, this`video, this`irq, this`mem, this`clock, this`channels
      modifies this`triggers, this`layers, this`layerDelay, this`timers, io
      ensures Valid() && Plains(io[..]) == Plains(old(io[..]))
      ensures Passed(c, joy) && clock.dma == old(PassBus(c, joy)).cost
      ensures clock == old(clock).(irq := Sched.Countdown(old(clock.irq), c), lcd := clock.lcd, sound := clock.sound,
                                   dma := clock.dma, next := clock.next)
      ensures clock.sound == if old(clock.sound) == c then soundPeriod else old(clock.sound) - c
      ensures clock.lcd == if old(clock.lcd) == c then Lcd.Next(old(Phase())).cycles else old(clock.lcd) - c
      ensures Phase() == if old(clock.lcd) == c then Lcd.Next(old(Phase())).next else old(Phase())
    {
      assert Timers.PassFits(timers, c);
      LcdPass(c, joy);
      CountedShares(c);
    }

    /** The sound countdown and the timers' share of a pass of `c` cycles. */
    method CountedShares(c: int)
      requires Valid() && Timers.PassFits(timers, c) && 0 <= c <= clock.sound
      modifies this`timers, this`irq, this`clock, io
      ensures timers == if cpu.stopped then old(timers) else Timers.PassedUpTo(old(timers), c, 4)
      ensures irq == old(irq).(flags := TimerRaise(old(irq.flags), old(timers), c, cpu.stopped))
      ensures clock == old(clock).(sound := if old(clock.sound) == c then soundPeriod else old(clock.sound) - c)
      ensures Valid() && Plains(io[..]) == Plains(old(io[..]))
      ensures View() == old(View()) && pix[..] == old(pix[..]) && triggers == old(triggers)
      ensures mem == old(mem) && channels == old(channels)
    {
      SoundTick(c);
      TimersUnlessStopped(c);
    }

    /** The timers' share of a pass, which a stopped CPU skips. */
    method TimersUnlessStopped(c: int)
      requires Valid() && Timers.PassFits(timers, c)
      modifies this`timers, this`irq, io
      ensures timers == if cpu.stopped then old(timers) else Timers.PassedUpTo(old(timers), c, 4)
      ensures irq == old(irq).(flags := TimerRaise(old(irq.flags), old(timers), c, cpu.stopped))
      ensures Valid() && Plains(io[..]) == Plains(old(io[..]))
    {
      if !cpu.stopped {
        TimerShare(c);
      }
    }

    /** The interrupt check after the passes (the IF/IME test of CPULoop),
        through the latch: a running CPU latches a deliverable interrupt and
        the next stop comes at most seven cycles later; a latched interrupt
        whose delay has run out, or any deliverable one while the CPU is
        halted, is handed to the CPU, which then runs again. */
    method CheckInterrupt()
      requires Valid() && 1 <= clock.next <= Horizon()
      modifies this`cpu, this`clock
      ensures var l := CheckOutcome(old(cpu), old(clock.irq), irq);
        && cpu == CpuAfter(old(cpu), l)
        && clock == old(clock).(irq := l.delay,
                                next := if l.pending && !old(cpu.latched) then Sched.Min(old(clock.next), 7) else old(clock.next))
      ensures Valid() && 1 <= clock.next <= Horizon()
    {
      var l := CheckOutcome(cpu, clock.irq, irq);
      var latching := l.pending && !cpu.latched;
      SetLatch(l);
      LatchClock(l.delay, latching);
    }

    /** The CPU side of the interrupt check's outcome `l`. */
    method SetLatch(l: Sched.Latch)
      requires Valid()
      modifies this`cpu
      ensures cpu == CpuAfter(old(cpu), l)
      ensures Valid()
    {
      cpu := CpuAfter(cpu, l);
    }

    /** The scheduler side of the interrupt check: the delay it leaves, and a
        next stop at most seven cycles away when it has just latched. */
    method LatchClock(delay: int, latching: bool)
      requires Valid() && 1 <= clock.next <= Horizon()
      requires if latching then delay == 7 else delay == clock.irq
      modifies this`clock
      ensures clock == old(clock).(irq := delay,
                                   next := if latching then Sched.Min(old(clock.next), 7) else old(clock.next))
      ensures Valid() && 1 <= clock.next <= Horizon()
    {
      Sched.HorizonLatched(clock.lcd, clock.sound, timers, clock.irq);
      var next := if latching then Sched.Min(clock.next, 7) else clock.next;
      clock := clock.(irq := delay, next := next);
    }

    /** The length of a pass paying off DMA debt: the debt, but no further
        than the next stop. */
    method PayDma() returns (c: int)
      requires Valid() && clock.dma > 0 && clock.next >= 1
      modifies this`clock
      ensures c == Sched.Min(old(clock.dma), old(clock.next)) && 1 <= c <= old(clock.dma)
      ensures clock == old(clock).(dma := old(clock.dma) - c)
      ensures Valid()
    {
      c := if clock.dma > clock.next then clock.next else clock.dma;
      clock := clock.(dma := clock.dma - c);
    }

    /** The event handling of CPULoop once the CPU has run `clock.total`
        cycles, reaching or passing the next stop: the first pass runs up to
        the stop, passes paying off DMA debt follow any pass that leaves
        debt, and after the interrupt check further passes cover the cycles
        run beyond the stop. Then pending timer writes are applied and the
        next stop is kept within the `budget` left to CPULoop. `fuel` bounds
        the number of passes, since DMA started during the passes can keep
        adding debt. Returns the budget left, the cycles the passes covered,
        the DMA debt they paid off, and whether the passes finished within
        the fuel; when they did, they covered exactly the cycles the CPU ran
        and the debt paid, and no debt and no timer write are left. */
    method RunEvents(budget: int, joy: bv16, fuel: nat) returns (left: int, elapsed: int, paid: int, finished: bool)
      requires Valid() && 0 <= clock.next <= Horizon() && clock.next <= clock.total
      modifies pix, this`keyInput, this`video, this`irq, this`mem, this`clock, this`channels
      modifies this`triggers, this`layers, this`layerDelay, this`timers, this`cpu, this`timerPending, io
      ensures Valid() && Plains(io[..]) == Plains(old(io[..]))
      ensures clock.total == 0 && left == budget - elapsed && elapsed >= 0 && paid >= 0
      ensures finished ==> elapsed == old(clock.total) + paid && clock.dma == 0 && timerPending == 0
      ensures finished ==> clock.next <= Horizon() && clock.next <= left
      ensures Dma.KeepsFlags(old(irq.flags), irq.flags)
      ensures old(clock.dma) == 0 && Dma.Idle(old(channels)) ==>
        channels == old(channels) && mem == old(mem) && paid == 0
        && (fuel > old(clock.total) - old(clock.next) ==> finished)
    {
      var remaining := clock.total - clock.next;
      var c := clock.next;
      clock := clock.(total := 0);
      left, elapsed, paid, finished := Passes(c, remaining, budget, joy, fuel);
      if finished {
        Settle(left);
      }
    }

    /** The end of the event handling: pending timer writes are applied,
        which recomputes the next stop, and the next stop is brought within
        the budget `left`. */
    method Settle(left: int)
      requires Valid() && clock.next <= Horizon()
      modifies this`timers, this`timerPending, this`clock, io
      ensures Valid() && Plains(io[..]) == Plains(old(io[..])) && timerPending == 0
      ensures timers == Timers.Applied(old(timers), old(timerPending), 4)
      ensures clock == old(clock).(next := clock.next)
      ensures clock.next == Sched.Min(if old(timerPending) != 0 then Horizon() else old(clock.next), left)
      ensures clock.next <= Horizon() && clock.next <= left
    {
      if timerPending != 0 {
        ApplyTimer();
      } else {
        Timers.AppliedNone(timers, 4);
      }
      if clock.next > left {
        clock := clock.(next := left);
      }
    }

    /** The passes of RunEvents, starting with one of `c0` cycles with
        `remaining0` cycles run beyond the stop still to cover. */
    method Passes(c0: int, remaining0: int, budget: int, joy: bv16, fuel: nat)
      returns (left: int, elapsed: int, paid: int, finished: bool)
      requires Valid() && 0 <= c0 <= Horizon() && remaining0 >= 0 && clock.total == 0
      modifies pix, this`keyInput, this`video, this`irq, this`mem, this`clock, this`channels
      modifies this`triggers, this`layers, this`layerDelay, this`timers, this`cpu, io
      ensures Valid() && Plains(io[..]) == Plains(old(io[..])) && clock.total == 0
      ensures left == budget - elapsed && elapsed >= 0 && paid >= 0
      ensures finished ==> elapsed == c0 + remaining0 + paid && clock.dma == 0 && 1 <= clock.next <= Horizon()
      ensures Dma.KeepsFlags(old(irq.flags), irq.flags)
      ensures old(clock.dma) == 0 && Dma.Idle(old(channels)) ==>
        channels == old(channels) && mem == old(mem) && paid == 0 && (fuel > remaining0 ==> finished)
    {
      var c, remaining := c0, remaining0;
      left, elapsed, paid, finished := budget, 0, 0, false;
      ghost var quiet := clock.dma == 0 && Dma.Idle(channels);
      var n := fuel;
      while n > 0 && !finished
        invariant Valid() && Plains(io[..]) == Plains(old(io[..])) && clock.total == 0
        invariant 0 <= c <= Horizon() && remaining >= 0 && elapsed >= 0 && paid >= 0 && n <= fuel
        invariant left == budget - elapsed
        invariant !finished ==> elapsed + c + remaining == c0 + remaining0 + paid
        invariant finished ==> elapsed == c0 + remaining0 + paid && clock.dma == 0 && 1 <= clock.next <= Horizon()
        invariant Dma.KeepsFlags(old(irq.flags), irq.flags)
        invariant quiet ==> clock.dma == 0 && channels == old(channels) && mem == old(mem) && paid == 0
        invariant quiet && !finished ==> remaining + (fuel - n) <= remaining0
        decreases n
      {
        ghost var f := irq.flags;
        n := n - 1;
        var debt;
        elapsed, left := elapsed + c, left - c;
        c, remaining, debt, finished := Step(c, remaining, joy);
        paid := paid + debt;
        Dma.Covers(old(irq.flags), f, irq.flags);
      }
    }

    /** One pass of `c` cycles and the choice of the next one: a pass paying
        off DMA debt if the pass left some, otherwise, after the interrupt
        check, a pass covering more of the `remaining` cycles; when neither
        is left the passes are done. */
    method Step(c: int, remaining: int, joy: bv16) returns (c': int, remaining': int, debt: int, done: bool)
      requires Valid() && 0 <= c <= Horizon() && remaining >= 0
      modifies pix, this`keyInput, this`video, this`irq, this`mem, this`clock, this`channels
      modifies this`triggers, this`layers, this`layerDelay, this`timers, this`cpu, io
      ensures Valid() && Plains(io[..]) == Plains(old(io[..])) && clock.total == old(clock.total)
      ensures Passed(c, joy) && Dma.KeepsFlags(old(irq.flags), irq.flags)
      ensures clock.sound == if old(clock.sound) == c then soundPeriod else old(clock.sound) - c
      ensures clock.lcd == if old(clock.lcd) == c then Lcd.Next(old(Phase())).cycles else old(clock.lcd) - c
      ensures Phase() == if old(clock.lcd) == c then Lcd.Next(old(Phase())).next else old(Phase())
      ensures 0 <= c' <= Horizon() && remaining' >= 0 && debt >= 0
      ensures var d := old(PassBus(c, joy)).cost;
        d > 0 ==> debt == c' == Sched.Min(d, Horizon()) && clock.dma == d - c' && remaining' == remaining
                  && !done && cpu == old(cpu) && clock.irq == Sched.Countdown(old(clock.irq), c)
      ensures var l := CheckOutcome(old(cpu), Sched.Countdown(old(clock.irq), c), irq);
        old(PassBus(c, joy)).cost == 0 ==>
          && debt == 0 && clock.dma == 0 && cpu == CpuAfter(old(cpu), l) && clock.irq == l.delay
          && (done <==> remaining == 0)
          && (!done ==> 1 <= c' == Sched.Min(remaining, clock.next) && remaining' == remaining - c')
      ensures old(clock.dma) == 0 && Dma.Idle(old(channels)) ==>
        channels == old(channels) && mem == old(mem) && clock.dma == 0 && (!done ==> remaining' < remaining)
      ensures !done ==> c' + remaining' == remaining + debt
      ensures done ==> remaining == 0 && debt == 0 && clock.dma == 0 && 1 <= clock.next <= Horizon()
    {
      UpdatePass(c, joy);
      c', remaining', debt, done := Follow(remaining);
    }

    /** What follows a pass, as in Step. */
    method Follow(remaining: int) returns (c': int, remaining': int, debt: int, done: bool)
      requires Valid() && 1 <= clock.next <= Horizon() && remaining >= 0
      modifies this`clock, this`cpu
      ensures Valid() && 0 <= c' <= Horizon() && remaining' >= 0 && debt >= 0
      ensures old(clock.dma) > 0 ==>
        && debt == c' == Sched.Min(old(clock.dma), old(clock.next)) && remaining' == remaining && !done
        && cpu == old(cpu) && clock == old(clock).(dma := old(clock.dma) - c')
      ensures old(clock.dma) == 0 ==>
        var l := CheckOutcome(old(cpu), old(clock.irq), irq);
        && debt == 0 && cpu == CpuAfter(old(cpu), l)
        && clock == old(clock).(irq := l.delay,
                                next := if l.pending && !old(cpu.latched) then Sched.Min(old(clock.next), 7) else old(clock.next))
        && (done <==> remaining == 0)
        && (!done ==> 1 <= c' == Sched.Min(remaining, clock.next) && remaining' == remaining - c')
      ensures !done ==> c' + remaining' == remaining + debt
      ensures done ==> clock.dma == 0 && 1 <= clock.next <= Horizon()
      ensures View() == old(View()) && pix[..] == old(pix[..]) && triggers == old(triggers)
      ensures mem == old(mem) && channels == old(channels) && irq == old(irq) && timers == old(timers)
    {
      if clock.dma > 0 {
        c' := PayDma();
        remaining', debt, done := remaining, c', false;
      } else {
        CheckInterrupt();
        debt := 0;
        if remaining > 0 {
          c' := Sched.Min(remaining, clock.next);
          remaining', done := remaining - c', false;
        } else {
          c', remaining', done := 0, 0, true;
        }
      }
    }
  }
}
