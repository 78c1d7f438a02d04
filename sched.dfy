/** The scheduler's arithmetic: how far the CPU may run before the next
    hardware event, and the interrupt latch that delays an interrupt by seven
    cycles unless the CPU is halted. */
module Sched {
  import Timers

  /** Cycles until the next event: the nearest of the LCD and sound
      countdowns, every timer that counts cycles, and the interrupt delay
      while one is pending. Cascaded timers wait for their neighbour and never
      bound the horizon. */
  function Horizon(lcd: int, sound: int, b: Timers.Bank, irq: int): (h: int)
    requires Timers.BankShape(b)
    ensures h <= lcd && h <= sound
    ensures forall i :: 0 <= i < 4 && Timers.Clocked(b, i) ==> h <= b[i].ticks
    ensures irq != 0 ==> h <= irq
    ensures h == lcd || h == sound || (irq != 0 && h == irq)
         || exists i :: 0 <= i < 4 && Timers.Clocked(b, i) && h == b[i].ticks
  {
    var t := Min(lcd, sound);
    var t := if Timers.Clocked(b, 0) then Min(t, b[0].ticks) else t;
    var t := if Timers.Clocked(b, 1) then Min(t, b[1].ticks) else t;
    var t := if Timers.Clocked(b, 2) then Min(t, b[2].ticks) else t;
    var t := if Timers.Clocked(b, 3) then Min(t, b[3].ticks) else t;
    if irq != 0 then Min(t, irq) else t
  }

  function Min(a: int, b: int): int
  {
    if b < a then b else a
  }

  /** The horizon is positive whenever every countdown it looks at is. */
  lemma HorizonPositive(lcd: int, sound: int, b: Timers.Bank, irq: int)
    requires Timers.BankShape(b) && lcd >= 1 && sound >= 1 && irq >= 0
    requires forall i :: 0 <= i < 4 && Timers.Clocked(b, i) ==> b[i].ticks >= 1
    ensures Horizon(lcd, sound, b, irq) >= 1
  {
  }

  /** Latching an interrupt sets its delay to seven cycles; a stop bounded by
      both the old horizon and seven cycles is within the new horizon. */
  lemma HorizonLatched(lcd: int, sound: int, b: Timers.Bank, irq: int)
    requires Timers.BankShape(b) && irq >= 0
    ensures Min(Horizon(lcd, sound, b, irq), 7) <= Horizon(lcd, sound, b, 7)
  {
  }

  /** The IRQ delay after a pass of `c` cycles: counting down, never below
      zero, and staying zero once there. */
  function Countdown(t: int, c: int): (r: int)
    requires t >= 0 && c >= 0
    ensures 0 <= r <= t
    ensures t != 0 ==> (r == 0 <==> t <= c)
    ensures t != 0 && c <= t ==> r == t - c
  {
    if t != 0 then (if t - c < 0 then 0 else t - c) else t
  }

  /** An interrupt can be taken: some flag is raised, the master enable is on,
      the CPU accepts IRQs and an enabled flag is raised; in stop mode only the
      keypad, game-pak and serial interrupts (0x3080) wake the CPU. */
  predicate Deliverable(flags: bv16, enable: bv16, master: bv16, armIrq: bool, stopped: bool)
  {
    flags != 0 && master & 1 != 0 && armIrq && flags & enable & (if stopped then 0x3080 else 0xFFFF) != 0
  }

  /** The interrupt latch: whether an interrupt is pending, the CPU halted or
      stopped, the cycles left before a pending interrupt is taken, and
      whether this check handed an interrupt to the CPU. */
  datatype Latch = Latch(pending: bool, halted: bool, stopped: bool, delay: int, taken: bool)

  /** The interrupt check at the end of a pass. A running CPU latches the
      interrupt and waits seven cycles; once the wait has run out the
      interrupt is taken. A halted CPU takes it at once. */
  function Check(l: Latch, deliverable: bool): (r: Latch)
    requires l.delay >= 0
    ensures r.taken ==> deliverable
    ensures r.taken <==> deliverable && ((l.pending && l.delay == 0) || (!l.pending && l.halted))
    ensures r.taken ==> !r.halted && !r.stopped && !r.pending
    ensures deliverable && !l.pending && !l.halted ==> r.pending && r.delay == 7 && !r.taken
    ensures !r.taken ==> r.halted == l.halted && r.stopped == l.stopped
  {
    if !deliverable then Latch(l.pending, l.halted, l.stopped, l.delay, false)
    else if l.pending then
      if l.delay == 0 then Latch(false, false, false, l.delay, true)
      else Latch(l.pending, l.halted, l.stopped, l.delay, false)
    else if !l.halted then Latch(true, l.halted, l.stopped, 7, false)
    else Latch(l.pending, false, false, l.delay, true)
  }

  /** A running CPU never takes an interrupt in the check that latches it:
      at least the seven-cycle delay separates the two. */
  lemma {:induction false} LatchDelay(l: Latch, c: int)
    requires l.delay >= 0 && c >= 0 && !l.pending && !l.halted
    ensures var r := Check(l, true);
      && !r.taken
      && (c < 7 ==> !Check(r.(delay := Countdown(r.delay, c)), true).taken)
      && (c >= 7 ==> Check(r.(delay := Countdown(r.delay, c)), true).taken)
  {
    var r := Check(l, true);
    assert r.pending && r.delay == 7;
  }
}
