/** The arithmetic of the four hardware timers: prescaled 16-bit up-counters that
    the emulator keeps as a count of CPU cycles left until the next overflow, and
    cascaded counters that advance once per overflow of the timer below them. */
module Timers {

  /** Prescaler shifts selected by bits 0-1 of a timer control register. */
  const TimerTicks: seq<int> := [0, 6, 8, 10]

  predicate IsShift(shift: int)
  {
    shift == 0 || shift == 6 || shift == 8 || shift == 10
  }

  /** CPU cycles per timer tick: `1 << shift`. */
  function Scale(shift: int): (k: int)
    requires IsShift(shift)
    ensures k >= 1
  {
    if shift == 0 then 1 else if shift == 6 then 64 else if shift == 8 then 256 else 1024
  }

  /** The shift selected by a control value. */
  function ShiftOf(control: bv16): (shift: int)
    ensures IsShift(shift)
  {
    TimerTicks[(control & 3) as int]
  }

  /** An integer reduced to the 16 bits a register store keeps. */
  function Wrap16(x: int): (r: int)
    ensures 0 <= r <= 0xFFFF
    ensures 0 <= x <= 0xFFFF ==> r == x
  {
    x % 0x10000
  }

  /** CPU cycles between two overflows of a free-running timer reloaded with `reload`:
      `(0x10000 - reload) << shift`. */
  function Period(reload: int, shift: int): (p: int)
    requires 0 <= reload <= 0xFFFF && IsShift(shift)
    ensures 1 <= p <= 0x10000 * 1024
    ensures p % Scale(shift) == 0 && p / Scale(shift) == 0x10000 - reload
  {
    (0x10000 - reload) * Scale(shift)
  }

  /** The value a register read reports for a free-running timer with `ticks`
      cycles left: `0xFFFF - (ticks >> shift)`, kept to 16 bits. */
  function Counter(ticks: int, shift: int): int
    requires ticks >= 0 && IsShift(shift)
  {
    Wrap16(0xFFFF - ticks / Scale(shift))
  }

  /** Between two overflows the reported counter stays within [reload, 0xFFFF]
      (the 16-bit store never truncates it); right after an overflow, when a whole
      period is left, it reads one less than the reload value, wrapped (0xFFFF for
      a reload of 0). */
  lemma CounterRange(ticks: int, reload: int, shift: int)
    requires 0 <= reload <= 0xFFFF && IsShift(shift)
    requires 1 <= ticks <= Period(reload, shift)
    ensures ticks < Period(reload, shift) ==> reload <= Counter(ticks, shift) == 0xFFFF - ticks / Scale(shift)
    ensures ticks == Period(reload, shift) ==> Counter(ticks, shift) == Wrap16(reload - 1)
  {
    if ticks < Period(reload, shift) {
      DivBelow(ticks, 0x10000 - reload, shift);
    }
  }

  /** A cycle count below `m` whole ticks is fewer than `m` ticks. */
  lemma DivBelow(t: int, m: int, shift: int)
    requires IsShift(shift) && 0 <= t < m * Scale(shift)
    ensures 0 <= t / Scale(shift) < m
  {
    if shift == 0 {
    } else if shift == 6 {
    } else if shift == 8 {
    } else {
    }
  }

  datatype Tick = Tick(ticks: int, overflow: bool)

  /** One scheduler pass of `c` cycles over a free-running timer with `ticks`
      cycles left: subtract, and on reaching zero add one period back. The
      scheduler never passes more cycles than the timer has left. */
  function Elapse(ticks: int, period: int, c: int): (t: Tick)
    requires period >= 1 && 0 <= c <= ticks
    ensures t.overflow <==> c == ticks
    ensures 1 <= t.ticks <= if t.overflow then period else ticks
  {
    if ticks - c <= 0 then Tick(ticks - c + period, true) else Tick(ticks - c, false)
  }

  function Sum(cs: seq<int>): int
  {
    if cs == [] then 0 else cs[0] + Sum(cs[1..])
  }

  /** Every pass of a run stays within the cycles the timer has left. */
  predicate Admissible(ticks: int, period: int, cs: seq<int>)
    requires period >= 1
    decreases |cs|
  {
    cs == [] || (0 <= cs[0] <= ticks && Admissible(Elapse(ticks, period, cs[0]).ticks, period, cs[1..]))
  }

  /** The timer state after a run of passes, and how many of them overflowed. */
  datatype RunResult = RunResult(ticks: int, overflows: int)

  function Run(ticks: int, period: int, cs: seq<int>): RunResult
    requires period >= 1 && Admissible(ticks, period, cs)
    decreases |cs|
  {
    if cs == [] then RunResult(ticks, 0)
    else
      var e := Elapse(ticks, period, cs[0]);
      var r := Run(e.ticks, period, cs[1..]);
      RunResult(r.ticks, r.overflows + if e.overflow then 1 else 0)
  }

  /** A free-running timer overflows once every period: over any admissible run
      of passes totalling S cycles, starting `period - ticks` cycles into its
      current period, the overflows times the period plus the phase it is left in
      add up to `period - ticks + S`, with the phase below one period. */
  lemma {:induction false} OverflowCount(ticks: int, period: int, cs: seq<int>)
    requires period >= 1 && 1 <= ticks <= period && Admissible(ticks, period, cs)
    ensures var r := Run(ticks, period, cs);
      && 1 <= r.ticks <= period
      && r.overflows * period + (period - r.ticks) == period - ticks + Sum(cs)
    decreases |cs|
  {
    if cs != [] {
      var c := cs[0];
      var e := Elapse(ticks, period, c);
      OverflowCount(e.ticks, period, cs[1..]);
      var r := Run(e.ticks, period, cs[1..]);
      if e.overflow {
        assert (r.overflows + 1) * period == r.overflows * period + period;
      }
    }
  }

  datatype Count = Count(value: int, overflow: bool)

  /** One overflow of the timer below reaching a cascaded timer: the 16-bit
      counter increments, and on wrapping to zero it adds the reload value and
      overflows. */
  function CascadeStep(d: int, reload: int): (r: Count)
    requires 0 <= d <= 0xFFFF && 0 <= reload <= 0xFFFF
    ensures 0 <= r.value <= 0xFFFF
    ensures r.overflow <==> d == 0xFFFF
    ensures r.value == if r.overflow then reload else d + 1
  {
    var n := Wrap16(d + 1);
    if n == 0 then Count(Wrap16(n + reload), true) else Count(n, false)
  }

  datatype CascadeResult = CascadeResult(value: int, overflows: int)

  /** `n` overflows of the timer below, fed one after another into a cascaded timer. */
  function CascadeRun(d: int, reload: int, n: nat): (r: CascadeResult)
    requires 0 <= d <= 0xFFFF && 0 <= reload <= 0xFFFF
    ensures 0 <= r.value <= 0xFFFF
  {
    if n == 0 then CascadeResult(d, 0)
    else
      var r := CascadeRun(d, reload, n - 1);
      var s := CascadeStep(r.value, reload);
      CascadeResult(s.value, r.overflows + if s.overflow then 1 else 0)
  }

  /** A cascaded timer holding `d` counts `0x10000 - d` overflows of the timer
      below before it overflows itself, exactly once, and takes its reload value. */
  lemma {:induction false} CascadeCount(d: int, reload: int, n: nat)
    requires 0 <= d <= 0xFFFF && 0 <= reload <= 0xFFFF && n <= 0x10000 - d
    ensures n < 0x10000 - d ==> CascadeRun(d, reload, n) == CascadeResult(d + n, 0)
    ensures n == 0x10000 - d ==> CascadeRun(d, reload, n) == CascadeResult(reload, 1)
  {
    if n > 0 {
      CascadeCount(d, reload, n - 1);
    }
  }

  /** One timer: whether it runs, its control register, its counter register,
      the cycles left before it next overflows, its prescaler shift, its reload
      value, and the control value last written and not yet applied. */
  datatype Timer = Timer(on: bool, control: bv16, counter: int, ticks: int, shift: int,
                         reload: int, written: bv16)

  predicate TimerOk(t: Timer)
  {
    IsShift(t.shift) && 0 <= t.reload <= 0xFFFF && 0 <= t.counter <= 0xFFFF
  }

  /** The four timers. */
  type Bank = seq<Timer>

  predicate BankShape(b: Bank)
  {
    |b| == 4 && forall i :: 0 <= i < 4 ==> TimerOk(b[i])
  }

  /** Timer i counts CPU cycles: it is running and is timer 0 (which ignores the
      cascade bit) or has the cascade bit clear. */
  predicate Clocked(b: Bank, i: int)
    requires BankShape(b) && 0 <= i < 4
  {
    b[i].on && (i == 0 || b[i].control & 4 == 0)
  }

  /** Timer i is running and counts overflows of timer i - 1. */
  predicate Cascaded(b: Bank, i: int)
    requires BankShape(b) && 0 <= i < 4
  {
    b[i].on && i > 0 && b[i].control & 4 != 0
  }

  /** A pass of `c` cycles is within what every clocked timer has left. */
  predicate PassFits(b: Bank, c: int)
    requires BankShape(b)
  {
    0 <= c && forall i :: 0 <= i < 4 && Clocked(b, i) ==> c <= b[i].ticks
  }

  /** Whether timer i overflows during a pass of `c` cycles. */
  predicate Overflowed(b: Bank, c: int, i: int)
    requires BankShape(b) && PassFits(b, c) && 0 <= i < 4
    decreases i
  {
    if Clocked(b, i) then Elapse(b[i].ticks, Period(b[i].reload, b[i].shift), c).overflow
    else if Cascaded(b, i) then Overflowed(b, c, i - 1) && CascadeStep(b[i].counter, b[i].reload).overflow
    else false
  }

  /** Cycles left on timer i after the pass. */
  function TicksAfter(b: Bank, c: int, i: int): int
    requires BankShape(b) && PassFits(b, c) && 0 <= i < 4
  {
    if Clocked(b, i) then Elapse(b[i].ticks, Period(b[i].reload, b[i].shift), c).ticks else b[i].ticks
  }

  /** Counter register of timer i after the pass. */
  function CounterAfter(b: Bank, c: int, i: int): int
    requires BankShape(b) && PassFits(b, c) && 0 <= i < 4
  {
    if Clocked(b, i) then Counter(TicksAfter(b, c, i), b[i].shift)
    else if Cascaded(b, i) && Overflowed(b, c, i - 1) then CascadeStep(b[i].counter, b[i].reload).value
    else b[i].counter
  }

  /** Interrupt flag bit of timer i (bits 3-6) when it overflows with its
      interrupt enable (control bit 6) set. */
  function IrqBit(b: Bank, c: int, i: int): bv16
    requires BankShape(b) && PassFits(b, c) && 0 <= i < 4
  {
    if Overflowed(b, c, i) && b[i].control & 0x40 != 0 then TimerFlag(i) else 0
  }

  /** Interrupt flag of timer i: 0x08 << i. */
  function TimerFlag(i: int): bv16
    requires 0 <= i < 4
  {
    if i == 0 then 0x08 else if i == 1 then 0x10 else if i == 2 then 0x20 else 0x40
  }

  /** The interrupt bits a pass raises. */
  function IrqBits(b: Bank, c: int): bv16
    requires BankShape(b) && PassFits(b, c)
  {
    IrqBitsBelow(b, c, 4)
  }

  /** Timer i after the pass: its cycles left and its counter register. */
  function After(b: Bank, c: int, i: int): (t: Timer)
    requires BankShape(b) && PassFits(b, c) && 0 <= i < 4
    ensures TimerOk(t)
  {
    b[i].(ticks := TicksAfter(b, c, i), counter := CounterAfter(b, c, i))
  }

  /** The bank once the pass has gone over timers 0 to n - 1, in index order. */
  function PassedUpTo(b: Bank, c: int, n: int): (r: Bank)
    requires BankShape(b) && PassFits(b, c) && 0 <= n <= 4
    ensures BankShape(r)
  {
    seq(4, j requires 0 <= j < 4 => if j < n then After(b, c, j) else b[j])
  }

  /** The interrupt bit of each timer in the pass. */
  function Raised(b: Bank, c: int): (xs: seq<bv16>)
    requires BankShape(b) && PassFits(b, c)
    ensures |xs| == 4
  {
    seq(4, j requires 0 <= j < 4 => IrqBit(b, c, j))
  }

  /** The interrupt bits raised by timers 0 to n - 1. */
  function IrqBitsBelow(b: Bank, c: int, n: int): bv16
    requires BankShape(b) && PassFits(b, c) && 0 <= n <= 4
  {
    FlagsBelow(Raised(b, c), n)
  }

  /** The union of the first n bits of `xs`. */
  function FlagsBelow(xs: seq<bv16>, n: int): bv16
    requires 0 <= n <= |xs|
  {
    if n == 0 then 0 else FlagsBelow(xs, n - 1) | xs[n - 1]
  }

  lemma OrAssoc(x: bv16, y: bv16, z: bv16)
    ensures x | (y | z) == (x | y) | z
  {
  }

  /** Before the pass has gone over any timer, nothing has changed. */
  lemma PassStart(b: Bank, c: int)
    requires BankShape(b) && PassFits(b, c)
    ensures PassedUpTo(b, c, 0) == b
  {
  }

  /** The flags `f` after the first n bits of `xs` have been raised one after
      the other, the way the timer blocks raise them. */
  function RaisedInto(f: bv16, xs: seq<bv16>, n: int): bv16
    requires 0 <= n <= |xs|
  {
    if n == 0 then f else RaisedInto(f, xs, n - 1) | xs[n - 1]
  }

  /** Raising the bits one after the other is raising their union at once. */
  lemma {:induction false} RaisedIntoIs(f: bv16, xs: seq<bv16>, n: int)
    requires 0 <= n <= |xs|
    ensures RaisedInto(f, xs, n) == f | FlagsBelow(xs, n)
  {
    if n > 0 {
      RaisedIntoIs(f, xs, n - 1);
      OrAssoc(f, FlagsBelow(xs, n - 1), xs[n - 1]);
    }
  }

  /** Going over timer n adds its own bit. */
  lemma IrqBitsNext(b: Bank, c: int, n: int)
    requires BankShape(b) && PassFits(b, c) && 0 <= n < 4
    ensures IrqBitsBelow(b, c, n + 1) == IrqBitsBelow(b, c, n) | IrqBit(b, c, n)
  {
  }

  /** The interrupt bit a timer raises when it overflows, if its control
      register enables the interrupt. */
  function OverflowBit(control: bv16, i: int, overflow: bool): (x: bv16)
    requires 0 <= i < 4
    ensures x == 0 || x == TimerFlag(i)
    ensures x != 0 <==> overflow && control & 0x40 != 0
  {
    if overflow && control & 0x40 != 0 then TimerFlag(i) else 0
  }

  /** A timer's interrupt bit in the pass is its overflow bit. */
  lemma IrqBitIs(b: Bank, c: int, i: int)
    requires BankShape(b) && PassFits(b, c) && 0 <= i < 4
    ensures IrqBit(b, c, i) == OverflowBit(b[i].control, i, Overflowed(b, c, i))
  {
  }

  /** A timer counting cycles in the pass: what the pass does to it, stated
      by the step the scheduler takes. */
  lemma ClockedStep(b: Bank, c: int, i: int)
    requires BankShape(b) && PassFits(b, c) && 0 <= i < 4 && Clocked(b, i)
    ensures var t := b[i];
      var e := Elapse(t.ticks, Period(t.reload, t.shift), c);
      && After(b, c, i) == t.(ticks := e.ticks, counter := Counter(e.ticks, t.shift))
      && Overflowed(b, c, i) == e.overflow
  {
  }

  /** A cascaded timer in a pass where the timer below it overflowed. */
  lemma CascadedStep(b: Bank, c: int, i: int)
    requires BankShape(b) && PassFits(b, c) && 0 < i < 4 && Cascaded(b, i) && Overflowed(b, c, i - 1)
    ensures var t := b[i];
      var r := CascadeStep(t.counter, t.reload);
      && After(b, c, i) == t.(counter := r.value)
      && Overflowed(b, c, i) == r.overflow
  {
  }

  /** A timer the pass leaves alone: stopped, or cascaded with no overflow
      below it. */
  lemma IdleStep(b: Bank, c: int, i: int)
    requires BankShape(b) && PassFits(b, c) && 0 <= i < 4
    requires !b[i].on || (i > 0 && Cascaded(b, i) && !Overflowed(b, c, i - 1))
    ensures After(b, c, i) == b[i] && !Overflowed(b, c, i)
  {
  }

  /** Going over one more timer updates that timer alone. */
  lemma PassedNext(b: Bank, c: int, n: int)
    requires BankShape(b) && PassFits(b, c) && 0 <= n < 4
    ensures PassedUpTo(b, c, n + 1) == PassedUpTo(b, c, n)[n := After(b, c, n)]
    ensures PassedUpTo(b, c, n)[n] == b[n]
    ensures Raised(b, c)[n] == OverflowBit(b[n].control, n, Overflowed(b, c, n))
  {
    IrqBitIs(b, c, n);
  }

  /** A pass keeps every timer's switch, control register, prescaler and
      reload value, and leaves a running timer with cycles left. */
  lemma PassKeeps(b: Bank, c: int, i: int)
    requires BankShape(b) && PassFits(b, c) && 0 <= i < 4
    requires b[i].on ==> b[i].ticks >= 1
    ensures var t := PassedUpTo(b, c, 4)[i];
      && t.on == b[i].on && t.control == b[i].control && t.shift == b[i].shift
      && t.reload == b[i].reload && t.written == b[i].written
      && (t.on ==> t.ticks >= 1)
  {
  }

  /** Overflows ripple upwards in index order within one pass: a cascaded timer
      overflows only in a pass where the timer below it overflows and it held
      0xFFFF, and a timer's interrupt bit is raised exactly when it overflows
      with interrupts enabled. */
  lemma CascadeOrder(b: Bank, c: int, i: int)
    requires BankShape(b) && PassFits(b, c) && 0 < i < 4 && Cascaded(b, i)
    ensures Overflowed(b, c, i) <==> Overflowed(b, c, i - 1) && b[i].counter == 0xFFFF
    ensures IrqBits(b, c) & TimerFlag(i) != 0 <==> Overflowed(b, c, i) && b[i].control & 0x40 != 0
  {
    IrqBitsSelect(b, c, i);
  }

  /** Each timer owns its own interrupt flag: the flags of a pass, restricted
      to timer i's flag, are what timer i raised. */
  lemma IrqBitsSelect(b: Bank, c: int, i: int)
    requires BankShape(b) && PassFits(b, c) && 0 <= i < 4
    ensures IrqBits(b, c) & TimerFlag(i) == IrqBit(b, c, i)
  {
    BelowSelect(Raised(b, c), i);
  }

  /** The union of the four bits, each timer's bit being none or its own
      flag, restricted to timer i's flag, is timer i's bit. */
  lemma BelowSelect(xs: seq<bv16>, i: int)
    requires |xs| == 4 && 0 <= i < 4
    requires xs[0] == 0 || xs[0] == 0x08
    requires xs[1] == 0 || xs[1] == 0x10
    requires xs[2] == 0 || xs[2] == 0x20
    requires xs[3] == 0 || xs[3] == 0x40
    ensures FlagsBelow(xs, 4) & TimerFlag(i) == xs[i]
  {
    assert FlagsBelow(xs, 1) == xs[0];
    assert FlagsBelow(xs, 2) == xs[0] | xs[1];
    assert FlagsBelow(xs, 3) == (xs[0] | xs[1]) | xs[2];
  }

  /** The deferred effect of the control value last written: the prescaler is
      taken from bits 0-1; a timer switched on (bit 7) that was off restarts
      from its reload value with a whole period ahead; the control register
      keeps bits 0-2 and 6-7. A write to a running timer changes neither its
      counter nor its cycles left. */
  function Apply(t: Timer): (r: Timer)
    requires 0 <= t.reload <= 0xFFFF
    ensures r.on <==> t.written & 0x80 != 0
    ensures r.control == t.written & 0xC7 && IsShift(r.shift) && r.shift == ShiftOf(t.written)
    ensures r.reload == t.reload && r.written == t.written
    ensures !t.on && r.on ==> r.counter == t.reload && r.ticks == Period(t.reload, r.shift)
    ensures t.on || !r.on ==> r.counter == t.counter && r.ticks == t.ticks
  {
    var shift := ShiftOf(t.written);
    var started := !t.on && t.written & 0x80 != 0;
    t.(on := t.written & 0x80 != 0, control := t.written & 0xC7,
       counter := if started then t.reload else t.counter,
       ticks := if started then Period(t.reload, shift) else t.ticks,
       shift := shift)
  }

  /** A timer that has just started overflows after exactly one period if
      nothing changes it: a pass of the whole period overflows it once and
      leaves another whole period. */
  lemma StartedOverflow(t: Timer)
    requires 0 <= t.reload <= 0xFFFF && !t.on && t.written & 0x80 != 0
    ensures var r := Apply(t);
      && Elapse(r.ticks, Period(r.reload, r.shift), r.ticks) == Tick(Period(r.reload, r.shift), true)
      && forall c :: 0 <= c < r.ticks ==> !Elapse(r.ticks, Period(r.reload, r.shift), c).overflow
  {
  }

  /** Pending-write bit of timer i: 1 << i. */
  function WriteBit(i: int): (b: bv16)
    requires 0 <= i < 4
    ensures b == 1 << i
  {
    if i == 0 then 1 else if i == 1 then 2 else if i == 2 then 4 else 8
  }

  /** Whether the pending-write bits `p` hold timer i's bit. */
  predicate IsPending(p: bv16, i: int)
    requires 0 <= i < 4
  {
    p & WriteBit(i) != 0
  }

  /** The bank after the pending control writes `p` of timers 0 to n - 1 have
      taken effect, in index order. */
  function Applied(b: Bank, p: bv16, n: int): (r: Bank)
    requires BankShape(b) && 0 <= n <= 4
    ensures BankShape(r)
  {
    if n == 0 then b
    else
      var r := Applied(b, p, n - 1);
      if IsPending(p, n - 1) then r[n - 1 := Apply(b[n - 1])] else r
  }

  /** Timer j after the writes of timers 0 to n - 1: its write applied when it
      is one of them and has one pending, and as it was otherwise. */
  lemma {:induction false} AppliedAt(b: Bank, p: bv16, n: int, j: int)
    requires BankShape(b) && 0 <= n <= 4 && 0 <= j < 4
    ensures Applied(b, p, n)[j] == if j < n && IsPending(p, j) then Apply(b[j]) else b[j]
  {
    if n > 0 {
      AppliedAt(b, p, n - 1, j);
    }
  }

  /** With no write pending, applying changes nothing. */
  lemma {:induction false} AppliedNone(b: Bank, n: int)
    requires BankShape(b) && 0 <= n <= 4
    ensures Applied(b, 0, n) == b
  {
    if n > 0 {
      AppliedNone(b, n - 1);
    }
  }

  /** Applying the pending writes keeps every running timer with cycles left,
      and changes nothing but the timers with a write pending. */
  lemma AppliedKeeps(b: Bank, p: bv16)
    requires BankShape(b) && forall i :: 0 <= i < 4 && b[i].on ==> b[i].ticks >= 1
    ensures var r := Applied(b, p, 4);
      forall i :: 0 <= i < 4 ==> (r[i].on ==> r[i].ticks >= 1) && (!IsPending(p, i) ==> r[i] == b[i])
  {
    forall i | 0 <= i < 4
      ensures var r := Applied(b, p, 4); (r[i].on ==> r[i].ticks >= 1) && (!IsPending(p, i) ==> r[i] == b[i])
    {
      AppliedAt(b, p, 4, i);
    }
  }

  /** A timer after reset: stopped, with its counter, control register,
      reload value, prescaler and cycles left cleared; the control value last
      written is kept. */
  function Stopped(t: Timer): (r: Timer)
    ensures TimerOk(r) && !r.on && r.written == t.written
    ensures r.counter == 0 && r.control == 0 && r.reload == 0 && r.ticks == 0
  {
    Timer(false, 0, 0, 0, 0, 0, t.written)
  }
}
