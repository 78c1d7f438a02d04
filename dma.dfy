/** The four DMA channels: how a channel's control register selects its
    trigger, address steps, unit size and count, what a transfer does to the
    bus, and what it costs in cycles. */
module Dma {

  /** 32-bit values (addresses, steps and data units) are kept as integers in
      [0, 2^32); `Wrap32` is the wrap-around of unsigned 32-bit arithmetic. */
  const Modulus := 0x1_0000_0000

  predicate IsWord(x: int) { 0 <= x < Modulus }

  function Wrap32(x: int): (r: int)
    ensures IsWord(r)
    ensures IsWord(x) ==> r == x
  {
    x % Modulus
  }

  /** The bus as DMA sees it: the unit last stored at each address. Address
      decoding, mirroring and alignment inside the memory map belong to the
      MMU, which is not part of this model; an address never written reads 0. */
  type Memory = map<int, int>

  function Load(m: Memory, a: int): int
  {
    if a in m then m[a] else 0
  }

  /** OAM, palette RAM and VRAM: the video memory a reset fills with zero
      (0x400, 0x400 and 0x20000 bytes from their bases). */
  predicate VideoMemory(a: int)
  {
    || 0x0500_0000 <= a < 0x0500_0400
    || 0x0600_0000 <= a < 0x0602_0000
    || 0x0700_0000 <= a < 0x0700_0400
  }

  /** Memory after reset's fills: every unit of the video memory reads zero,
      every other unit reads as before. */
  function ClearVideo(m: Memory): (r: Memory)
    ensures forall a :: VideoMemory(a) ==> Load(r, a) == 0
    ensures forall a :: !VideoMemory(a) ==> Load(r, a) == Load(m, a)
  {
    map a | a in m && !VideoMemory(a) :: m[a]
  }

  /** A 32-bit unit, or the low half of one for a 16-bit transfer. */
  function Unit(v: int, word: bool): (r: int)
    ensures !word ==> 0 <= r < 0x10000
    ensures word ==> r == Wrap32(v)
  {
    if word then Wrap32(v) else v % 0x10000
  }

  /** Cursor step selected by a two-bit address-control field (bits 7-8 for the
      source, 5-6 for the destination): increment, decrement (written as the
      unsigned value of -4), fixed, and increment again for the reload mode 3. */
  function StepOf(mode: bv16): (r: int)
    requires mode < 4
    ensures Wrap32(r + 4) == 0 <==> mode == 1
    ensures r == 0 <==> mode == 2
    ensures r == 4 <==> mode == 0 || mode == 3
  {
    if mode == 1 then 0xFFFF_FFFC else if mode == 2 then 0 else 4
  }

  function SourceMode(cntH: bv16): bv16 { (cntH >> 7) & 3 }
  function DestMode(cntH: bv16): bv16 { (cntH >> 5) & 3 }

  /** An arithmetic (sign-keeping) shift right by one of a 32-bit value, as the
      16-bit transfer applies to both steps. */
  function HalfStep(step: int): (r: int)
    requires IsWord(step)
    ensures IsWord(r)
  {
    if step >= 0x8000_0000 then step / 2 + 0x8000_0000 else step / 2
  }

  /** The steps a 16-bit transfer uses are half the 32-bit ones: two halfword
      steps make one word step, and the direction is kept. */
  lemma HalfStepHalves(mode: bv16)
    requires mode < 4
    ensures Wrap32(HalfStep(StepOf(mode)) + HalfStep(StepOf(mode))) == StepOf(mode)
    ensures HalfStep(StepOf(mode)) == (if mode == 1 then 0xFFFF_FFFE else if mode == 2 then 0 else 2)
  {
  }

  /** The step a transfer applies per unit. */
  function UnitStep(step: int, word: bool): (r: int)
    requires IsWord(step)
    ensures IsWord(r)
  {
    if word then step else HalfStep(step)
  }

  /** Source alignment: the low bits a unit of the transfer's size cannot use
      are cleared. */
  function Align(s: int, word: bool): (r: int)
    requires IsWord(s)
    ensures IsWord(r)
    ensures r % (if word then 4 else 2) == 0
    ensures r <= s < r + (if word then 4 else 2)
  {
    if word then s - s % 4 else s - s % 2
  }

  /** A transfer from below external work RAM while the CPU executes outside
      the BIOS region stores zeroes instead of reading its source. */
  predicate Fill(s: int, pc: int)
  {
    s < 0x0200_0000 && pc >= 0x0100_0000
  }

  /** `n` steps of `step` added one after another, wrapping at 32 bits. */
  function Scaled(n: nat, step: int): (r: int)
    ensures IsWord(r)
  {
    if n == 0 then 0 else Wrap32(Scaled(n - 1, step) + step)
  }

  /** The address of unit k of a transfer starting at `base`. */
  function At(base: int, step: int, k: nat): (r: int)
    ensures IsWord(r)
  {
    Wrap32(base + Scaled(k, step))
  }

  /** The bus after the first `n` units of a transfer from `s` to `d`: unit k
      reads the source at `s + k*si` (after the units before it have been
      stored) and stores at `d + k*di`, or stores zero when filling. */
  function Moved(m: Memory, s: int, d: int, si: int, di: int, n: nat, word: bool, fill: bool): Memory
  {
    if n == 0 then m
    else
      var p := Moved(m, s, d, si, di, n - 1, word, fill);
      var v := if fill then 0 else Unit(Load(p, At(s, si, n - 1)), word);
      p[At(d, di, n - 1) := v]
  }

  /** One more unit of a transfer: unit n is stored at its destination
      address after the first n units. */
  lemma MovedNext(m: Memory, s: int, d: int, si: int, di: int, n: nat, word: bool, fill: bool)
    ensures var p := Moved(m, s, d, si, di, n, word, fill);
      Moved(m, s, d, si, di, n + 1, word, fill)
        == p[At(d, di, n) := if fill then 0 else Unit(Load(p, At(s, si, n)), word)]
  {
  }

  /** One step of a copying transfer's loop: storing the unit read at the
      source cursor and stepping both cursors gives the bus and cursors after
      one more unit. */
  lemma CopyStep(m0: Memory, a: int, d0: int, si: int, di: int, n: nat, word: bool,
                 m: Memory, s: int, d: int)
    requires IsWord(a) && IsWord(d0) && IsWord(si) && IsWord(di)
    requires m == Moved(m0, a, d0, si, di, n, word, false)
    requires s == At(a, si, n) && d == At(d0, di, n)
    ensures m[d := Unit(Load(m, s), word)] == Moved(m0, a, d0, si, di, n + 1, word, false)
    ensures Wrap32(s + si) == At(a, si, n + 1) && Wrap32(d + di) == At(d0, di, n + 1)
  {
    MovedNext(m0, a, d0, si, di, n, word, false);
    AtNext(a, si, n);
    AtNext(d0, di, n);
  }

  /** One step of a filling transfer's loop. */
  lemma FillStep(m0: Memory, a: int, d0: int, si: int, di: int, n: nat, word: bool, m: Memory, d: int)
    requires IsWord(d0) && IsWord(di)
    requires m == Moved(m0, a, d0, si, di, n, word, true) && d == At(d0, di, n)
    ensures m[d := 0] == Moved(m0, a, d0, si, di, n + 1, word, true)
    ensures Wrap32(d + di) == At(d0, di, n + 1)
  {
    MovedNext(m0, a, d0, si, di, n, word, true);
    AtNext(d0, di, n);
  }

  /** A transfer stores only at its destination addresses. */
  lemma {:induction false} MovedFrame(m: Memory, s: int, d: int, si: int, di: int, n: nat, word: bool, fill: bool, a: int)
    requires forall k :: 0 <= k < n ==> a != At(d, di, k)
    ensures Load(Moved(m, s, d, si, di, n, word, fill), a) == Load(m, a)
  {
    if n > 0 {
      MovedFrame(m, s, d, si, di, n - 1, word, fill, a);
      assert a != At(d, di, n - 1);
    }
  }

  /** A filling transfer leaves zero at every destination address. */
  lemma {:induction false} FillZeroes(m: Memory, s: int, d: int, si: int, di: int, n: nat, word: bool, k: nat)
    requires k < n
    ensures Load(Moved(m, s, d, si, di, n, word, true), At(d, di, k)) == 0
  {
    if k < n - 1 {
      FillZeroes(m, s, d, si, di, n - 1, word, k);
    }
  }

  /** Destination addresses are pairwise different and none of them is a
      source address of the transfer. */
  predicate Separate(s: int, d: int, si: int, di: int, n: nat)
  {
    && (forall j, k :: 0 <= j < k < n ==> At(d, di, j) != At(d, di, k))
    && (forall j, k :: 0 <= j < n && 0 <= k < n ==> At(s, si, j) != At(d, di, k))
  }

  /** When source and destination ranges do not overlap, a copying transfer
      leaves unit k of the source at destination k. */
  lemma {:induction false} CopyDelivers(m: Memory, s: int, d: int, si: int, di: int, n: nat, word: bool, k: nat)
    requires Separate(s, d, si, di, n) && k < n
    ensures Load(Moved(m, s, d, si, di, n, word, false), At(d, di, k)) == Unit(Load(m, At(s, si, k)), word)
  {
    if k < n - 1 {
      CopyDelivers(m, s, d, si, di, n - 1, word, k);
      assert At(d, di, k) != At(d, di, n - 1);
    } else {
      MovedFrame(m, s, d, si, di, n - 1, word, false, At(s, si, n - 1));
    }
  }

  /** Wait-state region of an address: its top byte, with everything above the
      cartridge SRAM region (0x0E) counted as region 15. */
  function Region(a: int): (r: int)
    requires IsWord(a)
    ensures 0 <= r <= 15
    ensures a < 0x1000_0000 ==> r == a / 0x100_0000
  {
    if a / 0x100_0000 > 15 then 15 else a / 0x100_0000
  }

  /** The wait-state tables of the memory regions: first-access and sequential
      waits, for 16-bit and 32-bit accesses. */
  datatype Waits = Waits(wait: seq<int>, seqWait: seq<int>, wait32: seq<int>, seqWait32: seq<int>)

  predicate WaitsOk(w: Waits)
  {
    && |w.wait| == 16 && |w.seqWait| == 16 && |w.wait32| == 16 && |w.seqWait32| == 16
    && (forall i :: 0 <= i < 16 ==> w.wait[i] >= 0 && w.seqWait[i] >= 0)
    && (forall i :: 0 <= i < 16 ==> w.wait32[i] >= 0 && w.seqWait32[i] >= 0)
  }

  /** Cycles a transfer of `c` units costs: six cycles of set-up, a first
      access at each end, and one sequential read and write (each one cycle
      plus its waits) for each further unit. */
  function TransferCost(w: Waits, s: int, d: int, c: int, word: bool): (t: int)
    requires WaitsOk(w) && IsWord(s) && IsWord(d) && c >= 1
    ensures t >= 2 * c + 4
  {
    var sm := Region(s);
    var dm := Region(d);
    var sw := 1 + (if word then w.seqWait32[sm] else w.seqWait[sm]);
    var dw := 1 + (if word then w.seqWait32[dm] else w.seqWait[dm]);
    var first := if word then w.wait32[sm] + w.seqWait32[dm] else w.wait[sm] + w.seqWait[dm];
    assert (sw + dw) * (c - 1) >= 2 * (c - 1) by {
      MulMonotone(sw + dw, 2, c - 1);
    }
    (sw + dw) * (c - 1) + 6 + first
  }

  lemma MulMonotone(a: int, b: int, n: int)
    requires a >= b && n >= 0
    ensures a * n >= b * n
  {
  }

  /** Each unit added to a transfer costs exactly one sequential access at each
      end, and a single unit costs the set-up and the first accesses only. */
  lemma CostPerUnit(w: Waits, s: int, d: int, c: int, word: bool)
    requires WaitsOk(w) && IsWord(s) && IsWord(d) && c >= 1
    ensures TransferCost(w, s, d, c + 1, word) - TransferCost(w, s, d, c, word)
      == 2 + (if word then w.seqWait32[Region(s)] + w.seqWait32[Region(d)]
              else w.seqWait[Region(s)] + w.seqWait[Region(d)])
    ensures TransferCost(w, s, d, 1, word)
      == 6 + (if word then w.wait32[Region(s)] + w.seqWait32[Region(d)]
              else w.wait[Region(s)] + w.seqWait[Region(d)])
  {
    var sm := Region(s);
    var dm := Region(d);
    var k := 2 + (if word then w.seqWait32[sm] + w.seqWait32[dm] else w.seqWait[sm] + w.seqWait[dm]);
    assert k * c == k * (c - 1) + k;
  }

  /** Units a channel moves for a count register value: zero means the
      channel's maximum, 0x4000 for channels 0-2 and 0x10000 for channel 3. */
  function UnitCount(ch: int, cntL: bv16): (n: int)
    requires 0 <= ch < 4
    ensures 1 <= n <= 0x10000
    ensures cntL != 0 ==> n == cntL as int
    ensures cntL == 0 ==> n == if ch == 3 then 0x10000 else 0x4000
  {
    if cntL != 0 then cntL as int else if ch == 3 then 0x10000 else 0x4000
  }

  /** A channel runs on a trigger when it is enabled (bit 15), selected by the
      trigger's channel mask and its start timing (bits 12-13) is the trigger's
      reason: 0 immediately, 1 V-blank, 2 H-blank, 3 special. */
  predicate Fires(ch: int, cntH: bv16, reason: bv16, mask: bv16)
    requires 0 <= ch < 4
  {
    cntH & 0x8000 != 0 && mask & ChannelBit(ch) != 0 && (cntH >> 12) & 3 == reason
  }

  function ChannelBit(ch: int): (b: bv16)
    requires 0 <= ch < 4
    ensures b != 0
  {
    if ch == 0 then 1 else if ch == 1 then 2 else if ch == 2 then 4 else 8
  }

  /** What one triggered channel does: its steps, unit count and unit size.
      Channels 1 and 2 on the special trigger feed the sound FIFO: four 32-bit
      units to a fixed destination, whatever the control register says. */
  datatype Plan = Plan(srcStep: int, dstStep: int, count: int, word: bool)

  function PlanOf(ch: int, cntL: bv16, cntH: bv16, reason: bv16): (p: Plan)
    requires 0 <= ch < 4
    ensures 1 <= p.count <= 0x10000 && IsWord(p.srcStep) && IsWord(p.dstStep)
    ensures p.srcStep == StepOf(SourceMode(cntH))
    ensures (ch == 1 || ch == 2) && reason == 3 ==> p == Plan(p.srcStep, 0, 4, true)
    ensures !((ch == 1 || ch == 2) && reason == 3) ==>
      p == Plan(p.srcStep, StepOf(DestMode(cntH)), UnitCount(ch, cntL), cntH & 0x400 != 0)
  {
    var si := StepOf(SourceMode(cntH));
    if (ch == 1 || ch == 2) && reason == 3 then Plan(si, 0, 4, true)
    else Plan(si, StepOf(DestMode(cntH)), UnitCount(ch, cntL), cntH & 0x400 != 0)
  }

  /** Interrupt flag of channel ch (bits 8-11). */
  function DmaFlag(ch: int): (f: bv16)
    requires 0 <= ch < 4
    ensures f == ChannelBit(ch) << 8
  {
    if ch == 0 then 0x100 else if ch == 1 then 0x200 else if ch == 2 then 0x400 else 0x800
  }

  /** The control register after a triggered transfer: the enable bit is
      cleared unless the channel repeats (bit 9) on a trigger other than the
      immediate one. */
  function ControlAfter(cntH: bv16, reason: bv16): (r: bv16)
    ensures r & 0x7FFF == cntH & 0x7FFF
    ensures r & 0x8000 != 0 <==> cntH & 0x8000 != 0 && cntH & 0x200 != 0 && reason != 0
  {
    if cntH & 0x200 == 0 || reason == 0 then cntH & 0x7FFF else cntH
  }

  /** A 32-bit address latched from its low and high register halves. */
  function Latch(lo: bv16, hi: bv16): (a: int)
    ensures IsWord(a)
    ensures a % 0x10000 == lo as int && a / 0x10000 == hi as int
  {
    lo as int + hi as int * 0x10000
  }

  /** Moving a cursor one more unit: the address of unit k + 1 is one step
      past that of unit k, modulo 2^32. */
  lemma AtNext(base: int, step: int, k: nat)
    requires IsWord(base) && IsWord(step)
    ensures At(base, step, k + 1) == Wrap32(At(base, step, k) + step)
  {
    var x := Scaled(k, step);
    var y := Wrap32(x + step);
    assert At(base, step, k + 1) == Wrap32(base + y);
    WrapSum(x + step, base);
    WrapSum(base + x, step);
  }

  /** After n units the cursor has moved by n steps: `n * step` modulo 2^32. */
  lemma {:induction false} ScaledIsProduct(n: nat, step: int)
    requires IsWord(step)
    ensures Scaled(n, step) == Wrap32(n * step)
  {
    if n > 0 {
      ScaledIsProduct(n - 1, step);
      assert n * step == (n - 1) * step + step;
      WrapSum((n - 1) * step, step);
    }
  }

  lemma WrapSum(a: int, b: int)
    ensures Wrap32(Wrap32(a) + b) == Wrap32(a + b)
  {
    var q := a / Modulus;
    assert a == q * Modulus + Wrap32(a);
    assert Wrap32(a) + b == (a + b) - q * Modulus;
    ModShift(a + b, q);
  }

  lemma ModShift(x: int, q: int)
    ensures (x - q * Modulus) % Modulus == x % Modulus
  {
  }

  /** One DMA channel: its source, destination, count and control registers
      as last written, and the source and destination cursors it runs from. */
  datatype Channel = Channel(sadL: bv16, sadH: bv16, dadL: bv16, dadH: bv16, cntL: bv16, cntH: bv16,
                             source: int, dest: int)

  predicate ChannelOk(c: Channel)
  {
    IsWord(c.source) && IsWord(c.dest)
  }

  /** The DMA-visible state a trigger can change: the bus, the four channels,
      the interrupt flags and the cycles owed to DMA. */
  datatype Bus = Bus(mem: Memory, ch: seq<Channel>, flags: bv16, cost: int)

  predicate BusOk(b: Bus)
  {
    |b.ch| == 4 && b.cost >= 0 && forall i :: 0 <= i < 4 ==> ChannelOk(b.ch[i])
  }

  /** One channel's share of a trigger (reason, channel mask). A channel that
      fires moves its units from its aligned source cursor, leaves its
      cursors after the last unit (the source stays put when filling), reloads
      its destination from the registers in reload mode, raises its flag when
      bit 14 asks for an interrupt, and owes the transfer's cycles. */
  function RunChannel(b: Bus, w: Waits, pc: int, ch: int, reason: bv16, mask: bv16): (b': Bus)
    requires BusOk(b) && WaitsOk(w) && 0 <= ch < 4
    ensures BusOk(b')
  {
    if Fires(ch, b.ch[ch].cntH, reason, mask) then Complete(Transfer(b, w, pc, ch, reason), ch, reason) else b
  }

  /** The first half of a firing channel's share: the transfer itself, which
      leaves both cursors after the last unit (the source stays at its aligned
      value when filling) and owes the transfer's cycles. */
  function Transfer(b: Bus, w: Waits, pc: int, ch: int, reason: bv16): (b': Bus)
    requires BusOk(b) && WaitsOk(w) && 0 <= ch < 4
    ensures BusOk(b')
  {
    var c := b.ch[ch];
    var p := PlanOf(ch, c.cntL, c.cntH, reason);
    var s := Align(c.source, p.word);
    var fill := Fill(s, pc);
    var si := UnitStep(p.srcStep, p.word);
    var di := UnitStep(p.dstStep, p.word);
    Bus(Moved(b.mem, s, c.dest, si, di, p.count, p.word, fill),
        b.ch[ch := c.(source := if fill then s else At(s, si, p.count), dest := At(c.dest, di, p.count))],
        b.flags,
        b.cost + TransferCost(w, c.source, c.dest, p.count, p.word))
  }

  /** The transfer, stated by the stores it makes and the cursors it leaves. */
  lemma TransferBy(b: Bus, w: Waits, pc: int, ch: int, reason: bv16, m: Memory, s: int, d: int)
    requires BusOk(b) && WaitsOk(w) && 0 <= ch < 4
    requires var c := b.ch[ch];
      var p := PlanOf(ch, c.cntL, c.cntH, reason);
      var a := Align(c.source, p.word);
      var fill := Fill(a, pc);
      && m == Moved(b.mem, a, c.dest, UnitStep(p.srcStep, p.word), UnitStep(p.dstStep, p.word), p.count, p.word, fill)
      && s == (if fill then a else At(a, UnitStep(p.srcStep, p.word), p.count))
      && d == At(c.dest, UnitStep(p.dstStep, p.word), p.count)
    ensures var c := b.ch[ch];
      var p := PlanOf(ch, c.cntL, c.cntH, reason);
      Transfer(b, w, pc, ch, reason)
        == Bus(m, b.ch[ch := c.(source := s, dest := d)], b.flags, b.cost + TransferCost(w, c.source, c.dest, p.count, p.word))
  {
  }

  /** The second half: the interrupt flag when bit 14 asks for one, the reload
      of the destination cursor in reload mode, and the control register. */
  function Complete(b: Bus, ch: int, reason: bv16): (b': Bus)
    requires BusOk(b) && 0 <= ch < 4
    ensures BusOk(b')
  {
    Finish(Reload(Signal(b, ch), ch), ch, reason)
  }

  /** The channel's interrupt flag is raised when bit 14 asks for one. */
  function Signal(b: Bus, ch: int): (b': Bus)
    requires BusOk(b) && 0 <= ch < 4
    ensures BusOk(b') && b'.ch == b.ch && b'.mem == b.mem && b'.cost == b.cost
  {
    if b.ch[ch].cntH & 0x4000 != 0 then b.(flags := b.flags | DmaFlag(ch)) else b
  }

  /** In reload mode (destination control 3) the destination cursor is
      reloaded from the destination registers. */
  function Reload(b: Bus, ch: int): (b': Bus)
    requires BusOk(b) && 0 <= ch < 4
    ensures BusOk(b') && b'.mem == b.mem && b'.flags == b.flags && b'.cost == b.cost
  {
    var c := b.ch[ch];
    if DestMode(c.cntH) == 3 then b.(ch := b.ch[ch := c.(dest := Latch(c.dadL, c.dadH))]) else b
  }

  /** The control register loses its enable bit unless the channel repeats on a
      non-immediate trigger. */
  function Finish(b: Bus, ch: int, reason: bv16): (b': Bus)
    requires BusOk(b) && 0 <= ch < 4
    ensures BusOk(b') && b'.mem == b.mem && b'.flags == b.flags && b'.cost == b.cost
  {
    var c := b.ch[ch];
    b.(ch := b.ch[ch := c.(cntH := ControlAfter(c.cntH, reason))])
  }

  /** A fired channel's registers and cursors: the source cursor is aligned and
      then left after the last unit (it stays put when filling), the
      destination cursor is left after the last unit or reloaded from the
      registers in reload mode, and the control register loses its enable bit
      unless the channel repeats. */
  function Advanced(c: Channel, p: Plan, fill: bool, reason: bv16): (c': Channel)
    requires ChannelOk(c) && IsWord(p.srcStep) && IsWord(p.dstStep) && p.count >= 0
    ensures ChannelOk(c')
  {
    var s := Align(c.source, p.word);
    c.(source := if fill then s else At(s, UnitStep(p.srcStep, p.word), p.count),
       dest := if DestMode(c.cntH) == 3 then Latch(c.dadL, c.dadH) else At(c.dest, UnitStep(p.dstStep, p.word), p.count),
       cntH := ControlAfter(c.cntH, reason))
  }

  /** A trigger runs the channels in priority order 0, 1, 2, 3. */
  function RunAll(b: Bus, w: Waits, pc: int, reason: bv16, mask: bv16): (b': Bus)
    requires BusOk(b) && WaitsOk(w)
    ensures BusOk(b')
  {
    RunUpTo(b, w, pc, reason, mask, 4)
  }

  /** The first n channels' shares of a trigger, in priority order. */
  function RunUpTo(b: Bus, w: Waits, pc: int, reason: bv16, mask: bv16, n: int): (b': Bus)
    requires BusOk(b) && WaitsOk(w) && 0 <= n <= 4
    ensures BusOk(b')
  {
    if n == 0 then b else RunChannel(RunUpTo(b, w, pc, reason, mask, n - 1), w, pc, n - 1, reason, mask)
  }

  /** The bus after a firing channel: the transfer's stores, its interrupt
      flag and its cost. */
  lemma FiredBus(b: Bus, w: Waits, pc: int, ch: int, reason: bv16, mask: bv16)
    requires BusOk(b) && WaitsOk(w) && 0 <= ch < 4
    requires Fires(ch, b.ch[ch].cntH, reason, mask)
    ensures var c := b.ch[ch];
      var p := PlanOf(ch, c.cntL, c.cntH, reason);
      var s := Align(c.source, p.word);
      var b' := RunChannel(b, w, pc, ch, reason, mask);
      && b'.mem == Moved(b.mem, s, c.dest, UnitStep(p.srcStep, p.word), UnitStep(p.dstStep, p.word), p.count, p.word, Fill(s, pc))
      && b'.flags == (if c.cntH & 0x4000 != 0 then b.flags | DmaFlag(ch) else b.flags)
      && b'.cost == b.cost + TransferCost(w, c.source, c.dest, p.count, p.word)
  {
    var t := Transfer(b, w, pc, ch, reason);
    assert t.ch[ch].cntH == b.ch[ch].cntH;
    CompleteFlags(t, ch, reason);
  }

  /** The channels after a firing channel: its own is as `Advanced` leaves
      it, the others are untouched. */
  lemma FiredChannels(b: Bus, w: Waits, pc: int, ch: int, reason: bv16, mask: bv16)
    requires BusOk(b) && WaitsOk(w) && 0 <= ch < 4
    requires Fires(ch, b.ch[ch].cntH, reason, mask)
    ensures var c := b.ch[ch];
      var p := PlanOf(ch, c.cntL, c.cntH, reason);
      RunChannel(b, w, pc, ch, reason, mask).ch == b.ch[ch := Advanced(c, p, Fill(Align(c.source, p.word), pc), reason)]
  {
    var c := b.ch[ch];
    var p := PlanOf(ch, c.cntL, c.cntH, reason);
    var a := Advanced(c, p, Fill(Align(c.source, p.word), pc), reason);
    var t := Transfer(b, w, pc, ch, reason);
    var x := c.(source := a.source, dest := At(c.dest, UnitStep(p.dstStep, p.word), p.count));
    assert t.ch == b.ch[ch := x];
    CompleteChannels(t, ch, reason);
    UpdateTwice(b.ch, ch, x, a);
  }

  /** The completion's interrupt flag; it stores nothing and costs nothing. */
  lemma CompleteFlags(b: Bus, ch: int, reason: bv16)
    requires BusOk(b) && 0 <= ch < 4
    ensures var b' := Complete(b, ch, reason);
      && b'.mem == b.mem && b'.cost == b.cost
      && b'.flags == (if b.ch[ch].cntH & 0x4000 != 0 then b.flags | DmaFlag(ch) else b.flags)
  {
  }

  /** The completion's reload of the destination cursor and its control
      register. */
  lemma CompleteChannels(b: Bus, ch: int, reason: bv16)
    requires BusOk(b) && 0 <= ch < 4
    ensures var c := b.ch[ch];
      Complete(b, ch, reason).ch
        == b.ch[ch := c.(dest := if DestMode(c.cntH) == 3 then Latch(c.dadL, c.dadH) else c.dest,
                         cntH := ControlAfter(c.cntH, reason))]
  {
    var c := b.ch[ch];
    var r := Reload(Signal(b, ch), ch);
    var x := c.(dest := if DestMode(c.cntH) == 3 then Latch(c.dadL, c.dadH) else c.dest);
    assert r.ch == b.ch[ch := x];
    var y := x.(cntH := ControlAfter(c.cntH, reason));
    assert Finish(r, ch, reason).ch == b.ch[ch := x][ch := y];
    UpdateTwice(b.ch, ch, x, y);
  }

  lemma UpdateTwice<T>(s: seq<T>, i: int, x: T, y: T)
    requires 0 <= i < |s|
    ensures s[i := x][i := y] == s[i := y]
  {
  }

  /** A channel's share of a trigger touches only its own cursors and control
      register, never lowers a flag, and does nothing unless it fires. */
  lemma ChannelIsolated(b: Bus, w: Waits, pc: int, ch: int, reason: bv16, mask: bv16)
    requires BusOk(b) && WaitsOk(w) && 0 <= ch < 4
    ensures var b' := RunChannel(b, w, pc, ch, reason, mask);
      && (forall j :: 0 <= j < 4 && j != ch ==> b'.ch[j] == b.ch[j])
      && b'.ch[ch] == b.ch[ch].(source := b'.ch[ch].source, dest := b'.ch[ch].dest, cntH := b'.ch[ch].cntH)
      && b'.flags & b.flags == b.flags
      && b'.cost >= b.cost
      && (!Fires(ch, b.ch[ch].cntH, reason, mask) ==> b' == b)
  {
    if Fires(ch, b.ch[ch].cntH, reason, mask) {
      FiredBus(b, w, pc, ch, reason, mask);
      FiredChannels(b, w, pc, ch, reason, mask);
    }
  }

  /** What a firing channel leaves behind: its enable bit is cleared unless it
      repeats on a non-immediate trigger, its flag is raised when bit 14 asks
      for an interrupt, and it owes at least two cycles per unit. */
  lemma ChannelEffect(b: Bus, w: Waits, pc: int, ch: int, reason: bv16, mask: bv16)
    requires BusOk(b) && WaitsOk(w) && 0 <= ch < 4
    requires Fires(ch, b.ch[ch].cntH, reason, mask)
    ensures var b' := RunChannel(b, w, pc, ch, reason, mask);
      var c := b.ch[ch];
      && b'.ch[ch].cntH == ControlAfter(c.cntH, reason)
      && b'.flags == (if c.cntH & 0x4000 != 0 then b.flags | DmaFlag(ch) else b.flags)
      && b'.cost >= b.cost + 2 * PlanOf(ch, c.cntL, c.cntH, reason).count + 4
  {
    FiredBus(b, w, pc, ch, reason, mask);
    FiredChannels(b, w, pc, ch, reason, mask);
  }

  /** The destination cursor is reloaded from its registers exactly in reload
      mode, and otherwise has moved by count * step, modulo 2^32. */
  lemma AdvancedDest(c: Channel, p: Plan, fill: bool, reason: bv16)
    requires ChannelOk(c) && IsWord(p.srcStep) && IsWord(p.dstStep) && p.count >= 0
    ensures DestMode(c.cntH) == 3 ==> Advanced(c, p, fill, reason).dest == Latch(c.dadL, c.dadH)
    ensures DestMode(c.cntH) != 3 ==>
      Advanced(c, p, fill, reason).dest == Wrap32(c.dest + Wrap32(p.count * UnitStep(p.dstStep, p.word)))
  {
    ScaledIsProduct(p.count, UnitStep(p.dstStep, p.word));
  }

  /** A channel's control register after its share of a trigger. */
  lemma ControlAfterChannel(b: Bus, w: Waits, pc: int, ch: int, reason: bv16, mask: bv16, j: int)
    requires BusOk(b) && WaitsOk(w) && 0 <= ch < 4 && 0 <= j < 4
    ensures RunChannel(b, w, pc, ch, reason, mask).ch[j].cntH
      == if j == ch && Fires(ch, b.ch[ch].cntH, reason, mask) then ControlAfter(b.ch[ch].cntH, reason) else b.ch[j].cntH
  {
  }

  /** After the first n channels' shares each channel's control register
      depends on that channel alone: a channel among them fires or keeps its
      value, whatever the others do, and the rest keep theirs. */
  lemma {:induction false} RunUpToControl(b: Bus, w: Waits, pc: int, reason: bv16, mask: bv16, n: int, ch: int)
    requires BusOk(b) && WaitsOk(w) && 0 <= n <= 4 && 0 <= ch < 4
    ensures RunUpTo(b, w, pc, reason, mask, n).ch[ch].cntH
      == if ch < n && Fires(ch, b.ch[ch].cntH, reason, mask) then ControlAfter(b.ch[ch].cntH, reason) else b.ch[ch].cntH
  {
    if n > 0 {
      RunUpToControl(b, w, pc, reason, mask, n - 1, ch);
      ControlAfterChannel(RunUpTo(b, w, pc, reason, mask, n - 1), w, pc, n - 1, reason, mask, ch);
    }
  }

  /** After a whole trigger each channel's control register depends on that
      channel alone: it fires or keeps its value, whatever the others do. */
  lemma RunAllControl(b: Bus, w: Waits, pc: int, reason: bv16, mask: bv16, ch: int)
    requires BusOk(b) && WaitsOk(w) && 0 <= ch < 4
    ensures RunAll(b, w, pc, reason, mask).ch[ch].cntH
      == if Fires(ch, b.ch[ch].cntH, reason, mask) then ControlAfter(b.ch[ch].cntH, reason) else b.ch[ch].cntH
  {
    RunUpToControl(b, w, pc, reason, mask, 4, ch);
  }

  /** Every flag raised in `before` is still raised in `after`. */
  predicate KeepsFlags(before: bv16, after: bv16)
  {
    after & before == before
  }

  /** A trigger never lowers an interrupt flag: every flag raised before it
      is still raised after the first n channels' shares. */
  lemma {:induction false} RunUpToKeepsFlags(b: Bus, w: Waits, pc: int, reason: bv16, mask: bv16, n: int)
    requires BusOk(b) && WaitsOk(w) && 0 <= n <= 4
    ensures KeepsFlags(b.flags, RunUpTo(b, w, pc, reason, mask, n).flags)
  {
    if n > 0 {
      var prev := RunUpTo(b, w, pc, reason, mask, n - 1);
      RunUpToKeepsFlags(b, w, pc, reason, mask, n - 1);
      ChannelKeepsFlags(prev, w, pc, n - 1, reason, mask);
      Covers(b.flags, prev.flags, RunChannel(prev, w, pc, n - 1, reason, mask).flags);
    }
  }

  /** A whole trigger never lowers a flag. */
  lemma RunAllKeepsFlags(b: Bus, w: Waits, pc: int, reason: bv16, mask: bv16)
    requires BusOk(b) && WaitsOk(w)
    ensures KeepsFlags(b.flags, RunAll(b, w, pc, reason, mask).flags)
  {
    RunUpToKeepsFlags(b, w, pc, reason, mask, 4);
  }

  /** A channel that fires runs its transfer, then its completion. */
  lemma RunFired(b: Bus, w: Waits, pc: int, ch: int, reason: bv16, mask: bv16)
    requires BusOk(b) && WaitsOk(w) && 0 <= ch < 4 && Fires(ch, b.ch[ch].cntH, reason, mask)
    ensures RunChannel(b, w, pc, ch, reason, mask) == Complete(Transfer(b, w, pc, ch, reason), ch, reason)
  {
  }

  /** A whole trigger run after a change that kept every flag still keeps
      them. */
  lemma RunAllAfterKeeps(x: bv16, b: Bus, w: Waits, pc: int, reason: bv16, mask: bv16)
    requires BusOk(b) && WaitsOk(w) && KeepsFlags(x, b.flags)
    ensures KeepsFlags(x, RunAll(b, w, pc, reason, mask).flags)
  {
    RunAllKeepsFlags(b, w, pc, reason, mask);
    Covers(x, b.flags, RunAll(b, w, pc, reason, mask).flags);
  }

  /** One channel's share never lowers a flag. */
  lemma ChannelKeepsFlags(b: Bus, w: Waits, pc: int, ch: int, reason: bv16, mask: bv16)
    requires BusOk(b) && WaitsOk(w) && 0 <= ch < 4
    ensures KeepsFlags(b.flags, RunChannel(b, w, pc, ch, reason, mask).flags)
  {
    if Fires(ch, b.ch[ch].cntH, reason, mask) {
      FiredBus(b, w, pc, ch, reason, mask);
    }
  }

  /** Keeping every flag is transitive. */
  lemma Covers(x: bv16, y: bv16, z: bv16)
    requires KeepsFlags(x, y) && KeepsFlags(y, z)
    ensures KeepsFlags(x, z)
  {
  }

  /** A raised flag that is kept stays raised. */
  lemma KeptBit(before: bv16, after: bv16, bit: bv16)
    requires KeepsFlags(before, after)
    ensures before & bit != 0 ==> after & bit != 0
  {
  }

  /** No channel is enabled (control bit 15 clear on all four). */
  predicate Idle(chs: seq<Channel>)
    requires |chs| == 4
  {
    forall ch :: 0 <= ch < 4 ==> chs[ch].cntH & 0x8000 == 0
  }

  /** With no channel enabled a trigger changes nothing: no store, no flag,
      no cost, no register. */
  lemma {:induction false} RunUpToIdle(b: Bus, w: Waits, pc: int, reason: bv16, mask: bv16, n: int)
    requires BusOk(b) && WaitsOk(w) && 0 <= n <= 4 && Idle(b.ch)
    ensures RunUpTo(b, w, pc, reason, mask, n) == b
  {
    if n > 0 {
      RunUpToIdle(b, w, pc, reason, mask, n - 1);
      assert !Fires(n - 1, b.ch[n - 1].cntH, reason, mask);
    }
  }

  /** Channel ch fires on the trigger and asks for an interrupt (bit 14). */
  predicate Signals(ch: int, cntH: bv16, reason: bv16, mask: bv16)
    requires 0 <= ch < 4
  {
    Fires(ch, cntH, reason, mask) && cntH & 0x4000 != 0
  }

  /** One of the first n channels fires on the trigger and asks for an
      interrupt. */
  predicate SignalsBelow(chs: seq<Channel>, reason: bv16, mask: bv16, n: int)
    requires |chs| == 4 && 0 <= n <= 4
  {
    exists ch :: 0 <= ch < n && Signals(ch, chs[ch].cntH, reason, mask)
  }

  /** Counting one more channel adds its own signal. */
  lemma SignalsBelowNext(chs: seq<Channel>, reason: bv16, mask: bv16, n: int)
    requires |chs| == 4 && 0 <= n < 4
    ensures SignalsBelow(chs, reason, mask, n + 1)
      <==> SignalsBelow(chs, reason, mask, n) || Signals(n, chs[n].cntH, reason, mask)
  {
    if SignalsBelow(chs, reason, mask, n + 1) && !Signals(n, chs[n].cntH, reason, mask) {
      var ch :| 0 <= ch < n + 1 && Signals(ch, chs[ch].cntH, reason, mask);
      assert ch < n;
    }
  }

  /** Distinct channels have disjoint mask bits. */
  lemma BitsApart(ch: int, j: int)
    requires 0 <= ch < 4 && 0 <= j < 4
    ensures ChannelBit(ch) & ChannelBit(j) != 0 <==> ch == j
  {
  }

  /** Writing a control value that switches a channel on latches both its
      cursors from its address registers. */
  function Started(b: Bus, ch: int): (b': Bus)
    requires BusOk(b) && 0 <= ch < 4
    ensures BusOk(b') && b'.mem == b.mem && b'.flags == b.flags && b'.cost == b.cost
  {
    var c := b.ch[ch];
    b.(ch := b.ch[ch := c.(source := Latch(c.sadL, c.sadH), dest := Latch(c.dadL, c.dadH))])
  }

  /** A trigger whose mask selects a single channel runs that channel alone:
      every other channel is passed over whatever its control register says. */
  lemma {:induction false} SingleChannel(b: Bus, w: Waits, pc: int, reason: bv16, ch: int, n: int)
    requires BusOk(b) && WaitsOk(w) && 0 <= ch < 4 && 0 <= n <= 4
    ensures RunUpTo(b, w, pc, reason, ChannelBit(ch), n)
      == if ch < n then RunChannel(b, w, pc, ch, reason, ChannelBit(ch)) else b
  {
    if n > 0 {
      SingleChannel(b, w, pc, reason, ch, n - 1);
      BitsApart(ch, n - 1);
      var prev := RunUpTo(b, w, pc, reason, ChannelBit(ch), n - 1);
      if n - 1 != ch {
        assert !Fires(n - 1, prev.ch[n - 1].cntH, reason, ChannelBit(ch));
      } else {
        assert prev == b;
      }
    }
  }

  /** With a single channel selected, only that channel can ask for an
      interrupt. */
  lemma SingleSignal(chs: seq<Channel>, reason: bv16, ch: int)
    requires |chs| == 4 && 0 <= ch < 4
    ensures SignalsBelow(chs, reason, ChannelBit(ch), 4) <==> Signals(ch, chs[ch].cntH, reason, ChannelBit(ch))
  {
    if SignalsBelow(chs, reason, ChannelBit(ch), 4) {
      var j :| 0 <= j < 4 && Signals(j, chs[j].cntH, reason, ChannelBit(ch));
      BitsApart(ch, j);
    }
  }
}
