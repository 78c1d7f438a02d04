/** The emulator's global state, grouped the way the core uses it, and the
    rule that ties the registers kept in variables to their copies in the
    register file: every register the core reads from a variable is also
    stored, with the same value, at its halfword in the register file. */
module State {
  import Timers
  import Dma

  /** A DMA trigger: its reason (0 immediate, 1 V-blank, 2 H-blank, 3 special)
      and the channels it may start. */
  datatype Trigger = Trigger(reason: bv16, mask: bv16)

  /** The display registers the core keeps in variables: DISPCNT, DISPSTAT
      and VCOUNT. */
  datatype Video = Video(dispCnt: bv16, dispStat: bv16, vCount: int)

  /** The interrupt controller: IE, IF and IME. */
  datatype Irq = Irq(enable: bv16, flags: bv16, master: bv16)

  /** The scheduler's counters: cycles until the next LCD event, sound tick and
      pending interrupt, cycles owed to DMA, the cycle count at which the CPU
      must stop for the next event, and the cycles it has run since the last
      pass. */
  datatype Clock = Clock(lcd: int, sound: int, irq: int, dma: int, next: int, total: int)

  /** The CPU as the core sees it: its program counter, whether it accepts
      IRQs, whether it is halted or stopped, whether an interrupt is latched,
      how many interrupts it has been handed, and whether bus prefetch is on. */
  datatype Cpu = Cpu(pc: int, armIrq: bool, halted: bool, stopped: bool, latched: bool,
                     interrupts: nat, prefetch: bool)

  /** Halfword indices of the registers the core keeps in variables. */
  const DispCntIndex := 0x00
  const DispStatIndex := 0x02
  const VCountIndex := 0x03
  const KeyInputIndex := 0x98
  const KeyControlIndex := 0x99
  const IeIndex := 0x100
  const IfIndex := 0x101
  const WaitCntIndex := 0x102
  const ImeIndex := 0x104

  /** Halfword index of register k (0-5) of DMA channel ch: source low/high,
      destination low/high, count, control. */
  function DmaIndex(ch: int, k: int): int
  {
    0x58 + 6 * ch + k
  }

  /** Halfword index of timer i's counter (k = 0) or control (k = 1). */
  function TimerIndex(i: int, k: int): int
  {
    0x80 + 2 * i + k
  }

  /** What register k of a channel reads back: the value last stored, except
      the count register, which always reads 0. */
  function DmaReg(c: Dma.Channel, k: int): bv16
  {
    if k == 0 then c.sadL else if k == 1 then c.sadH else if k == 2 then c.dadL
    else if k == 3 then c.dadH else if k == 4 then 0 else c.cntH
  }

  /** What a timer's counter (k = 0) and control (k = 1) registers read back. */
  function TimerReg(t: Timers.Timer, k: int): bv16
    requires 0 <= t.counter <= 0xFFFF
  {
    if k == 0 then t.counter as bv16 else t.control
  }

  /** Register-file slots no variable of the core mirrors. */
  predicate Plain(k: int)
  {
    && 0 <= k < 0x200
    && k != DispCntIndex && k != DispStatIndex && k != VCountIndex && k != KeyInputIndex
    && k != IeIndex && k != IfIndex && k != ImeIndex
    && !(0x58 <= k < 0x70) && !(0x80 <= k < 0x88)
  }

  /** The display, keypad and interrupt registers in the register file `r`. */
  predicate RegsMirror(r: seq<bv16>, v: Video, keys: bv16, q: Irq)
  {
    && |r| == 0x200 && 0 <= v.vCount <= 0xFFFF
    && r[DispCntIndex] == v.dispCnt && r[DispStatIndex] == v.dispStat
    && r[VCountIndex] == v.vCount as bv16 && r[KeyInputIndex] == keys
    && r[IeIndex] == q.enable && r[IfIndex] == q.flags && r[ImeIndex] == q.master
  }

  /** The 24 DMA registers, channel by channel, as they read back. */
  function DmaImage(chs: seq<Dma.Channel>): (m: seq<bv16>)
    requires |chs| == 4
    ensures |m| == 24
    ensures forall ch, k :: 0 <= ch < 4 && 0 <= k < 6 ==> m[6 * ch + k] == DmaReg(chs[ch], k)
  {
    seq(24, j requires 0 <= j < 24 => DmaReg(chs[j / 6], j % 6))
  }

  /** Every timer counter fits in 16 bits. */
  predicate CountersOk(ts: Timers.Bank)
  {
    |ts| == 4 && forall i :: 0 <= i < 4 ==> 0 <= ts[i].counter <= 0xFFFF
  }

  /** The eight timer registers, timer by timer, as they read back. */
  function TimerImage(ts: Timers.Bank): (m: seq<bv16>)
    requires CountersOk(ts)
    ensures |m| == 8
    ensures forall i, k :: 0 <= i < 4 && 0 <= k < 2 ==> m[2 * i + k] == TimerReg(ts[i], k)
  {
    seq(8, j requires 0 <= j < 8 => TimerReg(ts[j / 2], j % 2))
  }

  /** The DMA registers in `r`. */
  predicate DmaMirror(r: seq<bv16>, chs: seq<Dma.Channel>)
  {
    |r| == 0x200 && |chs| == 4 && r[0x58..0x70] == DmaImage(chs)
  }

  /** The timer registers in `r`; every counter fits in 16 bits. */
  predicate TimerMirror(r: seq<bv16>, ts: Timers.Bank)
  {
    |r| == 0x200 && CountersOk(ts) && r[0x80..0x88] == TimerImage(ts)
  }

  /** Register k of channel ch reads back from the register file. */
  lemma DmaRead(r: seq<bv16>, chs: seq<Dma.Channel>, ch: int, k: int)
    requires DmaMirror(r, chs) && 0 <= ch < 4 && 0 <= k < 6
    ensures r[DmaIndex(ch, k)] == DmaReg(chs[ch], k)
  {
    assert r[DmaIndex(ch, k)] == r[0x58..0x70][6 * ch + k];
  }

  /** A store outside the DMA registers keeps the DMA mirror. */
  lemma DmaStore(r: seq<bv16>, chs: seq<Dma.Channel>, k: int, x: bv16)
    requires DmaMirror(r, chs) && 0 <= k < 0x200 && !(0x58 <= k < 0x70)
    ensures DmaMirror(r[k := x], chs)
  {
    assert r[k := x][0x58..0x70] == r[0x58..0x70];
  }

  /** A store outside the timer registers keeps the timer mirror. */
  lemma TimerStore(r: seq<bv16>, ts: Timers.Bank, k: int, x: bv16)
    requires TimerMirror(r, ts) && 0 <= k < 0x200 && !(0x80 <= k < 0x88)
    ensures TimerMirror(r[k := x], ts)
  {
    assert r[k := x][0x80..0x88] == r[0x80..0x88];
  }

  /** A store outside the DMA and timer registers keeps both their mirrors. */
  lemma BanksStore(r: seq<bv16>, chs: seq<Dma.Channel>, ts: Timers.Bank, k: int, x: bv16)
    requires DmaMirror(r, chs) && TimerMirror(r, ts) && 0 <= k < 0x200
    requires !(0x58 <= k < 0x70) && !(0x80 <= k < 0x88)
    ensures DmaMirror(r[k := x], chs) && TimerMirror(r[k := x], ts)
  {
    DmaStore(r, chs, k, x);
    TimerStore(r, ts, k, x);
  }

  /** Storing register k of channel ch, with the channel's new value agreeing
      with the old one on its other registers, keeps the DMA mirror. */
  lemma DmaWrite(r: seq<bv16>, chs: seq<Dma.Channel>, ch: int, k: int, c: Dma.Channel)
    requires DmaMirror(r, chs) && 0 <= ch < 4 && 0 <= k < 6
    requires forall j :: 0 <= j < 6 && j != k ==> DmaReg(c, j) == DmaReg(chs[ch], j)
    ensures DmaMirror(r[DmaIndex(ch, k) := DmaReg(c, k)], chs[ch := c])
  {
    var r' := r[DmaIndex(ch, k) := DmaReg(c, k)];
    var m := DmaImage(chs[ch := c]);
    forall j | 0 <= j < 24
      ensures r'[0x58..0x70][j] == m[j]
    {
      var ch', j' := j / 6, j % 6;
      assert j == 6 * ch' + j';
      assert r[0x58..0x70][j] == DmaReg(chs[ch'], j');
    }
    assert r'[0x58..0x70] == m;
  }

  /** Storing register k of timer i, with the timer's new value agreeing with
      the old one on its other register, keeps the timer mirror. */
  lemma TimerWrite(r: seq<bv16>, ts: Timers.Bank, i: int, k: int, t: Timers.Timer)
    requires TimerMirror(r, ts) && 0 <= i < 4 && 0 <= k < 2 && 0 <= t.counter <= 0xFFFF
    requires forall j :: 0 <= j < 2 && j != k ==> TimerReg(t, j) == TimerReg(ts[i], j)
    ensures TimerMirror(r[TimerIndex(i, k) := TimerReg(t, k)], ts[i := t])
  {
    var r' := r[TimerIndex(i, k) := TimerReg(t, k)];
    var ts' := ts[i := t];
    assert CountersOk(ts');
    var m := TimerImage(ts');
    forall j | 0 <= j < 8
      ensures r'[0x80..0x88][j] == m[j]
    {
      var i', j' := j / 2, j % 2;
      assert j == 2 * i' + j';
      assert r[0x80..0x88][j] == TimerReg(ts[i'], j');
    }
    assert r'[0x80..0x88] == m;
  }

  /** The register file with every mirrored slot blanked: what the core's
      variables do not determine. */
  function Plains(r: seq<bv16>): (p: seq<bv16>)
    requires |r| == 0x200
    ensures |p| == 0x200
  {
    seq(0x200, k requires 0 <= k < 0x200 => if Plain(k) then r[k] else 0)
  }

  /** Storing a mirrored slot leaves every plain slot as it was. */
  lemma PlainsKept(r: seq<bv16>, k: int, x: bv16)
    requires |r| == 0x200 && 0 <= k < 0x200 && !Plain(k)
    ensures Plains(r[k := x]) == Plains(r)
  {
    assert forall j :: 0 <= j < 0x200 ==> Plains(r[k := x])[j] == Plains(r)[j];
  }

  /** A change of a channel that every register reads back the same keeps the
      DMA mirror. */
  lemma DmaKeep(r: seq<bv16>, chs: seq<Dma.Channel>, ch: int, c: Dma.Channel)
    requires DmaMirror(r, chs) && 0 <= ch < 4
    requires forall j :: 0 <= j < 6 ==> DmaReg(c, j) == DmaReg(chs[ch], j)
    ensures DmaMirror(r, chs[ch := c])
  {
    assert DmaImage(chs[ch := c]) == DmaImage(chs);
  }

  /** A change of a timer that keeps its counter and control keeps the timer
      mirror. */
  lemma TimerKeep(r: seq<bv16>, ts: Timers.Bank, i: int, t: Timers.Timer)
    requires TimerMirror(r, ts) && 0 <= i < 4
    requires t.counter == ts[i].counter && t.control == ts[i].control
    ensures TimerMirror(r, ts[i := t])
  {
    assert TimerImage(ts[i := t]) == TimerImage(ts);
  }

  /** A channel with register k (0-4: source low/high, destination low/high,
      count) replaced. */
  function WithReg(c: Dma.Channel, k: int, v: bv16): (c': Dma.Channel)
    requires 0 <= k < 5
    ensures DmaReg(c', k) == if k == 4 then 0 else v
    ensures forall j :: 0 <= j < 6 && j != k ==> DmaReg(c', j) == DmaReg(c, j)
    ensures c'.cntH == c.cntH && c'.source == c.source && c'.dest == c.dest
  {
    if k == 0 then c.(sadL := v) else if k == 1 then c.(sadH := v)
    else if k == 2 then c.(dadL := v) else if k == 3 then c.(dadH := v) else c.(cntL := v)
  }
}
