/** The I/O register file: the values a register write stores, the interrupt
    flag write-to-clear rule, the keypad interrupt condition, the wait-state
    tables the WAITCNT register selects, and the register image after reset.
    Registers are 16 bits wide; the register file is kept as 0x200 halfwords,
    so the register at byte address a is halfword a / 2. */
module Io {
  import Dma

  /** Writing `value` to IF acknowledges the flags set in it: every flag set in
      the value is cleared, every other flag is kept. */
  function ClearFlags(flags: bv16, value: bv16): (r: bv16)
    ensures r == flags & !value
    ensures r & value == 0
  {
    flags ^ (value & flags)
  }

  /** Writing 0 to IF changes nothing, writing 0xFFFF clears every flag. */
  lemma ClearFlagsEdges(flags: bv16)
    ensures ClearFlags(flags, 0) == flags
    ensures ClearFlags(flags, 0xFFFF) == 0
  {
  }

  /** Graphics registers that store their write through a fixed mask. */
  predicate IsGraphics(a: int)
  {
    a % 2 == 0 && 0x08 <= a <= 0x54 && a != 0x4E
  }

  /** Bits a display register keeps from a write; display registers not named
      here, and unhandled addresses, keep every bit. */
  function StoreMask(a: int): (m: bv16)
    ensures !IsGraphics(a) ==> m == 0xFFFF
  {
    if !IsGraphics(a) then 0xFFFF
    else if a == 0x08 || a == 0x0A then 0xDFCF
    else if a == 0x0C || a == 0x0E then 0xFFCF
    else if 0x10 <= a <= 0x1E then 0x01FF
    else if a == 0x2A || a == 0x2E || a == 0x3A || a == 0x3E then 0x0FFF
    else if a == 0x48 || a == 0x4A then 0x3F3F
    else if a == 0x50 then 0x3FFF
    else if a == 0x52 then 0x1F1F
    else if a == 0x54 then 0x001F
    else 0xFFFF
  }

  /** The background offsets are nine bits and the reference-point high halves
      twelve; the affine parameters, windows and mosaic keep the whole write. */
  lemma StoreMaskCases()
    ensures forall a: int :: 0x10 <= a <= 0x1E && a % 2 == 0 ==> StoreMask(a) == 511
    ensures StoreMask(0x2A) == 0xFFF && StoreMask(0x20) == 0xFFFF && StoreMask(0x4C) == 0xFFFF
  {
  }

  /** Sound registers: their writes go to the sound unit, which is not part of
      this model, and leave the register file alone. */
  predicate IsSound(a: int)
  {
    a in {0x60, 0x62, 0x64, 0x68, 0x6C, 0x70, 0x72, 0x74, 0x78, 0x7C, 0x80, 0x84,
          0x82, 0x88, 0xA0, 0xA2, 0xA4, 0xA6, 0x90, 0x92, 0x94, 0x96, 0x98, 0x9A, 0x9C, 0x9E}
  }

  /** Bits a DMA register keeps: register k of channel ch, in the order source
      low/high, destination low/high, count, control. */
  function DmaMask(ch: int, k: int): bv16
    requires 0 <= ch < 4 && 0 <= k < 6
  {
    if k == 1 then (if ch == 0 then 0x07FF else 0x0FFF)
    else if k == 3 then (if ch == 3 then 0x0FFF else 0x07FF)
    else if k == 4 then (if ch == 3 then 0xFFFF else 0x3FFF)
    else if k == 5 then (if ch == 3 then 0xFFE0 else 0xF7E0)
    else 0xFFFF
  }

  /** Source addresses reach 27 bits on channels 1-3 and destination addresses
      on channel 3 only; the control register never keeps bits 0-4, and bit 11
      (game-pak DRQ) only on channel 3. */
  lemma DmaMaskFacts(ch: int)
    requires 0 <= ch < 4
    ensures DmaMask(ch, 1) == (if ch == 0 then 0x07FF else 0x0FFF)
    ensures DmaMask(ch, 3) == (if ch == 3 then 0x0FFF else 0x07FF)
    ensures DmaMask(ch, 5) & 0x1F == 0
    ensures DmaMask(ch, 5) & 0x800 != 0 <==> ch == 3
  {
  }

  /** The control register after a write: the display mode bits 0-2 and the
      status bits written by hardware are kept; the CPU may not set the CGB
      mode bit 3. */
  function DisplayControl(value: bv16): (r: bv16)
    ensures r & 8 == 0
    ensures r & !8 == value & !8
  {
    value & 0xFFF7
  }

  /** What a DISPCNT write does besides storing the value: the layers shown at
      once, whether newly enabled backgrounds appear only after a delay, and
      whether leaving forced blank restarts the current line. */
  datatype DisplayWrite = DisplayWrite(layers: bv16, delayed: bool, restart: bool)

  /** The effect of writing `value` over DISPCNT `current`. A prohibited mode
      (6 or 7) first replaces the old value by the bare mode bits, and the
      comparisons below are made against that. Backgrounds 0-3 (bits 8-11)
      being switched on are withheld from the layers shown and appear after a
      delay; the line restarts when the write clears forced blank (bit 7). */
  function DisplayEffect(current: bv16, value: bv16): (r: DisplayWrite)
    ensures var before := if value & 7 > 5 then value & 7 else current;
      && (r.delayed <==> !before & value & 0x0F00 != 0)
      && (r.restart <==> before & 0x80 != 0 && value & 0x80 == 0)
      && r.layers == Withheld(before, value)
  {
    var before := if value & 7 > 5 then value & 7 else current;
    DisplayWrite(Withheld(before, value), !before & value & 0x0F00 != 0, ForcedBlankCleared(before, value))
  }

  function ForcedBlankCleared(before: bv16, value: bv16): (b: bool)
    ensures b <==> before & 0x80 != 0 && value & 0x80 == 0
  {
    (before ^ value) & 0x80 != 0 && value & 0x80 == 0
  }

  /** The layers shown right after a DISPCNT write: the written value without
      the backgrounds that were off before it. */
  function Withheld(before: bv16, value: bv16): (l: bv16)
    ensures l & 0xF0FF == value & 0xF0FF
    ensures l & 0x0F00 == before & value & 0x0F00
  {
    var turnedOn := !before & value & 0x0F00;
    if turnedOn != 0 then value & !turnedOn else value
  }

  /** DISPSTAT after a write: V-blank, H-blank and V-count-match (bits 0-2)
      are read-only, bits 6-7 do not exist, the rest comes from the write. */
  function DisplayStatus(old_: bv16, value: bv16): (r: bv16)
    ensures r & 7 == old_ & 7
    ensures r & 0xC0 == 0
    ensures r & 0xFF38 == value & 0xFF38
  {
    (value & 0xFF38) | (old_ & 7)
  }

  /** Serial control after a write without a link: starting a transfer (bit 7)
      with the internal clock (bit 0) and the interrupt enable (bit 14)
      completes it at once and clears the start bit and bit 15; the start bit
      is never kept. */
  datatype Serial = Serial(control: bv16, completes: bool)

  function SerialControl(value: bv16): (r: Serial)
    ensures r.control & 0x80 == 0
    ensures r.completes <==> value & 0x80 != 0 && value & 1 != 0 && value & 0x4000 != 0
    ensures r.completes ==> r.control == value & 0x7F7F
    ensures !r.completes ==> r.control == value & 0xFF7F
  {
    if value & 0x80 != 0 then
      var v := value & 0xFF7F;
      if v & 1 != 0 && v & 0x4000 != 0 then Serial(v & 0x7F7F, true) else Serial(v, false)
    else Serial(value, false)
  }

  /** POSTFLG/HALTCNT after a write: any nonzero value loses bit 0. */
  function PostFlag(value: bv16): (r: bv16)
    ensures r == 0 <==> value == 0 || value == 1
    ensures r & 0xFFFE == value & 0xFFFE
  {
    if value != 0 then value & 0xFFFE else value
  }

  /** The keypad interrupt condition checked at the start of V-blank: with the
      interrupt enabled (KEYCNT bit 14), or in stop mode, the pressed keys
      (the complement of KEYINPUT) must include all selected keys when bit 15
      asks for AND, or any of them otherwise. */
  predicate KeypadIrq(keys: bv16, keyControl: bv16, stopped: bool)
  {
    var pressed := (0x3FF ^ keys) & 0x3FF;
    && (keyControl & 0x4000 != 0 || stopped)
    && (if keyControl & 0x8000 != 0 then pressed == keyControl & 0x3FF else pressed & keyControl != 0)
  }

  /** KEYINPUT for a joypad reading: a key reads 0 while pressed. */
  function KeyInput(joy: bv16): (r: bv16)
    ensures r & 0xFC00 == 0
    ensures (0x3FF ^ r) & 0x3FF == joy & 0x3FF
  {
    0x3FF ^ (joy & 0x3FF)
  }

  /** Game-pak wait states selectable by WAITCNT. */
  const RamWait: seq<int> := [4, 3, 2, 8]
  const FirstWait: seq<int> := [4, 3, 2, 8]
  const SeqWait0: seq<int> := [2, 1]
  const SeqWait1: seq<int> := [4, 1]
  const SeqWait2: seq<int> := [8, 1]

  /** The 16-bit first and sequential waits WAITCNT selects for region i (8-14). */
  function PakWait(value: bv16, i: int): (r: int)
    requires 8 <= i <= 14
    ensures 2 <= r <= 8
  {
    if i == 14 then RamWait[(value & 3) as int]
    else if i < 10 then FirstWait[((value >> 2) & 3) as int]
    else if i < 12 then FirstWait[((value >> 5) & 3) as int]
    else FirstWait[((value >> 8) & 3) as int]
  }

  function PakSeqWait(value: bv16, i: int): (r: int)
    requires 8 <= i <= 14
    ensures 1 <= r <= 8
  {
    if i == 14 then RamWait[(value & 3) as int]
    else if i < 10 then SeqWait0[((value >> 4) & 1) as int]
    else if i < 12 then SeqWait1[((value >> 7) & 1) as int]
    else SeqWait2[((value >> 10) & 1) as int]
  }

  /** The wait tables after a write of `value` to WAITCNT: regions 8-14 take
      the selected 16-bit waits, a 32-bit access there costs a first and a
      sequential 16-bit access, and every other region keeps its entries. */
  function WaitTables(w: Dma.Waits, value: bv16): (r: Dma.Waits)
    requires Dma.WaitsOk(w)
    ensures Dma.WaitsOk(r)
    ensures forall i :: 0 <= i < 16 && !(8 <= i <= 14) ==>
      r.wait[i] == w.wait[i] && r.seqWait[i] == w.seqWait[i] && r.wait32[i] == w.wait32[i] && r.seqWait32[i] == w.seqWait32[i]
    ensures forall i :: 8 <= i <= 14 ==>
      && r.wait[i] == PakWait(value, i) && r.seqWait[i] == PakSeqWait(value, i)
      && r.wait32[i] == r.wait[i] + r.seqWait[i] + 1 && r.seqWait32[i] == 2 * r.seqWait[i] + 1
  {
    Dma.Waits(
      seq(16, i requires 0 <= i < 16 => if 8 <= i <= 14 then PakWait(value, i) else w.wait[i]),
      seq(16, i requires 0 <= i < 16 => if 8 <= i <= 14 then PakSeqWait(value, i) else w.seqWait[i]),
      seq(16, i requires 0 <= i < 16 =>
        if 8 <= i <= 14 then PakWait(value, i) + PakSeqWait(value, i) + 1 else w.wait32[i]),
      seq(16, i requires 0 <= i < 16 => if 8 <= i <= 14 then 2 * PakSeqWait(value, i) + 1 else w.seqWait32[i]))
  }

  /** The wait tables the emulator starts with. */
  const InitialWaits := Dma.Waits(
    [0, 0, 2, 0, 0, 0, 0, 0, 4, 4, 4, 4, 4, 4, 4, 0],
    [0, 0, 2, 0, 0, 0, 0, 0, 2, 2, 4, 4, 8, 8, 4, 0],
    [0, 0, 5, 0, 0, 1, 1, 0, 7, 7, 9, 9, 13, 13, 4, 0],
    [0, 0, 5, 0, 0, 1, 1, 0, 5, 5, 9, 9, 17, 17, 4, 0])

  /** The initial tables hold no negative wait. */
  lemma InitialWaitsOk()
    ensures Dma.WaitsOk(InitialWaits)
  {
  }

  /** The initial tables are those a write of 0 to WAITCNT selects, except the
      32-bit entries of the SRAM region 14, which such a write raises from 4
      to 9. */
  lemma InitialWaitsAreWaitCntZero()
    ensures var r := WaitTables(InitialWaits, 0);
      && r.wait == InitialWaits.wait && r.seqWait == InitialWaits.seqWait
      && r.wait32 == InitialWaits.wait32[14 := 9] && r.seqWait32 == InitialWaits.seqWait32[14 := 9]
  {
    ZeroFirstWaits();
    ZeroSeqWaits();
    ZeroWaits32();
    ZeroSeqWaits32();
  }

  /** The four tables of InitialWaitsAreWaitCntZero, one at a time (helpers). */
  lemma ZeroFirstWaits()
    ensures WaitTables(InitialWaits, 0).wait == InitialWaits.wait
  {
    var r := WaitTables(InitialWaits, 0);
    forall i | 0 <= i < 16
      ensures r.wait[i] == InitialWaits.wait[i]
    {
    }
  }

  lemma ZeroSeqWaits()
    ensures WaitTables(InitialWaits, 0).seqWait == InitialWaits.seqWait
  {
    var r := WaitTables(InitialWaits, 0);
    forall i | 0 <= i < 16
      ensures r.seqWait[i] == InitialWaits.seqWait[i]
    {
    }
  }

  lemma ZeroWaits32()
    ensures WaitTables(InitialWaits, 0).wait32 == InitialWaits.wait32[14 := 9]
  {
    var r := WaitTables(InitialWaits, 0);
    forall i | 0 <= i < 16
      ensures r.wait32[i] == InitialWaits.wait32[14 := 9][i]
    {
    }
  }

  lemma ZeroSeqWaits32()
    ensures WaitTables(InitialWaits, 0).seqWait32 == InitialWaits.seqWait32[14 := 9]
  {
    var r := WaitTables(InitialWaits, 0);
    forall i | 0 <= i < 16
      ensures r.seqWait32[i] == InitialWaits.seqWait32[14 := 9][i]
    {
    }
  }

  /** The register file after reset: everything zero except the display
      control (forced blank), the affine scale factors of backgrounds 2 and 3
      (1.0), KEYINPUT (no key pressed) and the sound bias. */
  function ResetValue(k: int): (r: bv16)
    requires 0 <= k < 0x200
  {
    if k == 0 then 0x80
    else if k == 0x10 || k == 0x13 || k == 0x18 || k == 0x1B then 0x100
    else if k == 0x98 then 0x3FF
    else if k == 0x44 then 0x200
    else 0
  }
}
