/** The LCD controller's line timing as the scheduler drives it: each of the
    228 scanlines spends 1008 cycles drawing and 224 cycles in horizontal blank;
    lines 160-227 are the vertical blank. An event fires whenever the LCD
    countdown reaches zero and moves the controller to its next phase. */
module Lcd {

  const Lines := 228
  const VisibleLines := 160
  const DrawCycles := 1008
  const HblankCycles := 224
  const LineCycles := DrawCycles + HblankCycles

  /** Where the controller is: the current line (VCOUNT) and the V-blank and
      H-blank status bits (DISPSTAT bits 0 and 1). */
  datatype Phase = Phase(line: int, vblank: bool, hblank: bool)

  /** The V-blank bit is set exactly on the lines below the visible screen. */
  predicate WellFormed(p: Phase)
  {
    0 <= p.line < Lines && (p.vblank <==> p.line >= VisibleLines)
  }

  /** The phase an event leads to and the cycles added to the LCD countdown. */
  datatype Step = Step(next: Phase, cycles: int)

  /** One LCD event. Leaving H-blank advances the line (wrapping from 227 to 0
      and clearing both status bits) and reloads a drawing period; leaving the
      drawing period enters H-blank on the same line for its shorter period. */
  function Next(p: Phase): (s: Step)
    requires WellFormed(p)
    ensures WellFormed(s.next)
    ensures s.next.hblank == !p.hblank
    ensures s.next.line == if p.hblank then (p.line + 1) % Lines else p.line
    ensures s.cycles == if p.hblank then DrawCycles else HblankCycles
  {
    if p.vblank then
      if p.hblank then
        var line := p.line + 1;
        if line >= Lines then Step(Phase(0, false, false), DrawCycles)
        else Step(Phase(line, true, false), DrawCycles)
      else Step(Phase(p.line, true, true), HblankCycles)
    else if p.hblank then
      var line := p.line + 1;
      Step(Phase(line, line == VisibleLines, false), DrawCycles)
    else Step(Phase(p.line, false, true), HblankCycles)
  }

  /** V-blank starts on this event: the controller leaves H-blank on line 159. */
  predicate EntersVblank(p: Phase)
  {
    !p.vblank && p.hblank && p.line + 1 == VisibleLines
  }

  /** H-blank starts on this event; on a visible line the line is drawn first. */
  predicate EntersHblank(p: Phase)
  {
    !p.hblank
  }

  lemma VblankEntry(p: Phase)
    requires WellFormed(p)
    ensures EntersVblank(p) <==> !p.vblank && Next(p).next.vblank
  {
  }

  /** The state after starting at the top of the frame and running `n` events. */
  datatype Trace = Trace(phase: Phase, cycles: int)

  function Run(p: Phase, n: nat): (t: Trace)
    requires WellFormed(p)
    ensures WellFormed(t.phase)
  {
    if n == 0 then Trace(p, 0)
    else
      var t := Run(p, n - 1);
      var s := Next(t.phase);
      Trace(s.next, t.cycles + s.cycles)
  }

  /** The line DISPSTAT's high byte selects for the V-count match. */
  function MatchLine(stat: bv16): (r: int)
    ensures 0 <= r < 256
  {
    (stat >> 8) as int
  }

  /** DISPSTAT after the V-count check on `line`: bit 2 is set exactly on a
      match and every other bit is kept. */
  function MatchStatus(stat: bv16, line: int): (r: bv16)
    ensures r & 4 != 0 <==> line == MatchLine(stat)
    ensures r & 1 == stat & 1 && r & 2 == stat & 2
    ensures r & 0xFFF8 == stat & 0xFFF8
  {
    if line == MatchLine(stat) then stat | 4 else stat & 0xFFFB
  }

  /** A match raises the V-count interrupt when DISPSTAT bit 5 enables it. */
  predicate MatchRaises(stat: bv16, line: int)
  {
    line == MatchLine(stat) && stat & 0x20 != 0
  }

  /** DISPSTAT with its V-blank (bit 0) and H-blank (bit 1) bits set as
      given and every other bit kept. */
  function Blanks(stat: bv16, vblank: bool, hblank: bool): (r: bv16)
    ensures r & 1 != 0 <==> vblank
    ensures r & 2 != 0 <==> hblank
    ensures r & 0xFFFC == stat & 0xFFFC
  {
    (stat & 0xFFFC) | (if vblank then 1 else 0) | (if hblank then 2 else 0)
  }

  /** The V-count settings (the selected line and the interrupt enable bit 5)
      live in DISPSTAT bits 3-15, which neither the blank bits nor the match
      bit touch. */
  lemma SettingsKept(s: bv16, t: bv16, line: int)
    requires s & 0xFFF8 == t & 0xFFF8
    ensures MatchLine(s) == MatchLine(t)
    ensures MatchRaises(s, line) <==> MatchRaises(t, line)
  {
    assert s >> 8 == (s & 0xFFF8) >> 8;
    assert t >> 8 == (t & 0xFFF8) >> 8;
    assert s & 0x20 == (s & 0xFFF8) & 0x20;
    assert t & 0x20 == (t & 0xFFF8) & 0x20;
  }

  const Top := Phase(0, false, false)

  /** After 2k events from the top of the frame the controller starts drawing
      line k, with k whole lines of 1232 cycles behind it. */
  lemma {:induction false} LineStarts(k: nat)
    requires k < Lines
    ensures Run(Top, 2 * k) == Trace(Phase(k, k >= VisibleLines, false), k * LineCycles)
  {
    if k > 0 {
      LineStarts(k - 1);
      assert 2 * k == 2 * (k - 1) + 2;
    }
  }

  /** A frame is 456 events and 280896 cycles, after which the controller is
      back at the top of the next frame. */
  lemma Frame()
    ensures Run(Top, 2 * Lines) == Trace(Top, Lines * LineCycles)
    ensures Lines * LineCycles == 280896
  {
    LineStarts(Lines - 1);
  }
}
