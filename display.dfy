/** The frame buffer of the display driver: 240 x 160 pixels of 16-bit colour,
    filled one scanline at a time by the video timing state machine. */
module Display {

  const Width: int := 240
  const Height: int := 160

  /** Copies the low 16 bits of the 240 entries of `src` into row `line` of `pix`.
      The C code walks a destination cursor and an index through a loop unrolled
      sixteen times; the model keeps the outer loop and does the sixteen copies in
      an inner loop. The row bound is the caller's obligation: the function does
      not check it. */
  method DrawLine(pix: array<bv16>, line: int, src: array<bv32>)
    requires pix.Length == Width * Height
    requires 0 <= line < Height
    requires src.Length >= Width
    modifies pix
    ensures pix[..] == Copied(old(pix[..]), line, src[..])
  {
    var dest := Width * line;
    var x := 0;
    while x < Width
      invariant 0 <= x <= Width && x % 16 == 0
      invariant dest == Width * line + x
      invariant forall j :: 0 <= j < x ==> pix[Width * line + j] == (src[j] & 0xFFFF) as bv16
      invariant forall i :: 0 <= i < pix.Length && !(Width * line <= i < Width * line + x) ==> pix[i] == old(pix[i])
    {
      // one unrolled group of sixteen copies; x % 16 == 0 and Width % 16 == 0 keep
      // every read of src below index Width
      var k := 0;
      while k < 16
        invariant 0 <= k <= 16
        invariant dest == Width * line + x + k
        invariant forall j :: 0 <= j < x + k ==> pix[Width * line + j] == (src[j] & 0xFFFF) as bv16
        invariant forall i :: 0 <= i < pix.Length && !(Width * line <= i < Width * line + x + k) ==> pix[i] == old(pix[i])
      {
        pix[dest] := (src[x + k] & 0xFFFF) as bv16;
        dest := dest + 1;
        k := k + 1;
      }
      x := x + 16;
    }
    forall i | 0 <= i < pix.Length
      ensures pix[i] == Copied(old(pix[..]), line, src[..])[i]
    {
      if Width * line <= i < Width * line + Width {
        assert pix[Width * line + (i - Width * line)] == Low(src[i - Width * line]);
      }
    }
  }

  /** The frame `buf` with row `line` holding the low halves of the first
      `Width` entries of `src`. */
  function Copied(buf: seq<bv16>, line: int, src: seq<bv32>): (r: seq<bv16>)
    requires |buf| == Width * Height && 0 <= line < Height && |src| >= Width
    ensures |r| == |buf|
    ensures forall x :: 0 <= x < Width ==> r[Width * line + x] == Low(src[x])
    ensures forall i :: 0 <= i < |buf| && !(Width * line <= i < Width * line + Width) ==> r[i] == buf[i]
  {
    seq(|buf|, i requires 0 <= i < |buf| =>
      if Width * line <= i < Width * line + Width then Low(src[i - Width * line]) else buf[i])
  }

  /** The low 16 bits of a 32-bit mixer entry, the 15-bit colour stored. */
  function Low(w: bv32): bv16 { (w & 0xFFFF) as bv16 }

  /** The 16-bit pixel a byte fill leaves: the fill byte in both halves. */
  function Spread(value: int): (p: bv16)
    ensures p & 0xFF == (value % 256) as bv16 && p >> 8 == (value % 256) as bv16
  {
    ((value % 256) as bv16) * 0x101
  }

  /** The C library's byte fill over a frame buffer: the low byte of `value`
      is stored into the first `count` bytes. Pixels are two bytes, so an even
      count fills `count / 2` whole pixels and keeps the rest. */
  function Filled(buf: seq<bv16>, value: int, count: int): (r: seq<bv16>)
    requires 0 <= count <= 2 * |buf| && count % 2 == 0
    ensures |r| == |buf|
    ensures forall i :: 0 <= i < |buf| ==> r[i] == if i < count / 2 then Spread(value) else buf[i]
  {
    seq(|buf|, i requires 0 <= i < |buf| => if i < count / 2 then Spread(value) else buf[i])
  }

  method Memset(pix: array<bv16>, value: int, count: int)
    requires 0 <= count <= 2 * pix.Length && count % 2 == 0
    modifies pix
    ensures pix[..] == Filled(old(pix[..]), value, count)
  {
    var i := 0;
    while i < count / 2
      invariant 0 <= i <= count / 2
      invariant forall j :: 0 <= j < i ==> pix[j] == Spread(value)
      invariant forall j :: i <= j < pix.Length ==> pix[j] == old(pix[j])
    {
      pix[i] := Spread(value);
      i := i + 1;
    }
  }

  /** The frame-buffer clear as written: the fill value (the buffer size in
      bytes, counted at four bytes per pixel) and the byte count (0) are passed
      in each other's place, so no byte is written. */
  method ClearAsWritten(pix: array<bv16>)
    requires pix.Length == Width * Height
    modifies pix
    ensures pix[..] == Filled(old(pix[..]), Width * Height * 4, 0)
  {
    Memset(pix, Width * Height * 4, 0);
  }

  /** The frame-buffer clear as intended: every pixel is filled with zero
      bytes. */
  method Clear(pix: array<bv16>)
    requires pix.Length == Width * Height
    modifies pix
    ensures pix[..] == Filled(old(pix[..]), 0, Width * Height * 2)
    ensures forall i :: 0 <= i < pix.Length ==> pix[i] == 0
  {
    Memset(pix, 0, Width * Height * 2);
  }

  /** As written, the clear leaves every picture as it was, so a frame with a
      lit pixel keeps it. */
  lemma ClearAsWrittenKeeps(buf: seq<bv16>)
    requires |buf| == Width * Height
    ensures Filled(buf, Width * Height * 4, 0) == buf
  {
  }

  /** As intended, the clear blanks every picture, whatever it held. */
  lemma ClearBlanks(buf: seq<bv16>)
    requires |buf| == Width * Height
    ensures forall i :: 0 <= i < |buf| ==> Filled(buf, 0, Width * Height * 2)[i] == 0
  {
  }
}
