/** The cartridge's serial EEPROM backup: a five-state machine driven one bit at a
    time by the game's reads and writes, over an 8 KiB data array addressed in
    blocks of eight bytes. */
module Eeprom {

  /** Bytes of backing store (both sizes use the same array). */
  const DataSize: int := 0x2000
  /** The `size` value that selects the 64 Kbit part with a 14-bit address. */
  const LargeSize: int := 0x2000
  /** Bytes of the shift buffer. */
  const BufferSize: int := 16
  /** Data bits in one block: eight bytes. */
  const BlockBits: int := 0x40

  datatype Mode = Idle | ReadAddress | ReadData | ReadData2 | WriteData

  /** Serial bits (command + address) that complete the address phase:
      2 command bits, then 6 address bits (small part) or 14 (large part),
      then one more bit. */
  function AddressBits(size: int): (n: int)
    ensures n == 9 || n == 17
    ensures n == 17 <==> size == LargeSize
  {
    if size == LargeSize then 0x11 else 9
  }

  /** Bit `k` of `x`, counting from the most significant bit: the order in which
      the protocol sends a byte. */
  function BitOf(x: bv8, k: int): (b: bv8)
    requires 0 <= k < 8
    ensures b == 0 || b == 1
  {
    if x & ((1 as bv8) << (7 - k)) != 0 then 1 else 0
  }

  /** One bit shifted into a byte of the buffer from the right; the top bit falls out. */
  function ShiftIn(acc: bv8, bit: bv8): (r: bv8)
    requires bit == 0 || bit == 1
    ensures r & 1 == bit
    ensures r >> 1 == acc & 0x7F
  {
    (acc << 1) | bit
  }

  /** The first `n` bits that a read transfer sends for byte `x`, shifted one
      after another into a buffer byte that held `acc`: what the write path does
      with those bits. */
  function ShiftInFirst(acc: bv8, x: bv8, n: int): bv8
    requires 0 <= n <= 8
  {
    if n == 0 then acc else ShiftIn(ShiftInFirst(acc, x, n - 1), BitOf(x, n - 1))
  }

  /** Shifting in the eight bits that a read sends for a byte rebuilds exactly
      that byte, whatever the buffer held before: the write path and the read
      path use the same bit order. */
  lemma {:induction false} ByteRoundTrip(acc: bv8, x: bv8)
    ensures ShiftInFirst(acc, x, 8) == x
  {
    assert ShiftInFirst(acc, x, 0) == acc;
    var a1 := ShiftInFirst(acc, x, 1);
    var a2 := ShiftInFirst(acc, x, 2);
    var a3 := ShiftInFirst(acc, x, 3);
    var a4 := ShiftInFirst(acc, x, 4);
    var a5 := ShiftInFirst(acc, x, 5);
    var a6 := ShiftInFirst(acc, x, 6);
    var a7 := ShiftInFirst(acc, x, 7);
    var a8 := ShiftInFirst(acc, x, 8);
    assert a1 == ShiftIn(acc, BitOf(x, 0));
    assert a2 == ShiftIn(a1, BitOf(x, 1));
    assert a3 == ShiftIn(a2, BitOf(x, 2));
    assert a4 == ShiftIn(a3, BitOf(x, 3));
    assert a5 == ShiftIn(a4, BitOf(x, 4));
    assert a6 == ShiftIn(a5, BitOf(x, 5));
    assert a7 == ShiftIn(a6, BitOf(x, 6));
    assert a8 == ShiftIn(a7, BitOf(x, 7));
  }

  /** The block address as the source computes it from the first two buffer bytes:
      the low 6 bits of the first byte, followed by the second byte on the large part. */
  function DecodeAddressAsWritten(b0: bv8, b1: bv8, size: int): (a: int)
    ensures size != LargeSize ==> 0 <= a <= 0x3F
    ensures size == LargeSize ==> 0 <= a <= 0x3FFF
    ensures size == LargeSize ==> a % 0x100 == b1 as int && a / 0x100 == LowSix(b0)
  {
    if size == LargeSize then Join(LowSix(b0), b1 as int) else LowSix(b0)
  }

  /** The 14-bit number whose high six bits are `hi` and low byte `lo`. */
  function Join(hi: int, lo: int): (a: int)
    requires 0 <= hi < 0x40 && 0 <= lo < 0x100
    ensures 0 <= a <= 0x3FFF
    ensures a % 0x100 == lo && a / 0x100 == hi
  {
    hi * 0x100 + lo
  }

  /** The low six bits of a byte (`b & 0x3F`), as a number. */
  function LowSix(b: bv8): (r: int)
    ensures 0 <= r < 0x40
    ensures r == (b & 0x3F) as int
  {
    SixBits(b);
    b as int % 0x40
  }

  /** Masking the low six bits of a byte keeps its value modulo 0x40. */
  lemma SixBits(b: bv8)
    ensures (b & 0x3F) as int == b as int % 0x40
  {
  }

  /** On the large part a 14-bit address reaches block 0x3FFF, whose bytes lie far
      past the 0x2000-byte array that the read and write paths index with it. */
  lemma AddressOverrunAsWritten()
    ensures DecodeAddressAsWritten(0x3F, 0xFF, LargeSize) == 0x3FFF
    ensures DecodeAddressAsWritten(0x3F, 0xFF, LargeSize) * 8 + 7 >= DataSize
  {
  }

  /** The block address used by this model: the address as written, kept to the
      0x400 blocks that the data array holds. It agrees with the source on every
      address the array can hold and keeps every byte of the block in bounds. */
  function DecodeAddress(b0: bv8, b1: bv8, size: int): (a: int)
    ensures 0 <= a && a * 8 + 7 < DataSize
    ensures DecodeAddressAsWritten(b0, b1, size) * 8 + 7 < DataSize ==> a == DecodeAddressAsWritten(b0, b1, size)
    ensures size != LargeSize ==> a == DecodeAddressAsWritten(b0, b1, size) && a <= 0x3F
  {
    var x := DecodeAddressAsWritten(b0, b1, size);
    if x < 0x400 then x else x % 0x400
  }

  class Eeprom {
    var mode: Mode
    var byte: int
    var bits: int
    var address: int
    var size: int
    var data: array<bv8>
    var buffer: array<bv8>

    /** Counters match the mode: the byte cursor follows the bit count, the bit
        count stays inside the phase, and the block address stays inside the array. */
    ghost predicate Valid()
      reads this
    {
      && Shape()
      && (mode == ReadAddress ==> 1 <= bits < AddressBits(size) && byte == bits / 8)
      && (mode == ReadData ==> 0 <= bits < 4)
      && (mode == ReadData2 ==> 0 <= bits < BlockBits && byte == bits / 8)
      && (mode == WriteData ==> 1 <= bits <= BlockBits && byte == bits / 8)
    }

    /** The arrays have their fixed sizes and the block address stays inside the array. */
    ghost predicate Shape()
      reads this
    {
      && data.Length == DataSize && buffer.Length == BufferSize && data != buffer
      && 0 <= address && address * 8 + 8 <= DataSize
    }

    /** The static state at program start: idle, small part, zeroed arrays. */
    constructor ()
      ensures Valid() && fresh(data) && fresh(buffer)
      ensures mode == Idle && byte == 0 && bits == 0 && address == 0 && size == 0x200
      ensures forall i :: 0 <= i < DataSize ==> data[i] == 0
    {
      mode := Idle;
      byte := 0;
      bits := 0;
      address := 0;
      size := 0x200;
      data := new bv8[DataSize](_ => 0);
      buffer := new bv8[BufferSize](_ => 0);
    }

    /** Erases the whole backing store to 0xFF. */
    method Init()
      requires Valid()
      modifies data
      ensures Valid()
      ensures forall i :: 0 <= i < DataSize ==> data[i] == 0xFF
    {
      forall i | 0 <= i < data.Length {
        data[i] := 0xFF;
      }
    }

    /** Returns to idle with cleared counters and records the part's size. */
    method Reset(newSize: int)
      requires Valid()
      modifies this`mode, this`byte, this`bits, this`address, this`size
      ensures Valid()
      ensures mode == Idle && byte == 0 && bits == 0 && address == 0 && size == newSize
    {
      mode := Idle;
      byte := 0;
      bits := 0;
      address := 0;
      size := newSize;
    }

    /** One serial read by the game. Outside a read transfer the line idles high;
        a read transfer sends four zero bits and then the 64 bits of the addressed
        block, most significant bit of each byte first. */
    method Read() returns (r: bv8)
      requires Valid()
      modifies this`mode, this`byte, this`bits
      ensures Valid()
      ensures r == 0 || r == 1
      ensures old(mode) in {Idle, ReadAddress, WriteData} ==>
                r == 1 && mode == old(mode) && bits == old(bits) && byte == old(byte)
      ensures old(mode) == ReadData ==>
                r == 0 &&
                if old(bits) + 1 == 4 then mode == ReadData2 && bits == 0 && byte == 0
                else mode == ReadData && bits == old(bits) + 1 && byte == old(byte)
      ensures old(mode) == ReadData2 ==>
                && r == BitOf(data[address * 8 + old(bits) / 8], old(bits) % 8)
                && bits == old(bits) + 1 && byte == bits / 8
                && (if bits == BlockBits then mode == Idle else mode == ReadData2)
    {
      match mode {
        case Idle =>
          r := 1;
        case ReadAddress =>
          r := 1;
        case WriteData =>
          r := 1;
        case ReadData =>
          bits := bits + 1;
          if bits == 4 {
            mode := ReadData2;
            bits := 0;
            byte := 0;
          }
          r := 0;
        case ReadData2 =>
          var base := address * 8;
          r := BitOf(data[base + byte], bits % 8);
          bits := bits + 1;
          if bits % 8 == 0 {
            byte := byte + 1;
          }
          if bits == BlockBits {
            mode := Idle;
          }
      }
    }

    /** The address phase is complete: decode the block address and pick the
        transfer from the second command bit (set: read, clear: write, in which
        case the bit just received is kept as the first data bit). */
    method EndAddress(bit: bv8)
      requires Shape() && mode == ReadAddress && bits == AddressBits(size)
      requires bit == 0 || bit == 1
      modifies this`mode, this`byte, this`bits, this`address, buffer
      ensures Valid()
      ensures address == DecodeAddress(old(buffer[0]), old(buffer[1]), size)
      ensures old(buffer[0]) & 0x40 != 0 ==>
                mode == ReadData && bits == 0 && byte == 0 && buffer[..] == old(buffer[..])
      ensures old(buffer[0]) & 0x40 == 0 ==>
                mode == WriteData && bits == 1 && byte == 0 && buffer[..] == old(buffer[..])[0 := bit]
    {
      address := DecodeAddress(buffer[0], buffer[1], size);
      if buffer[0] & 0x40 == 0 {
        buffer[0] := bit;
        bits := 1;
        byte := 0;
        mode := WriteData;
      } else {
        mode := ReadData;
        byte := 0;
        bits := 0;
      }
    }

    /** Copies the eight buffered bytes over the addressed block. */
    method Commit()
      requires Valid()
      modifies data
      ensures Valid()
      ensures forall i :: 0 <= i < 8 ==> data[address * 8 + i] == buffer[i]
      ensures forall j :: 0 <= j < DataSize && !(address * 8 <= j < address * 8 + 8) ==> data[j] == old(data[j])
    {
      var base := address * 8;
      for i := 0 to 8
        invariant forall k :: 0 <= k < i ==> data[base + k] == buffer[k]
        invariant forall j :: 0 <= j < DataSize && !(base <= j < base + i) ==> data[j] == old(data[j])
      {
        data[base + i] := buffer[i];
      }
    }

    /** One serial write by the game; only bit 0 of `value` is on the wire. */
    method Write(value: bv8)
      requires Valid()
      modifies this`mode, this`byte, this`bits, this`address, buffer, data
      ensures Valid() && size == old(size)
      // idle: the first command bit opens the address phase
      ensures old(mode) == Idle ==>
                && mode == ReadAddress && bits == 1 && byte == 0 && address == old(address)
                && buffer[..] == old(buffer[..])[0 := value & 1] && data[..] == old(data[..])
      // a write in the middle of a read transfer aborts it
      ensures old(mode) in {ReadData, ReadData2} ==>
                && mode == Idle && bits == old(bits) && byte == old(byte) && address == old(address)
                && buffer[..] == old(buffer[..]) && data[..] == old(data[..])
      // address phase: shift the bit in; finish at AddressBits(size) bits
      ensures old(mode) == ReadAddress && old(bits) + 1 < AddressBits(size) ==>
                && mode == ReadAddress && bits == old(bits) + 1 && address == old(address)
                && buffer[..] == old(buffer[..])[old(byte) := ShiftIn(old(buffer[byte]), value & 1)]
                && data[..] == old(data[..])
      ensures old(mode) == ReadAddress && old(bits) + 1 == AddressBits(size) ==>
                && data[..] == old(data[..])
                && var b := old(buffer[..])[old(byte) := ShiftIn(old(buffer[byte]), value & 1)];
                && address == DecodeAddress(b[0], b[1], size)
                && (b[0] & 0x40 != 0 ==> mode == ReadData && bits == 0 && byte == 0 && buffer[..] == b)
                && (b[0] & 0x40 == 0 ==> mode == WriteData && bits == 1 && byte == 0 && buffer[..] == b[0 := value & 1])
      // data phase: shift the bit in; the 64th bit commits the block, the 65th ends the transfer
      ensures old(mode) == WriteData ==>
                && address == old(address)
                && buffer[..] == old(buffer[..])[old(byte) := ShiftIn(old(buffer[byte]), value & 1)]
                && (old(bits) + 1 < BlockBits ==>
                      mode == WriteData && bits == old(bits) + 1 && data[..] == old(data[..]))
                && (old(bits) + 1 == BlockBits ==>
                      && mode == WriteData && bits == BlockBits
                      && (forall i :: 0 <= i < 8 ==> data[address * 8 + i] == buffer[i])
                      && (forall j :: 0 <= j < DataSize && !(address * 8 <= j < address * 8 + 8) ==> data[j] == old(data[j])))
                && (old(bits) + 1 > BlockBits ==>
                      mode == Idle && bits == 0 && byte == 0 && data[..] == old(data[..]))
    {
      match mode {
        case Idle =>
          byte := 0;
          bits := 1;
          buffer[byte] := value & 1;
          mode := ReadAddress;
        case ReadAddress =>
          AddressBit(value);
        case ReadData =>
          mode := Idle;
        case ReadData2 =>
          mode := Idle;
        case WriteData =>
          DataBit(value);
      }
    }

    /** One bit of the address phase: shift it in; after AddressBits(size)
        bits the address is decoded and bit 6 of the first byte picks a read
        or a write. */
    method AddressBit(value: bv8)
      requires Valid() && mode == ReadAddress
      modifies this`mode, this`byte, this`bits, this`address, buffer
      ensures Valid() && size == old(size) && data[..] == old(data[..])
      ensures old(bits) + 1 < AddressBits(size) ==>
                && mode == ReadAddress && bits == old(bits) + 1 && address == old(address)
                && buffer[..] == old(buffer[..])[old(byte) := ShiftIn(old(buffer[byte]), value & 1)]
      ensures old(bits) + 1 == AddressBits(size) ==>
                var b := old(buffer[..])[old(byte) := ShiftIn(old(buffer[byte]), value & 1)];
                && address == DecodeAddress(b[0], b[1], size)
                && (b[0] & 0x40 != 0 ==> mode == ReadData && bits == 0 && byte == 0 && buffer[..] == b)
                && (b[0] & 0x40 == 0 ==> mode == WriteData && bits == 1 && byte == 0 && buffer[..] == b[0 := value & 1])
    {
      ShiftBit(value);
      if bits == AddressBits(size) {
        EndAddress(value & 1);
      }
    }

    /** Shifts the low bit of `value` into the current buffer byte and counts
        it; every eighth bit moves on to the next byte. */
    method ShiftBit(value: bv8)
      requires Shape() && 0 <= bits < 8 * BufferSize && byte == bits / 8
      modifies this`byte, this`bits, buffer
      ensures Shape() && bits == old(bits) + 1 && byte == bits / 8
      ensures buffer[..] == old(buffer[..])[old(byte) := ShiftIn(old(buffer[byte]), value & 1)]
    {
      buffer[byte] := ShiftIn(buffer[byte], value & 1);
      bits := bits + 1;
      if bits % 8 == 0 {
        byte := byte + 1;
      }
    }

    /** One bit of the data phase: shift it in; the 64th bit commits the
        block, the 65th ends the transfer. */
    method DataBit(value: bv8)
      requires Valid() && mode == WriteData
      modifies this`mode, this`byte, this`bits, buffer, data
      ensures Valid() && size == old(size) && address == old(address)
      ensures buffer[..] == old(buffer[..])[old(byte) := ShiftIn(old(buffer[byte]), value & 1)]
      ensures old(bits) + 1 < BlockBits ==>
                mode == WriteData && bits == old(bits) + 1 && data[..] == old(data[..])
      ensures old(bits) + 1 == BlockBits ==>
                && mode == WriteData && bits == BlockBits
                && (forall i :: 0 <= i < 8 ==> data[address * 8 + i] == buffer[i])
                && (forall j :: 0 <= j < DataSize && !(address * 8 <= j < address * 8 + 8) ==> data[j] == old(data[j]))
      ensures old(bits) + 1 > BlockBits ==>
                mode == Idle && bits == 0 && byte == 0 && data[..] == old(data[..])
    {
      ShiftBit(value);
      if bits == BlockBits {
        Commit();
      } else if bits == BlockBits + 1 {
        mode := Idle;
        byte := 0;
        bits := 0;
      }
    }
  }
}
