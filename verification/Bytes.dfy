/** Bytes, 16- and 32-bit words, and how a host lays them out in memory. */
module Bytes {
  type Byte = x: int | 0 <= x < 0x100
  type Word = x: int | 0 <= x < 0x1_0000
  type Word32 = x: int | 0 <= x < 0x1_0000_0000

  datatype Endian = Little | Big

  /** A word in network order, most significant byte first. */
  function Be16(w: Word): (b: seq<Byte>)
    ensures |b| == 2
  {
    [w / 0x100, w % 0x100]
  }

  function FromBe16(b: seq<Byte>): Word
    requires |b| == 2
  {
    (b[0] as int) * 0x100 + b[1]
  }

  /** The memory of a `uint16_t` variable that holds `w`. */
  function Store16(host: Endian, w: Word): (b: seq<Byte>)
    ensures |b| == 2
  {
    if host.Big? then Be16(w) else [w % 0x100, w / 0x100]
  }

  /** The `uint16_t` that two bytes of memory stand for. */
  function Load16(host: Endian, b: seq<Byte>): Word
    requires |b| == 2
  {
    if host.Big? then FromBe16(b) else (b[1] as int) * 0x100 + b[0]
  }

  /** The memory of a 32-bit variable that holds `w`. */
  function Store32(host: Endian, w: Word32): (b: seq<Byte>)
    ensures |b| == 4
  {
    var high, low := w / 0x1_0000, w % 0x1_0000;
    if host.Big? then Be16(high) + Be16(low) else Store16(Little, low) + Store16(Little, high)
  }

  /** `htons`, and equally `ntohs`. */
  function Swap(host: Endian, w: Word): Word {
    if host.Big? then w else w % 0x100 * 0x100 + w / 0x100
  }

  lemma LoadStore(host: Endian, w: Word, b: seq<Byte>)
    requires |b| == 2
    ensures Load16(host, Store16(host, w)) == w && Store16(host, Load16(host, b)) == b
    ensures FromBe16(Be16(w)) == w && Be16(FromBe16(b)) == b
  {
  }

  /** Swapping and storing puts a word into memory in network order, and loading network-order bytes
      and swapping reads it back, on either host. */
  lemma NetworkOrder(host: Endian, w: Word, b: seq<Byte>)
    requires |b| == 2
    ensures Store16(host, Swap(host, w)) == Be16(w) && Swap(host, Swap(host, w)) == w
    ensures Swap(host, Load16(host, b)) == FromBe16(b)
  {
  }

  /** The number that four bytes stand for, most significant first. */
  function FromBe32(b: seq<Byte>): int
    requires |b| == 4
  {
    ((b[0] as int * 0x100 + b[1]) * 0x100 + b[2]) * 0x100 + b[3]
  }

  /** All four bytes of a variable: a big-endian host has the most significant first and a little-endian one last,
      so that no two values look alike. */
  lemma Store32Exact(w: Word32, v: Word32, host: Endian)
    ensures var b := Store32(Little, w); FromBe32(Store32(Big, w)) == w == FromBe32([b[3], b[2], b[1], b[0]])
    ensures Store32(host, w) == Store32(host, v) <==> w == v
  {
    Four(w);
    Four(v);
    var b, c := Store32(Little, w), Store32(Little, v);
    assert Store32(Little, w) == Store32(Little, v) ==> [b[3], b[2], b[1], b[0]] == [c[3], c[2], c[1], c[0]];
  }

  lemma Four(w: Word32)
    ensures var b := Store32(Little, w); FromBe32(Store32(Big, w)) == w == FromBe32([b[3], b[2], b[1], b[0]])
  {
    var high, low := w / 0x1_0000, w % 0x1_0000;
    assert (high / 0x100 * 0x100 + high % 0x100) * 0x1_0000 + (low / 0x100 * 0x100 + low % 0x100) == w;
  }
}
