/**
 * Definitions shared by the three versions of the cache simulator: the
 * compiled-in geometry and costs, the address decomposition done with shifts
 * and masks, the cache line record, and the byte-range copy that stands for
 * every memcpy of the C code.
 */
module Common {

  // Geometry and costs. The header that defines them (Cache.h) is not part of
  // this model; BLOCK_SIZE = 64 and the 256-line L1 are fixed by the masks in
  // the C code, the others are the values this model assumes.
  const WORD_SIZE: nat := 4
  const BLOCK_SIZE: nat := 64
  const DRAM_SIZE: nat := 65536     // 1024 blocks
  const L1_SIZE: nat := 16384       // 256 lines of one block
  const L2_SIZE: nat := 32768       // 512 lines of one block
  const L1_LINES: nat := 256        // L1_SIZE / BLOCK_SIZE
  const L2_LINES: nat := 512        // L2_SIZE / BLOCK_SIZE

  const DRAM_READ_TIME: nat := 100
  const DRAM_WRITE_TIME: nat := 50
  const L2_READ_TIME: nat := 10
  const L2_WRITE_TIME: nat := 5
  const L1_READ_TIME: nat := 1
  const L1_WRITE_TIME: nat := 1

  type byte = b: int | 0 <= b < 0x100
  type uint32 = x: int | 0 <= x < 0x1_0000_0000

  /** MODE_READ / MODE_WRITE of every access routine. */
  datatype Mode = ReadMode | WriteMode

  /** The CacheLine struct: Valid, Dirty, a 32-bit Tag and a BLOCK_SIZE-byte Block. */
  datatype CacheLine = CacheLine(valid: bool, dirty: bool, tag: uint32, block: seq<byte>)

  /** What the init loops store in every line: invalid, clean, Tag 0, zeroed block. */
  function EmptyLine(): (l: CacheLine)
    ensures !l.valid && !l.dirty && l.tag == 0
    ensures |l.block| == BLOCK_SIZE && forall k :: 0 <= k < BLOCK_SIZE ==> l.block[k] == 0
  {
    CacheLine(false, false, 0, seq(BLOCK_SIZE, _ => 0))
  }

  /**
   * How many index bits a level takes from an address: eight (256 lines of
   * L1, or 256 sets of the set-associative L2) or nine (the 512-line L2).
   */
  datatype Geometry = EightBitIndex | NineBitIndex

  function IndexCount(g: Geometry): nat
  {
    match g
    case EightBitIndex => 256
    case NineBitIndex => 512
  }

  /** address & 0x3F */
  function Offset(a: nat): (r: nat)
    ensures r < BLOCK_SIZE
  {
    a % 64
  }

  /** (address >> 6) & 0xFF, or & 0x1FF */
  function Index(g: Geometry, a: nat): (r: nat)
    ensures r < IndexCount(g)
  {
    match g
    case EightBitIndex => (a / 64) % 256
    case NineBitIndex => (a / 64) % 512
  }

  /** address >> 14, or >> 15 */
  function Tag(g: Geometry, a: nat): nat
  {
    match g
    case EightBitIndex => a / 16384
    case NineBitIndex => a / 32768
  }

  /** (Tag << 14) + (index << 6), or (Tag << 15) + (index << 6): where a line's block lives. */
  function Base(g: Geometry, tag: nat, index: nat): nat
  {
    match g
    case EightBitIndex => tag * 16384 + index * 64
    case NineBitIndex => tag * 32768 + index * 64
  }

  /** address - offset: the first byte of the block holding the address. */
  function BlockBase(a: nat): (r: nat)
    ensures r % BLOCK_SIZE == 0 && r <= a < r + BLOCK_SIZE
  {
    a - Offset(a)
  }

  /** The tag of a 32-bit address fits the 32-bit Tag field. */
  lemma TagFits(g: Geometry, a: uint32)
    ensures Tag(g, a) < 0x1_0000_0000
  {
  }

  /**
   * Tag, index and offset partition the address: the block base rebuilt from
   * (tag, index) plus the offset is the address itself.
   */
  lemma Decompose(g: Geometry, a: nat)
    ensures Index(g, a) < IndexCount(g) && Offset(a) < BLOCK_SIZE
    ensures Base(g, Tag(g, a), Index(g, a)) + Offset(a) == a
    ensures Base(g, Tag(g, a), Index(g, a)) == BlockBase(a)
  {
    var q := a / 64;
    assert a == q * 64 + a % 64;
    match g
    case EightBitIndex =>
      assert q == (q / 256) * 256 + q % 256;
      assert a / 16384 == q / 256;
    case NineBitIndex =>
      assert q == (q / 512) * 512 + q % 512;
      assert a / 32768 == q / 512;
  }

  /**
   * The block rebuilt from (tag, index) holds exactly the addresses whose
   * decomposition gives that tag and that index; the offset is the distance
   * from the base.
   */
  lemma InBlock(g: Geometry, tag: nat, index: nat, x: nat)
    requires index < IndexCount(g)
    ensures Base(g, tag, index) <= x < Base(g, tag, index) + BLOCK_SIZE
        <==> Tag(g, x) == tag && Index(g, x) == index
    ensures Tag(g, x) == tag && Index(g, x) == index ==> Offset(x) == x - Base(g, tag, index)
  {
    Decompose(g, x);
    var b := Base(g, tag, index);
    if b <= x < b + BLOCK_SIZE {
      var r := x - b;
      match g
      case EightBitIndex =>
        assert x == (tag * 256 + index) * 64 + r;
        assert x / 64 == tag * 256 + index;
        assert x / 16384 == tag;
      case NineBitIndex =>
        assert x == (tag * 512 + index) * 64 + r;
        assert x / 64 == tag * 512 + index;
        assert x / 32768 == tag;
    }
  }

  /** The base address of any block is block-aligned and decomposes back into its tag and index. */
  lemma BaseDecomposes(g: Geometry, tag: nat, index: nat)
    requires index < IndexCount(g)
    ensures Base(g, tag, index) % BLOCK_SIZE == 0
    ensures Tag(g, Base(g, tag, index)) == tag && Index(g, Base(g, tag, index)) == index
  {
    InBlock(g, tag, index, Base(g, tag, index));
  }

  /** Stepping k bytes forward inside one block keeps the tag and the index. */
  lemma SameBlock(g: Geometry, a: nat, k: nat)
    requires Offset(a) + k < BLOCK_SIZE
    ensures Tag(g, a + k) == Tag(g, a) && Index(g, a + k) == Index(g, a)
    ensures Offset(a + k) == Offset(a) + k
  {
    Decompose(g, a);
    InBlock(g, Tag(g, a), Index(g, a), a + k);
  }

  /**
   * memcpy(&s[at], piece, |piece|): the bytes from `at` on are replaced by
   * `piece`, all others stay.
   */
  function Splice(s: seq<byte>, at: nat, piece: seq<byte>): (r: seq<byte>)
    requires at + |piece| <= |s|
    ensures |r| == |s| && r[at..at + |piece|] == piece
    ensures forall k :: 0 <= k < |s| ==> r[k] == if at <= k < at + |piece| then piece[k - at] else s[k]
  {
    s[..at] + piece + s[at + |piece|..]
  }

  /** A splice leaves every range that does not overlap it as it was. */
  lemma SpliceElsewhere(s: seq<byte>, at: nat, piece: seq<byte>, lo: nat, hi: nat)
    requires at + |piece| <= |s| && lo <= hi <= |s|
    requires hi <= at || at + |piece| <= lo
    ensures Splice(s, at, piece)[lo..hi] == s[lo..hi]
  {
    var r := Splice(s, at, piece);
    forall k | lo <= k < hi
      ensures r[k] == s[k]
    {
    }
  }

  /**
   * The bounds test of accessDRAM: the process exits unless
   * address < DRAM_SIZE - WORD_SIZE + 1. It is written for a word but the
   * routine copies a whole block; for the block-aligned addresses the caches
   * pass, it admits exactly the blocks that lie inside DRAM.
   */
  function DramGuard(address: nat): (ok: bool)
    ensures address % BLOCK_SIZE == 0 ==> (ok <==> address + BLOCK_SIZE <= DRAM_SIZE)
  {
    address < DRAM_SIZE - WORD_SIZE + 1
  }
}
