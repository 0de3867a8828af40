/**
 * One direct-mapped, write-back cache level in front of a byte-addressed
 * memory of DRAM_SIZE bytes. Every level of versions 4.1 and 4.2 follows
 * this protocol: the L1 of 4.1 and the L2 of 4.2 sit right in front of DRAM,
 * and the L1 of 4.2 sits in front of what L2 and DRAM together hold.
 *
 * `View` is what a level shows for one address: its own copy when the line
 * at the address's index holds the address's tag, the lower memory's byte
 * otherwise. The lemmas prove that a miss-fill never changes the view, and
 * that a service changes it exactly where a write puts its bytes.
 */
module DirectMapped {
  import opened Common

  /** A level's address split, how many bytes one service copies, and what READ and WRITE service cost. */
  datatype Level = Level(geometry: Geometry, width: nat, readTime: nat, writeTime: nat)

  /** The L1 of every version: 8 index bits, one word per access. */
  const L1_LEVEL := Level(EightBitIndex, WORD_SIZE, L1_READ_TIME, L1_WRITE_TIME)

  /** The L2 of version 4.2: 9 index bits, one whole block per access. */
  const L2_LEVEL := Level(NineBitIndex, BLOCK_SIZE, L2_READ_TIME, L2_WRITE_TIME)

  /** One line per index, each holding a whole block. */
  predicate WellFormed(g: Geometry, lines: seq<CacheLine>)
  {
    |lines| == IndexCount(g) && forall i :: 0 <= i < |lines| ==> |lines[i].block| == BLOCK_SIZE
  }

  /** Dirty implies Valid, and the block of every valid line lies inside DRAM. */
  predicate Consistent(g: Geometry, lines: seq<CacheLine>)
  {
    WellFormed(g, lines) &&
    forall i :: 0 <= i < |lines| ==>
      (lines[i].dirty ==> lines[i].valid) &&
      (lines[i].valid ==> Base(g, lines[i].tag, i) + BLOCK_SIZE <= DRAM_SIZE)
  }

  /** On top of Consistent: a valid clean line holds the same bytes as the memory below. */
  predicate Coherent(g: Geometry, lines: seq<CacheLine>, lower: seq<byte>)
  {
    Consistent(g, lines) && |lower| == DRAM_SIZE &&
    forall i :: 0 <= i < |lines| && lines[i].valid && !lines[i].dirty ==>
      lines[i].block == lower[Base(g, lines[i].tag, i)..Base(g, lines[i].tag, i) + BLOCK_SIZE]
  }

  /** The negation of the miss test `!Line->Valid || Line->Tag != tag`. */
  predicate Hit(g: Geometry, lines: seq<CacheLine>, a: nat)
    requires WellFormed(g, lines)
  {
    lines[Index(g, a)].valid && lines[Index(g, a)].tag == Tag(g, a)
  }

  /** The byte the level shows for address `a`. */
  function View(g: Geometry, lines: seq<CacheLine>, lower: seq<byte>, a: nat): byte
    requires WellFormed(g, lines) && a < |lower|
  {
    if Hit(g, lines, a) then lines[Index(g, a)].block[Offset(a)] else lower[a]
  }

  /** The view of every address, as a memory image for the level above. */
  function Image(g: Geometry, lines: seq<CacheLine>, lower: seq<byte>): (m: seq<byte>)
    requires WellFormed(g, lines)
    ensures |m| == |lower|
  {
    seq(|lower|, x requires 0 <= x < |lower| => View(g, lines, lower, x))
  }

  /** The lines of a level after its init loop: `n` empty lines. */
  function ResetLines(n: nat): (lines: seq<CacheLine>)
    ensures |lines| == n
    ensures forall k :: 0 <= k < n ==>
      !lines[k].valid && !lines[k].dirty && lines[k].tag == 0 && |lines[k].block| == BLOCK_SIZE
  {
    seq(n, _ => EmptyLine())
  }

  /** After the init loop nothing hits, so the level shows the memory below unchanged. */
  lemma ResetShowsLower(g: Geometry, lower: seq<byte>)
    requires |lower| == DRAM_SIZE
    ensures Coherent(g, ResetLines(IndexCount(g)), lower)
    ensures forall a :: !Hit(g, ResetLines(IndexCount(g)), a)
    ensures Image(g, ResetLines(IndexCount(g)), lower) == lower
  {
  }

  /** What the miss path leaves behind. */
  datatype Filled = Filled(lines: seq<CacheLine>, lower: seq<byte>, wroteBack: bool)

  /**
   * The miss path: read the block holding `a` from below, write a valid dirty
   * victim back at the address rebuilt from its tag and the index, then
   * install the fetched block valid, clean and with the new tag.
   */
  function Fill(g: Geometry, lines: seq<CacheLine>, lower: seq<byte>, a: nat): (f: Filled)
    requires Consistent(g, lines) && |lower| == DRAM_SIZE
    requires BlockBase(a) + BLOCK_SIZE <= DRAM_SIZE
    ensures WellFormed(g, f.lines) && |f.lower| == DRAM_SIZE
    ensures Hit(g, f.lines, a) && !f.lines[Index(g, a)].dirty
    ensures forall j :: 0 <= j < |lines| && j != Index(g, a) ==> f.lines[j] == lines[j]
    ensures f.lines[Index(g, a)].block == lower[BlockBase(a)..BlockBase(a) + BLOCK_SIZE]
  {
    var i := Index(g, a);
    var victim := lines[i];
    var fetched := lower[BlockBase(a)..BlockBase(a) + BLOCK_SIZE];
    var wroteBack := victim.valid && victim.dirty;
    var lower' := if wroteBack then Splice(lower, Base(g, victim.tag, i), victim.block) else lower;
    Filled(lines[i := CacheLine(true, false, Tag(g, a), fetched)], lower', wroteBack)
  }

  /** Blocks rebuilt from two different (tag, index) pairs do not overlap. */
  lemma DistinctBlocks(g: Geometry, t1: nat, i1: nat, t2: nat, i2: nat)
    requires i1 < IndexCount(g) && i2 < IndexCount(g) && (t1 != t2 || i1 != i2)
    ensures Base(g, t1, i1) + BLOCK_SIZE <= Base(g, t2, i2) || Base(g, t2, i2) + BLOCK_SIZE <= Base(g, t1, i1)
  {
    BaseDecomposes(g, t1, i1);
    BaseDecomposes(g, t2, i2);
    InBlock(g, t1, i1, Base(g, t2, i2));
    InBlock(g, t2, i2, Base(g, t1, i1));
  }

  /** A miss-fill leaves the level coherent with the memory below, holding `a`. */
  lemma FillKeepsCoherent(g: Geometry, lines: seq<CacheLine>, lower: seq<byte>, a: nat)
    requires Coherent(g, lines, lower) && !Hit(g, lines, a)
    requires BlockBase(a) + BLOCK_SIZE <= DRAM_SIZE
    ensures var f := Fill(g, lines, lower, a); Coherent(g, f.lines, f.lower) && Hit(g, f.lines, a)
  {
    var f := Fill(g, lines, lower, a);
    var i := Index(g, a);
    var victim := lines[i];
    var nb := BlockBase(a);
    var vb := Base(g, victim.tag, i);
    Decompose(g, a);
    if f.wroteBack {
      // The fetched block still sits, unchanged, below the filled line.
      DistinctBlocks(g, victim.tag, i, Tag(g, a), i);
      SpliceElsewhere(lower, vb, victim.block, nb, nb + BLOCK_SIZE);
      // So does the block of every other valid clean line.
      forall j | 0 <= j < |f.lines| && j != i && f.lines[j].valid && !f.lines[j].dirty
        ensures f.lines[j].block == f.lower[Base(g, f.lines[j].tag, j)..Base(g, f.lines[j].tag, j) + BLOCK_SIZE]
      {
        var jb := Base(g, f.lines[j].tag, j);
        DistinctBlocks(g, victim.tag, i, f.lines[j].tag, j);
        SpliceElsewhere(lower, vb, victim.block, jb, jb + BLOCK_SIZE);
      }
    }
  }

  /** A miss-fill does not change what the level shows at `x`. */
  lemma FillKeepsViewAt(g: Geometry, lines: seq<CacheLine>, lower: seq<byte>, a: nat, x: nat)
    requires Coherent(g, lines, lower) && !Hit(g, lines, a)
    requires BlockBase(a) + BLOCK_SIZE <= DRAM_SIZE && x < DRAM_SIZE
    ensures var f := Fill(g, lines, lower, a); View(g, f.lines, f.lower, x) == View(g, lines, lower, x)
  {
    var i := Index(g, a);
    var victim := lines[i];
    Decompose(g, a);
    Decompose(g, x);
    InBlock(g, victim.tag, i, x);
    InBlock(g, Tag(g, a), i, x);
  }

  /**
   * A miss-fill changes no byte of the view, keeps the lines coherent with
   * the memory below, and leaves the line holding `a`.
   */
  lemma FillKeepsView(g: Geometry, lines: seq<CacheLine>, lower: seq<byte>, a: nat)
    requires Coherent(g, lines, lower) && !Hit(g, lines, a)
    requires BlockBase(a) + BLOCK_SIZE <= DRAM_SIZE
    ensures var f := Fill(g, lines, lower, a);
      Coherent(g, f.lines, f.lower) && Hit(g, f.lines, a) &&
      forall x :: 0 <= x < DRAM_SIZE ==> View(g, f.lines, f.lower, x) == View(g, lines, lower, x)
  {
    FillKeepsCoherent(g, lines, lower, a);
    forall x | 0 <= x < DRAM_SIZE
      ensures View(g, Fill(g, lines, lower, a).lines, Fill(g, lines, lower, a).lower, x) == View(g, lines, lower, x)
    {
      FillKeepsViewAt(g, lines, lower, a, x);
    }
  }

  /** READ service: `n` bytes of the line holding `a`, from its offset on. */
  function Load(g: Geometry, lines: seq<CacheLine>, a: nat, n: nat): (r: seq<byte>)
    requires WellFormed(g, lines) && Offset(a) + n <= BLOCK_SIZE
    ensures |r| == n
  {
    lines[Index(g, a)].block[Offset(a)..Offset(a) + n]
  }

  /** WRITE service: `data` copied into the line holding `a` at its offset, and the line marked Dirty. */
  function Store(g: Geometry, lines: seq<CacheLine>, a: nat, data: seq<byte>): (r: seq<CacheLine>)
    requires WellFormed(g, lines) && Offset(a) + |data| <= BLOCK_SIZE
    ensures WellFormed(g, r) && Load(g, r, a, |data|) == data
    ensures forall j :: 0 <= j < |lines| && j != Index(g, a) ==> r[j] == lines[j]
    ensures var i := Index(g, a);
      r[i].dirty && r[i].valid == lines[i].valid && r[i].tag == lines[i].tag &&
      forall k :: 0 <= k < BLOCK_SIZE && !(Offset(a) <= k < Offset(a) + |data|) ==> r[i].block[k] == lines[i].block[k]
  {
    var i := Index(g, a);
    lines[i := lines[i].(block := Splice(lines[i].block, Offset(a), data), dirty := true)]
  }

  /** On a hit, a load returns the viewed bytes at a, a + 1, ... */
  lemma LoadIsView(g: Geometry, lines: seq<CacheLine>, lower: seq<byte>, a: nat, n: nat)
    requires Coherent(g, lines, lower) && Hit(g, lines, a) && Offset(a) + n <= BLOCK_SIZE
    ensures a + n <= DRAM_SIZE
    ensures |Load(g, lines, a, n)| == n
    ensures forall k :: 0 <= k < n ==> Load(g, lines, a, n)[k] == View(g, lines, lower, a + k)
  {
    Decompose(g, a);
    forall k | 0 <= k < n
      ensures a + k < DRAM_SIZE && Load(g, lines, a, n)[k] == View(g, lines, lower, a + k)
    {
      SameBlock(g, a, k);
    }
  }

  /**
   * On a hit, a store changes the view at exactly the bytes it writes, and
   * keeps the lines coherent with the memory below.
   */
  lemma StoreIsView(g: Geometry, lines: seq<CacheLine>, lower: seq<byte>, a: nat, data: seq<byte>)
    requires Coherent(g, lines, lower) && Hit(g, lines, a) && Offset(a) + |data| <= BLOCK_SIZE
    ensures a + |data| <= DRAM_SIZE
    ensures Coherent(g, Store(g, lines, a, data), lower)
    ensures forall x :: 0 <= x < DRAM_SIZE ==>
      View(g, Store(g, lines, a, data), lower, x) == if a <= x < a + |data| then data[x - a] else View(g, lines, lower, x)
  {
    var i := Index(g, a);
    var s := Store(g, lines, a, data);
    Decompose(g, a);
    forall x | 0 <= x < DRAM_SIZE
      ensures View(g, s, lower, x) == if a <= x < a + |data| then data[x - a] else View(g, lines, lower, x)
    {
      Decompose(g, x);
      InBlock(g, Tag(g, a), i, x);
    }
  }

  /** A memory below one level: its lines, DRAM, and the time counter. */
  datatype Memory = Memory(lines: seq<CacheLine>, dram: seq<byte>, time: nat)

  /** The state after an access, the bytes a READ copied out, and whether the process went on (no exit). */
  datatype Reply = Reply(mem: Memory, data: seq<byte>, ok: bool)

  /** What an access routine asks of its arguments: the copied bytes stay inside one block. */
  predicate Accepts(lv: Level, a: nat, mode: Mode, data: seq<byte>)
  {
    Offset(a) + lv.width <= BLOCK_SIZE && (mode == WriteMode ==> |data| == lv.width)
  }

  /** The service part of an access, on the line that holds `a`. */
  function Serve(lv: Level, m: Memory, a: nat, mode: Mode, data: seq<byte>): (r: Reply)
    requires Consistent(lv.geometry, m.lines) && Hit(lv.geometry, m.lines, a) && Accepts(lv, a, mode, data)
    ensures Consistent(lv.geometry, r.mem.lines) && r.mem.dram == m.dram && r.ok
  {
    match mode
    case ReadMode =>
      Reply(m.(time := m.time + lv.readTime), Load(lv.geometry, m.lines, a, lv.width), true)
    case WriteMode =>
      Reply(m.(lines := Store(lv.geometry, m.lines, a, data), time := m.time + lv.writeTime), [], true)
  }

  /**
   * The miss path of an access, with its DRAM costs: DRAM_READ_TIME for the
   * fetch and DRAM_WRITE_TIME for a dirty victim. On a hit, nothing happens.
   */
  function Allocate(g: Geometry, m: Memory, a: nat): (m': Memory)
    requires Consistent(g, m.lines) && |m.dram| == DRAM_SIZE
    requires Hit(g, m.lines, a) || BlockBase(a) + BLOCK_SIZE <= DRAM_SIZE
    ensures Consistent(g, m'.lines) && |m'.dram| == DRAM_SIZE && Hit(g, m'.lines, a)
  {
    if Hit(g, m.lines, a) then m
    else
      Decompose(g, a);
      var f := Fill(g, m.lines, m.dram, a);
      Memory(f.lines, f.lower, m.time + DRAM_READ_TIME + (if f.wroteBack then DRAM_WRITE_TIME else 0))
  }

  /**
   * One access of a direct-mapped level in front of DRAM: on a miss, exit
   * unless the block lies in DRAM, otherwise allocate it; then serve.
   */
  function Access(lv: Level, m: Memory, a: nat, mode: Mode, data: seq<byte>): (r: Reply)
    requires Consistent(lv.geometry, m.lines) && |m.dram| == DRAM_SIZE && Accepts(lv, a, mode, data)
    ensures Consistent(lv.geometry, r.mem.lines) && |r.mem.dram| == DRAM_SIZE
    ensures r.ok && mode == ReadMode ==> |r.data| == lv.width
  {
    if !Hit(lv.geometry, m.lines, a) && !DramGuard(BlockBase(a)) then
      Reply(m, [], false)
    else
      Serve(lv, Allocate(lv.geometry, m, a), a, mode, data)
  }

  /** The process exits exactly when the block of `a` is not in DRAM; then nothing has changed. */
  lemma AccessExits(lv: Level, m: Memory, a: nat, mode: Mode, data: seq<byte>)
    requires Consistent(lv.geometry, m.lines) && |m.dram| == DRAM_SIZE && Accepts(lv, a, mode, data)
    ensures var r := Access(lv, m, a, mode, data);
      (r.ok <==> BlockBase(a) + BLOCK_SIZE <= DRAM_SIZE) && (!r.ok ==> r.mem == m)
  {
    Decompose(lv.geometry, a);
  }

  /**
   * The time an access adds: the service cost, plus DRAM_READ_TIME on a miss,
   * plus DRAM_WRITE_TIME when the miss evicts a valid dirty line.
   */
  lemma AccessTime(lv: Level, m: Memory, a: nat, mode: Mode, data: seq<byte>)
    requires Consistent(lv.geometry, m.lines) && |m.dram| == DRAM_SIZE && Accepts(lv, a, mode, data)
    ensures var r := Access(lv, m, a, mode, data);
      var victim := m.lines[Index(lv.geometry, a)];
      var miss := !Hit(lv.geometry, m.lines, a);
      r.ok ==>
        r.mem.time == m.time
          + (if miss then DRAM_READ_TIME else 0)
          + (if miss && victim.valid && victim.dirty then DRAM_WRITE_TIME else 0)
          + (if mode == ReadMode then lv.readTime else lv.writeTime)
  {
  }

  /**
   * What an access does to the lines and to DRAM: only the line at the
   * address's index changes; it ends valid with the address's tag, dirty
   * after a WRITE or when it was already holding the address dirty; a miss
   * on a valid dirty line writes the old block to DRAM at the address rebuilt
   * from the old tag, and otherwise DRAM is not written.
   */
  lemma AccessLines(lv: Level, m: Memory, a: nat, mode: Mode, data: seq<byte>)
    requires Consistent(lv.geometry, m.lines) && |m.dram| == DRAM_SIZE && Accepts(lv, a, mode, data)
    ensures var r := Access(lv, m, a, mode, data);
      var g := lv.geometry;
      var i := Index(g, a);
      var victim := m.lines[i];
      var hit := Hit(g, m.lines, a);
      r.ok ==>
        |r.mem.lines| == |m.lines| &&
        (forall j :: 0 <= j < |m.lines| && j != i ==> r.mem.lines[j] == m.lines[j]) &&
        r.mem.lines[i].valid && r.mem.lines[i].tag == Tag(g, a) &&
        r.mem.lines[i].dirty == (mode == WriteMode || (hit && victim.dirty)) &&
        (mode == WriteMode ==> Load(g, r.mem.lines, a, lv.width) == data) &&
        r.mem.dram == (if !hit && victim.valid && victim.dirty
                       then Splice(m.dram, Base(g, victim.tag, i), victim.block)
                       else m.dram)
  {
  }

  /**
   * The level is transparent: a READ returns the bytes the view shows, a
   * WRITE changes the view at exactly the bytes it writes, and coherence
   * with DRAM is kept.
   */
  lemma AccessIsView(lv: Level, m: Memory, a: nat, mode: Mode, data: seq<byte>)
    requires Coherent(lv.geometry, m.lines, m.dram) && Accepts(lv, a, mode, data)
    ensures var r := Access(lv, m, a, mode, data);
      var g := lv.geometry;
      r.ok ==>
        a + lv.width <= DRAM_SIZE &&
        Coherent(g, r.mem.lines, r.mem.dram) &&
        (mode == ReadMode ==>
          |r.data| == lv.width &&
          forall k :: 0 <= k < lv.width ==> r.data[k] == View(g, m.lines, m.dram, a + k)) &&
        forall x :: 0 <= x < DRAM_SIZE ==>
          View(g, r.mem.lines, r.mem.dram, x) ==
            if mode == WriteMode && a <= x < a + lv.width then data[x - a] else View(g, m.lines, m.dram, x)
  {
    var g := lv.geometry;
    var r := Access(lv, m, a, mode, data);
    if r.ok {
      var filled := Allocate(g, m, a);
      if !Hit(g, m.lines, a) {
        FillKeepsView(g, m.lines, m.dram, a);
      }
      assert Coherent(g, filled.lines, filled.dram);
      assert forall x :: 0 <= x < DRAM_SIZE ==> View(g, filled.lines, filled.dram, x) == View(g, m.lines, m.dram, x);
      match mode
      case ReadMode =>
        LoadIsView(g, filled.lines, filled.dram, a, lv.width);
      case WriteMode =>
        StoreIsView(g, filled.lines, filled.dram, a, data);
    }
  }

  /** A READ that hits changes nothing but the time, and returns the line's bytes. */
  lemma ReadHitOnlyTakesTime(lv: Level, m: Memory, a: nat)
    requires Consistent(lv.geometry, m.lines) && |m.dram| == DRAM_SIZE && Accepts(lv, a, ReadMode, [])
    requires Hit(lv.geometry, m.lines, a)
    ensures Access(lv, m, a, ReadMode, []) ==
      Reply(m.(time := m.time + lv.readTime), Load(lv.geometry, m.lines, a, lv.width), true)
  {
  }
}
