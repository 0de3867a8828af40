/**
 * Version 4.2: the direct-mapped L1 of 256 lines in front of a direct-mapped,
 * write-back L2 of 512 lines, in front of DRAM. L1 asks L2 for whole blocks
 * at block-aligned addresses and writes its dirty victims back into L2; L2
 * does its own write-back to DRAM. One init flag resets both levels.
 *
 * L2 over DRAM is a `DirectMapped` level with nine index bits and block-wide
 * service. What L2 and DRAM hold together, `Below`, is the memory the L1
 * level sits on: an L2 READ leaves it as it was and returns its block, an L2
 * WRITE splices the block into it, so the L1 miss path is the generic
 * miss-fill over `Below`, and the two-level cache is as transparent as one.
 */
module TwoLevel {
  import opened Common
  import opened DirectMapped

  /** The globals of the program: struct Cache (init, l1.lines, l2.lines), DRAM and time. */
  datatype State = State(l1: seq<CacheLine>, l2: seq<CacheLine>, dram: seq<byte>, time: nat, init: bool)

  /** What L2 and DRAM hold together: L2's copy of a block when it holds it, DRAM's otherwise. */
  function Below(s: State): (m: seq<byte>)
    requires WellFormed(NineBitIndex, s.l2)
    ensures |m| == |s.dram|
  {
    Image(NineBitIndex, s.l2, s.dram)
  }

  /** L2 is coherent with DRAM, and L1 is coherent with what L2 and DRAM hold together. */
  predicate Inv(s: State)
  {
    Coherent(NineBitIndex, s.l2, s.dram) && Coherent(EightBitIndex, s.l1, Below(s))
  }

  /** The byte the program shows at address x: L1's copy, else L2's copy, else DRAM's byte. */
  function Contents(s: State, x: nat): byte
    requires Inv(s) && x < DRAM_SIZE
  {
    View(EightBitIndex, s.l1, Below(s), x)
  }

  /** The state after accessL1's init block: the first access after initCache resets every line of both levels. */
  function Started(s: State): (s': State)
    requires Inv(s)
    ensures Inv(s') && s'.init && s'.dram == s.dram && s'.time == s.time
  {
    if s.init then s
    else
      ResetShowsLower(NineBitIndex, s.dram);
      ResetShowsLower(EightBitIndex, s.dram);
      s.(l1 := ResetLines(L1_LINES), l2 := ResetLines(L2_LINES), init := true)
  }

  /** L2 with DRAM and time, as a memory of the L2 level. */
  function L2Memory(s: State): Memory
  {
    Memory(s.l2, s.dram, s.time)
  }

  /** The state an access leaves, the word a READ copies out, and false when the process exits. */
  datatype Outcome = Outcome(state: State, data: seq<byte>, ok: bool)

  /** accessL2(address - offset, TempBlock, MODE_READ): the L1 miss path's fetch. */
  function FetchL2(s: State, a: nat): (r: Reply)
    requires Consistent(NineBitIndex, s.l2) && |s.dram| == DRAM_SIZE
    ensures Consistent(NineBitIndex, r.mem.lines) && |r.mem.dram| == DRAM_SIZE
    ensures r.ok ==> |r.data| == BLOCK_SIZE
  {
    Access(L2_LEVEL, L2Memory(s), BlockBase(a), ReadMode, [])
  }

  /**
   * The miss path of accessL1: fetch the block from L2 (the process exits if
   * it is not in DRAM), write a valid dirty victim into L2 at the address
   * rebuilt from its tag and index, install the block valid, clean, new tag.
   * On a hit nothing happens.
   */
  function AllocateL1(s: State, a: nat): (o: Outcome)
    requires Inv(s)
    ensures !o.ok ==> o.state == s
    ensures o.ok ==>
      Consistent(EightBitIndex, o.state.l1) && Consistent(NineBitIndex, o.state.l2) &&
      |o.state.dram| == DRAM_SIZE && Hit(EightBitIndex, o.state.l1, a) && o.state.init == s.init
  {
    if Hit(EightBitIndex, s.l1, a) then Outcome(s, [], true)
    else
      var i := Index(EightBitIndex, a);
      var victim := s.l1[i];
      var fetched := FetchL2(s, a);
      AccessExits(L2_LEVEL, L2Memory(s), BlockBase(a), ReadMode, []);
      Decompose(EightBitIndex, a);
      if !fetched.ok then Outcome(s, [], false)
      else
        var below :=
          if victim.valid && victim.dirty then
            BaseDecomposes(EightBitIndex, victim.tag, i);
            Access(L2_LEVEL, fetched.mem, Base(EightBitIndex, victim.tag, i), WriteMode, victim.block).mem
          else fetched.mem;
        var l1 := s.l1[i := CacheLine(true, false, Tag(EightBitIndex, a), fetched.data)];
        Outcome(State(l1, below.lines, below.dram, below.time, s.init), [], true)
  }

  /**
   * accessL2 on a block-aligned address keeps L2 coherent with DRAM; it
   * exits exactly when the block is not in DRAM; a READ returns the block
   * L2 and DRAM hold together and leaves them holding the same bytes, and a
   * WRITE puts its block there and changes nothing else.
   */
  lemma L2AccessIsImage(m: Memory, a: nat, mode: Mode, data: seq<byte>)
    requires Coherent(NineBitIndex, m.lines, m.dram) && Accepts(L2_LEVEL, a, mode, data)
    ensures var r := Access(L2_LEVEL, m, a, mode, data);
      var before := Image(NineBitIndex, m.lines, m.dram);
      (r.ok <==> a + BLOCK_SIZE <= DRAM_SIZE) &&
      (r.ok ==>
        Coherent(NineBitIndex, r.mem.lines, r.mem.dram) &&
        (mode == ReadMode ==>
          r.data == before[a..a + BLOCK_SIZE] && Image(NineBitIndex, r.mem.lines, r.mem.dram) == before) &&
        (mode == WriteMode ==>
          Image(NineBitIndex, r.mem.lines, r.mem.dram) == Splice(before, a, data)))
  {
    var r := Access(L2_LEVEL, m, a, mode, data);
    var before := Image(NineBitIndex, m.lines, m.dram);
    AccessExits(L2_LEVEL, m, a, mode, data);
    AccessIsView(L2_LEVEL, m, a, mode, data);
    if r.ok {
      var after := Image(NineBitIndex, r.mem.lines, r.mem.dram);
      match mode
      case ReadMode =>
        assert r.data == before[a..a + BLOCK_SIZE] by {
          forall k | 0 <= k < BLOCK_SIZE
            ensures r.data[k] == before[a + k]
          {
          }
        }
        assert after == before;
      case WriteMode =>
        assert after == Splice(before, a, data);
    }
  }

  /** Writing a valid L1 line back into L2 never makes the process exit: its block lies in DRAM. */
  lemma VictimWriteBackStays(l1: seq<CacheLine>, i: nat, m: Memory)
    requires Consistent(EightBitIndex, l1) && i < L1_LINES && l1[i].valid
    requires Consistent(NineBitIndex, m.lines) && |m.dram| == DRAM_SIZE
    ensures Accepts(L2_LEVEL, Base(EightBitIndex, l1[i].tag, i), WriteMode, l1[i].block)
    ensures Access(L2_LEVEL, m, Base(EightBitIndex, l1[i].tag, i), WriteMode, l1[i].block).ok
  {
    var vb := Base(EightBitIndex, l1[i].tag, i);
    BaseDecomposes(EightBitIndex, l1[i].tag, i);
    AccessExits(L2_LEVEL, m, vb, WriteMode, l1[i].block);
  }

  /**
   * The L1 miss path is the miss-fill of a direct-mapped level over what L2
   * and DRAM hold together: it proceeds exactly when L1 hits or the block
   * lies in DRAM (the victim's write-back never exits), the new L1 lines and
   * the new `Below` are those of `Fill`, and so the invariant holds and the
   * program shows the same bytes as before.
   */
  lemma AllocateL1IsFill(s: State, a: nat)
    requires Inv(s)
    ensures var o := AllocateL1(s, a);
      (o.ok <==> Hit(EightBitIndex, s.l1, a) || BlockBase(a) + BLOCK_SIZE <= DRAM_SIZE) &&
      (o.ok ==>
        Inv(o.state) && o.state.init == s.init &&
        (!Hit(EightBitIndex, s.l1, a) ==>
          var f := Fill(EightBitIndex, s.l1, Below(s), a);
          o.state.l1 == f.lines && Below(o.state) == f.lower) &&
        forall x :: 0 <= x < DRAM_SIZE ==> Contents(o.state, x) == Contents(s, x))
  {
    var o := AllocateL1(s, a);
    if !Hit(EightBitIndex, s.l1, a) {
      var i := Index(EightBitIndex, a);
      var victim := s.l1[i];
      var fetched := FetchL2(s, a);
      L2AccessIsImage(L2Memory(s), BlockBase(a), ReadMode, []);
      if fetched.ok {
        var f := Fill(EightBitIndex, s.l1, Below(s), a);
        if victim.valid && victim.dirty {
          var vb := Base(EightBitIndex, victim.tag, i);
          VictimWriteBackStays(s.l1, i, fetched.mem);
          L2AccessIsImage(fetched.mem, vb, WriteMode, victim.block);
        }
        assert o.state.l1 == f.lines && Below(o.state) == f.lower;
        FillKeepsView(EightBitIndex, s.l1, Below(s), a);
      }
    }
  }

  /** accessL1: the init block, the miss path through L2, then the word copied out (READ) or in (WRITE, Dirty). */
  function StepL1(s: State, address: nat, mode: Mode, data: seq<byte>): (o: Outcome)
    requires Inv(s) && Accepts(L1_LEVEL, address, mode, data)
    ensures Inv(o.state) && o.state.init
  {
    var s1 := Started(s);
    var p := AllocateL1(s1, address);
    AllocateL1IsFill(s1, address);
    if !p.ok then Outcome(s1, [], false)
    else
      var t := p.state;
      match mode
      case ReadMode =>
        Outcome(t.(time := t.time + L1_READ_TIME), Load(EightBitIndex, t.l1, address, WORD_SIZE), true)
      case WriteMode =>
        StoreIsView(EightBitIndex, t.l1, Below(t), address, data);
        Outcome(t.(l1 := Store(EightBitIndex, t.l1, address, data), time := t.time + L1_WRITE_TIME), [], true)
  }

  /** A proof step for Simulator.AccessL1: StepL1 unfolded into the miss path, then the word copied out or in. */
  lemma StepL1Served(s: State, address: nat, mode: Mode, data: seq<byte>)
    requires Inv(s) && Accepts(L1_LEVEL, address, mode, data)
    ensures var s1 := Started(s);
      var p := AllocateL1(s1, address);
      var t := p.state;
      StepL1(s, address, mode, data) ==
        if !p.ok then Outcome(s1, [], false)
        else if mode == ReadMode then
          Outcome(t.(time := t.time + L1_READ_TIME), Load(EightBitIndex, t.l1, address, WORD_SIZE), true)
        else
          Outcome(t.(l1 := Store(EightBitIndex, t.l1, address, data), time := t.time + L1_WRITE_TIME), [], true)
  {
  }

  /** initCache discards both levels: after it, the program shows DRAM as it is, dirty data in L1 or L2 included. */
  lemma InitShowsDram(s: State, x: nat)
    requires Inv(s) && !s.init && x < DRAM_SIZE
    ensures Contents(Started(s), x) == s.dram[x]
  {
    ResetShowsLower(NineBitIndex, s.dram);
  }

  /**
   * read and write are transparent through both levels: the process exits
   * exactly when the address is beyond DRAM; otherwise a READ returns the
   * word the program showed, a WRITE changes exactly that word, and the
   * invariant is kept. A dirty word L1 evicts into L2, or L2 into DRAM, is
   * still what the program shows.
   */
  lemma StepIsMemory(s: State, address: nat, mode: Mode, data: seq<byte>)
    requires Inv(s) && Accepts(L1_LEVEL, address, mode, data)
    ensures var r := StepL1(s, address, mode, data);
      var s1 := Started(s);
      (r.ok <==> address < DRAM_SIZE) &&
      (r.ok ==>
        address + WORD_SIZE <= DRAM_SIZE && Inv(r.state) && r.state.init &&
        (mode == ReadMode ==>
          |r.data| == WORD_SIZE &&
          forall k :: 0 <= k < WORD_SIZE ==> r.data[k] == Contents(s1, address + k)) &&
        forall x :: 0 <= x < DRAM_SIZE ==>
          Contents(r.state, x) ==
            if mode == WriteMode && address <= x < address + WORD_SIZE then data[x - address] else Contents(s1, x))
  {
    var s1 := Started(s);
    var p := AllocateL1(s1, address);
    AllocateL1IsFill(s1, address);
    if p.ok {
      var t := p.state;
      match mode
      case ReadMode =>
        LoadIsView(EightBitIndex, t.l1, Below(t), address, WORD_SIZE);
      case WriteMode =>
        StoreIsView(EightBitIndex, t.l1, Below(t), address, data);
    }
  }

  /**
   * What one access does to the lines: in L1 only the line at the address's
   * index changes, and it ends valid with the address's tag, dirty after a
   * WRITE or when it already held the address dirty, holding the written
   * word. A hit leaves L2 and DRAM alone; a miss touches only the L2 line of
   * the fetched block and, when the victim is valid and dirty, the L2 line
   * of the victim's block, which then holds the victim's block, valid and
   * dirty.
   */
  lemma StepLines(s: State, address: nat, mode: Mode, data: seq<byte>)
    requires Inv(s) && Accepts(L1_LEVEL, address, mode, data)
    ensures var r := StepL1(s, address, mode, data);
      var s1 := Started(s);
      var i := Index(EightBitIndex, address);
      var victim := s1.l1[i];
      var hit := Hit(EightBitIndex, s1.l1, address);
      var vb := Base(EightBitIndex, victim.tag, i);
      var dirtyMiss := !hit && victim.valid && victim.dirty;
      r.ok ==>
        |r.state.l1| == L1_LINES && |r.state.l2| == L2_LINES &&
        (forall j :: 0 <= j < L1_LINES && j != i ==> r.state.l1[j] == s1.l1[j]) &&
        r.state.l1[i].valid && r.state.l1[i].tag == Tag(EightBitIndex, address) &&
        r.state.l1[i].dirty == (mode == WriteMode || (hit && victim.dirty)) &&
        (mode == WriteMode ==> Load(EightBitIndex, r.state.l1, address, WORD_SIZE) == data) &&
        (hit ==> r.state.l2 == s1.l2 && r.state.dram == s1.dram) &&
        (forall j :: 0 <= j < L2_LINES && j != Index(NineBitIndex, address) &&
            (dirtyMiss ==> j != Index(NineBitIndex, vb))
          ==> r.state.l2[j] == s1.l2[j]) &&
        (dirtyMiss ==>
          r.state.l2[Index(NineBitIndex, vb)] == CacheLine(true, true, Tag(NineBitIndex, vb), victim.block))
  {
    var s1 := Started(s);
    if AllocateL1(s1, address).ok {
      AllocateL1Lines(s1, address);
    }
  }

  /**
   * The L1 miss path on the lines: L1 changes only at the address's index,
   * which ends valid with the new tag (clean after a fill); L2 changes only
   * at the line of the fetched block and, for a valid dirty victim, at the
   * line of the victim's block, which then holds it valid and dirty.
   */
  lemma AllocateL1Lines(s: State, a: nat)
    requires Inv(s) && AllocateL1(s, a).ok
    ensures var p := AllocateL1(s, a).state;
      var i := Index(EightBitIndex, a);
      var victim := s.l1[i];
      var hit := Hit(EightBitIndex, s.l1, a);
      var vb := Base(EightBitIndex, victim.tag, i);
      var dirtyMiss := !hit && victim.valid && victim.dirty;
      |p.l1| == L1_LINES && |p.l2| == L2_LINES && p.init == s.init &&
      (forall j :: 0 <= j < L1_LINES && j != i ==> p.l1[j] == s.l1[j]) &&
      p.l1[i].valid && p.l1[i].tag == Tag(EightBitIndex, a) && p.l1[i].dirty == (hit && victim.dirty) &&
      (hit ==> p == s) &&
      (forall j :: 0 <= j < L2_LINES && j != Index(NineBitIndex, a) &&
          (dirtyMiss ==> j != Index(NineBitIndex, vb))
        ==> p.l2[j] == s.l2[j]) &&
      (dirtyMiss ==>
        p.l2[Index(NineBitIndex, vb)] == CacheLine(true, true, Tag(NineBitIndex, vb), victim.block))
  {
    var i := Index(EightBitIndex, a);
    var victim := s.l1[i];
    var p := AllocateL1(s, a);
    if !Hit(EightBitIndex, s.l1, a) {
      var bb := BlockBase(a);
      SameBlock(NineBitIndex, bb, Offset(a));
      var fetched := FetchL2(s, a);
      AccessLines(L2_LEVEL, L2Memory(s), bb, ReadMode, []);
      if victim.valid && victim.dirty {
        var vb := Base(EightBitIndex, victim.tag, i);
        VictimWriteBackStays(s.l1, i, fetched.mem);
        AccessLines(L2_LEVEL, fetched.mem, vb, WriteMode, victim.block);
        var line := p.state.l2[Index(NineBitIndex, vb)];
        assert line.block[0..BLOCK_SIZE] == victim.block;
      }
    }
  }

  /** What the DRAM part of one L2 access costs: DRAM_READ_TIME on a miss, DRAM_WRITE_TIME more for a valid dirty victim. */
  function DramCost(l2: seq<CacheLine>, a: nat): nat
    requires WellFormed(NineBitIndex, l2)
  {
    var victim := l2[Index(NineBitIndex, a)];
    if Hit(NineBitIndex, l2, a) then 0
    else DRAM_READ_TIME + (if victim.valid && victim.dirty then DRAM_WRITE_TIME else 0)
  }

  /**
   * The time one access adds is the sum of the costs of what it did: the L1
   * service; on an L1 miss the L2 READ of the block with its DRAM cost; for
   * a valid dirty L1 victim the L2 WRITE with its DRAM cost, judged on L2 as
   * the READ left it. An exit adds nothing.
   */
  lemma StepTime(s: State, address: nat, mode: Mode, data: seq<byte>)
    requires Inv(s) && Accepts(L1_LEVEL, address, mode, data)
    ensures var r := StepL1(s, address, mode, data);
      var s1 := Started(s);
      var i := Index(EightBitIndex, address);
      var victim := s1.l1[i];
      var service := if mode == ReadMode then L1_READ_TIME else L1_WRITE_TIME;
      var fetched := FetchL2(s1, address);
      (!r.ok ==> r.state.time == s.time) &&
      (r.ok && Hit(EightBitIndex, s1.l1, address) ==> r.state.time == s.time + service) &&
      (r.ok && !Hit(EightBitIndex, s1.l1, address) ==>
        r.state.time == s.time + DramCost(s1.l2, BlockBase(address)) + L2_READ_TIME
          + (if victim.valid && victim.dirty
             then DramCost(fetched.mem.lines, Base(EightBitIndex, victim.tag, i)) + L2_WRITE_TIME
             else 0)
          + service)
  {
    var s1 := Started(s);
    var i := Index(EightBitIndex, address);
    var victim := s1.l1[i];
    if !Hit(EightBitIndex, s1.l1, address) {
      var fetched := FetchL2(s1, address);
      AccessTime(L2_LEVEL, L2Memory(s1), BlockBase(address), ReadMode, []);
      if fetched.ok && victim.valid && victim.dirty {
        var vb := Base(EightBitIndex, victim.tag, i);
        VictimWriteBackStays(s1.l1, i, fetched.mem);
        AccessTime(L2_LEVEL, fetched.mem, vb, WriteMode, victim.block);
      }
    }
  }

  /**
   * After initCache the next access misses in L1 and in L2, evicts nothing
   * dirty, and costs DRAM_READ_TIME, L2_READ_TIME and the L1 service.
   */
  lemma ColdStartMisses(s: State, address: nat, mode: Mode, data: seq<byte>)
    requires Inv(s) && !s.init && Accepts(L1_LEVEL, address, mode, data)
    ensures !Hit(EightBitIndex, Started(s).l1, address) && !Hit(NineBitIndex, Started(s).l2, BlockBase(address))
    ensures var r := StepL1(s, address, mode, data);
      r.ok ==> r.state.time == s.time + DRAM_READ_TIME + L2_READ_TIME + (if mode == ReadMode then L1_READ_TIME else L1_WRITE_TIME)
  {
    StepTime(s, address, mode, data);
  }

  /**
   * write(A, V) followed by read(A) returns V: the read hits the L1 line the
   * write left, changes nothing but the time, and costs L1_READ_TIME.
   */
  lemma WriteThenRead(s: State, address: nat, v: seq<byte>)
    requires Inv(s) && Accepts(L1_LEVEL, address, WriteMode, v)
    requires StepL1(s, address, WriteMode, v).ok
    ensures var w := StepL1(s, address, WriteMode, v).state;
      var r := StepL1(w, address, ReadMode, []);
      r.ok && r.data == v && r.state == w.(time := w.time + L1_READ_TIME)
  {
    StepLines(s, address, WriteMode, v);
    var w := StepL1(s, address, WriteMode, v).state;
    assert Started(w) == w;
    assert Hit(EightBitIndex, w.l1, address);
  }

  /** The globals of the 4.2 program (DRAM, time, cache.init, cache.l1.lines, cache.l2.lines) and its routines. */
  class Simulator {
    const DRAM: array<byte>
    var time: nat
    var init: bool
    const l1: array<CacheLine>
    const l2: array<CacheLine>

    ghost predicate Valid()
      reads this, DRAM, l1, l2
    {
      DRAM.Length == DRAM_SIZE && l1.Length == L1_LINES && l2.Length == L2_LINES && l1 != l2 &&
      Inv(Model())
    }

    ghost function Model(): State
      reads this, DRAM, l1, l2
    {
      State(l1[..], l2[..], DRAM[..], time, init)
    }

    /** L2, DRAM and time, as the memory of the L2 level. */
    ghost function L2Mem(): Memory
      reads this, DRAM, l2
    {
      Memory(l2[..], DRAM[..], time)
    }

    /** The zero-initialised globals: DRAM zeroed, time 0, init 0, every line of both levels empty. */
    constructor ()
      ensures Valid() && fresh(DRAM) && fresh(l1) && fresh(l2)
      ensures Model() == State(ResetLines(L1_LINES), ResetLines(L2_LINES), seq(DRAM_SIZE, _ => 0), 0, false)
    {
      DRAM := new byte[DRAM_SIZE](_ => 0);
      l1 := new CacheLine[L1_LINES](_ => EmptyLine());
      l2 := new CacheLine[L2_LINES](_ => EmptyLine());
      time := 0;
      init := false;
      new;
      ResetShowsLower(NineBitIndex, DRAM[..]);
      ResetShowsLower(EightBitIndex, DRAM[..]);
    }

    /** resetTime */
    method ResetTime()
      modifies this`time
      ensures time == 0
      ensures old(Valid()) ==> Valid() && Model() == old(Model()).(time := 0)
    {
      time := 0;
    }

    /** getTime */
    method GetTime() returns (t: nat)
      ensures t == time
    {
      t := time;
    }

    /** initCache: only clears the init flag; both levels are reset by the next access. */
    method InitCache()
      requires Valid()
      modifies this`init
      ensures Valid() && Model() == old(Model()).(init := false)
    {
      init := false;
    }

    /**
     * accessDRAM on a block-aligned address: exit (ok false) unless the block
     * lies in DRAM; READ copies the block out and adds DRAM_READ_TIME, WRITE
     * copies it in and adds DRAM_WRITE_TIME.
     */
    method AccessDRAM(address: nat, mode: Mode, data: seq<byte>) returns (ok: bool, block: seq<byte>)
      requires DRAM.Length == DRAM_SIZE && address % BLOCK_SIZE == 0
      requires mode == WriteMode ==> |data| == BLOCK_SIZE
      modifies this`time, DRAM
      ensures ok <==> address + BLOCK_SIZE <= DRAM_SIZE
      ensures !ok ==> time == old(time) && DRAM[..] == old(DRAM[..])
      ensures ok && mode == ReadMode ==>
        block == DRAM[address..address + BLOCK_SIZE] && DRAM[..] == old(DRAM[..]) &&
        time == old(time) + DRAM_READ_TIME
      ensures ok && mode == WriteMode ==>
        DRAM[..] == Splice(old(DRAM[..]), address, data) && time == old(time) + DRAM_WRITE_TIME
    {
      if !DramGuard(address) {
        return false, [];   // exit(-1)
      }
      ok := true;
      match mode
      case ReadMode =>
        block := DRAM[address..address + BLOCK_SIZE];
        time := time + DRAM_READ_TIME;
      case WriteMode =>
        block := [];
        forall k | 0 <= k < BLOCK_SIZE {
          DRAM[address + k] := data[k];
        }
        time := time + DRAM_WRITE_TIME;
    }

    /** One init loop of accessL1: every line invalid, clean, Tag 0, block zeroed. */
    static method ClearLines(lines: array<CacheLine>)
      modifies lines
      ensures lines[..] == ResetLines(lines.Length)
    {
      for i := 0 to lines.Length
        invariant forall k :: 0 <= k < i ==> lines[k] == EmptyLine()
      {
        lines[i] := EmptyLine();
      }
    }

    /**
     * The miss branch of accessL2: fetch the block from DRAM (exit if it is
     * not there), write a valid dirty victim back to DRAM at the address
     * rebuilt from its tag and index, install the block valid, clean, new tag.
     */
    method MissL2(address: uint32) returns (ok: bool)
      requires DRAM.Length == DRAM_SIZE && l2.Length == L2_LINES && Consistent(NineBitIndex, l2[..])
      requires !Hit(NineBitIndex, l2[..], address)
      modifies this`time, DRAM, l2
      ensures ok <==> BlockBase(address) + BLOCK_SIZE <= DRAM_SIZE
      ensures ok ==> L2Mem() == Allocate(NineBitIndex, old(L2Mem()), address)
      ensures !ok ==> L2Mem() == old(L2Mem())
    {
      ghost var m := L2Mem();
      var index := Index(NineBitIndex, address);
      var tag := Tag(NineBitIndex, address);
      TagFits(NineBitIndex, address);
      var line := l2[index];
      var fetched;
      ok, fetched := AccessDRAM(address - Offset(address), ReadMode, []);
      if !ok {
        return;   // exit(-1)
      }
      if line.valid && line.dirty {
        var memAddress := Base(NineBitIndex, line.tag, index);
        BaseDecomposes(NineBitIndex, line.tag, index);
        var written, unused := AccessDRAM(memAddress, WriteMode, line.block);
      }
      l2[index] := CacheLine(true, false, tag, fetched);
      ghost var f := Fill(NineBitIndex, m.lines, m.dram, address);
      assert l2[..] == f.lines && DRAM[..] == f.lower;
    }

    /**
     * accessL2 on a block-aligned address: on a miss fetch the block from
     * DRAM, write a valid dirty victim back and install the block; then copy
     * the whole block out (READ) or in (WRITE, Dirty).
     */
    method AccessL2(address: uint32, mode: Mode, data: seq<byte>) returns (ok: bool, out: seq<byte>)
      requires DRAM.Length == DRAM_SIZE && l2.Length == L2_LINES && Consistent(NineBitIndex, l2[..])
      requires Accepts(L2_LEVEL, address, mode, data)
      modifies this`time, DRAM, l2
      ensures var r := Access(L2_LEVEL, old(L2Mem()), address, mode, data);
        L2Mem() == r.mem && ok == r.ok && out == r.data
    {
      ghost var r := Access(L2_LEVEL, L2Mem(), address, mode, data);
      ghost var m := L2Mem();
      out := [];
      var index := Index(NineBitIndex, address);
      var tag := Tag(NineBitIndex, address);
      var line := l2[index];
      if !line.valid || line.tag != tag {
        ok := MissL2(address);
        if !ok {
          return;   // exit(-1)
        }
      }
      ghost var prepared := Allocate(NineBitIndex, m, address);
      assert L2Mem() == prepared;
      ok := true;
      out := ServeL2(address, mode, data);
    }

    /** The service part of accessL2 on the line that holds the block: copy the block out (READ) or in (WRITE, Dirty). */
    method ServeL2(address: uint32, mode: Mode, data: seq<byte>) returns (out: seq<byte>)
      requires l2.Length == L2_LINES && Consistent(NineBitIndex, l2[..])
      requires Hit(NineBitIndex, l2[..], address) && Accepts(L2_LEVEL, address, mode, data)
      modifies this`time, l2
      ensures var r := Serve(L2_LEVEL, old(L2Mem()), address, mode, data); L2Mem() == r.mem && out == r.data
    {
      var index := Index(NineBitIndex, address);
      var line := l2[index];
      out := [];
      match mode {
        case ReadMode =>
          out := line.block;
          assert out == line.block[Offset(address)..Offset(address) + BLOCK_SIZE];
          time := time + L2_READ_TIME;
        case WriteMode =>
          assert data == Splice(line.block, Offset(address), data);
          l2[index] := line.(block := data, dirty := true);
          time := time + L2_WRITE_TIME;
      }
    }

    /**
     * The miss branch of accessL1: fetch the block from L2 (exit if it is not
     * in DRAM), write a valid dirty victim into L2 at the address rebuilt from
     * its tag and index, install the block valid, clean, new tag.
     */
    method MissL1(address: uint32) returns (ok: bool)
      requires Valid() && !Hit(EightBitIndex, l1[..], address)
      modifies this`time, DRAM, l1, l2
      ensures var o := AllocateL1(old(Model()), address); Model() == o.state && ok == o.ok
    {
      ghost var s := Model();
      ghost var o := AllocateL1(s, address);
      ghost var f := FetchL2(s, address);
      assert L2Mem() == L2Memory(s);
      var index := Index(EightBitIndex, address);
      var tag := Tag(EightBitIndex, address);
      TagFits(EightBitIndex, address);
      var line := l1[index];
      var fetched;
      assert address - Offset(address) == BlockBase(address);
      ok, fetched := AccessL2(address - Offset(address), ReadMode, []);
      assert L2Mem() == f.mem;
      assert ok == f.ok && fetched == f.data;
      if !ok {
        assert o.state == s;
        return;   // exit(-1)
      }
      ghost var below := f.mem;
      if line.valid && line.dirty {
        var memAddress := Base(EightBitIndex, line.tag, index);
        VictimWriteBackStays(s.l1, index, L2Mem());
        var written, unused := AccessL2(memAddress, WriteMode, line.block);
        below := Access(L2_LEVEL, f.mem, memAddress, WriteMode, line.block).mem;
      }
      assert L2Mem() == below;
      l1[index] := CacheLine(true, false, tag, fetched);
      assert o.state == State(l1[..], below.lines, below.dram, below.time, s.init);
    }

    /** The init block of accessL1: on the first access after initCache, set init and reset both levels. */
    method Start()
      requires Valid()
      modifies this`init, l1, l2
      ensures Valid() && Model() == Started(old(Model()))
    {
      if !init {
        init := true;
        ClearLines(l1);
        ClearLines(l2);
      }
    }

    /** The service part of accessL1 on the line that holds the address: copy the word out (READ) or in (WRITE, Dirty). */
    method ServeL1(address: uint32, mode: Mode, data: seq<byte>) returns (out: seq<byte>)
      requires l1.Length == L1_LINES && WellFormed(EightBitIndex, l1[..]) && Accepts(L1_LEVEL, address, mode, data)
      modifies this`time, l1
      ensures mode == ReadMode ==>
        l1[..] == old(l1[..]) && time == old(time) + L1_READ_TIME &&
        out == Load(EightBitIndex, old(l1[..]), address, WORD_SIZE)
      ensures mode == WriteMode ==>
        l1[..] == Store(EightBitIndex, old(l1[..]), address, data) && time == old(time) + L1_WRITE_TIME && out == []
    {
      var index := Index(EightBitIndex, address);
      var offset := Offset(address);
      var line := l1[index];
      out := [];
      match mode {
        case ReadMode =>
          out := line.block[offset..offset + WORD_SIZE];
          time := time + L1_READ_TIME;
        case WriteMode =>
          l1[index] := line.(block := Splice(line.block, offset, data), dirty := true);
          time := time + L1_WRITE_TIME;
      }
    }

    /**
     * accessL1: reset both levels on the first access after initCache, then
     * on a miss go through L2; then copy the word out (READ) or in (WRITE,
     * Dirty).
     */
    method AccessL1(address: uint32, mode: Mode, data: seq<byte>) returns (ok: bool, out: seq<byte>)
      requires Valid() && Accepts(L1_LEVEL, address, mode, data)
      modifies this, DRAM, l1, l2
      ensures Valid()
      ensures var r := StepL1(old(Model()), address, mode, data);
        Model() == r.state && ok == r.ok && out == r.data
    {
      StepL1Served(Model(), address, mode, data);
      out := [];
      Start();
      ghost var s1 := Model();
      var index := Index(EightBitIndex, address);
      var tag := Tag(EightBitIndex, address);
      var line := l1[index];
      if !line.valid || line.tag != tag {
        ok := MissL1(address);
        if !ok {
          return;   // exit(-1)
        }
      }
      ghost var t := AllocateL1(s1, address).state;
      assert Model() == t;
      ok := true;
      out := ServeL1(address, mode, data);
    }

    /** read: one READ access, through L1. */
    method Read(address: uint32) returns (ok: bool, data: seq<byte>)
      requires Valid() && Offset(address) + WORD_SIZE <= BLOCK_SIZE
      modifies this, DRAM, l1, l2
      ensures Valid()
      ensures var r := StepL1(old(Model()), address, ReadMode, []);
        Model() == r.state && ok == r.ok && data == r.data
      ensures ok <==> address < DRAM_SIZE
      ensures ok ==> address + WORD_SIZE <= DRAM_SIZE
      ensures ok ==>
        |data| == WORD_SIZE &&
        forall k :: 0 <= k < WORD_SIZE ==> data[k] == Contents(Started(old(Model())), address + k)
    {
      StepIsMemory(Model(), address, ReadMode, []);
      ok, data := AccessL1(address, ReadMode, []);
    }

    /** write: one WRITE access, through L1. */
    method Write(address: uint32, data: seq<byte>) returns (ok: bool)
      requires Valid() && Offset(address) + WORD_SIZE <= BLOCK_SIZE && |data| == WORD_SIZE
      modifies this, DRAM, l1, l2
      ensures Valid()
      ensures var r := StepL1(old(Model()), address, WriteMode, data);
        Model() == r.state && ok == r.ok
      ensures ok <==> address < DRAM_SIZE
      ensures ok ==> address + WORD_SIZE <= DRAM_SIZE
      ensures ok ==> forall x :: 0 <= x < DRAM_SIZE ==>
        Contents(Model(), x) ==
          if address <= x < address + WORD_SIZE then data[x - address] else Contents(Started(old(Model())), x)
    {
      StepIsMemory(Model(), address, WriteMode, data);
      var unused;
      ok, unused := AccessL1(address, WriteMode, data);
    }
  }
}
