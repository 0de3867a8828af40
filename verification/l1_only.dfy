/**
 * Version 4.1: one direct-mapped, write-back L1 of 256 lines in front of a
 * byte-array DRAM, with a global time counter and a lazy init flag.
 *
 * `State` and `StepL1` are the specification; `Simulator` holds the globals
 * of the C program (DRAM, time, the L1 lines and their init flag) and its
 * methods are the C routines, each proved to do what `StepL1` says.
 */
module L1Only {
  import opened Common
  import opened DirectMapped

  /** The globals of the program: the L1 lines, DRAM, time and L1Cache.init. */
  datatype State = State(lines: seq<CacheLine>, dram: seq<byte>, time: nat, init: bool)

  /** Holds in every reachable state: dirty lines are valid, valid lines lie in DRAM, clean ones agree with it. */
  predicate Inv(s: State)
  {
    Coherent(EightBitIndex, s.lines, s.dram)
  }

  /** The byte the program shows at address x: L1's copy when L1 holds x's block, DRAM's byte otherwise. */
  function Contents(s: State, x: nat): byte
    requires Inv(s) && x < DRAM_SIZE
  {
    View(EightBitIndex, s.lines, s.dram, x)
  }

  /** The state after accessL1's init block: the first access after initCache resets every line. */
  function Started(s: State): (s': State)
    requires Inv(s)
    ensures Inv(s') && s'.init && s'.dram == s.dram && s'.time == s.time
  {
    if s.init then s
    else
      ResetShowsLower(EightBitIndex, s.dram);
      s.(lines := ResetLines(L1_LINES), init := true)
  }

  /** The state an access leaves, the word a READ copies out, and false when the process exits. */
  datatype Outcome = Outcome(state: State, data: seq<byte>, ok: bool)

  /** accessL1: the init block, then one access of the L1 level in front of DRAM. */
  function StepL1(s: State, address: nat, mode: Mode, data: seq<byte>): (o: Outcome)
    requires Inv(s) && Accepts(L1_LEVEL, address, mode, data)
    ensures Inv(o.state) && o.state.init
  {
    var s1 := Started(s);
    var m := Memory(s1.lines, s1.dram, s1.time);
    var r := Access(L1_LEVEL, m, address, mode, data);
    AccessExits(L1_LEVEL, m, address, mode, data);
    AccessIsView(L1_LEVEL, m, address, mode, data);
    Outcome(State(r.mem.lines, r.mem.dram, r.mem.time, true), r.data, r.ok)
  }

  /** initCache discards the cache: after it, the program shows DRAM as it is, dirty L1 data included. */
  lemma InitShowsDram(s: State, x: nat)
    requires Inv(s) && !s.init && x < DRAM_SIZE
    ensures Contents(Started(s), x) == s.dram[x]
  {
  }

  /**
   * read and write are transparent: the process exits exactly when the
   * address is beyond DRAM; otherwise a READ returns the word the program
   * showed, a WRITE changes exactly that word, and the invariant is kept.
   */
  lemma StepIsMemory(s: State, address: nat, mode: Mode, data: seq<byte>)
    requires Inv(s) && Accepts(L1_LEVEL, address, mode, data)
    ensures var r := StepL1(s, address, mode, data);
      var s1 := Started(s);
      (r.ok <==> address < DRAM_SIZE) &&
      (r.ok ==>
        address + WORD_SIZE <= DRAM_SIZE && Inv(r.state) && r.state.init &&
        (mode == ReadMode ==>
          |r.data| == WORD_SIZE &&
          forall k :: 0 <= k < WORD_SIZE ==> r.data[k] == Contents(s1, address + k)) &&
        forall x :: 0 <= x < DRAM_SIZE ==>
          Contents(r.state, x) ==
            if mode == WriteMode && address <= x < address + WORD_SIZE then data[x - address] else Contents(s1, x))
  {
    var s1 := Started(s);
    var m := Memory(s1.lines, s1.dram, s1.time);
    AccessExits(L1_LEVEL, m, address, mode, data);
    AccessIsView(L1_LEVEL, m, address, mode, data);
  }

  /**
   * The time one access adds: L1_READ_TIME or L1_WRITE_TIME, plus
   * DRAM_READ_TIME on a miss, plus DRAM_WRITE_TIME when the miss evicts a
   * valid dirty line.
   */
  lemma StepTime(s: State, address: nat, mode: Mode, data: seq<byte>)
    requires Inv(s) && Accepts(L1_LEVEL, address, mode, data)
    ensures var r := StepL1(s, address, mode, data);
      var s1 := Started(s);
      var victim := s1.lines[Index(EightBitIndex, address)];
      var miss := !Hit(EightBitIndex, s1.lines, address);
      (r.ok ==>
        r.state.time == s.time
          + (if miss then DRAM_READ_TIME else 0)
          + (if miss && victim.valid && victim.dirty then DRAM_WRITE_TIME else 0)
          + (if mode == ReadMode then L1_READ_TIME else L1_WRITE_TIME)) &&
      (!r.ok ==> r.state.time == s.time)
  {
    var s1 := Started(s);
    var m := Memory(s1.lines, s1.dram, s1.time);
    AccessTime(L1_LEVEL, m, address, mode, data);
    AccessExits(L1_LEVEL, m, address, mode, data);
  }

  /**
   * After initCache the next access misses, finds no dirty victim and costs
   * DRAM_READ_TIME plus the L1 service.
   */
  lemma ColdStartMisses(s: State, address: nat, mode: Mode, data: seq<byte>)
    requires Inv(s) && !s.init && Accepts(L1_LEVEL, address, mode, data)
    ensures !Hit(EightBitIndex, Started(s).lines, address)
    ensures var r := StepL1(s, address, mode, data);
      r.ok ==> r.state.time == s.time + DRAM_READ_TIME + (if mode == ReadMode then L1_READ_TIME else L1_WRITE_TIME)
  {
    StepTime(s, address, mode, data);
  }

  /**
   * write(A, V) followed by read(A) returns V: the read hits the line the
   * write left, changes nothing but the time, and costs L1_READ_TIME.
   */
  lemma WriteThenRead(s: State, address: nat, v: seq<byte>)
    requires Inv(s) && Accepts(L1_LEVEL, address, WriteMode, v)
    requires StepL1(s, address, WriteMode, v).ok
    ensures var w := StepL1(s, address, WriteMode, v).state;
      var r := StepL1(w, address, ReadMode, []);
      r.ok && r.data == v && r.state == w.(time := w.time + L1_READ_TIME)
  {
    var s1 := Started(s);
    var m := Memory(s1.lines, s1.dram, s1.time);
    AccessLines(L1_LEVEL, m, address, WriteMode, v);
    StepIsMemory(s, address, WriteMode, v);
    var w := StepL1(s, address, WriteMode, v).state;
    assert Inv(w) && w.init;
    assert Started(w) == w;
    var wm := Memory(w.lines, w.dram, w.time);
    assert Hit(EightBitIndex, wm.lines, address);
    assert Load(EightBitIndex, wm.lines, address, WORD_SIZE) == v;
    ReadHitOnlyTakesTime(L1_LEVEL, wm, address);
  }

  /** The globals of the 4.1 program and its routines. */
  class Simulator {
    const DRAM: array<byte>
    var time: nat
    var init: bool
    const lines: array<CacheLine>

    ghost predicate Valid()
      reads this, DRAM, lines
    {
      DRAM.Length == DRAM_SIZE && lines.Length == L1_LINES && Inv(Model())
    }

    ghost function Model(): State
      reads this, DRAM, lines
    {
      State(lines[..], DRAM[..], time, init)
    }

    /** The zero-initialised globals: DRAM zeroed, time 0, init 0, every line empty. */
    constructor ()
      ensures Valid() && fresh(DRAM) && fresh(lines)
      ensures Model() == State(ResetLines(L1_LINES), seq(DRAM_SIZE, _ => 0), 0, false)
    {
      DRAM := new byte[DRAM_SIZE](_ => 0);
      lines := new CacheLine[L1_LINES](_ => EmptyLine());
      time := 0;
      init := false;
      new;
      ResetShowsLower(EightBitIndex, DRAM[..]);
    }

    /** resetTime */
    method ResetTime()
      modifies this`time
      ensures time == 0
      ensures old(Valid()) ==> Valid() && Model() == old(Model()).(time := 0)
    {
      time := 0;
    }

    /** getTime */
    method GetTime() returns (t: nat)
      ensures t == time
    {
      t := time;
    }

    /** initCache: only clears the init flag; the lines are reset by the next access. */
    method InitCache()
      requires Valid()
      modifies this`init
      ensures Valid() && Model() == old(Model()).(init := false)
    {
      init := false;
    }

    /**
     * accessDRAM on a block-aligned address: exit (ok false) unless the block
     * lies in DRAM; READ copies the block out and adds DRAM_READ_TIME, WRITE
     * copies it in and adds DRAM_WRITE_TIME.
     */
    method AccessDRAM(address: nat, mode: Mode, data: seq<byte>) returns (ok: bool, block: seq<byte>)
      requires DRAM.Length == DRAM_SIZE && address % BLOCK_SIZE == 0
      requires mode == WriteMode ==> |data| == BLOCK_SIZE
      modifies this`time, DRAM
      ensures ok <==> address + BLOCK_SIZE <= DRAM_SIZE
      ensures !ok ==> time == old(time) && DRAM[..] == old(DRAM[..])
      ensures ok && mode == ReadMode ==>
        block == DRAM[address..address + BLOCK_SIZE] && DRAM[..] == old(DRAM[..]) &&
        time == old(time) + DRAM_READ_TIME
      ensures ok && mode == WriteMode ==>
        DRAM[..] == Splice(old(DRAM[..]), address, data) && time == old(time) + DRAM_WRITE_TIME
    {
      if !DramGuard(address) {
        return false, [];   // exit(-1)
      }
      ok := true;
      match mode
      case ReadMode =>
        block := DRAM[address..address + BLOCK_SIZE];
        time := time + DRAM_READ_TIME;
      case WriteMode =>
        block := [];
        forall k | 0 <= k < BLOCK_SIZE {
          DRAM[address + k] := data[k];
        }
        time := time + DRAM_WRITE_TIME;
    }

    /** The init loop of accessL1: every line invalid, clean, Tag 0, block zeroed. */
    method ClearLines()
      requires lines.Length == L1_LINES
      modifies lines
      ensures lines[..] == ResetLines(L1_LINES)
    {
      for i := 0 to L1_LINES
        invariant forall k :: 0 <= k < i ==> lines[k] == EmptyLine()
      {
        lines[i] := EmptyLine();
      }
    }

    /** The L1 lines, DRAM and time, as the memory the L1 level sits on. */
    ghost function Mem(): Memory
      reads this, DRAM, lines
    {
      Memory(lines[..], DRAM[..], time)
    }

    /**
     * The miss branch of accessL1: fetch the block from DRAM (exit if it is
     * not there), write a valid dirty victim back to the address rebuilt
     * from its tag and index, and install the block valid, clean, new tag.
     */
    method Miss(address: uint32)
      returns (ok: bool)
      requires Valid() && init && !Hit(EightBitIndex, lines[..], address)
      modifies this`time, DRAM, lines
      ensures ok <==> BlockBase(address) + BLOCK_SIZE <= DRAM_SIZE
      ensures ok ==> Mem() == Allocate(EightBitIndex, old(Mem()), address)
      ensures !ok ==> Mem() == old(Mem())
    {
      ghost var m := Mem();
      var index := Index(EightBitIndex, address);
      var offset := Offset(address);
      var tag := Tag(EightBitIndex, address);
      TagFits(EightBitIndex, address);
      var line := lines[index];
      var memAddress := address - offset;
      var fetched;
      ok, fetched := AccessDRAM(memAddress, ReadMode, []);
      if !ok {
        return;   // exit(-1)
      }
      assert memAddress == BlockBase(address) && fetched == m.dram[memAddress..memAddress + BLOCK_SIZE];
      if line.valid && line.dirty {
        memAddress := Base(EightBitIndex, line.tag, index);
        BaseDecomposes(EightBitIndex, line.tag, index);
        var written, unused := AccessDRAM(memAddress, WriteMode, line.block);
      }
      lines[index] := CacheLine(true, false, tag, fetched);
      ghost var f := Fill(EightBitIndex, m.lines, m.dram, address);
      assert lines[..] == f.lines && DRAM[..] == f.lower;
    }

    /** The init block of accessL1: on the first access after initCache, set init and reset the lines. */
    method Start()
      requires Valid()
      modifies this`init, lines
      ensures Valid() && Model() == Started(old(Model()))
    {
      if !init {
        init := true;
        ClearLines();
      }
    }

    /** The service part of accessL1 on the line that holds the address: copy the word out (READ) or in (WRITE, Dirty). */
    method ServeL1(address: uint32, mode: Mode, data: seq<byte>) returns (out: seq<byte>)
      requires lines.Length == L1_LINES && Consistent(EightBitIndex, lines[..])
      requires Hit(EightBitIndex, lines[..], address) && Accepts(L1_LEVEL, address, mode, data)
      modifies this`time, lines
      ensures var r := Serve(L1_LEVEL, old(Mem()), address, mode, data); Mem() == r.mem && out == r.data
    {
      var index := Index(EightBitIndex, address);
      var offset := Offset(address);
      var line := lines[index];
      out := [];
      match mode {
        case ReadMode =>
          out := line.block[offset..offset + WORD_SIZE];
          time := time + L1_READ_TIME;
        case WriteMode =>
          lines[index] := line.(block := Splice(line.block, offset, data), dirty := true);
          time := time + L1_WRITE_TIME;
      }
    }

    /**
     * accessL1: reset the lines on the first access after initCache, then on
     * a miss fetch the block from DRAM, write a valid dirty victim back and
     * install the block; then copy the word out (READ) or in (WRITE, Dirty).
     */
    method AccessL1(address: uint32, mode: Mode, data: seq<byte>) returns (ok: bool, out: seq<byte>)
      requires Valid() && Accepts(L1_LEVEL, address, mode, data)
      modifies this, DRAM, lines
      ensures Valid()
      ensures var r := StepL1(old(Model()), address, mode, data);
        Model() == r.state && ok == r.ok && out == r.data
    {
      ghost var r := StepL1(Model(), address, mode, data);
      out := [];
      Start();
      ghost var m := Mem();
      var index := Index(EightBitIndex, address);
      var tag := Tag(EightBitIndex, address);
      var line := lines[index];
      if !line.valid || line.tag != tag {
        ok := Miss(address);
        if !ok {
          assert Model() == r.state;
          return;   // exit(-1)
        }
      }
      ghost var prepared := Allocate(EightBitIndex, m, address);
      assert Mem() == prepared;
      ok := true;
      out := ServeL1(address, mode, data);
      assert Mem() == Serve(L1_LEVEL, prepared, address, mode, data).mem;
      assert Model() == r.state;
    }

    /** read: one READ access of L1. */
    method Read(address: uint32) returns (ok: bool, data: seq<byte>)
      requires Valid() && Offset(address) + WORD_SIZE <= BLOCK_SIZE
      modifies this, DRAM, lines
      ensures Valid()
      ensures var r := StepL1(old(Model()), address, ReadMode, []);
        Model() == r.state && ok == r.ok && data == r.data
      ensures ok <==> address < DRAM_SIZE
      ensures ok ==> address + WORD_SIZE <= DRAM_SIZE
      ensures ok ==>
        |data| == WORD_SIZE &&
        forall k :: 0 <= k < WORD_SIZE ==> data[k] == Contents(Started(old(Model())), address + k)
    {
      StepIsMemory(Model(), address, ReadMode, []);
      ok, data := AccessL1(address, ReadMode, []);
    }

    /** write: one WRITE access of L1. */
    method Write(address: uint32, data: seq<byte>) returns (ok: bool)
      requires Valid() && Offset(address) + WORD_SIZE <= BLOCK_SIZE && |data| == WORD_SIZE
      modifies this, DRAM, lines
      ensures Valid()
      ensures var r := StepL1(old(Model()), address, WriteMode, data);
        Model() == r.state && ok == r.ok
      ensures ok <==> address < DRAM_SIZE
      ensures ok ==> address + WORD_SIZE <= DRAM_SIZE
      ensures ok ==> forall x :: 0 <= x < DRAM_SIZE ==>
        Contents(Model(), x) ==
          if address <= x < address + WORD_SIZE then data[x - address] else Contents(Started(old(Model())), x)
    {
      StepIsMemory(Model(), address, WriteMode, data);
      var unused;
      ok, unused := AccessL1(address, WriteMode, data);
    }
  }
}
