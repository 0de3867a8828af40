/**
 * Version 4.3: the direct-mapped L1 of 256 lines in front of a
 * set-associative, write-back L2 of 256 sets of NUMSETS ways, in front of
 * DRAM. Every L2 way carries a Time stamp; the way an access uses is chosen
 * by a scan of the set, and the chosen way alone is then tested for a hit.
 *
 * The scan is modelled as written: it takes way 0 whenever way 0's tag
 * matches (Valid is not consulted), and otherwise the way with the smallest
 * stamp, ties going to the highest way. A matching valid way other than the
 * one chosen is not found, so a set can come to hold a block twice, and a
 * READ can then return stale bytes; this L2 is therefore not proved
 * transparent. What is proved: the choice the scan makes, that only the
 * chosen way changes, the stamps, the write-back, the exact costs, and that
 * L1 in front of it keeps its own guarantees.
 */
module SetAssoc {
  import opened Common
  import opened DirectMapped

  /** Ways per L2 set (the C name says sets; the code uses it as the number of lines of one set). */
  const NUMSETS: nat := 2
  /** L2_SIZE / BLOCK_SIZE / NUMSETS sets, addressed by eight index bits. */
  const L2_SETS: nat := 256

  /** An L2 line: the CacheLine fields plus the Time stamp the victim choice reads. */
  datatype StampedLine = StampedLine(valid: bool, dirty: bool, tag: uint32, time: nat, block: seq<byte>)

  /** What the init loop stores in an L2 way: invalid, clean, Tag 0, Time 0, zeroed block. */
  function EmptyWay(): (l: StampedLine)
    ensures !l.valid && !l.dirty && l.tag == 0 && l.time == 0
    ensures |l.block| == BLOCK_SIZE && forall k :: 0 <= k < BLOCK_SIZE ==> l.block[k] == 0
  {
    StampedLine(false, false, 0, 0, seq(BLOCK_SIZE, _ => 0))
  }

  /** Where sets[set].lines[way] lies among the L2 lines, laid out set after set. */
  function Slot(si: nat, way: nat): (k: nat)
    requires si < L2_SETS && way < NUMSETS
    ensures k < L2_LINES && k / NUMSETS == si && k % NUMSETS == way
  {
    si * NUMSETS + way
  }

  /** The ways of one set, in order. */
  function Ways(l2: seq<StampedLine>, si: nat): (w: seq<StampedLine>)
    requires |l2| == L2_LINES && si < L2_SETS
    ensures |w| == NUMSETS && forall way :: 0 <= way < NUMSETS ==> w[way] == l2[Slot(si, way)]
  {
    l2[Slot(si, 0)..Slot(si, 0) + NUMSETS]
  }

  /**
   * The way the Time comparison of the scan leaves among the first n: one
   * with the smallest stamp, and of those the last, since `<=` lets a later
   * equal stamp replace an earlier one.
   */
  function LastOldest(ways: seq<StampedLine>, n: nat): (w: nat)
    requires 1 <= n <= |ways|
    ensures w < n
    ensures forall k :: 0 <= k < n ==> ways[w].time <= ways[k].time
    ensures forall k :: w < k < n ==> ways[w].time < ways[k].time
  {
    if n == 1 then 0
    else
      var w := LastOldest(ways, n - 1);
      if ways[n - 1].time <= ways[w].time then n - 1 else w
  }

  /**
   * The way the scan of accessL2 chooses: way 0 as soon as way 0's Tag
   * matches, whether or not it is Valid; otherwise the last way with the
   * smallest Time.
   */
  function SelectWay(ways: seq<StampedLine>, tag: nat): (w: nat)
    requires |ways| == NUMSETS
    ensures w < NUMSETS
    ensures ways[0].tag == tag ==> w == 0
    ensures ways[0].tag != tag ==>
      (forall k :: 0 <= k < NUMSETS ==> ways[w].time <= ways[k].time) &&
      (forall k :: w < k < NUMSETS ==> ways[w].time < ways[k].time)
  {
    if ways[0].tag == tag then 0 else LastOldest(ways, NUMSETS)
  }

  /**
   * On a set whose stamps are all equal (a cold set has them all 0), the
   * scan chooses the last way, unless way 0's Tag matches: a set just reset
   * holds Tag 0, so an address whose tag is 0 gets way 0 instead.
   */
  lemma ColdSetPicksLast(ways: seq<StampedLine>, tag: nat)
    requires |ways| == NUMSETS
    requires forall k :: 0 <= k < NUMSETS ==> ways[k].time == ways[0].time
    ensures SelectWay(ways, tag) == if ways[0].tag == tag then 0 else NUMSETS - 1
  {
  }

  /** Dirty implies Valid, every block is BLOCK_SIZE bytes, and a valid way's block lies inside DRAM. */
  predicate L2Consistent(l2: seq<StampedLine>)
  {
    |l2| == L2_LINES &&
    forall k :: 0 <= k < |l2| ==>
      |l2[k].block| == BLOCK_SIZE && (l2[k].dirty ==> l2[k].valid) &&
      (l2[k].valid ==> Base(EightBitIndex, l2[k].tag, k / NUMSETS) + BLOCK_SIZE <= DRAM_SIZE)
  }

  /** No stamp is later than the time counter. */
  predicate Stamped(l2: seq<StampedLine>, time: nat)
  {
    forall k :: 0 <= k < |l2| ==> l2[k].time <= time
  }

  /** The L2 ways, DRAM and the time counter. */
  datatype Level2 = Level2(l2: seq<StampedLine>, dram: seq<byte>, time: nat)

  /** The state after an L2 access, the block a READ copied out, and whether the process went on. */
  datatype Reply2 = Reply2(mem: Level2, data: seq<byte>, ok: bool)

  predicate Sound(m: Level2)
  {
    L2Consistent(m.l2) && |m.dram| == DRAM_SIZE
  }

  /** The slot of the way the scan chooses for address a. */
  function Selected(l2: seq<StampedLine>, a: nat): (k: nat)
    requires |l2| == L2_LINES
    ensures k < L2_LINES && k / NUMSETS == Index(EightBitIndex, a)
  {
    var si := Index(EightBitIndex, a);
    Slot(si, SelectWay(Ways(l2, si), Tag(EightBitIndex, a)))
  }

  /** The hit test of accessL2, made on the chosen way only. */
  predicate HitL2(l2: seq<StampedLine>, a: nat)
    requires |l2| == L2_LINES
  {
    var line := l2[Selected(l2, a)];
    line.valid && line.tag == Tag(EightBitIndex, a)
  }

  /**
   * The miss path of accessL2: read the block from DRAM, write a valid dirty
   * victim back at the address rebuilt from its tag and the set index, and
   * install the block valid, clean, with the new tag and the time reached.
   */
  function FillL2(m: Level2, a: nat): (m': Level2)
    requires Sound(m) && a % BLOCK_SIZE == 0 && a + BLOCK_SIZE <= DRAM_SIZE
    ensures Sound(m')
  {
    var si := Index(EightBitIndex, a);
    var k := Selected(m.l2, a);
    var victim := m.l2[k];
    var fetched := m.dram[a..a + BLOCK_SIZE];
    var wroteBack := victim.valid && victim.dirty;
    var dram := if wroteBack then Splice(m.dram, Base(EightBitIndex, victim.tag, si), victim.block) else m.dram;
    var time := m.time + DRAM_READ_TIME + (if wroteBack then DRAM_WRITE_TIME else 0);
    Decompose(EightBitIndex, a);
    Level2(m.l2[k := StampedLine(true, false, Tag(EightBitIndex, a), time, fetched)], dram, time)
  }

  /** The service part of accessL2 on slot k: stamp the way with the time, copy the block out (READ) or in (WRITE, Dirty). */
  function ServeL2(m: Level2, k: nat, mode: Mode, data: seq<byte>): (r: Reply2)
    requires Sound(m) && k < L2_LINES && m.l2[k].valid
    requires mode == WriteMode ==> |data| == BLOCK_SIZE
    ensures Sound(r.mem) && r.ok && r.mem.dram == m.dram
  {
    var line := m.l2[k];
    match mode
    case ReadMode =>
      Reply2(Level2(m.l2[k := line.(time := m.time)], m.dram, m.time + L2_READ_TIME), line.block, true)
    case WriteMode =>
      Reply2(Level2(m.l2[k := line.(block := data, time := m.time, dirty := true)], m.dram, m.time + L2_WRITE_TIME), [], true)
  }

  /** One accessL2 on a block-aligned address: choose a way, fill it on a miss (exiting if the block is not in DRAM), serve. */
  function StepL2(m: Level2, a: nat, mode: Mode, data: seq<byte>): (r: Reply2)
    requires Sound(m) && a % BLOCK_SIZE == 0 && (mode == WriteMode ==> |data| == BLOCK_SIZE)
    ensures Sound(r.mem)
    ensures r.ok && mode == ReadMode ==> |r.data| == BLOCK_SIZE
  {
    var k := Selected(m.l2, a);
    if HitL2(m.l2, a) then ServeL2(m, k, mode, data)
    else if !DramGuard(a) then Reply2(m, [], false)
    else ServeL2(FillL2(m, a), k, mode, data)
  }

  /**
   * What accessL2 does: it exits, changing nothing, exactly when the chosen
   * way misses and the block is not in DRAM. Otherwise only the chosen way
   * changes; it ends valid with the address's tag, dirty after a WRITE or
   * when it already held the address dirty, holding the written block, the
   * block it held on a hit or DRAM's block on a miss, which is also what a
   * READ returns; DRAM is written only when a miss evicts a valid dirty way,
   * at the address rebuilt from its tag and the set index.
   */
  lemma StepL2Lines(m: Level2, a: nat, mode: Mode, data: seq<byte>)
    requires Sound(m) && a % BLOCK_SIZE == 0 && (mode == WriteMode ==> |data| == BLOCK_SIZE)
    ensures var r := StepL2(m, a, mode, data);
      var k := Selected(m.l2, a);
      var victim := m.l2[k];
      var hit := HitL2(m.l2, a);
      (r.ok <==> hit || a + BLOCK_SIZE <= DRAM_SIZE) &&
      (!r.ok ==> r.mem == m) &&
      (r.ok ==>
        var held := if hit then victim.block else m.dram[a..a + BLOCK_SIZE];
        |r.mem.l2| == L2_LINES &&
        (forall j :: 0 <= j < L2_LINES && j != k ==> r.mem.l2[j] == m.l2[j]) &&
        r.mem.l2[k].valid && r.mem.l2[k].tag == Tag(EightBitIndex, a) &&
        r.mem.l2[k].dirty == (mode == WriteMode || (hit && victim.dirty)) &&
        r.mem.l2[k].block == (if mode == WriteMode then data else held) &&
        (mode == ReadMode ==> r.data == held) &&
        r.mem.dram == (if !hit && victim.valid && victim.dirty
                       then Splice(m.dram, Base(EightBitIndex, victim.tag, Index(EightBitIndex, a)), victim.block)
                       else m.dram))
  {
  }

  /**
   * The costs and the stamp of accessL2: the time grows by DRAM_READ_TIME on
   * a miss, DRAM_WRITE_TIME more for a valid dirty victim, and the L2
   * service cost; the chosen way is stamped with the time reached just
   * before the service cost is added. An exit adds nothing.
   */
  lemma StepL2Time(m: Level2, a: nat, mode: Mode, data: seq<byte>)
    requires Sound(m) && a % BLOCK_SIZE == 0 && (mode == WriteMode ==> |data| == BLOCK_SIZE)
    ensures var r := StepL2(m, a, mode, data);
      var k := Selected(m.l2, a);
      var victim := m.l2[k];
      var miss := !HitL2(m.l2, a);
      var service := if mode == ReadMode then L2_READ_TIME else L2_WRITE_TIME;
      (!r.ok ==> r.mem.time == m.time) &&
      (r.ok ==>
        r.mem.time == m.time
          + (if miss then DRAM_READ_TIME else 0)
          + (if miss && victim.valid && victim.dirty then DRAM_WRITE_TIME else 0)
          + service &&
        r.mem.l2[k].time == r.mem.time - service)
  {
  }

  /** accessL2 goes on only for a block that lies in DRAM: on a hit the chosen way holds it, and it is valid. */
  lemma StepL2InDram(m: Level2, a: nat, mode: Mode, data: seq<byte>)
    requires Sound(m) && a % BLOCK_SIZE == 0 && (mode == WriteMode ==> |data| == BLOCK_SIZE)
    ensures StepL2(m, a, mode, data).ok <==> a + BLOCK_SIZE <= DRAM_SIZE
  {
    var k := Selected(m.l2, a);
    Decompose(EightBitIndex, a);
    if HitL2(m.l2, a) {
      assert Base(EightBitIndex, m.l2[k].tag, k / NUMSETS) == a;
    }
  }

  /**
   * When no stamp is later than the time counter, accessL2 keeps it so: the
   * way it stamps gets the time before the L2 cost is added.
   */
  lemma StepL2KeepsStamped(m: Level2, a: nat, mode: Mode, data: seq<byte>)
    requires Sound(m) && a % BLOCK_SIZE == 0 && (mode == WriteMode ==> |data| == BLOCK_SIZE)
    requires Stamped(m.l2, m.time)
    ensures Stamped(StepL2(m, a, mode, data).mem.l2, StepL2(m, a, mode, data).mem.time)
  {
    StepL2Lines(m, a, mode, data);
    StepL2Time(m, a, mode, data);
  }

  /**
   * The hit test sees only the chosen way. When way 0 holds another tag and
   * a later-stamped way 1 holds the address's block, valid, the scan chooses
   * way 0 and the access misses: a READ returns DRAM's bytes, not way 1's
   * (which differ when way 1 is dirty), and the set ends holding the block
   * in both ways.
   */
  lemma MatchOutsideChosenWayMisses(m: Level2, a: nat)
    requires Sound(m) && a % BLOCK_SIZE == 0 && a + BLOCK_SIZE <= DRAM_SIZE
    requires var si := Index(EightBitIndex, a);
      var w0 := m.l2[Slot(si, 0)];
      var w1 := m.l2[Slot(si, 1)];
      w0.tag != Tag(EightBitIndex, a) && w1.valid && w1.tag == Tag(EightBitIndex, a) && w0.time < w1.time
    ensures var si := Index(EightBitIndex, a);
      var r := StepL2(m, a, ReadMode, []);
      Selected(m.l2, a) == Slot(si, 0) && !HitL2(m.l2, a) &&
      r.ok && r.data == m.dram[a..a + BLOCK_SIZE] &&
      r.mem.l2[Slot(si, 0)].valid && r.mem.l2[Slot(si, 0)].tag == Tag(EightBitIndex, a) &&
      r.mem.l2[Slot(si, 1)] == m.l2[Slot(si, 1)]
  {
    var si := Index(EightBitIndex, a);
    assert Ways(m.l2, si)[1] == m.l2[Slot(si, 1)];
    StepL2Lines(m, a, ReadMode, []);
  }

  /** The globals of the program: the L1 lines, the L2 ways, DRAM, time and cache.init. */
  datatype State = State(l1: seq<CacheLine>, l2: seq<StampedLine>, dram: seq<byte>, time: nat, init: bool)

  function L2Of(s: State): Level2
  {
    Level2(s.l2, s.dram, s.time)
  }

  /**
   * Both levels are consistent. Nothing is said about the stamps: resetTime
   * sets time to 0 and leaves them as they are, so a stamp may be later than
   * the time counter.
   */
  predicate Inv(s: State)
  {
    Consistent(EightBitIndex, s.l1) && Sound(L2Of(s))
  }

  /** The L2 ways after the init loop: every way empty. */
  function ResetWays(): (l2: seq<StampedLine>)
    ensures L2Consistent(l2) && forall k :: 0 <= k < |l2| ==> l2[k] == EmptyWay()
  {
    seq(L2_LINES, _ => EmptyWay())
  }

  /** The state after accessL1's init block: the first access after initCache resets every line of both levels. */
  function Started(s: State): (s': State)
    requires Inv(s)
    ensures Inv(s') && s'.init && s'.dram == s.dram && s'.time == s.time
  {
    if s.init then s
    else s.(l1 := ResetLines(L1_LINES), l2 := ResetWays(), init := true)
  }

  /** The state an access leaves, the word a READ copies out, and false when the process exits. */
  datatype Outcome = Outcome(state: State, data: seq<byte>, ok: bool)

  /** accessL2((Tag << 14) + (index << 6), Line->Block, MODE_WRITE): an L1 victim written back into L2. */
  function WriteBackL2(m: Level2, victim: CacheLine, i: nat): (r: Reply2)
    requires Sound(m) && i < L1_LINES && |victim.block| == BLOCK_SIZE
    ensures Sound(r.mem)
  {
    BaseDecomposes(EightBitIndex, victim.tag, i);
    StepL2(m, Base(EightBitIndex, victim.tag, i), WriteMode, victim.block)
  }

  /**
   * The miss path of accessL1: fetch the block through L2 (the process exits
   * if it is not in DRAM), write a valid dirty victim into L2 at the address
   * rebuilt from its tag and index, install the block valid, clean, new tag.
   * On a hit nothing happens.
   */
  function AllocateL1(s: State, a: nat): (o: Outcome)
    requires Inv(s)
    ensures !o.ok ==> o.state == s
    ensures o.ok ==>
      Consistent(EightBitIndex, o.state.l1) && Sound(L2Of(o.state)) &&
      Hit(EightBitIndex, o.state.l1, a) && o.state.init == s.init
  {
    if Hit(EightBitIndex, s.l1, a) then Outcome(s, [], true)
    else
      var i := Index(EightBitIndex, a);
      var victim := s.l1[i];
      var fetched := StepL2(L2Of(s), BlockBase(a), ReadMode, []);
      StepL2InDram(L2Of(s), BlockBase(a), ReadMode, []);
      Decompose(EightBitIndex, a);
      if !fetched.ok then Outcome(s, [], false)
      else
        var below := if victim.valid && victim.dirty then WriteBackL2(fetched.mem, victim, i).mem else fetched.mem;
        var l1 := s.l1[i := CacheLine(true, false, Tag(EightBitIndex, a), fetched.data)];
        Outcome(State(l1, below.l2, below.dram, below.time, s.init), [], true)
  }

  /** The L1 miss path, with its two L2 accesses, keeps the invariant of both levels. */
  lemma AllocateL1KeepsInv(s: State, a: nat)
    requires Inv(s)
    ensures AllocateL1(s, a).ok ==> Inv(AllocateL1(s, a).state)
  {
    if !Hit(EightBitIndex, s.l1, a) {
      var i := Index(EightBitIndex, a);
      var victim := s.l1[i];
      var fetched := StepL2(L2Of(s), BlockBase(a), ReadMode, []);
      if fetched.ok && victim.valid && victim.dirty {
        BaseDecomposes(EightBitIndex, victim.tag, i);
        assert WriteBackL2(fetched.mem, victim, i) ==
          StepL2(fetched.mem, Base(EightBitIndex, victim.tag, i), WriteMode, victim.block);
      }
    }
  }

  /** accessL1: the init block, the miss path through L2, then the word copied out (READ) or in (WRITE, Dirty). */
  function StepL1(s: State, address: nat, mode: Mode, data: seq<byte>): (o: Outcome)
    requires Inv(s) && Accepts(L1_LEVEL, address, mode, data)
    ensures Inv(o.state) && o.state.init
  {
    var s1 := Started(s);
    var p := AllocateL1(s1, address);
    AllocateL1KeepsInv(s1, address);
    if !p.ok then Outcome(s1, [], false)
    else
      var t := p.state;
      match mode
      case ReadMode =>
        Outcome(t.(time := t.time + L1_READ_TIME), Load(EightBitIndex, t.l1, address, WORD_SIZE), true)
      case WriteMode =>
        Outcome(t.(l1 := Store(EightBitIndex, t.l1, address, data), time := t.time + L1_WRITE_TIME), [], true)
  }

  /** A proof step for Simulator.AccessL1: StepL1 unfolded into the miss path, then the word copied out or in. */
  lemma StepL1Served(s: State, address: nat, mode: Mode, data: seq<byte>)
    requires Inv(s) && Accepts(L1_LEVEL, address, mode, data)
    ensures var s1 := Started(s);
      var p := AllocateL1(s1, address);
      var t := p.state;
      StepL1(s, address, mode, data) ==
        if !p.ok then Outcome(s1, [], false)
        else if mode == ReadMode then
          Outcome(t.(time := t.time + L1_READ_TIME), Load(EightBitIndex, t.l1, address, WORD_SIZE), true)
        else
          Outcome(t.(l1 := Store(EightBitIndex, t.l1, address, data), time := t.time + L1_WRITE_TIME), [], true)
  {
  }

  /** The process exits exactly when the address is beyond DRAM; then only the init block has had its effect. */
  lemma StepExits(s: State, address: nat, mode: Mode, data: seq<byte>)
    requires Inv(s) && Accepts(L1_LEVEL, address, mode, data)
    ensures var r := StepL1(s, address, mode, data);
      (r.ok <==> address < DRAM_SIZE) && (!r.ok ==> r.state == Started(s))
  {
    StepL1Served(s, address, mode, data);
    AllocateL1Exits(Started(s), address);
  }

  /** The L1 miss path exits exactly when the address lies outside DRAM: a line that hits holds a block inside it. */
  lemma AllocateL1Exits(s: State, a: nat)
    requires Inv(s)
    ensures AllocateL1(s, a).ok <==> a < DRAM_SIZE
  {
    var i := Index(EightBitIndex, a);
    Decompose(EightBitIndex, a);
    if Hit(EightBitIndex, s.l1, a) {
      assert Base(EightBitIndex, s.l1[i].tag, i) == BlockBase(a);
    } else {
      StepL2InDram(L2Of(s), BlockBase(a), ReadMode, []);
    }
  }

  /**
   * What one access does to L1, and what its miss path does to L2: only the
   * L1 line at the address's index changes; it ends valid with the
   * address's tag, dirty after a WRITE or when it already held the address
   * dirty. A READ returns the word of the block the line held on a hit, or
   * of the block L2 returned on a miss; a WRITE leaves its word there. A hit
   * leaves L2 and DRAM alone. A miss on a valid dirty line writes the old
   * block into the L2 way the scan chooses for it, which then holds it,
   * valid and dirty.
   */
  lemma StepLines(s: State, address: nat, mode: Mode, data: seq<byte>)
    requires Inv(s) && Accepts(L1_LEVEL, address, mode, data)
    ensures var r := StepL1(s, address, mode, data);
      var s1 := Started(s);
      var i := Index(EightBitIndex, address);
      var victim := s1.l1[i];
      var hit := Hit(EightBitIndex, s1.l1, address);
      var fetched := StepL2(L2Of(s1), BlockBase(address), ReadMode, []);
      var vb := Base(EightBitIndex, victim.tag, i);
      r.ok ==>
        |r.state.l1| == L1_LINES &&
        (forall j :: 0 <= j < L1_LINES && j != i ==> r.state.l1[j] == s1.l1[j]) &&
        r.state.l1[i].valid && r.state.l1[i].tag == Tag(EightBitIndex, address) &&
        r.state.l1[i].dirty == (mode == WriteMode || (hit && victim.dirty)) &&
        (mode == ReadMode ==>
          r.data == (if hit then victim.block else fetched.data)[Offset(address)..Offset(address) + WORD_SIZE]) &&
        (mode == WriteMode ==> Load(EightBitIndex, r.state.l1, address, WORD_SIZE) == data) &&
        (hit ==> r.state.l2 == s1.l2 && r.state.dram == s1.dram) &&
        (!hit && victim.valid && victim.dirty ==>
          vb % BLOCK_SIZE == 0 &&
          var k := Selected(fetched.mem.l2, vb);
          r.state.l2[k].valid && r.state.l2[k].dirty && r.state.l2[k].tag == victim.tag &&
          r.state.l2[k].block == victim.block)
  {
    var s1 := Started(s);
    var i := Index(EightBitIndex, address);
    var victim := s1.l1[i];
    var p := AllocateL1(s1, address);
    if p.ok && !Hit(EightBitIndex, s1.l1, address) && victim.valid && victim.dirty {
      var fetched := StepL2(L2Of(s1), BlockBase(address), ReadMode, []);
      var vb := Base(EightBitIndex, victim.tag, i);
      BaseDecomposes(EightBitIndex, victim.tag, i);
      StepL2Lines(fetched.mem, vb, WriteMode, victim.block);
      assert WriteBackL2(fetched.mem, victim, i) == StepL2(fetched.mem, vb, WriteMode, victim.block);
    }
  }

  /**
   * The time one access adds: exactly the L1 service on an L1 hit; on a
   * miss, the L1 service plus the L2 READ of the block and, for a valid
   * dirty victim, the L2 WRITE, each with whatever DRAM costs it has. Time
   * never goes back, and an exit adds nothing.
   */
  lemma StepTime(s: State, address: nat, mode: Mode, data: seq<byte>)
    requires Inv(s) && Accepts(L1_LEVEL, address, mode, data)
    ensures var r := StepL1(s, address, mode, data);
      var s1 := Started(s);
      var i := Index(EightBitIndex, address);
      var victim := s1.l1[i];
      var service := if mode == ReadMode then L1_READ_TIME else L1_WRITE_TIME;
      var fetched := StepL2(L2Of(s1), BlockBase(address), ReadMode, []);
      (!r.ok ==> r.state.time == s.time) &&
      (r.ok && Hit(EightBitIndex, s1.l1, address) ==> r.state.time == s.time + service) &&
      (r.ok && !Hit(EightBitIndex, s1.l1, address) ==>
        fetched.ok &&
        r.state.time == service +
          if victim.valid && victim.dirty then WriteBackL2(fetched.mem, victim, i).mem.time else fetched.mem.time) &&
      r.state.time >= s.time
  {
    var s1 := Started(s);
    var i := Index(EightBitIndex, address);
    var victim := s1.l1[i];
    if !Hit(EightBitIndex, s1.l1, address) {
      var fetched := StepL2(L2Of(s1), BlockBase(address), ReadMode, []);
      StepL2Time(L2Of(s1), BlockBase(address), ReadMode, []);
      if fetched.ok && victim.valid && victim.dirty {
        BaseDecomposes(EightBitIndex, victim.tag, i);
        StepL2Time(fetched.mem, Base(EightBitIndex, victim.tag, i), WriteMode, victim.block);
        assert WriteBackL2(fetched.mem, victim, i) ==
          StepL2(fetched.mem, Base(EightBitIndex, victim.tag, i), WriteMode, victim.block);
      }
    }
  }

  /**
   * After initCache the next access misses in L1 and in L2 (every way is
   * invalid), evicts nothing dirty, installs the block in the way the cold
   * scan picks, and costs DRAM_READ_TIME, L2_READ_TIME and the L1 service.
   */
  lemma ColdStartMisses(s: State, address: nat, mode: Mode, data: seq<byte>)
    requires Inv(s) && !s.init && Accepts(L1_LEVEL, address, mode, data)
    ensures var s1 := Started(s);
      var a := BlockBase(address);
      !Hit(EightBitIndex, s1.l1, address) && !HitL2(s1.l2, a) &&
      Selected(s1.l2, a) ==
        Slot(Index(EightBitIndex, a), if Tag(EightBitIndex, a) == 0 then 0 else NUMSETS - 1)
    ensures var r := StepL1(s, address, mode, data);
      r.ok ==> r.state.time == s.time + DRAM_READ_TIME + L2_READ_TIME + (if mode == ReadMode then L1_READ_TIME else L1_WRITE_TIME)
  {
    var s1 := Started(s);
    var a := BlockBase(address);
    ColdSetPicksLast(Ways(s1.l2, Index(EightBitIndex, a)), Tag(EightBitIndex, a));
    StepTime(s, address, mode, data);
    StepL2Time(L2Of(s1), a, ReadMode, []);
  }

  /**
   * write(A, V) followed by read(A) returns V: the read hits the L1 line the
   * write left, changes nothing but the time, and costs L1_READ_TIME.
   */
  lemma WriteThenRead(s: State, address: nat, v: seq<byte>)
    requires Inv(s) && Accepts(L1_LEVEL, address, WriteMode, v)
    requires StepL1(s, address, WriteMode, v).ok
    ensures var w := StepL1(s, address, WriteMode, v).state;
      var r := StepL1(w, address, ReadMode, []);
      r.ok && r.data == v && r.state == w.(time := w.time + L1_READ_TIME)
  {
    StepLines(s, address, WriteMode, v);
    var w := StepL1(s, address, WriteMode, v).state;
    assert Started(w) == w;
    assert Hit(EightBitIndex, w.l1, address);
  }

  /** The globals of the 4.3 program (DRAM, time, cache.init, cache.l1.lines, the ways of cache.l2.sets) and its routines. */
  class Simulator {
    const DRAM: array<byte>
    var time: nat
    var init: bool
    const l1: array<CacheLine>
    const l2: array<StampedLine>

    ghost predicate Valid()
      reads this, DRAM, l1, l2
    {
      DRAM.Length == DRAM_SIZE && l1.Length == L1_LINES && l2.Length == L2_LINES && Inv(Model())
    }

    ghost function Model(): State
      reads this, DRAM, l1, l2
    {
      State(l1[..], l2[..], DRAM[..], time, init)
    }

    /** The L2 ways, DRAM and time. */
    ghost function L2Mem(): Level2
      reads this, DRAM, l2
    {
      Level2(l2[..], DRAM[..], time)
    }

    /** The zero-initialised globals: DRAM zeroed, time 0, init 0, every line and every way empty. */
    constructor ()
      ensures Valid() && fresh(DRAM) && fresh(l1) && fresh(l2)
      ensures Model() == State(ResetLines(L1_LINES), ResetWays(), seq(DRAM_SIZE, _ => 0), 0, false)
    {
      DRAM := new byte[DRAM_SIZE](_ => 0);
      l1 := new CacheLine[L1_LINES](_ => EmptyLine());
      l2 := new StampedLine[L2_LINES](_ => EmptyWay());
      time := 0;
      init := false;
      new;
      ResetShowsLower(EightBitIndex, DRAM[..]);
    }

    /** resetTime */
    method ResetTime()
      modifies this`time
      ensures time == 0
      ensures old(Valid()) ==> Valid() && Model() == old(Model()).(time := 0)
    {
      time := 0;
    }

    /** getTime */
    method GetTime() returns (t: nat)
      ensures t == time
    {
      t := time;
    }

    /** initCache: only clears the init flag; both levels are reset by the next access. */
    method InitCache()
      requires Valid()
      modifies this`init
      ensures Valid() && Model() == old(Model()).(init := false)
    {
      init := false;
    }

    /**
     * accessDRAM on a block-aligned address: exit (ok false) unless the block
     * lies in DRAM; READ copies the block out and adds DRAM_READ_TIME, WRITE
     * copies it in and adds DRAM_WRITE_TIME.
     */
    method AccessDRAM(address: nat, mode: Mode, data: seq<byte>) returns (ok: bool, block: seq<byte>)
      requires DRAM.Length == DRAM_SIZE && address % BLOCK_SIZE == 0
      requires mode == WriteMode ==> |data| == BLOCK_SIZE
      modifies this`time, DRAM
      ensures ok <==> address + BLOCK_SIZE <= DRAM_SIZE
      ensures !ok ==> time == old(time) && DRAM[..] == old(DRAM[..])
      ensures ok && mode == ReadMode ==>
        block == DRAM[address..address + BLOCK_SIZE] && DRAM[..] == old(DRAM[..]) &&
        time == old(time) + DRAM_READ_TIME
      ensures ok && mode == WriteMode ==>
        DRAM[..] == Splice(old(DRAM[..]), address, data) && time == old(time) + DRAM_WRITE_TIME
    {
      if !DramGuard(address) {
        return false, [];   // exit(-1)
      }
      ok := true;
      match mode
      case ReadMode =>
        block := DRAM[address..address + BLOCK_SIZE];
        time := time + DRAM_READ_TIME;
      case WriteMode =>
        block := [];
        forall k | 0 <= k < BLOCK_SIZE {
          DRAM[address + k] := data[k];
        }
        time := time + DRAM_WRITE_TIME;
    }

    /** The L1 init loop of accessL1: every line invalid, clean, Tag 0, block zeroed. */
    method ClearL1()
      requires l1.Length == L1_LINES
      modifies l1
      ensures l1[..] == ResetLines(L1_LINES)
    {
      for i := 0 to L1_LINES
        invariant forall k :: 0 <= k < i ==> l1[k] == EmptyLine()
      {
        l1[i] := EmptyLine();
      }
    }

    /**
     * The L2 init loop of accessL1, with its bounds as written: i runs over
     * all L2_SIZE / BLOCK_SIZE lines and j over NUMSETS, and the way cleared
     * is sets[j].lines[i], the slot j * NUMSETS + i of the laid-out ways.
     * Slots beyond the last way are not part of the L2 array; every way of
     * it is cleared.
     */
    method ClearL2()
      requires l2.Length == L2_LINES
      modifies l2
      ensures l2[..] == ResetWays()
    {
      for i := 0 to L2_LINES
        invariant forall k :: 0 <= k < i ==> l2[k] == EmptyWay()
      {
        for j := 0 to NUMSETS
          invariant forall k :: 0 <= k < i ==> l2[k] == EmptyWay()
          invariant j > 0 ==> l2[i] == EmptyWay()
        {
          var slot := j * NUMSETS + i;
          if slot < L2_LINES {
            l2[slot] := EmptyWay();
          }
        }
      }
    }

    /**
     * The scan of accessL2 over the ways of set `index`: it stops at once
     * with way 0 when way 0's Tag matches; otherwise it keeps the last way
     * whose Time is at most the lowest seen so far.
     */
    method ScanSet(index: nat, tag: nat) returns (way: nat)
      requires l2.Length == L2_LINES && index < L2_SETS
      ensures way == SelectWay(Ways(l2[..], index), tag)
    {
      way := 0;
      var lowest := l2[Slot(index, 0)].time;
      var i := 0;
      while i < NUMSETS
        invariant 0 <= i <= NUMSETS && way < NUMSETS && lowest == l2[Slot(index, way)].time
        invariant l2[Slot(index, 0)].tag == tag ==> i == 0 && way == 0
        invariant l2[Slot(index, 0)].tag != tag && i > 0 ==> way == LastOldest(Ways(l2[..], index), i)
        invariant i == 0 ==> way == 0
      {
        if l2[Slot(index, 0)].tag == tag {
          way := i;
          break;
        }
        var current := l2[Slot(index, i)].time;
        if current <= lowest {
          lowest := current;
          way := i;
        }
        i := i + 1;
      }
    }

    /**
     * The miss branch of accessL2 on the chosen slot: fetch the block from
     * DRAM (exit if it is not there), write a valid dirty victim back at the
     * address rebuilt from its tag and the set index, then install the block
     * valid, clean, with the new tag, stamped with the time.
     */
    method MissL2(address: uint32, slot: nat) returns (ok: bool)
      requires DRAM.Length == DRAM_SIZE && l2.Length == L2_LINES && L2Consistent(l2[..])
      requires address % BLOCK_SIZE == 0
      requires slot == Selected(l2[..], address) && !HitL2(l2[..], address)
      modifies this`time, DRAM, l2
      ensures ok <==> address + BLOCK_SIZE <= DRAM_SIZE
      ensures ok ==> L2Mem() == FillL2(old(L2Mem()), address)
      ensures !ok ==> L2Mem() == old(L2Mem())
    {
      ghost var m := L2Mem();
      var index := Index(EightBitIndex, address);
      var tag := Tag(EightBitIndex, address);
      TagFits(EightBitIndex, address);
      var line := l2[slot];
      var fetched;
      ok, fetched := AccessDRAM(address, ReadMode, []);
      if !ok {
        return;   // exit(-1)
      }
      assert fetched == m.dram[address..address + BLOCK_SIZE];
      ghost var f := FillL2(m, address);
      if line.valid && line.dirty {
        var memAddress := Base(EightBitIndex, line.tag, index);
        BaseDecomposes(EightBitIndex, line.tag, index);
        var written, unused := AccessDRAM(memAddress, WriteMode, line.block);
      }
      assert DRAM[..] == f.dram && time == f.time;
      l2[slot] := StampedLine(true, false, tag, time, fetched);
      assert l2[..] == f.l2;
    }

    /**
     * accessL2 on a block-aligned address: scan the set for a way; on a miss
     * fill it from DRAM; then stamp it with the time and copy the whole
     * block out (READ) or in (WRITE, Dirty).
     */
    method AccessL2(address: uint32, mode: Mode, data: seq<byte>) returns (ok: bool, out: seq<byte>)
      requires DRAM.Length == DRAM_SIZE && l2.Length == L2_LINES && L2Consistent(l2[..])
      requires address % BLOCK_SIZE == 0 && (mode == WriteMode ==> |data| == BLOCK_SIZE)
      modifies this`time, DRAM, l2
      ensures var r := StepL2(old(L2Mem()), address, mode, data);
        L2Mem() == r.mem && ok == r.ok && out == r.data
    {
      ghost var m := L2Mem();
      out := [];
      var index := Index(EightBitIndex, address);
      var tag := Tag(EightBitIndex, address);
      var way := ScanSet(index, tag);
      var slot := Slot(index, way);
      var line := l2[slot];
      if !line.valid || line.tag != tag {
        ok := MissL2(address, slot);
        if !ok {
          return;   // exit(-1)
        }
      }
      ghost var prepared := if HitL2(m.l2, address) then m else FillL2(m, address);
      assert L2Mem() == prepared;
      ok := true;
      out := ServeSlot(slot, mode, data);
    }

    /** The service part of accessL2 on the chosen slot: stamp it with the time, copy the block out (READ) or in (WRITE, Dirty). */
    method ServeSlot(slot: nat, mode: Mode, data: seq<byte>) returns (out: seq<byte>)
      requires DRAM.Length == DRAM_SIZE && l2.Length == L2_LINES && L2Consistent(l2[..])
      requires slot < L2_LINES && l2[slot].valid && (mode == WriteMode ==> |data| == BLOCK_SIZE)
      modifies this`time, l2
      ensures var r := ServeL2(old(L2Mem()), slot, mode, data); L2Mem() == r.mem && out == r.data
    {
      var line := l2[slot];
      out := [];
      match mode {
        case ReadMode =>
          out := line.block;
          l2[slot] := line.(time := time);
          time := time + L2_READ_TIME;
        case WriteMode =>
          l2[slot] := line.(block := data, time := time, dirty := true);
          time := time + L2_WRITE_TIME;
      }
    }

    /**
     * The miss branch of accessL1: fetch the block through L2 (exit if it is
     * not in DRAM), write a valid dirty victim into L2 at the address rebuilt
     * from its tag and index, install the block valid, clean, new tag.
     */
    method MissL1(address: uint32) returns (ok: bool)
      requires Valid() && !Hit(EightBitIndex, l1[..], address)
      modifies this`time, DRAM, l1, l2
      ensures var o := AllocateL1(old(Model()), address); Model() == o.state && ok == o.ok
    {
      ghost var s := Model();
      ghost var o := AllocateL1(s, address);
      var index := Index(EightBitIndex, address);
      var tag := Tag(EightBitIndex, address);
      TagFits(EightBitIndex, address);
      var line := l1[index];
      var blockAddress := address - Offset(address);
      assert L2Mem() == L2Of(s) && blockAddress == BlockBase(address);
      ghost var f := StepL2(L2Mem(), blockAddress, ReadMode, []);
      var fetched;
      ok, fetched := AccessL2(blockAddress, ReadMode, []);
      assert L2Mem() == f.mem && ok == f.ok && fetched == f.data;
      if !ok {
        assert o.state == s;
        return;   // exit(-1)
      }
      ghost var below := f.mem;
      if line.valid && line.dirty {
        var memAddress := Base(EightBitIndex, line.tag, index);
        BaseDecomposes(EightBitIndex, line.tag, index);
        var written, unused := AccessL2(memAddress, WriteMode, line.block);
        below := WriteBackL2(f.mem, line, index).mem;
      }
      assert L2Mem() == below;
      l1[index] := CacheLine(true, false, tag, fetched);
      assert o.state == State(l1[..], below.l2, below.dram, below.time, s.init);
    }

    /** The init block of accessL1: on the first access after initCache, set init and reset both levels. */
    method Start()
      requires Valid()
      modifies this`init, l1, l2
      ensures Valid() && Model() == Started(old(Model()))
    {
      if !init {
        init := true;
        ClearL1();
        ClearL2();
      }
    }

    /** The service part of accessL1 on the line that holds the address: copy the word out (READ) or in (WRITE, Dirty). */
    method ServeL1(address: uint32, mode: Mode, data: seq<byte>) returns (out: seq<byte>)
      requires l1.Length == L1_LINES && WellFormed(EightBitIndex, l1[..]) && Accepts(L1_LEVEL, address, mode, data)
      modifies this`time, l1
      ensures mode == ReadMode ==>
        l1[..] == old(l1[..]) && time == old(time) + L1_READ_TIME &&
        out == Load(EightBitIndex, old(l1[..]), address, WORD_SIZE)
      ensures mode == WriteMode ==>
        l1[..] == Store(EightBitIndex, old(l1[..]), address, data) && time == old(time) + L1_WRITE_TIME && out == []
    {
      var index := Index(EightBitIndex, address);
      var offset := Offset(address);
      var line := l1[index];
      out := [];
      match mode {
        case ReadMode =>
          out := line.block[offset..offset + WORD_SIZE];
          time := time + L1_READ_TIME;
        case WriteMode =>
          l1[index] := line.(block := Splice(line.block, offset, data), dirty := true);
          time := time + L1_WRITE_TIME;
      }
    }

    /**
     * accessL1: reset both levels on the first access after initCache, then
     * on a miss go through L2; then copy the word out (READ) or in (WRITE,
     * Dirty).
     */
    method AccessL1(address: uint32, mode: Mode, data: seq<byte>) returns (ok: bool, out: seq<byte>)
      requires Valid() && Accepts(L1_LEVEL, address, mode, data)
      modifies this, DRAM, l1, l2
      ensures Valid()
      ensures var r := StepL1(old(Model()), address, mode, data);
        Model() == r.state && ok == r.ok && out == r.data
    {
      ghost var r := StepL1(Model(), address, mode, data);
      StepL1Served(Model(), address, mode, data);
      out := [];
      Start();
      ghost var s1 := Model();
      var index := Index(EightBitIndex, address);
      var tag := Tag(EightBitIndex, address);
      var line := l1[index];
      if !line.valid || line.tag != tag {
        ok := MissL1(address);
        if !ok {
          return;   // exit(-1)
        }
      }
      ghost var t := AllocateL1(s1, address).state;
      assert Model() == t;
      ok := true;
      out := ServeL1(address, mode, data);
      assert l1[..] == r.state.l1 && time == r.state.time;
    }

    /** read: one READ access, through L1. */
    method Read(address: uint32) returns (ok: bool, data: seq<byte>)
      requires Valid() && Offset(address) + WORD_SIZE <= BLOCK_SIZE
      modifies this, DRAM, l1, l2
      ensures Valid()
      ensures var r := StepL1(old(Model()), address, ReadMode, []);
        Model() == r.state && ok == r.ok && data == r.data
      ensures ok <==> address < DRAM_SIZE
    {
      StepExits(Model(), address, ReadMode, []);
      ok, data := AccessL1(address, ReadMode, []);
    }

    /** write: one WRITE access, through L1. */
    method Write(address: uint32, data: seq<byte>) returns (ok: bool)
      requires Valid() && Offset(address) + WORD_SIZE <= BLOCK_SIZE && |data| == WORD_SIZE
      modifies this, DRAM, l1, l2
      ensures Valid()
      ensures var r := StepL1(old(Model()), address, WriteMode, data);
        Model() == r.state && ok == r.ok
      ensures ok <==> address < DRAM_SIZE
    {
      StepExits(Model(), address, WriteMode, data);
      var unused;
      ok, unused := AccessL1(address, WriteMode, data);
    }
  }
}
