# Cache hierarchy simulator, modelled in Dafny

The program simulates a memory hierarchy for a course lab, in three versions. Each version has a byte-addressed
DRAM of `DRAM_SIZE` bytes and a global `time` counter that every access advances by a fixed cost. Each also has
`read`/`write` entry points that move one 4-byte word through the caches.

- **4.1**: one direct-mapped, write-back L1 of 256 lines of 64-byte blocks in front of DRAM.
- **4.2**: the same L1 in front of a direct-mapped, write-back L2 of 512 lines, in front of DRAM.
- **4.3**: the same L1 in front of a set-associative L2 of 256 sets of `NUMSETS` ways. Each way carries a
  `Time` stamp, and a scan of the set chooses which way an access uses.

An address splits into tag, index and offset with shifts and masks. On a miss a level does three things in order:

1. It fetches the block holding the address from the level below.
2. If the line is valid and dirty, it writes the old block back to the address rebuilt from the old tag and the index.
3. It installs the fetched block valid, clean and with the new tag.

Then it serves the access: it copies data out (READ) or in (WRITE, which sets Dirty). `initCache` only clears an
`init` flag. The next access resets every line of every level and discards dirty data.

The project:

- `common.dfy` (`Common`): the constants, the address split, the cache line record, the byte-range copy that
  stands for `memcpy`, and the DRAM bounds test.
- `direct_mapped.dfy` (`DirectMapped`): one direct-mapped write-back level over a memory. It defines the
  *view*: a level's copy of an address when the line holds its tag, and the memory below's byte otherwise.
  It proves that a miss-fill never changes the view, and that a service changes it exactly at the bytes a WRITE
  puts there.
- `l1_only.dfy` (`L1Only`), `two_level.dfy` (`TwoLevel`), `set_assoc.dfy` (`SetAssoc`): versions 4.1, 4.2
  and 4.3. Each has:
  - a `State` value with a step function that is its specification;
  - lemmas about that step function;
  - a `Simulator` class holding the program's globals as arrays and fields. Each method mirrors one C routine
    and is proved to leave `Model()` equal to what the specification says.

In 4.2 the memory below L1 is what L2 and DRAM hold together (`TwoLevel.Below`). An L2 READ leaves it as it was
and returns its block, and an L2 WRITE splices the block in. So the L1 miss path is the generic miss-fill, and
both levels together are as transparent as one.

In 4.3 three quirks of the scan are modelled as written:

- It compares only way 0's tag with the address's tag, and does not look at Valid.
- It breaks ties in `Time` towards the highest way.
- A matching way other than the chosen one is never found. That way a set can hold a block twice, and a READ
  can return stale bytes (`SetAssoc.MatchOutsideChosenWayMisses`). So no transparency theorem is stated for
  4.3's L2.

Constants that live in `Cache.h` are not part of this model. They are taken as:

- `WORD_SIZE` 4, `BLOCK_SIZE` 64, `DRAM_SIZE` 65536;
- `L1_SIZE` 16384 (256 lines), `L2_SIZE` 32768 (512 lines), `NUMSETS` 2;
- DRAM read/write 100/50, L2 read/write 10/5, L1 read/write 1/1.

`BLOCK_SIZE` and the 256 L1 lines are fixed by the masks. `NUMSETS` is the number of ways in one set: the 4.3
code indexes `sets[(address >> 6) & 0xFF].lines[i]` for `i < NUMSETS`.

Where the stated intent and the code disagree, the model follows the code:

- 4.3 ties in `Time` go to the highest way (`<=`), not the lowest.
- A cold 4.3 set gives its last way, except for an address whose tag is 0. Way 0 of a reset set holds Tag 0, so
  such an address gets way 0.
- A 4.3 hit is tested on the chosen way only.

## Model

| member | source | states |
|---|---|---|
| Common.EmptyLine | oc-lab1/4.1/L1Cache.c:44-50 | A reset line is invalid, clean, has Tag 0 and a zeroed 64-byte block. |
| Common.Offset | oc-lab1/4.1/L1Cache.c:71 | `address & 0x3F` is below BLOCK_SIZE. |
| Common.Index | oc-lab1/4.1/L1Cache.c:70 | `(address >> 6) & 0xFF` is below 256. The 4.2 L2's `& 0x1FF` is below 512. |
| Common.Tag | oc-lab1/4.1/L1Cache.c:72 | `address >> 14`, or `>> 15` for the 9-bit split (oc-lab1/4.2/L2Cache.c:138). `Common.Decompose` proves it is the part above the index. |
| Common.Base | oc-lab1/4.1/L1Cache.c:85 | `(Tag << 14) + (index << 6)`, or `<< 15` for the 9-bit split (oc-lab1/4.2/L2Cache.c:151). `Common.Decompose` and `Common.BaseDecomposes` prove it rebuilds the block's first address. |
| Common.TagFits | oc-lab1/4.1/L1Cache.c:72 | `address >> 14` (or `>> 15`) of a 32-bit address fits the 32-bit Tag field. |
| Common.Decompose | oc-lab1/4.1/L1Cache.c:70-72 | Address round trip: `(tag << 14) + (index << 6) + offset == address`, index < 256, offset < 64. Same for the 9-bit split. The rebuilt base is `address - offset`. |
| Common.BaseDecomposes | oc-lab1/4.2/L2Cache.c:149-152 | The address `(Tag << 15) + (index << 6)` (or `<< 14`) a victim is written back to is block-aligned and splits back into that tag and index. |
| Common.InBlock | oc-lab1/4.1/L1Cache.c:85 | The block rebuilt from (tag, index) holds exactly the addresses that split into that tag and index. The offset is the distance from its base. |
| Common.BlockBase | oc-lab1/4.1/L1Cache.c:80 | `address - offset` is block-aligned, and the address lies in the block starting there. |
| Common.Splice | oc-lab1/4.1/L1Cache.c:102 | `memcpy(&s[at], piece, n)`: the bytes from `at` on are the piece, all others unchanged. |
| Common.DramGuard | oc-lab1/4.1/L1Cache.c:15-16 | The test `address < DRAM_SIZE - WORD_SIZE + 1` admits a block-aligned address exactly when its whole block lies in DRAM. |
| DirectMapped.ResetLines | oc-lab1/4.1/L1Cache.c:44-50 | The init loop leaves every line invalid, clean, with Tag 0 and a full-size block. |
| DirectMapped.ResetShowsLower | oc-lab1/4.1/L1Cache.c:41-51 | After the init loop the lines are coherent, nothing hits, and the level shows the memory below unchanged. |
| DirectMapped.Hit | oc-lab1/4.1/L1Cache.c:78 | The negation of the miss test: the line at the index is valid and holds the address's tag. |
| DirectMapped.View | oc-lab1/4.1/L1Cache.c:78-105 | The byte the program shows at an address: the line's copy on a hit, the memory below's byte otherwise. |
| DirectMapped.Fill | oc-lab1/4.1/L1Cache.c:78-94 | The miss path: afterwards the address hits on a clean line holding the block read from below, and every other line is unchanged. |
| DirectMapped.Load | oc-lab1/4.1/L1Cache.c:96-97 | The READ copy returns exactly `n` bytes of the line from the offset on. |
| DirectMapped.Store | oc-lab1/4.1/L1Cache.c:101-104 | The WRITE copy: reading the same range back gives the data, the line is Dirty with Valid and Tag kept, its bytes outside the range and every other line are unchanged. |
| DirectMapped.FillKeepsCoherent | oc-lab1/4.1/L1Cache.c:78-94 | The miss path leaves every valid clean line equal to the memory below, including after the write-back, and leaves the address's line a hit. |
| DirectMapped.FillKeepsView | oc-lab1/4.1/L1Cache.c:78-94 | The miss path (fetch, write-back of a valid dirty victim, install) changes no byte the level shows. |
| DirectMapped.LoadIsView | oc-lab1/4.1/L1Cache.c:96-99 | On a hit the READ copy returns the bytes the level shows at address, address + 1, and so on. |
| DirectMapped.StoreIsView | oc-lab1/4.1/L1Cache.c:101-105 | On a hit the WRITE copy changes what the level shows at exactly the written bytes and keeps coherence. |
| DirectMapped.Serve | oc-lab1/4.1/L1Cache.c:96-105 | The service keeps dirty ⇒ valid and the DRAM contents, and never exits. |
| DirectMapped.Allocate | oc-lab1/4.1/L1Cache.c:78-94 | After the miss path (with its DRAM costs) the line holds the address, and dirty ⇒ valid still holds. |
| DirectMapped.Access | oc-lab1/4.2/L2Cache.c:116-172 | One access of a direct-mapped level over DRAM (4.1's accessL1, 4.2's accessL2) keeps dirty ⇒ valid. A READ returns `width` bytes. |
| DirectMapped.AccessExits | oc-lab1/4.1/L1Cache.c:78-81 | The process exits exactly when the access misses and the block lies outside DRAM. Then nothing has changed. |
| DirectMapped.AccessTime | oc-lab1/4.1/L1Cache.c:81-103 | Exact time added: the service cost, plus DRAM_READ_TIME on a miss, plus DRAM_WRITE_TIME when the victim is valid and dirty. |
| DirectMapped.AccessLines | oc-lab1/4.1/L1Cache.c:74-105 | Only the line at the index changes. It ends valid with `address >> 14` as tag. It is dirty after a WRITE or when it already held the address dirty; a fill clears Dirty and a READ never sets it. A WRITE leaves its bytes at the offset. DRAM is written, at the rebuilt address, only when a miss evicts a valid dirty line. |
| DirectMapped.AccessIsView | oc-lab1/4.1/L1Cache.c:78-105 | Transparency of one level: a READ returns the bytes shown, a WRITE changes exactly its bytes, coherence with DRAM is kept. |
| DirectMapped.ReadHitOnlyTakesTime | oc-lab1/4.1/L1Cache.c:96-99 | A READ hit returns the line's bytes and changes nothing but the time. |
| L1Only.Started | oc-lab1/4.1/L1Cache.c:41-51 | The init block sets `init` and resets every line, and keeps the invariant. DRAM and time are untouched. |
| L1Only.StepL1 | oc-lab1/4.1/L1Cache.c:35-106 | accessL1 keeps the invariant (dirty ⇒ valid, valid blocks in DRAM, clean lines equal DRAM) and leaves `init` set. |
| L1Only.InitShowsDram | oc-lab1/4.1/L1Cache.c:33 | After initCache the program shows DRAM as it is: dirty L1 data is discarded. |
| L1Only.StepIsMemory | oc-lab1/4.1/L1Cache.c:78-105 | read/write are transparent. The process exits iff address ≥ DRAM_SIZE. A READ returns the word shown (L1's copy on a tag match, DRAM's otherwise). A WRITE changes exactly that word. |
| L1Only.StepTime | oc-lab1/4.1/L1Cache.c:81-103 | Exact time of one access: L1 cost, + DRAM_READ_TIME on a miss, + DRAM_WRITE_TIME on a dirty eviction. |
| L1Only.ColdStartMisses | oc-lab1/4.1/L1Cache.c:41-51 | The first access after initCache misses and costs DRAM_READ_TIME plus the L1 cost. |
| L1Only.WriteThenRead | oc-lab1/4.1/L1Cache.c:108-114 | write(A, V) then read(A) returns V, hits, and costs only L1_READ_TIME. |
| L1Only.Simulator.constructor | oc-lab1/4.1/L1Cache.c:3-5 | The zero-initialised globals satisfy the invariant. |
| L1Only.Simulator.ResetTime | oc-lab1/4.1/L1Cache.c:8 | resetTime sets time to 0, changes nothing else and keeps the invariant. |
| L1Only.Simulator.GetTime | oc-lab1/4.1/L1Cache.c:10 | getTime returns time. |
| L1Only.Simulator.InitCache | oc-lab1/4.1/L1Cache.c:33 | initCache clears only `init`. |
| L1Only.Simulator.AccessDRAM | oc-lab1/4.1/L1Cache.c:13-29 | Exit iff the block is outside DRAM. READ copies BLOCK_SIZE bytes out and adds DRAM_READ_TIME. WRITE copies them in and adds DRAM_WRITE_TIME. |
| L1Only.Simulator.ClearLines | oc-lab1/4.1/L1Cache.c:44-50 | The init loop leaves every line invalid, clean, Tag 0, zeroed. |
| L1Only.Simulator.Miss | oc-lab1/4.1/L1Cache.c:78-94 | The miss branch does what `Allocate` specifies, or exits with nothing changed. |
| L1Only.Simulator.Start | oc-lab1/4.1/L1Cache.c:41-51 | The init block leaves the state of `Started`. |
| L1Only.Simulator.ServeL1 | oc-lab1/4.1/L1Cache.c:96-105 | The word copy on the hit line leaves exactly the memory and word of `Serve`. |
| L1Only.Simulator.AccessL1 | oc-lab1/4.1/L1Cache.c:35-106 | accessL1 on the arrays leaves exactly the state, word and exit status of `StepL1`. |
| L1Only.Simulator.Read | oc-lab1/4.1/L1Cache.c:108-110 | read returns the word the program shows, unless it exits (address ≥ DRAM_SIZE). |
| L1Only.Simulator.Write | oc-lab1/4.1/L1Cache.c:112-114 | write changes exactly the addressed word of what the program shows. |
| TwoLevel.Below | oc-lab1/4.2/L2Cache.h:34-42 | What L2 and DRAM hold together, one byte per DRAM address. |
| TwoLevel.Started | oc-lab1/4.2/L2Cache.c:41-59 | One `init` flag resets both levels together, keeping the invariant. |
| TwoLevel.FetchL2 | oc-lab1/4.2/L2Cache.c:88-89 | L1 asks L2 for the block at `address - offset`. The reply is a whole block. |
| TwoLevel.AllocateL1 | oc-lab1/4.2/L2Cache.c:86-102 | The L1 miss path through L2 either exits with nothing changed, or leaves L1 holding the address with dirty ⇒ valid in both levels. |
| TwoLevel.L2AccessIsImage | oc-lab1/4.2/L2Cache.c:116-172 | accessL2 on a block-aligned address exits iff the block is outside DRAM. A READ returns the block L2 and DRAM hold and leaves it unchanged. A WRITE puts its block there and changes nothing else. |
| TwoLevel.VictimWriteBackStays | oc-lab1/4.2/L2Cache.c:91-95 | Writing a valid L1 victim into L2 never exits: its rebuilt address is aligned and inside DRAM. |
| TwoLevel.AllocateL1IsFill | oc-lab1/4.2/L2Cache.c:86-102 | The L1 miss path is the one-level miss-fill over what L2 and DRAM hold. It keeps the invariant and changes no byte the program shows. |
| TwoLevel.StepL1 | oc-lab1/4.2/L2Cache.c:35-114 | accessL1 keeps the two-level invariant and leaves `init` set. |
| TwoLevel.InitShowsDram | oc-lab1/4.2/L2Cache.c:33 | After initCache the program shows DRAM: dirty data in both levels is discarded. |
| TwoLevel.StepIsMemory | oc-lab1/4.2/L2Cache.c:86-113 | Transparency through two levels: exit iff address ≥ DRAM_SIZE. A READ returns the word shown. A WRITE changes exactly that word. A word evicted into L2 or DRAM is still shown. |
| TwoLevel.StepLines | oc-lab1/4.2/L2Cache.c:82-113 | Only L1's own line changes in L1 (valid, tag, dirty as in 4.1). A hit leaves L2 and DRAM alone. A miss touches only the L2 lines of the fetched block and of the victim. A dirty L1 victim ends in L2, whole, valid and Dirty. |
| TwoLevel.AllocateL1Lines | oc-lab1/4.2/L2Cache.c:86-102 | The L1 miss path changes L1 only at the index, which ends valid with the new tag, and L2 only at the fetched block's line and at a dirty victim's line, which then holds the victim valid and dirty. A hit changes nothing. |
| TwoLevel.StepTime | oc-lab1/4.2/L2Cache.c:86-113 | Exact time: the L1 cost, plus on a miss the L2 READ with its DRAM costs, plus for a dirty victim the L2 WRITE with its DRAM costs. |
| TwoLevel.ColdStartMisses | oc-lab1/4.2/L2Cache.c:41-59 | The first access after initCache misses in L1 and in L2 and costs DRAM_READ_TIME + L2_READ_TIME + the L1 cost. |
| TwoLevel.WriteThenRead | oc-lab1/4.2/L2Cache.c:174-180 | write(A, V) then read(A) returns V with an L1 hit. |
| TwoLevel.Simulator.constructor | oc-lab1/4.2/L2Cache.c:3-5 | The zero-initialised globals (two separate line arrays) satisfy the invariant. |
| TwoLevel.Simulator.ResetTime | oc-lab1/4.2/L2Cache.c:8 | resetTime sets time to 0, changes nothing else and keeps the invariant. |
| TwoLevel.Simulator.GetTime | oc-lab1/4.2/L2Cache.c:10 | getTime returns time. |
| TwoLevel.Simulator.InitCache | oc-lab1/4.2/L2Cache.c:33 | initCache clears only `init`. |
| TwoLevel.Simulator.AccessDRAM | oc-lab1/4.2/L2Cache.c:13-29 | As in 4.1: exit iff the block is outside DRAM; block copy with DRAM_READ_TIME or DRAM_WRITE_TIME. |
| TwoLevel.Simulator.ClearLines | oc-lab1/4.2/L2Cache.c:44-58 | Each init loop leaves every line invalid, clean, Tag 0, zeroed. |
| TwoLevel.Simulator.MissL2 | oc-lab1/4.2/L2Cache.c:144-160 | The L2 miss branch does the miss-fill over DRAM with its costs, or exits with nothing changed. |
| TwoLevel.Simulator.AccessL2 | oc-lab1/4.2/L2Cache.c:116-172 | accessL2 on the arrays is exactly one access of the 9-bit, block-wide level over DRAM. |
| TwoLevel.Simulator.ServeL2 | oc-lab1/4.2/L2Cache.c:162-171 | The block copy on the hit line leaves exactly the memory and block of `Serve` for the 9-bit, block-wide level. |
| TwoLevel.Simulator.MissL1 | oc-lab1/4.2/L2Cache.c:86-102 | The L1 miss branch, calling accessL2 twice, leaves exactly the state of `AllocateL1`. |
| TwoLevel.Simulator.Start | oc-lab1/4.2/L2Cache.c:41-59 | The init block leaves the state of `Started`. |
| TwoLevel.Simulator.ServeL1 | oc-lab1/4.2/L2Cache.c:104-113 | A READ returns `Load` of the line and adds L1_READ_TIME. A WRITE leaves L1 as `Store` makes it and adds L1_WRITE_TIME. |
| TwoLevel.Simulator.AccessL1 | oc-lab1/4.2/L2Cache.c:35-114 | accessL1 on the arrays leaves exactly the state, word and exit status of `StepL1`. |
| TwoLevel.Simulator.Read | oc-lab1/4.2/L2Cache.c:174-176 | read returns the word shown, unless it exits. |
| TwoLevel.Simulator.Write | oc-lab1/4.2/L2Cache.c:178-180 | write changes exactly the addressed word of what the program shows. |
| SetAssoc.EmptyWay | oc-lab1/4.3/L2Cache.c:57-61 | A reset way is invalid, clean, Tag 0, Time 0, zeroed. |
| SetAssoc.Slot | oc-lab1/4.3/L2Cache.c:148 | `sets[set].lines[way]` lies at slot set * NUMSETS + way. The slot determines the set and the way. |
| SetAssoc.Ways | oc-lab1/4.3/L2Cache.c:148 | The ways of one set, in order. |
| SetAssoc.LastOldest | oc-lab1/4.3/L2Cache.c:161-167 | The running `<=` comparison keeps a way of minimal Time, with every later way strictly newer (ties go to the highest index). |
| SetAssoc.SelectWay | oc-lab1/4.3/L2Cache.c:148-168 | The scan picks way 0 if way 0's Tag matches (Valid ignored). Otherwise it picks the last way with the smallest Time. |
| SetAssoc.ColdSetPicksLast | oc-lab1/4.3/L2Cache.c:148-168 | With equal stamps (a cold set) the scan picks the last way, or way 0 when way 0's Tag matches. |
| SetAssoc.Selected | oc-lab1/4.3/L2Cache.c:145-148 | The chosen slot lies in set `(address >> 6) & 0xFF`. |
| SetAssoc.HitL2 | oc-lab1/4.3/L2Cache.c:172 | The hit test of accessL2, made on the chosen way only: valid with the address's tag. |
| SetAssoc.FillL2 | oc-lab1/4.3/L2Cache.c:172-189 | The L2 miss path keeps dirty ⇒ valid and keeps valid blocks inside DRAM. |
| SetAssoc.ServeL2 | oc-lab1/4.3/L2Cache.c:191-202 | The L2 service never exits, keeps the invariant and does not touch DRAM. |
| SetAssoc.StepL2 | oc-lab1/4.3/L2Cache.c:121-203 | accessL2 keeps dirty ⇒ valid and valid blocks in DRAM. A READ returns a whole block. |
| SetAssoc.StepL2Lines | oc-lab1/4.3/L2Cache.c:145-202 | Exit iff miss and the block is outside DRAM. Only the chosen way changes: valid, new tag, Dirty after WRITE, and it holds the written, held or DRAM block (which a READ returns). DRAM is written at `(Tag << 14) + (index << 6)` only on a dirty eviction. |
| SetAssoc.StepL2Time | oc-lab1/4.3/L2Cache.c:175-200 | Exact time: DRAM costs on a miss plus the L2 cost. The chosen way's Time is the time just before the L2 cost was added. |
| SetAssoc.StepL2InDram | oc-lab1/4.3/L2Cache.c:172-175 | accessL2 goes on iff the block lies in DRAM. |
| SetAssoc.StepL2KeepsStamped | oc-lab1/4.3/L2Cache.c:188-200 | If no stamp is later than the time counter before accessL2, none is after it. |
| SetAssoc.MatchOutsideChosenWayMisses | oc-lab1/4.3/L2Cache.c:148-172 | Suppose way 1 holds the block valid and way 0 holds another tag with an older stamp. The scan then picks way 0, the access misses, a READ returns DRAM's bytes, and the set ends with the block in both ways. |
| SetAssoc.ResetWays | oc-lab1/4.3/L2Cache.c:53-63 | After the L2 init loop every way is empty. |
| SetAssoc.Started | oc-lab1/4.3/L2Cache.c:41-64 | One `init` flag resets L1 and L2 together, keeping the invariant. |
| SetAssoc.WriteBackL2 | oc-lab1/4.3/L2Cache.c:96-100 | An L1 victim goes back into L2 at `(Tag << 14) + (index << 6)`, keeping the L2 invariant. |
| SetAssoc.AllocateL1 | oc-lab1/4.3/L2Cache.c:91-107 | The L1 miss path either exits with nothing changed or leaves L1 holding the address, with both levels consistent. |
| SetAssoc.AllocateL1KeepsInv | oc-lab1/4.3/L2Cache.c:91-107 | The L1 miss path, with its two L2 accesses, keeps the invariant of both levels. |
| SetAssoc.StepL1 | oc-lab1/4.3/L2Cache.c:35-119 | accessL1 keeps the invariant and leaves `init` set. |
| SetAssoc.AllocateL1Exits | oc-lab1/4.3/L2Cache.c:91-94 | The L1 miss path exits iff address ≥ DRAM_SIZE. A hit never exits, because a line that hits holds a block inside DRAM. |
| SetAssoc.StepExits | oc-lab1/4.3/L2Cache.c:91-94 | The process exits iff address ≥ DRAM_SIZE. |
| SetAssoc.StepLines | oc-lab1/4.3/L2Cache.c:87-118 | Only L1's own line changes (valid, tag, dirty). A READ returns the word of the held or fetched block. A WRITE leaves its word. A hit leaves L2 and DRAM alone. A dirty victim ends in its chosen L2 way, valid and Dirty. |
| SetAssoc.StepTime | oc-lab1/4.3/L2Cache.c:91-116 | Exact time: the L1 cost on a hit, or the L1 cost plus the L2 READ and the L2 WRITE of a dirty victim. Time never decreases. |
| SetAssoc.ColdStartMisses | oc-lab1/4.3/L2Cache.c:41-64 | The first access after initCache misses in L1 and L2, goes to the cold scan's way, and costs DRAM_READ_TIME + L2_READ_TIME + the L1 cost. |
| SetAssoc.WriteThenRead | oc-lab1/4.3/L2Cache.c:205-211 | write(A, V) then read(A) returns V with an L1 hit. |
| SetAssoc.Simulator.constructor | oc-lab1/4.3/L2Cache.c:3-5 | The zero-initialised globals satisfy the invariant. |
| SetAssoc.Simulator.ResetTime | oc-lab1/4.3/L2Cache.c:8 | resetTime sets time to 0, changes nothing else and keeps the invariant. |
| SetAssoc.Simulator.GetTime | oc-lab1/4.3/L2Cache.c:10 | getTime returns time. |
| SetAssoc.Simulator.InitCache | oc-lab1/4.3/L2Cache.c:33 | initCache clears only `init`. |
| SetAssoc.Simulator.AccessDRAM | oc-lab1/4.3/L2Cache.c:13-29 | As in 4.1. |
| SetAssoc.Simulator.ClearL1 | oc-lab1/4.3/L2Cache.c:44-51 | The L1 init loop empties every line. |
| SetAssoc.Simulator.ClearL2 | oc-lab1/4.3/L2Cache.c:53-63 | The L2 init loop, with its swapped bounds `sets[j].lines[i]`, still empties every way of L2. |
| SetAssoc.Simulator.ScanSet | oc-lab1/4.3/L2Cache.c:148-168 | The scan loop returns exactly the way `SelectWay` describes. |
| SetAssoc.Simulator.MissL2 | oc-lab1/4.3/L2Cache.c:172-189 | The L2 miss branch on the chosen way does `FillL2`, or exits with nothing changed. |
| SetAssoc.Simulator.AccessL2 | oc-lab1/4.3/L2Cache.c:121-203 | accessL2 on the arrays leaves exactly the state, block and exit status of `StepL2`. |
| SetAssoc.Simulator.Start | oc-lab1/4.3/L2Cache.c:41-64 | The init block leaves the state of `Started`. |
| SetAssoc.Simulator.ServeSlot | oc-lab1/4.3/L2Cache.c:191-202 | Stamping the chosen way and the block copy leave exactly the state and block of `ServeL2`. |
| SetAssoc.Simulator.MissL1 | oc-lab1/4.3/L2Cache.c:91-107 | The L1 miss branch, calling accessL2 twice, leaves exactly the state of `AllocateL1`. |
| SetAssoc.Simulator.ServeL1 | oc-lab1/4.3/L2Cache.c:109-118 | A READ returns `Load` of the line and adds L1_READ_TIME. A WRITE leaves L1 as `Store` makes it and adds L1_WRITE_TIME. |
| SetAssoc.Simulator.AccessL1 | oc-lab1/4.3/L2Cache.c:35-119 | accessL1 on the arrays leaves exactly the state, word and exit status of `StepL1`. |
| SetAssoc.Simulator.Read | oc-lab1/4.3/L2Cache.c:205-207 | read follows `StepL1` and exits iff address ≥ DRAM_SIZE. |
| SetAssoc.Simulator.Write | oc-lab1/4.3/L2Cache.c:209-211 | write follows `StepL1` and exits iff address ≥ DRAM_SIZE. |

## Left out

- `exit(-1)` in accessDRAM is an `ok = false` result. The state returned is the state at the point of the exit.
- Simulator.AccessDRAM: requires a block-aligned address. Every caller passes one (`address - offset`, or an
  address rebuilt from tag and index). The bounds test is written for a word but copies a whole block. For an
  unaligned address within the last block it would let the copy run past the end of DRAM, and that case is not
  modelled.
- The word copies of accessL1 require `offset + WORD_SIZE <= BLOCK_SIZE`. A word crossing a block boundary
  would make `memcpy` read or write past the line, and that is not modelled.
- `time` and the 4.3 `Time` stamps are unbounded naturals. The 32-bit wrap-around of `uint32_t time` is not
  modelled.
- The `Time` field of the 4.3 L1 lines is zeroed by the init loop and never read. The 4.3 L1 lines are modelled
  without it.
- The 4.3 L2 init loop writes `sets[j].lines[i]` for `i` up to 511. That reaches two line slots past the end of
  the L2 array. Those out-of-range writes, which overwrite whatever memory follows L2, are dropped. Every way
  inside L2 is still cleared.
- No transparency theorem (reads return the last written value) is stated for the 4.3 L2. The way-0-only tag
  test can leave a block in two ways of a set, and a READ can then return stale bytes
  (`SetAssoc.MatchOutsideChosenWayMisses`).
- SetAssoc.Simulator.Read: states the exit condition and equality with `StepL1`, but not which word is returned
  in terms of DRAM, for the same reason. `SetAssoc.StepLines` states it in terms of the L1 line or the block L2
  returned.
- The 4.3 invariant says nothing about the `Time` stamps. resetTime sets `time` to 0 and leaves every stamp as
  it was, so a stamp may be later than the time counter (`SetAssoc.StepL2KeepsStamped` holds only when none
  is). The scan still compares the stale stamps with the ones written afterwards, exactly as the C code does.
- `Cache.h`, `L1Cache.h` and the 4.3 `L2Cache.h` are not part of this model. Their sizes and costs are the
  constants listed above, and the 4.3 set/way layout is inferred from its use.
- The host driver, test programs and stdio are not part of this model.
