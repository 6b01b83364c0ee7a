/** What a command stores and where: the VIA at $1800 lies behind memory, so a command can set the lines the
    drive holds. And what fills the block buffer. */
module CommandStores {
  import opened Options
  import opened BlockTables
  import opened Directory
  import opened DosNames
  import opened ByteValues
  import opened DosCommands
  import opened CommandLaws
  import opened Division

  // ---- where a command stores ---------------------------------------------------------------------

  /** Where the bytes of an M-W command and of a block go. */
  function ByteAddress(addr: nat, i: nat): nat {
    (addr + i) % ADDRESSES
  }

  function BlockAddress(base: nat, i: nat): nat {
    ClearBit14(base + i)
  }

  predicate MemoryStores(parts: seq<string>, a: nat) {
    && |parts| >= 5
    && var addr, len := HexWord(Trim(parts[1])), HexByte(Trim(parts[3]));
       addr.Some? && len.Some? && exists i: nat :: i < len.value && ByteAddress(addr.value, i) == a
  }

  predicate BlockReaches(track: Octet, sector: Octet, a: nat) {
    exists i: nat :: i < BLOCK_SIZE && BlockAddress(BlockBase(track, sector), i) == a
  }

  predicate BlockStores(parts: seq<string>, a: nat) {
    && |parts| >= 4 && Trim(parts[0]) == "B-W"
    && var track, sector := HexByte(Trim(parts[2])), HexByte(Trim(parts[3]));
       track.Some? && sector.Some? && BlockReaches(track.value, sector.value, a)
  }

  /** The command, read from its bytes alone, may store to address `a`. */
  predicate Stores(raw: seq<Byte>, a: nat) {
    var parts := Split(CommandText(raw));
    if Begins(CommandText(raw), "M-W") then MemoryStores(parts, a)
    else Begins(CommandText(raw), "B-") && BlockStores(parts, a)
  }

  /** Nothing has changed at the address, neither in memory nor in the VIA. */
  predicate SameAt(m: Memory, r: Memory, a: nat) {
    && Peek(m, a) == Peek(r, a)
    && (a == PORT_B ==> m.portB == r.portB)
    && (a == DIRECTION_B ==> m.directionB == r.directionB)
  }

  lemma {:induction false} StoredElsewhere(m: Memory, addr: nat, parts: seq<string>, i: nat, len: nat, a: nat)
    requires i <= len && 4 + len <= |parts|
    requires forall j: nat :: i <= j < len ==> ByteAddress(addr, j) != a
    ensures SameAt(m, StoreBytes(m, addr, parts, i, len).memory, a)
    decreases len - i
  {
    hide HexByte, Trim;
    if i < len {
      assert ByteAddress(addr, i) != a;
      var b := HexByte(Trim(parts[4 + i]));
      if b.Some? {
        StoredElsewhere(Poke(m, (addr + i) % ADDRESSES, ByteOf(b.value)), addr, parts, i + 1, len, a);
      }
    }
  }

  lemma MemoryWriteElsewhere(disk: Disk, parts: seq<string>, a: nat)
    requires !MemoryStores(parts, a)
    ensures SameAt(disk.memory, MemoryWrite(disk, parts).disk.memory, a)
  {
    hide HexByte, HexWord, Trim, StoreBytes, SameAt;
    if |parts| >= 5 {
      var addr, len := HexWord(Trim(parts[1])), HexByte(Trim(parts[3]));
      if addr.Some? && len.Some? && |parts| - 4 >= len.value {
        StoredElsewhere(disk.memory, addr.value, parts, 0, len.value, a);
      }
    }
    SameAtItself(disk.memory, a);
  }

  lemma SameAtItself(m: Memory, a: nat)
    ensures SameAt(m, m, a)
  {
  }

  lemma {:induction false} WrittenElsewhere(m: Memory, base: nat, block: Block, n: nat, a: nat)
    requires n <= BLOCK_SIZE && forall i: nat :: i < n ==> BlockAddress(base, i) != a
    ensures SameAt(m, WriteBlock(m, base, block, n), a)
  {
    hide ClearBit14;
    if n > 0 {
      WrittenElsewhere(m, base, block, n - 1, a);
      assert BlockAddress(base, n - 1) != a;
    }
  }

  lemma BlockWriteElsewhere(disk: Disk, ch: Octet, track: Octet, sector: Octet, a: nat)
    requires !BlockReaches(track, sector, a)
    ensures SameAt(disk.memory, BlockWrite(disk, ch, track, sector).disk.memory, a)
  {
    hide BlockAddress, BlockBase, WriteBlock, Allocate, SameAt, BlockIndex;
    if disk.buffer.Some? {
      WrittenElsewhere(disk.memory, BlockBase(track, sector), disk.buffer.value, BLOCK_SIZE, a);
    }
    SameAtItself(disk.memory, a);
  }

  lemma BlockCommandElsewhere(disk: Disk, parts: seq<string>, a: nat)
    requires parts != [] && !BlockStores(parts, a)
    ensures SameAt(disk.memory, BlockCommand(disk, parts).disk.memory, a)
  {
    SameAtItself(disk.memory, a);
    hide HexByte, Trim, BlockReaches, SameAt, BlockWrite, Allocate, Free, ReadBlock;
    if |parts| >= 4 {
      var ch, track, sector := HexByte(Trim(parts[1])), HexByte(Trim(parts[2])), HexByte(Trim(parts[3]));
      if ch.Some? && track.Some? && sector.Some? && Trim(parts[0]) == "B-W" {
        BlockWriteElsewhere(disk, ch.value, track.value, sector.value, a);
      }
    }
  }

  /** A command changes memory and VIA only where its own text says that it stores. */
  lemma StoresNowhereElse(disk: Disk, raw: seq<Byte>, a: nat)
    requires !Stores(raw, a)
    ensures SameAt(disk.memory, Execute(disk, raw).disk.memory, a)
  {
    var parts := Split(CommandText(raw));
    SameAtItself(disk.memory, a);
    hide SameAt, MemoryStores, BlockStores, MemoryWrite, BlockCommand, CommandText, Split;
    if !MemoryStores(parts, a) { MemoryWriteElsewhere(disk, parts, a); }
    if !BlockStores(parts, a) { BlockCommandElsewhere(disk, parts, a); }
  }

  /** The command leaves the lines that the drive holds alone. */
  predicate Harmless(raw: seq<Byte>) {
    !Stores(raw, PORT_B) && !Stores(raw, DIRECTION_B)
  }

  /** The VIA as both registers leave it. */
  predicate SameHold(m: Memory, r: Memory) {
    HoldsClk(m) == HoldsClk(r) && HoldsData(m) == HoldsData(r)
  }

  lemma SameRegistersHold(m: Memory, r: Memory)
    requires SameAt(m, r, PORT_B) && SameAt(m, r, DIRECTION_B)
    ensures SameHold(m, r)
  {
  }

  /** A command that stores to neither register, as the host can tell before sending it, leaves the drive's
      hold on the bus as it was. */
  lemma HarmlessKeepsHold(disk: Disk, raw: seq<Byte>)
    requires Harmless(raw)
    ensures SameHold(disk.memory, Execute(disk, raw).disk.memory)
  {
    StoresNowhereElse(disk, raw, PORT_B);
    StoresNowhereElse(disk, raw, DIRECTION_B);
    SameRegistersHold(disk.memory, Execute(disk, raw).disk.memory);
    hide *;
  }

  // ---- what reaches the VIA ---------------------------------------------------------------------------

  lemma BaseHasNoBit14(track: Octet, sector: Octet)
    ensures BlockBase(track, sector) % 0x8000 < 0x4000
    ensures BlockBase(track, sector) == (if track / 64 % 2 == 1 then track - 64 else track) * 256 + sector
  {
    var q, rest := track / 64, track % 64 * 256 + sector;
    assert track * 256 + sector == q * 0x4000 + rest;
    hide ClearBit14;
    Bit14Gone(q, rest);
  }

  lemma Bit14Gone(q: nat, rest: nat)
    requires q <= 3 && rest < 0x4000
    ensures var base := ClearBit14(q * 0x4000 + rest);
            base == (if q % 2 == 1 then q - 1 else q) * 0x4000 + rest && base % 0x8000 == rest
  {
    QuotientUnique(q * 0x4000 + rest, 0x4000, q, rest);
    QuotientUnique((if q % 2 == 1 then q - 1 else q) * 0x4000 + rest, 0x8000, q / 2, rest);
  }

  lemma BlockAddressLow(base: nat, i: nat, a: nat)
    requires base % 0x8000 < 0x4000 && i < BLOCK_SIZE && BLOCK_SIZE <= a < 0x3F00
    ensures BlockAddress(base, i) == a <==> base + i == a
  {
  }

  /** A block written reaches the two registers exactly from track $17, sector 1, to track $18, sector 2,
      and from the tracks 64 above. */
  lemma BlockReachesViaIff(track: Octet, sector: Octet)
    ensures BlockReaches(track, sector, PORT_B) || BlockReaches(track, sector, DIRECTION_B)
       <==> (track in {0x17, 0x57} && sector >= 1) || (track in {0x18, 0x58} && sector <= 2)
  {
    BlockReachesIff(track, sector, PORT_B);
    BlockReachesIff(track, sector, DIRECTION_B);
    BaseHasNoBit14(track, sector);
    hide BlockReaches, BlockBase;
  }

  lemma BlockReachesIff(track: Octet, sector: Octet, a: nat)
    requires BLOCK_SIZE <= a < 0x3F00
    ensures BlockReaches(track, sector, a)
       <==> BlockBase(track, sector) <= a < BlockBase(track, sector) + BLOCK_SIZE
  {
    var base := BlockBase(track, sector);
    BaseHasNoBit14(track, sector);
    hide BlockAddress, BlockBase;
    if base <= a < base + BLOCK_SIZE {
      BlockAddressLow(base, a - base, a);
    }
    forall i: nat | i < BLOCK_SIZE ensures BlockAddress(base, i) == a <==> base + i == a {
      BlockAddressLow(base, i, a);
    }
  }

  lemma {:induction false} BlockSetsVia(m: Memory, base: nat, block: Block, n: nat)
    requires n <= BLOCK_SIZE && base % 0x8000 < 0x4000
    ensures var r := WriteBlock(m, base, block, n);
            && r.portB == (if base <= PORT_B < base + n then block[PORT_B - base] else m.portB)
            && r.directionB == (if base <= DIRECTION_B < base + n then block[DIRECTION_B - base] else m.directionB)
  {
    if n > 0 {
      BlockSetsVia(m, base, block, n - 1);
      BlockAddressLow(base, n - 1, PORT_B);
      BlockAddressLow(base, n - 1, DIRECTION_B);
      hide ClearBit14;
    }
  }

  /** What a block leaves in the two registers when it is written out. */
  lemma FlushSetsVia(disk: Disk, track: Octet, sector: Octet)
    requires disk.buffer.Some?
    ensures var base, block, r := BlockBase(track, sector), disk.buffer.value, Flush(disk, track, sector).disk.memory;
            && r.portB == (if base <= PORT_B < base + BLOCK_SIZE then block[PORT_B - base] else disk.memory.portB)
            && r.directionB == (if base <= DIRECTION_B < base + BLOCK_SIZE then block[DIRECTION_B - base]
                                else disk.memory.directionB)
  {
    BaseHasNoBit14(track, sector);
    BlockSetsVia(disk.memory, BlockBase(track, sector), disk.buffer.value, BLOCK_SIZE);
    hide WriteBlock, BlockBase;
  }

  /** The first block of track $18 holds DATA exactly if it has bit 5 set behind the direction register and
      clear behind the port. */
  lemma BlockHoldsDataIff(disk: Disk)
    requires disk.buffer.Some?
    ensures HoldsData(Flush(disk, 0x18, 0).disk.memory)
       <==> disk.buffer.value[2] & 0x20 != 0 && disk.buffer.value[0] & 0x20 == 0
  {
    FlushSetsVia(disk, 0x18, 0);
    assert BlockBase(0x18, 0) == 0x1800;
    hide Flush;
  }

  /** A direction byte stored by command over a port at zero holds exactly the lines of its bits. */
  lemma DirectionHoldsLines(disk: Disk, direction: Octet)
    requires disk.memory.portB == 0 && RAM_END <= |disk.memory.bytes|
    ensures var r := Execute(disk, Raw(Join(StoreParts(DIRECTION_B, [direction]))));
            && r.status == NoError
            && r.disk == disk.(memory := r.disk.memory)
            && r.disk.memory.portB == 0 && r.disk.memory.directionB == ByteOf(direction)
            && (HoldsClk(r.disk.memory) <==> ByteOf(direction) & 0x40 != 0)
            && (HoldsData(r.disk.memory) <==> ByteOf(direction) & 0x20 != 0)
  {
    StorePartsAreText(DIRECTION_B, [direction]);
    var store := StoreParts(DIRECTION_B, [direction]);
    assert store[0] == "M-W";
    StoreCommand(disk, DIRECTION_B, [direction]);
    hide StoreParts, Raw, Join, MemoryWrite, Commanding, CommaFree, Execute, ByteOf;
    MemoryCommandRuns(disk, store);
    assert Bytes([direction])[0] == ByteOf(direction);
  }

  // ---- the block buffer ----------------------------------------------------------------------------------

  /** The command reads or frees a block that is taken. */
  predicate FillsBuffer(tables: Tables, raw: seq<Byte>)
    requires Shaped(tables)
  {
    var parts := Split(CommandText(raw));
    && Begins(CommandText(raw), "B-") && |parts| >= 4 && Trim(parts[0]) in {"B-R", "B-F"}
    && var ch, track, sector := HexByte(Trim(parts[1])), HexByte(Trim(parts[2])), HexByte(Trim(parts[3]));
       ch.Some? && track.Some? && sector.Some? && tables.taken[BlockIndex(track.value, sector.value)]
  }

  lemma FreeSucceedsIff(s: Tables, track: nat, sector: nat)
    requires Shaped(s)
    ensures Free(s, track, sector).ok <==> s.taken[BlockIndex(track, sector)]
  {
  }

  lemma BlockCommandFills(disk: Disk, parts: seq<string>)
    requires parts != []
    ensures BlockCommand(disk, parts).disk.buffer.Some?
       <==> disk.buffer.Some?
            || (&& |parts| >= 4 && Trim(parts[0]) in {"B-R", "B-F"}
                && var ch, track, sector := HexByte(Trim(parts[1])), HexByte(Trim(parts[2])), HexByte(Trim(parts[3]));
                   && ch.Some? && track.Some? && sector.Some?
                   && disk.tables.taken[BlockIndex(track.value, sector.value)])
  {
    hide HexByte, Trim, Allocate, Free, BlockIndex, ReadBlock, WriteBlock;
    if |parts| >= 4 {
      var track, sector := HexByte(Trim(parts[2])), HexByte(Trim(parts[3]));
      if track.Some? && sector.Some? {
        FreeSucceedsIff(disk.tables, track.value, sector.value);
      }
    }
  }

  /** No command empties the block buffer, and exactly a successful B-R or B-F fills it. */
  lemma BufferFilledIff(disk: Disk, raw: seq<Byte>)
    ensures Execute(disk, raw).disk.buffer.Some? <==> disk.buffer.Some? || FillsBuffer(disk.tables, raw)
  {
    var parts := Split(CommandText(raw));
    BlockCommandFills(disk, parts);
    BlocksAreNoMemory(CommandText(raw));
    hide BlockCommand, CommandText, Split, HexByte, HexWord, Trim, BlockIndex, StoreBytes, Fetched;
  }

  lemma BlocksAreNoMemory(cmd: string)
    ensures Begins(cmd, "B-") ==> !Begins(cmd, "M-R") && !Begins(cmd, "M-W") && !Begins(cmd, "M-E")
  {
    if Begins(cmd, "B-") { NoMemoryCommand(cmd); }
  }
}
