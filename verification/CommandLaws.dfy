/** What the command channel promises: commands written out are read back, what is stored can be fetched
    again, and the allocator and its names stay in order. */
module CommandLaws {
  import opened Options
  import opened BlockTables
  import opened Directory
  import opened DosNames
  import opened ByteValues
  import opened DosCommands
  import opened CatalogText
  import Glob

  // ---- commands written out -----------------------------------------------------------------------

  /** A text as the bytes of the wire. */
  function Raw(s: string): (r: seq<Byte>)
    ensures |r| == |s|
  {
    seq(|s|, i requires 0 <= i < |s| => ByteOf(s[i] as int % 256))
  }

  predicate CommandChar(c: char) {
    ' ' <= c <= '~' && !('a' <= c <= 'z')
  }

  lemma RawChar(c: char)
    requires CommandChar(c)
    ensures var b := ByteOf(c as int % 256); b != 0x0D && b != 0x00 && Char(b) == c
  {
    ByteHasValue(c as int % 256);
    hide ByteOf;
    assert (0x0D as Byte) as int == 13 && (0x00 as Byte) as int == 0;
  }

  lemma {:induction false} RawReads(s: string)
    requires Commanding(s)
    ensures CommandText(Raw(s)) == s
  {
    if s != [] {
      RawChar(s[0]);
      assert Raw(s)[1..] == Raw(s[1..]);
      RawReads(s[1..]);
      assert [s[0]] + s[1..] == s;
      hide Char, ByteOf;
    }
  }

  predicate HexText(s: string) {
    forall i :: 0 <= i < |s| ==> '0' <= s[i] <= '9' || 'A' <= s[i] <= 'F'
  }

  lemma HexDigitReads(d: nat)
    requires d < 16
    ensures var c := "0123456789ABCDEF"[d]; HexDigit(c) == Some(d) && ('0' <= c <= '9' || 'A' <= c <= 'F')
  {
  }

  lemma HexReads(v: Octet)
    ensures HexByte(Hex(v)) == Some(v) && HexText(Hex(v)) && |Hex(v)| == 2
  {
    HexDigitReads(v / 16);
    HexDigitReads(v % 16);
    assert v / 16 % 16 == v / 16;
    var digits := "0123456789ABCDEF";
    assert Hex(v)[0] == digits[v / 16] && Hex(v)[1] == digits[v % 16] && |Hex(v)| == 2;
    hide HexDigit, Hex;
  }

  lemma HexTextIsToken(s: string)
    requires HexText(s)
    ensures CommaFree(s) && Trim(s) == s && Commanding(s)
  {
    TrimIsExact(s);
  }

  function HexOfWord(w: nat): string {
    Hex(w / 256) + Hex(w % 256)
  }

  lemma HexWordReads(w: nat)
    requires w < ADDRESSES
    ensures HexWord(HexOfWord(w)) == Some(w) && HexText(HexOfWord(w))
  {
    HexReads(w / 256);
    HexReads(w % 256);
    WordOfHalves(Hex(w / 256), Hex(w % 256), w / 256, w % 256);
    assert w / 256 * 256 + w % 256 == w;
    hide HexByte, Hex, HexWord;
  }

  lemma WordOfHalves(hi: string, lo: string, h: Octet, l: Octet)
    requires |hi| == 2 && |lo| == 2 && HexByte(hi) == Some(h) && HexByte(lo) == Some(l)
    ensures HexWord(hi + lo) == Some(h * 256 + l)
    ensures HexText(hi) && HexText(lo) ==> HexText(hi + lo)
  {
    hide HexByte;
    assert (hi + lo)[..2] == hi && (hi + lo)[2..] == lo;
  }

  /** Splitting undoes joining. */
  lemma {:induction false} JoinSplits(parts: seq<string>)
    requires parts != [] && forall i :: 0 <= i < |parts| ==> CommaFree(parts[i])
    ensures Split(Join(parts)) == parts
  {
    if |parts| == 1 {
      SplitWhole(parts[0]);
    } else {
      JoinSplits(parts[1..]);
      SplitAtComma(parts[0], Join(parts[1..]));
      assert [parts[0]] + parts[1..] == parts;
    }
  }

  predicate BlockName(op: string) {
    op in {"B-R", "B-W", "B-P", "B-F", "B-A"}
  }

  function BlockText(op: string, ch: Octet, track: Octet, sector: Octet): string {
    Join([op, Hex(ch), Hex(track), Hex(sector)])
  }

  lemma BlockNameIsToken(op: string)
    requires BlockName(op)
    ensures CommaFree(op) && Trim(op) == op && |op| == 3 && op[..2] == "B-"
    ensures Commanding(op)
  {
    TrimIsExact(op);
    hide Trim;
  }

  lemma JoinOfFour(a: string, b: string, c: string, d: string)
    ensures Join([a, b, c, d]) == a + "," + (b + "," + (c + "," + d))
  {
    assert [a, b, c, d][1..] == [b, c, d];
    assert [b, c, d][1..] == [c, d];
    assert [c, d][1..] == [d];
    assert Join([d]) == d;
    assert Join([c, d]) == c + "," + d;
    assert Join([b, c, d]) == b + "," + (c + "," + d);
  }

  predicate Commanding(s: string) {
    forall i :: 0 <= i < |s| ==> CommandChar(s[i])
  }

  lemma HexIsToken(v: Octet)
    ensures HexByte(Hex(v)) == Some(v) && Trim(Hex(v)) == Hex(v) && CommaFree(Hex(v)) && Commanding(Hex(v))
  {
    HexReads(v);
    HexTextIsToken(Hex(v));
    hide Hex, HexByte, Trim;
  }

  lemma CommandingJoins(a: string, b: string)
    requires Commanding(a) && Commanding(b)
    ensures Commanding(a + "," + b)
  {
  }

  lemma BlockTextParts(op: string, ch: Octet, track: Octet, sector: Octet)
    requires BlockName(op)
    ensures Split(BlockText(op, ch, track, sector)) == [op, Hex(ch), Hex(track), Hex(sector)]
    ensures Begins(BlockText(op, ch, track, sector), "B-")
    ensures CommandText(Raw(BlockText(op, ch, track, sector))) == BlockText(op, ch, track, sector)
  {
    BlockNameIsToken(op);
    HexIsToken(ch);
    HexIsToken(track);
    HexIsToken(sector);
    hide Hex, Trim, Split, CommandText, HexByte, HexText, Raw, Commanding, CommaFree;
    JoinSplits([op, Hex(ch), Hex(track), Hex(sector)]);
    JoinOfFour(op, Hex(ch), Hex(track), Hex(sector));
    CommandingJoins(Hex(track), Hex(sector));
    CommandingJoins(Hex(ch), Hex(track) + "," + Hex(sector));
    CommandingJoins(op, Hex(ch) + "," + (Hex(track) + "," + Hex(sector)));
    hide Join;
    var text := BlockText(op, ch, track, sector);
    assert text[..2] == op[..2];
    RawReads(text);
  }

  /** A block command written out in hexadecimal does to the disk what its numbers say. */
  lemma BlockCommandReads(disk: Disk, op: string, ch: Octet, track: Octet, sector: Octet)
    requires BlockName(op) && op != "B-P"
    ensures Execute(disk, Raw(BlockText(op, ch, track, sector)))
         == if op == "B-R" then BlockRead(disk, track, sector)
            else if op == "B-W" then BlockWrite(disk, ch, track, sector)
            else if op == "B-F" then BlockFree(disk, track, sector)
            else BlockAllocate(disk, ch, track, sector)
  {
    var text := BlockText(op, ch, track, sector);
    BlockTextParts(op, ch, track, sector);
    NoMemoryCommand(text);
    assert Execute(disk, Raw(text)) == BlockCommand(disk, Split(text)) by {
      hide BlockText, CommandText, Split, BlockCommand;
    }
    BlockNameIsToken(op);
    HexIsToken(ch);
    HexIsToken(track);
    HexIsToken(sector);
    hide Execute, BlockText, CommandText, Split, Hex, HexByte, Trim, BlockRead, BlockWrite, BlockFree, BlockAllocate;
  }

  lemma NoMemoryCommand(text: string)
    requires Begins(text, "B-")
    ensures !Begins(text, "M-R") && !Begins(text, "M-W") && !Begins(text, "M-E")
  {
    assert text[..2][0] == 'B' && text[0] == 'B';
    if |text| >= 3 { assert text[..3][0] == text[0]; }
  }

  // ---- memory ----------------------------------------------------------------------------------------

  function HexParts(bytes: seq<Octet>): (r: seq<string>)
    ensures |r| == |bytes|
  {
    seq(|bytes|, i requires 0 <= i < |bytes| => Hex(bytes[i]))
  }

  /** The parts of a command that stores `bytes`; the third part is never read. */
  function StoreParts(addr: nat, bytes: seq<Octet>): (r: seq<string>)
    ensures |r| == 4 + |bytes|
  {
    ["M-W", HexOfWord(addr), "00", Hex(|bytes|)] + HexParts(bytes)
  }

  function FetchParts(addr: nat, len: nat): seq<string> {
    ["M-R", HexOfWord(addr), "00", Hex(len)]
  }

  /** Memory with `bytes` from index i on stored at `addr`. */
  predicate Holds(r: Memory, m: Memory, addr: nat, bytes: seq<Byte>, i: nat) {
    && |r.bytes| == |m.bytes|
    && (forall a :: addr + i <= a < addr + |bytes| && a < |m.bytes| ==> r.bytes[a] == bytes[a - addr])
    && (forall a :: 0 <= a < |m.bytes| && !(addr + i <= a < addr + |bytes|) ==> r.bytes[a] == m.bytes[a])
    && r.portB == (if addr + i <= PORT_B < addr + |bytes| then bytes[PORT_B - addr] else m.portB)
    && r.directionB == (if addr + i <= DIRECTION_B < addr + |bytes| then bytes[DIRECTION_B - addr] else m.directionB)
  }

  lemma StorePart(addr: nat, bytes: seq<Octet>, i: nat)
    requires i < |bytes|
    ensures HexByte(Trim(StoreParts(addr, bytes)[4 + i])) == Some(bytes[i]) && Bytes(bytes)[i] == ByteOf(bytes[i])
  {
    HexIsToken(bytes[i]);
    hide HexByte, Hex, Trim, HexOfWord;
    assert StoreParts(addr, bytes)[4 + i] == HexParts(bytes)[i];
  }

  lemma {:induction false} StoredBytes(m: Memory, addr: nat, bytes: seq<Octet>, i: nat)
    requires i <= |bytes| && addr + |bytes| <= RAM_END <= |m.bytes|
    ensures var s := StoreBytes(m, addr, StoreParts(addr, bytes), i, |bytes|);
            s.ok && Holds(s.memory, m, addr, Bytes(bytes), i)
    decreases |bytes| - i
  {
    hide HexByte, Trim, Bytes, StoreParts, StoreBytes, Holds, Poke;
    if i == |bytes| {
      StoredNothing(m, addr, bytes);
    } else {
      StorePart(addr, bytes, i);
      StoreStep(m, addr, StoreParts(addr, bytes), i, |bytes|, bytes[i]);
      var m' := Poke(m, addr + i, Bytes(bytes)[i]);
      StoredBytes(m', addr, bytes, i + 1);
      HoldsMore(StoreBytes(m', addr, StoreParts(addr, bytes), i + 1, |bytes|).memory, m, addr, Bytes(bytes), i);
    }
  }

  lemma StoredNothing(m: Memory, addr: nat, bytes: seq<Octet>)
    ensures var s := StoreBytes(m, addr, StoreParts(addr, bytes), |bytes|, |bytes|);
            s.ok && Holds(s.memory, m, addr, Bytes(bytes), |bytes|)
  {
    hide Bytes, StoreParts;
  }

  lemma StoreStep(m: Memory, addr: nat, parts: seq<string>, i: nat, len: nat, v: Octet)
    requires i < len && 4 + len <= |parts| && addr + i < ADDRESSES && HexByte(Trim(parts[4 + i])) == Some(v)
    ensures StoreBytes(m, addr, parts, i, len) == StoreBytes(Poke(m, addr + i, ByteOf(v)), addr, parts, i + 1, len)
  {
    hide HexByte, Trim, Poke;
    assert (addr + i) % ADDRESSES == addr + i;
  }

  lemma HoldsMore(r: Memory, m: Memory, addr: nat, bytes: seq<Byte>, i: nat)
    requires i < |bytes| && addr + |bytes| <= RAM_END <= |m.bytes|
    requires Holds(r, Poke(m, addr + i, bytes[i]), addr, bytes, i + 1)
    ensures Holds(r, m, addr, bytes, i)
  {
  }

  lemma NumbersRead(addr: nat, len: Octet)
    requires addr < ADDRESSES
    ensures HexWord(Trim(HexOfWord(addr))) == Some(addr) && HexByte(Trim(Hex(len))) == Some(len)
  {
    HexWordReads(addr);
    HexIsToken(len);
    HexTextIsToken(HexOfWord(addr));
    hide HexWord, HexOfWord, HexByte, Hex, Trim;
  }

  lemma StoreCommand(disk: Disk, addr: nat, bytes: seq<Octet>)
    requires 0 < |bytes| <= 255 && addr + |bytes| <= RAM_END <= |disk.memory.bytes|
    ensures var stored := MemoryWrite(disk, StoreParts(addr, bytes));
            stored == Answer(disk.(memory := stored.disk.memory), NoError)
            && Holds(stored.disk.memory, disk.memory, addr, Bytes(bytes), 0)
  {
    NumbersRead(addr, |bytes|);
    var parts := StoreParts(addr, bytes);
    assert |parts| == 4 + |bytes| && parts[1] == HexOfWord(addr) && parts[3] == Hex(|bytes|);
    hide HexWord, HexByte, HexOfWord, Hex, Trim, StoreBytes, StoreParts, Bytes, Holds;
    StoredBytes(disk.memory, addr, bytes, 0);
  }

  lemma FetchCommand(disk: Disk, m: Memory, addr: nat, bytes: seq<Byte>)
    requires 0 < |bytes| <= 255 && addr + |bytes| <= RAM_END <= |disk.memory.bytes|
             && Holds(disk.memory, m, addr, bytes, 0)
    ensures MemoryRead(disk, FetchParts(addr, |bytes|)) == Reply(disk, NoError, Some(bytes))
  {
    NumbersRead(addr, |bytes|);
    FetchedBytes(disk.memory, m, addr, bytes);
    hide HexWord, HexByte, HexOfWord, Hex, Trim, Peek, Holds;
  }

  lemma FetchedBytes(r: Memory, m: Memory, addr: nat, bytes: seq<Byte>)
    requires addr + |bytes| <= RAM_END <= |r.bytes| && Holds(r, m, addr, bytes, 0)
    ensures Fetched(r, addr, |bytes|) == bytes
  {
    forall i | 0 <= i < |bytes| ensures Peek(r, (addr + i) % ADDRESSES) == bytes[i] {
      assert (addr + i) % ADDRESSES == addr + i;
    }
  }

  /** Bytes stored with M-W come back with M-R. */
  lemma MemoryRoundTrip(disk: Disk, addr: nat, bytes: seq<Octet>)
    requires 0 < |bytes| <= 255 && addr + |bytes| <= RAM_END <= |disk.memory.bytes|
    ensures var stored := MemoryWrite(disk, StoreParts(addr, bytes));
            && stored == Answer(disk.(memory := stored.disk.memory), NoError)
            && MemoryRead(stored.disk, FetchParts(addr, |bytes|)) == Reply(stored.disk, NoError, Some(Bytes(bytes)))
  {
    StoreCommand(disk, addr, bytes);
    var stored := MemoryWrite(disk, StoreParts(addr, bytes));
    assert |stored.disk.memory.bytes| == |disk.memory.bytes|;
    hide MemoryWrite, MemoryRead, StoreParts, FetchParts, Bytes, Holds;
    FetchCommand(stored.disk, disk.memory, addr, Bytes(bytes));
  }

  lemma {:induction false} JoinIsCommanding(parts: seq<string>)
    requires parts != [] && forall i :: 0 <= i < |parts| ==> Commanding(parts[i])
    ensures Commanding(Join(parts)) && |Join(parts)| >= |parts[0]| && Join(parts)[..|parts[0]|] == parts[0]
  {
    if |parts| > 1 {
      JoinIsCommanding(parts[1..]);
      CommandingJoins(parts[0], Join(parts[1..]));
    }
  }

  /** Parts that commands are made of: read back from the bytes of the joined text. */
  lemma PartsRead(parts: seq<string>)
    requires parts != [] && forall i :: 0 <= i < |parts| ==> Commanding(parts[i]) && CommaFree(parts[i])
    ensures Split(CommandText(Raw(Join(parts)))) == parts
    ensures Begins(CommandText(Raw(Join(parts))), parts[0])
  {
    JoinIsCommanding(parts);
    RawReads(Join(parts));
    hide Commanding, CommaFree, CommandText, Raw, Join, Split;
    JoinSplits(parts);
  }

  lemma StorePartsAreText(addr: nat, bytes: seq<Octet>)
    requires addr < ADDRESSES && |bytes| <= 255
    ensures forall i :: 0 <= i < 4 + |bytes| ==>
              Commanding(StoreParts(addr, bytes)[i]) && CommaFree(StoreParts(addr, bytes)[i])
    ensures forall i :: 0 <= i < 4 ==>
              Commanding(FetchParts(addr, |bytes|)[i]) && CommaFree(FetchParts(addr, |bytes|)[i])
  {
    var store, fetch := StoreParts(addr, bytes), FetchParts(addr, |bytes|);
    HexWordReads(addr);
    HexTextIsToken(HexOfWord(addr));
    HexIsToken(|bytes|);
    FixedParts();
    hide Hex, HexOfWord, HexByte, HexWord, Trim, Commanding, CommaFree;
    forall i | 4 <= i < |store| ensures Commanding(store[i]) && CommaFree(store[i]) {
      assert store[i] == HexParts(bytes)[i - 4];
      HexIsToken(bytes[i - 4]);
    }
    hide HexParts;
    assert store[0] == "M-W" && store[1] == HexOfWord(addr) && store[2] == "00" && store[3] == Hex(|bytes|);
    assert fetch == ["M-R", HexOfWord(addr), "00", Hex(|bytes|)];
  }

  lemma FixedParts()
    ensures Commanding("M-W") && Commanding("M-R") && Commanding("00")
    ensures CommaFree("M-W") && CommaFree("M-R") && CommaFree("00")
  {
  }

  /** Sent as commands, M-W and then M-R fetch what was stored. */
  lemma MemoryCommandsRoundTrip(disk: Disk, addr: nat, bytes: seq<Octet>)
    requires 0 < |bytes| <= 255 && addr + |bytes| <= RAM_END <= |disk.memory.bytes|
    ensures var stored := Execute(disk, Raw(Join(StoreParts(addr, bytes))));
            && stored.status == NoError
            && Execute(stored.disk, Raw(Join(FetchParts(addr, |bytes|))))
               == Reply(stored.disk, NoError, Some(Bytes(bytes)))
  {
    StorePartsAreText(addr, bytes);
    var store, fetch := StoreParts(addr, bytes), FetchParts(addr, |bytes|);
    assert store[0] == "M-W" && fetch[0] == "M-R" && |fetch| == 4;
    hide StoreParts, FetchParts, Raw, Join, CommandText, Split, MemoryRead, MemoryWrite, Bytes, Commanding, CommaFree,
         Execute;
    MemoryRoundTrip(disk, addr, bytes);
    MemoryCommandRuns(disk, store);
    MemoryCommandRuns(MemoryWrite(disk, store).disk, fetch);
  }

  lemma MemoryCommandRuns(disk: Disk, parts: seq<string>)
    requires parts != [] && forall i :: 0 <= i < |parts| ==> Commanding(parts[i]) && CommaFree(parts[i])
    ensures parts[0] == "M-W" ==> Execute(disk, Raw(Join(parts))) == MemoryWrite(disk, parts)
    ensures parts[0] == "M-R" ==> Execute(disk, Raw(Join(parts))) == MemoryRead(disk, parts)
  {
    PartsRead(parts);
    MemoryCommandsDiffer(CommandText(Raw(Join(parts))));
    hide Raw, Join, CommandText, Split, MemoryRead, MemoryWrite, Commanding, CommaFree, Begins;
  }

  lemma MemoryCommandsDiffer(text: string)
    ensures Begins(text, "M-W") ==> !Begins(text, "M-R")
  {
    if Begins(text, "M-W") {
      assert text[..3][2] == 'W';
    }
  }

  // ---- blocks ------------------------------------------------------------------------------------------

  lemma Bit14Clear(a: nat)
    requires a < ADDRESSES
    ensures ClearBit14(a) < RAM_END && ClearBit14(a) % 0x4000 == a % 0x4000
  {
  }

  lemma BlockAddressesDiffer(base: nat, i: nat, j: nat)
    requires base < RAM_END && i < BLOCK_SIZE && j < BLOCK_SIZE && i != j
    ensures ClearBit14(base + i) != ClearBit14(base + j)
  {
    Bit14Clear(base + i);
    Bit14Clear(base + j);
    hide ClearBit14;
    CloseAndCongruent(base + i, base + j);
  }

  lemma CloseAndCongruent(x: int, y: int)
    requires -BLOCK_SIZE < x - y < BLOCK_SIZE
    ensures x % 0x4000 == y % 0x4000 ==> x == y
  {
    var p, q := x / 0x4000, y / 0x4000;
    if x % 0x4000 == y % 0x4000 {
      assert x - y == 0x4000 * (p - q);
    }
  }

  lemma {:induction false} WrittenBlock(m: Memory, base: nat, block: Block, n: nat, i: nat)
    requires i < n <= BLOCK_SIZE && base < RAM_END && RAM_END <= |m.bytes|
    ensures Peek(WriteBlock(m, base, block, n), ClearBit14(base + i)) == block[i]
  {
    Bit14Clear(base + n - 1);
    Bit14Clear(base + i);
    if i < n - 1 {
      WrittenBlock(m, base, block, n - 1, i);
      BlockAddressesDiffer(base, i, n - 1);
    }
    hide ClearBit14;
  }

  lemma BaseBelowRamEnd(track: Octet, sector: Octet)
    ensures BlockBase(track, sector) < RAM_END
  {
    Bit14Clear(track * 256 + sector);
  }

  lemma WrittenBlockReads(m: Memory, base: nat, block: Block)
    requires base < RAM_END <= |m.bytes|
    ensures ReadBlock(WriteBlock(m, base, block, BLOCK_SIZE), base) == block
  {
    forall i | 0 <= i < BLOCK_SIZE
      ensures Peek(WriteBlock(m, base, block, BLOCK_SIZE), ClearBit14(base + i)) == block[i] {
      WrittenBlock(m, base, block, BLOCK_SIZE, i);
    }
    hide WriteBlock, Peek, ClearBit14;
  }

  lemma FlushReads(disk: Disk, track: Octet, sector: Octet)
    requires disk.buffer.Some? && RAM_END <= |disk.memory.bytes| && Taken(disk, track, sector)
    ensures var written := Flush(disk, track, sector);
            && written.status == NoError
            && BlockRead(written.disk, track, sector) == Answer(written.disk, NoError)
  {
    BaseBelowRamEnd(track, sector);
    WrittenBlockReads(disk.memory, BlockBase(track, sector), disk.buffer.value);
    hide WriteBlock, ReadBlock, BlockBase, BlockIndex;
  }

  /** A buffer written to a block is what reading that block brings back. */
  lemma BlockRoundTrip(disk: Disk, ch: Octet, track: Octet, sector: Octet)
    requires disk.buffer.Some? && RAM_END <= |disk.memory.bytes|
    requires BlockTables.Ok(disk.tables)
    ensures var written := BlockWrite(disk, ch, track, sector);
            && written.status == NoError
            && BlockRead(written.disk, track, sector) == Answer(written.disk, NoError)
  {
    AllocatedIsTaken(disk.tables, track, sector, ch, disk.specs[ch % CHANNELS]);
    hide Allocate, BlockTables.Ok, BlockIndex, Flush, BlockRead;
    if Taken(disk, track, sector) {
      FlushReads(disk, track, sector);
    } else {
      FlushReads(disk.(tables := AllocateFor(disk, ch, track, sector).tables), track, sector);
    }
  }

  lemma AllocatedIsTaken(s: Tables, track: nat, sector: nat, channel: nat, open: OpenSpec)
    requires BlockTables.Ok(s)
    ensures var r := Allocate(s, track, sector, channel, open);
            r.tables.taken[BlockIndex(track, sector)] && (r.ok <==> !s.taken[BlockIndex(track, sector)])
  {
    AllocateRefines(s, track, sector, channel, open);
    var b := BlockIndex(track, sector);
    var r := Allocate(s, track, sector, channel, open);
    assert b in Abs(r.tables);
    hide Allocate;
  }

  // ---- what every command keeps ----------------------------------------------------------------------------

  predicate DiskOk(disk: Disk) {
    && BlockTables.Ok(disk.tables) && AllTextOk(disk.tables.catalog)
    && (forall ch :: 0 <= ch < CHANNELS ==> SpecOk(disk.specs[ch]))
    && (disk.fromBuffer ==> disk.buffer.Some?)
  }

  lemma ResetDiskOk(memory: seq<Byte>)
    ensures DiskOk(ResetDisk(memory))
  {
    ResetOk();
    UnusedIsText();
    hide BlockTables.Ok;
    assert AllTextOk(Reset().catalog);
    assert SpecOk(NO_SPEC);
  }

  lemma TablesStayOk(disk: Disk, op: Op)
    requires DiskOk(disk) && (op.Take? ==> exists ch :: 0 <= ch < CHANNELS && op.open == disk.specs[ch])
    ensures DiskOk(disk.(tables := Apply(disk.tables, op).tables))
  {
    ApplyRefines(disk.tables, op);
    ApplyKeepsText(disk.tables, op);
    hide BlockTables.Ok, AllTextOk, SpecOk, Apply;
  }

  /** No command, well-formed or not, upsets the allocator, its names or the buffer. */
  lemma ExecuteKeepsDiskOk(disk: Disk, raw: seq<Byte>)
    requires DiskOk(disk)
    ensures DiskOk(Execute(disk, raw).disk)
    ensures |Execute(disk, raw).disk.memory.bytes| == |disk.memory.bytes|
  {
    hide DiskOk, BlockCommand, MemoryWrite, CommandText, Split, HexByte, HexWord, Trim, Begins, Fetched;
    var parts := Split(CommandText(raw));
    BlockCommandKeeps(disk, parts);
    StoreKeepsLength(disk, parts);
  }

  lemma {:induction false} StoreLength(m: Memory, addr: nat, parts: seq<string>, i: nat, len: nat)
    requires i <= len && 4 + len <= |parts|
    ensures |StoreBytes(m, addr, parts, i, len).memory.bytes| == |m.bytes|
    decreases len - i
  {
    if i < len && HexByte(Trim(parts[4 + i])).Some? {
      StoreLength(Poke(m, (addr + i) % ADDRESSES, ByteOf(HexByte(Trim(parts[4 + i])).value)), addr, parts, i + 1, len);
    }
  }

  lemma StoreKeepsLength(disk: Disk, parts: seq<string>)
    ensures |MemoryWrite(disk, parts).disk.memory.bytes| == |disk.memory.bytes|
    ensures DiskOk(disk) ==> DiskOk(MemoryWrite(disk, parts).disk)
  {
    hide BlockTables.Ok, AllTextOk, SpecOk, HexByte, HexWord, Trim;
    if |parts| >= 5 {
      var addr, len := HexWord(Trim(parts[1])), HexByte(Trim(parts[3]));
      if addr.Some? && len.Some? && |parts| - 4 >= len.value {
        StoreLength(disk.memory, addr.value, parts, 0, len.value);
      }
    }
    hide StoreBytes;
  }

  lemma BlockCommandKeeps(disk: Disk, parts: seq<string>)
    requires DiskOk(disk) && parts != []
    ensures var d := BlockCommand(disk, parts).disk; DiskOk(d) && |d.memory.bytes| == |disk.memory.bytes|
  {
    hide BlockTables.Ok, AllTextOk, SpecOk, HexByte, Trim, Allocate, Free;
    if |parts| >= 4 {
      var ch, track, sector := HexByte(Trim(parts[1])), HexByte(Trim(parts[2])), HexByte(Trim(parts[3]));
      if ch.Some? && track.Some? && sector.Some? {
        TablesStayOk(disk, Take(track.value, sector.value, ch.value, disk.specs[ch.value % CHANNELS]));
        TablesStayOk(disk, Give(track.value, sector.value));
      }
    }
  }
}
