/** The command channel as the drive runs it: loops over the text, over memory and over the block buffer. */
module CommandRunner {
  import opened Options
  import opened BlockTables
  import opened Directory
  import opened DosNames
  import opened ByteValues
  import opened DosCommands
  import opened DriveDos
  import Glob

  method ReadCommandText(raw: seq<Byte>) returns (cmd: string)
    ensures cmd == CommandText(raw)
  {
    cmd := [];
    var i := 0;
    while i < |raw| && raw[i] != 0x0D && raw[i] != 0x00
      invariant 0 <= i <= |raw| && cmd + CommandText(raw[i..]) == CommandText(raw)
    {
      assert raw[i..][1..] == raw[i + 1..];
      var c := Glob.UpperChar(Char(raw[i]));
      hide Char;
      assert cmd + ([c] + CommandText(raw[i + 1..])) == cmd + [c] + CommandText(raw[i + 1..]);
      cmd := cmd + [c];
      i := i + 1;
    }
    assert CommandText(raw[i..]) == [];
    assert cmd + [] == cmd;
  }

  /** Stores the hexadecimal parts one by one and stops at the first malformed one. */
  method StoreParts(memory: Memory, addr: nat, parts: seq<string>, len: nat) returns (m: Memory, ok: bool)
    requires 4 + len <= |parts|
    ensures Stored(m, ok) == StoreBytes(memory, addr, parts, 0, len)
  {
    hide HexByte, Trim, Poke;
    m := memory;
    for i := 0 to len
      invariant StoreBytes(memory, addr, parts, 0, len) == StoreBytes(m, addr, parts, i, len)
    {
      var part := TrimAscii(parts[4 + i]);
      var b := HexByte(part);
      if b.None? {
        return m, false;
      }
      m := Poke(m, (addr + i) % ADDRESSES, ByteOf(b.value));
    }
    ok := true;
  }

  method LoadVirtualBlock(memory: Memory, track: Octet, sector: Octet) returns (block: Block)
    ensures block == ReadBlock(memory, BlockBase(track, sector))
  {
    var base := BlockBase(track, sector);
    hide Peek, ClearBit14, BlockBase;
    var read: seq<Byte> := [];
    for i := 0 to BLOCK_SIZE
      invariant |read| == i && forall j :: 0 <= j < i ==> read[j] == Peek(memory, ClearBit14(base + j))
    {
      read := read + [Peek(memory, ClearBit14(base + i))];
    }
    block := read;
  }

  method FlushVirtualBlock(memory: Memory, track: Octet, sector: Octet, block: Block) returns (m: Memory)
    ensures m == WriteBlock(memory, BlockBase(track, sector), block, BLOCK_SIZE)
  {
    var base := BlockBase(track, sector);
    hide Poke, ClearBit14, BlockBase;
    m := memory;
    for i := 0 to BLOCK_SIZE
      invariant m == WriteBlock(memory, base, block, i)
    {
      m := Poke(m, ClearBit14(base + i), block[i]);
    }
  }

  method RunMemoryRead(disk: Disk, parts: seq<string>) returns (r: Reply)
    ensures r == MemoryRead(disk, parts)
  {
    hide HexByte, HexWord, Trim, Peek;
    if |parts| >= 4 {
      var a := TrimAscii(parts[1]);
      var l := TrimAscii(parts[3]);
      var addr, len := HexWord(a), HexByte(l);
      if addr.Some? && len.Some? && len.value > 0 {
        var bytes: seq<Byte> := [];
        for i := 0 to len.value
          invariant bytes == Fetched(disk.memory, addr.value, i)
        {
          bytes := bytes + [Peek(disk.memory, (addr.value + i) % ADDRESSES)];
        }
        return Reply(disk, NoError, Some(bytes));
      }
    }
    return Answer(disk, SyntaxError);
  }

  method RunMemoryWrite(disk: Disk, parts: seq<string>) returns (r: Reply)
    ensures r == MemoryWrite(disk, parts)
  {
    hide HexByte, HexWord, Trim, StoreBytes;
    if |parts| >= 5 {
      var a := TrimAscii(parts[1]);
      var l := TrimAscii(parts[3]);
      var addr, len := HexWord(a), HexByte(l);
      if addr.Some? && len.Some? && len.value > 0 && |parts| - 4 >= len.value {
        var m, ok := StoreParts(disk.memory, addr.value, parts, len.value);
        return Answer(disk.(memory := m), if ok then NoError else SyntaxError);
      }
    }
    return Answer(disk, SyntaxError);
  }

  method RunMemoryExecute(disk: Disk, parts: seq<string>) returns (r: Reply)
    ensures r == MemoryExecute(disk, parts)
  {
    hide HexWord, Trim;
    if |parts| >= 2 {
      var a := TrimAscii(parts[1]);
      var addr := HexWord(a);
      if addr.Some? {
        if addr.value >= RAM_END {
          return Answer(disk, NoError);
        }
        if addr.value >= BUFFER_START && addr.value < BUFFER_END {
          return Answer(disk, NoError);
        }
        return Answer(disk, UnknownEntry);
      }
    }
    return Answer(disk, SyntaxError);
  }

  method RunBlockRead(disk: Disk, track: Octet, sector: Octet) returns (r: Reply)
    ensures r == BlockRead(disk, track, sector)
  {
    hide ReadBlock, BlockBase;
    if !Taken(disk, track, sector) {
      return Answer(disk, NoBlock);
    }
    var block := LoadVirtualBlock(disk.memory, track, sector);
    return Answer(disk.(buffer := Some(block)), NoError);
  }

  method RunBlockWrite(disk: Disk, ch: Octet, track: Octet, sector: Octet) returns (r: Reply)
    ensures r == BlockWrite(disk, ch, track, sector)
  {
    hide WriteBlock, BlockBase, Allocate;
    var d := disk;
    if !Taken(d, track, sector) {
      var claim := AllocateFor(d, ch, track, sector);
      d := d.(tables := claim.tables);
      if !claim.ok {
        return Answer(d, FileExists);
      }
    }
    if d.buffer.None? {
      return Answer(d, IllegalTrack);
    }
    var m := FlushVirtualBlock(d.memory, track, sector, d.buffer.value);
    return Answer(d.(memory := m), NoError);
  }

  method RunBlockCommand(disk: Disk, parts: seq<string>) returns (r: Reply)
    requires parts != []
    ensures r == BlockCommand(disk, parts)
  {
    hide HexByte, Trim, BlockRead, BlockWrite, BlockPointer, BlockFree, BlockAllocate;
    var op := TrimAscii(parts[0]);
    if |parts| >= 4 {
      var p1 := TrimAscii(parts[1]);
      var p2 := TrimAscii(parts[2]);
      var p3 := TrimAscii(parts[3]);
      var ch, track, sector := HexByte(p1), HexByte(p2), HexByte(p3);
      if ch.Some? && track.Some? && sector.Some? {
        if op == "B-R" {
          r := RunBlockRead(disk, track.value, sector.value);
          return;
        } else if op == "B-W" {
          r := RunBlockWrite(disk, ch.value, track.value, sector.value);
          return;
        } else if op == "B-P" {
          return BlockPointer(disk, ch.value, parts);
        } else if op == "B-F" {
          return BlockFree(disk, track.value, sector.value);
        } else if op == "B-A" {
          return BlockAllocate(disk, ch.value, track.value, sector.value);
        }
      }
    }
    return Answer(disk, SyntaxError);
  }

  /** One command, from its bytes to its reply. */
  method ProcessCommand(disk: Disk, raw: seq<Byte>) returns (r: Reply)
    ensures r == Execute(disk, raw)
  {
    hide CommandText, Split, MemoryRead, MemoryWrite, MemoryExecute, BlockCommand;
    var cmd := ReadCommandText(raw);
    var parts := SplitComma(cmd);
    if Begins(cmd, "M-R") {
      r := RunMemoryRead(disk, parts);
    } else if Begins(cmd, "M-W") {
      r := RunMemoryWrite(disk, parts);
    } else if Begins(cmd, "M-E") {
      r := RunMemoryExecute(disk, parts);
    } else if Begins(cmd, "B-") {
      r := RunBlockCommand(disk, parts);
    } else if cmd in {"U1", "U2", "I0", "UI", "UJ", "N0:", "NEW"} {
      r := Answer(disk, NoError);
    } else {
      r := Answer(disk, SyntaxError);
    }
  }

  // ---- names -------------------------------------------------------------------------------------

  method CommitOpenName(disk: Disk, ch: Byte, name: seq<Byte>) returns (d: Disk)
    ensures d == WithName(disk, ch, name)
  {
    hide SpecOf;
    d := disk;
    if ch < 16 {
      var spec := ParseOpenSpec(name);
      d := d.(specs := d.specs[ch as nat := spec]);
    }
  }

  method PrepareDirectory(disk: Disk, name: seq<Byte>) returns (d: Disk)
    ensures d == WithDirectory(disk, name)
  {
    hide FiltersOf;
    var filters := ExtractDirectoryFilters(name);
    d := disk.(filters := filters);
    d := d.(prepared := true, fromBuffer := false);
    if d.buffer.Some? {
      d := d.(fromBuffer := true);
    }
  }
}
