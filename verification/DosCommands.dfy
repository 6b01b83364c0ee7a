/** The drive's command channel: memory, execute and block commands, as text behind channel 15. */
module DosCommands {
  import opened Options
  import opened BlockTables
  import opened Directory
  import opened DosNames
  import opened ByteValues
  import Glob

  const BLOCK_SIZE := 256
  const RAM_END := 0xC000
  const ADDRESSES := 0x1_0000
  const PORT_B := 0x1800
  const DIRECTION_B := 0x1802
  const BUFFER_START := 0x0400
  const BUFFER_END := 0x0800

  datatype Status = NoError | NotReady | NoChannel | FileTypeMismatch | SyntaxError | NoBlock | FileExists
                  | IllegalTrack | UnknownEntry

  function StatusLine(s: Status): string {
    match s
    case NoError => "00,OK,00,00"
    case NotReady => "74,DRIVE NOT READY,00,00"
    case NoChannel => "70,NO CHANNEL,00,00"
    case FileTypeMismatch => "64,FILE TYPE MISMATCH,00,00"
    case SyntaxError => "30,SYNTAX ERROR,00,00"
    case NoBlock => "65,NO BLOCK,00,00"
    case FileExists => "63,FILE EXISTS,00,00"
    case IllegalTrack => "66,ILLEGAL TRACK OR SECTOR,00,00"
    case UnknownEntry => "31,SYNTAX ERROR,00,00"
  }

  const NO_SPEC := OpenSpec(false, "", "PRG", "")

  type Shape = s: Tables | Shaped(s) witness Reset()

  type Specs = s: seq<OpenSpec> | |s| == CHANNELS witness seq(CHANNELS, _ => NO_SPEC)

  type Positions = s: seq<Octet> | |s| == CHANNELS witness seq(CHANNELS, _ => 0)

  type Block = s: seq<Byte> | |s| == BLOCK_SIZE witness seq(BLOCK_SIZE, _ => 0)

  /** Memory, and the port and direction registers of the first VIA, which are stored to along with it. */
  datatype Memory = Memory(bytes: seq<Byte>, portB: Byte, directionB: Byte)

  /** What the commands work on: allocator, names left by OPEN, the directory asked for last, the block
      buffer with a position for each channel, and memory. */
  datatype Disk = Disk(
    tables: Shape, specs: Specs, filters: Filters, prepared: bool, fromBuffer: bool,
    buffer: Option<Block>, positions: Positions, memory: Memory)

  function ResetDisk(memory: seq<Byte>): Disk {
    Disk(Reset(), seq(CHANNELS, _ => NO_SPEC), NO_FILTERS, false, false, None, seq(CHANNELS, _ => 0),
         Memory(memory, 0, 0))
  }

  // ---- memory ------------------------------------------------------------------------------------

  function Peek(m: Memory, a: nat): Byte {
    if a < |m.bytes| then m.bytes[a] else 0
  }

  /** A store reaches the VIA at its addresses and the memory behind it as well. */
  function Poke(m: Memory, a: nat, b: Byte): (r: Memory)
    ensures |r.bytes| == |m.bytes|
  {
    Memory(if a < RAM_END && a < |m.bytes| then m.bytes[a := b] else m.bytes,
           if a == PORT_B then b else m.portB,
           if a == DIRECTION_B then b else m.directionB)
  }

  /** The VIA pulls a line when its bit is an output at zero. */
  predicate HoldsClk(m: Memory) {
    m.directionB & 0x40 != 0 && m.portB & 0x40 == 0
  }

  predicate HoldsData(m: Memory) {
    m.directionB & 0x20 != 0 && m.portB & 0x20 == 0
  }

  function ClearBit14(a: nat): nat {
    if a / 0x4000 % 2 == 1 then a - 0x4000 else a
  }

  function BlockBase(track: Octet, sector: Octet): nat {
    ClearBit14(track * 256 + sector)
  }

  function ReadBlock(m: Memory, base: nat): Block {
    seq(BLOCK_SIZE, i requires 0 <= i < BLOCK_SIZE => Peek(m, ClearBit14(base + i)))
  }

  function WriteBlock(m: Memory, base: nat, block: Block, n: nat): (r: Memory)
    requires n <= BLOCK_SIZE
    ensures |r.bytes| == |m.bytes|
  {
    if n == 0 then m else Poke(WriteBlock(m, base, block, n - 1), ClearBit14(base + n - 1), block[n - 1])
  }

  // ---- reading the text -------------------------------------------------------------------------

  function CommandText(raw: seq<Byte>): string {
    if raw == [] || raw[0] == 0x0D || raw[0] == 0x00 then []
    else [Glob.UpperChar(Char(raw[0]))] + CommandText(raw[1..])
  }

  predicate Begins(s: string, prefix: string) {
    |s| >= |prefix| && s[..|prefix|] == prefix
  }

  function HexDigit(c: char): Option<nat> {
    if '0' <= c <= '9' then Some(c as int - '0' as int)
    else if 'A' <= c <= 'F' then Some(c as int - 'A' as int + 10)
    else if 'a' <= c <= 'f' then Some(c as int - 'a' as int + 10)
    else None
  }

  function HexByte(s: string): Option<Octet> {
    if |s| != 2 || HexDigit(s[0]).None? || HexDigit(s[1]).None? then None
    else Some(HexDigit(s[0]).value * 16 + HexDigit(s[1]).value)
  }

  function HexWord(s: string): Option<nat> {
    if |s| != 4 || HexByte(s[..2]).None? || HexByte(s[2..]).None? then None
    else Some(HexByte(s[..2]).value * 256 + HexByte(s[2..]).value)
  }

  // ---- the commands --------------------------------------------------------------------------------

  /** What a command leaves behind; a missing response leaves the old one standing. */
  datatype Reply = Reply(disk: Disk, status: Status, response: Option<seq<Byte>>)

  function Answer(disk: Disk, status: Status): Reply {
    Reply(disk, status, None)
  }

  function Fetched(m: Memory, addr: nat, len: nat): seq<Byte> {
    seq(len, i requires 0 <= i < len => Peek(m, (addr + i) % ADDRESSES))
  }

  function MemoryRead(disk: Disk, parts: seq<string>): Reply {
    if |parts| < 4 then Answer(disk, SyntaxError)
    else
      var addr, len := HexWord(Trim(parts[1])), HexByte(Trim(parts[3]));
      if addr.None? || len.None? || len.value == 0 then Answer(disk, SyntaxError)
      else
        Reply(disk, NoError, Some(Fetched(disk.memory, addr.value, len.value)))
  }

  datatype Stored = Stored(memory: Memory, ok: bool)

  /** Stores hexadecimal parts from part `i` on; those before a malformed one stay stored. */
  function StoreBytes(m: Memory, addr: nat, parts: seq<string>, i: nat, len: nat): Stored
    requires i <= len && 4 + len <= |parts|
    decreases len - i
  {
    if i == len then Stored(m, true)
    else
      var b := HexByte(Trim(parts[4 + i]));
      if b.None? then Stored(m, false)
      else StoreBytes(Poke(m, (addr + i) % ADDRESSES, ByteOf(b.value)), addr, parts, i + 1, len)
  }

  function MemoryWrite(disk: Disk, parts: seq<string>): Reply {
    if |parts| < 5 then Answer(disk, SyntaxError)
    else
      var addr, len := HexWord(Trim(parts[1])), HexByte(Trim(parts[3]));
      if addr.None? || len.None? || len.value == 0 || |parts| < 4 + len.value then Answer(disk, SyntaxError)
      else
        var s := StoreBytes(disk.memory, addr.value, parts, 0, len.value);
        Answer(disk.(memory := s.memory), if s.ok then NoError else SyntaxError)
  }

  function MemoryExecute(disk: Disk, parts: seq<string>): Reply {
    if |parts| < 2 || HexWord(Trim(parts[1])).None? then Answer(disk, SyntaxError)
    else
      var addr := HexWord(Trim(parts[1])).value;
      Answer(disk, if addr >= RAM_END || BUFFER_START <= addr < BUFFER_END then NoError else UnknownEntry)
  }

  predicate Taken(disk: Disk, track: Octet, sector: Octet) {
    disk.tables.taken[BlockIndex(track, sector)]
  }

  function AllocateFor(disk: Disk, ch: Octet, track: Octet, sector: Octet): Outcome {
    Allocate(disk.tables, track, sector, ch, disk.specs[ch % CHANNELS])
  }

  function BlockRead(disk: Disk, track: Octet, sector: Octet): Reply {
    if !Taken(disk, track, sector) then Answer(disk, NoBlock)
    else Answer(disk.(buffer := Some(ReadBlock(disk.memory, BlockBase(track, sector)))), NoError)
  }

  function Flush(disk: Disk, track: Octet, sector: Octet): Reply {
    if disk.buffer.None? then Answer(disk, IllegalTrack)
    else Answer(disk.(memory := WriteBlock(disk.memory, BlockBase(track, sector), disk.buffer.value, BLOCK_SIZE)),
                NoError)
  }

  function BlockWrite(disk: Disk, ch: Octet, track: Octet, sector: Octet): Reply {
    if Taken(disk, track, sector) then Flush(disk, track, sector)
    else
      var r := AllocateFor(disk, ch, track, sector);
      if r.ok then Flush(disk.(tables := r.tables), track, sector)
      else Answer(disk.(tables := r.tables), FileExists)
  }

  function BlockPointer(disk: Disk, ch: Octet, parts: seq<string>): Reply {
    if |parts| < 5 || HexByte(Trim(parts[4])).None? then Answer(disk, SyntaxError)
    else Answer(disk.(positions := disk.positions[ch % CHANNELS := HexByte(Trim(parts[4])).value]), NoError)
  }

  function BlockFree(disk: Disk, track: Octet, sector: Octet): Reply {
    var r := Free(disk.tables, track, sector);
    if r.ok then Answer(disk.(tables := r.tables, buffer := Some(seq(BLOCK_SIZE, _ => 0))), NoError)
    else Answer(disk.(tables := r.tables), NoBlock)
  }

  function BlockAllocate(disk: Disk, ch: Octet, track: Octet, sector: Octet): Reply {
    var r := AllocateFor(disk, ch, track, sector);
    Answer(disk.(tables := r.tables), if r.ok then NoError else FileExists)
  }

  function BlockCommand(disk: Disk, parts: seq<string>): Reply
    requires parts != []
  {
    if |parts| < 4 then Answer(disk, SyntaxError)
    else
      var op, ch, track, sector :=
        Trim(parts[0]), HexByte(Trim(parts[1])), HexByte(Trim(parts[2])), HexByte(Trim(parts[3]));
      if ch.None? || track.None? || sector.None? then Answer(disk, SyntaxError)
      else if op == "B-R" then BlockRead(disk, track.value, sector.value)
      else if op == "B-W" then BlockWrite(disk, ch.value, track.value, sector.value)
      else if op == "B-P" then BlockPointer(disk, ch.value, parts)
      else if op == "B-F" then BlockFree(disk, track.value, sector.value)
      else if op == "B-A" then BlockAllocate(disk, ch.value, track.value, sector.value)
      else Answer(disk, SyntaxError)
  }

  function Dispatch(disk: Disk, cmd: string): Reply {
    var parts := Split(cmd);
    if Begins(cmd, "M-R") then MemoryRead(disk, parts)
    else if Begins(cmd, "M-W") then MemoryWrite(disk, parts)
    else if Begins(cmd, "M-E") then MemoryExecute(disk, parts)
    else if Begins(cmd, "B-") then BlockCommand(disk, parts)
    else if cmd in {"U1", "U2", "I0", "UI", "UJ", "N0:", "NEW"} then Answer(disk, NoError)
    else Answer(disk, SyntaxError)
  }

  function Execute(disk: Disk, raw: seq<Byte>): Reply {
    Dispatch(disk, CommandText(raw))
  }

  // ---- what the directory is built from ----------------------------------------------------------------

  function Bytes(octets: seq<Octet>): (r: seq<Byte>)
    ensures |r| == |octets|
  {
    seq(|octets|, i requires 0 <= i < |octets| => ByteOf(octets[i]))
  }

  function Octets8(bytes: seq<Byte>): (r: seq<Octet>)
    ensures |r| == |bytes|
  {
    seq(|bytes|, i requires 0 <= i < |bytes| => bytes[i] as int)
  }

  function ListingLines(disk: Disk): seq<Line> {
    StubLines(disk.tables.catalog, disk.filters, BlocksFree(disk.tables))
  }

  function StubPayload(disk: Disk): seq<Byte> {
    Bytes(Payload(ListingLines(disk)))
  }

  /** The block buffer from channel 0's position on, dressed up as a program. */
  function BufferPayload(disk: Disk): seq<Byte> {
    match disk.buffer
    case None => StubPayload(disk)
    case Some(block) => [0x01, 0x08] + block[disk.positions[0]..] + [0x00, 0x00]
  }
}
