/** The drive end to end: commands and a directory request go out over the wire, bytes come back, and
    following their links shows the drive's own catalog. */
module LoadSession {
  import opened Options
  import opened IecLines
  import Glob
  import opened BlockTables
  import opened Directory
  import opened DosNames
  import opened ByteValues
  import opened DosCommands
  import opened CatalogText
  import opened CommandLaws
  import opened DriveDos
  import opened DriveSerial
  import opened DriveRuns
  import opened IecHost
  import opened IecTalk
  import opened HeldBus
  import opened HeldClock

  const UNTALK := Message(0x5F, true)
  const UNLISTEN := Message(0x3F, true)
  const OPEN_ZERO := Message(0xF0, true)
  const OPEN_FIFTEEN := Message(0xFF, true)
  const TALK_ZERO := Message(0x60, true)

  function DataMessages(bytes: seq<Byte>): seq<Message> {
    seq(|bytes|, i requires 0 <= i < |bytes| => Message(bytes[i], false))
  }

  /** UNTALK, LISTEN, open channel 0, the file name, UNLISTEN, TALK, channel 0. */
  function LoadRequest(device: Byte, name: seq<Byte>): seq<Message> {
    [UNTALK, Message(0x20 | device, true), OPEN_ZERO] + (DataMessages(name) + RequestTail(device))
  }

  function RequestTail(device: Byte): seq<Message> {
    [UNLISTEN, Message(0x40 | device, true), TALK_ZERO]
  }

  /** UNTALK, LISTEN, open channel 15, the command, UNLISTEN. */
  function CommandRequest(device: Byte, raw: seq<Byte>): seq<Message> {
    [UNTALK, Message(0x20 | device, true), OPEN_FIFTEEN] + (DataMessages(raw) + [UNLISTEN])
  }

  /** The device takes part: LISTEN and TALK carry only four address bits. */
  predicate Addressed(dos: Dos, device: Byte) {
    device < 16 && dos.address & 0x1F == device
  }

  /** A device above 15 is never reached by its own LISTEN. */
  lemma ListenReachesDeviceIff(dos: Dos, device: Byte)
    requires device < 31 && dos.address & 0x1F == device
    ensures CommandByte(dos.(listening := false), 0x20 | device).listening <==> device < 16
  {
    hide Unlisten, CloseChannel, OpenForListen, OpenForTalk;
  }

  // ---- opening a channel and sending it bytes ---------------------------------------------------------

  /** Listening on channel `ch` to a host that sends a name or a command. */
  predicate Attends(dos: Dos, ch: Byte) {
    && dos.listening && !dos.talking && !dos.needsFreshCommand && dos.listenChannel == ch && dos.expectingName
  }

  /** Whatever the drive was saying, UNTALK ends it. */
  lemma UntalkQuiets(dos: Dos)
    ensures Consume(dos, UNTALK) == Untalk(dos.(needsFreshCommand := false, heard := dos.heard + [UNTALK]))
  {
    hide Unlisten, CloseChannel, OpenForListen, OpenForTalk, Listen, Talk;
  }

  lemma ListenOpens(dos: Dos, device: Byte)
    requires Addressed(dos, device) && !dos.talking
    ensures var d1 := Consume(dos, Message(0x20 | device, true));
            && Attends(d1, 0) && d1.address == dos.address && d1.disk == dos.disk
            && d1.commandBuffer == dos.commandBuffer && d1.name == []
  {
    assert (0x20 | device) & 0xF0 == 0x20 && (0x20 | device) & 0x1F == device;
    assert 0x20 | device != 0x3F && 0x20 | device != 0x5F;
    hide Unlisten, CloseChannel, OpenForListen, OpenForTalk, Talk;
  }

  lemma ChannelOpens(dos: Dos, m: Message)
    requires Attends(dos, 0) && m in {OPEN_ZERO, OPEN_FIFTEEN}
    ensures var ch := m.byte & 0x0F;
            Consume(dos, m) == OpenForListen(dos.(heard := dos.heard + [m]), ch)
            && Attends(Consume(dos, m), ch)
  {
    assert m.byte & 0xF0 == 0xF0;
    hide Unlisten, CloseChannel, OpenForTalk, Talk, Listen, WithoutName;
  }

  /** Bytes sent to an open channel pile up where the channel keeps them. */
  function Piled(dos: Dos, bytes: seq<Byte>): Dos {
    var d := dos.(heard := dos.heard + DataMessages(bytes));
    if dos.listenChannel == 15 then d.(commandBuffer := dos.commandBuffer + bytes) else d.(name := dos.name + bytes)
  }

  lemma BytePiles(dos: Dos, ch: Byte, b: Byte)
    requires Attends(dos, ch)
    ensures Consume(dos, Message(b, false)) == Piled(dos, [b])
  {
    assert DataMessages([b]) == [Message(b, false)];
  }

  lemma PilesAdd(dos: Dos, b: Byte, bytes: seq<Byte>)
    ensures Piled(Piled(dos, [b]), bytes) == Piled(dos, [b] + bytes)
  {
    assert DataMessages([b]) + DataMessages(bytes) == DataMessages([b] + bytes);
    assert dos.heard + DataMessages([b]) + DataMessages(bytes) == dos.heard + DataMessages([b] + bytes);
    assert dos.name + [b] + bytes == dos.name + ([b] + bytes);
    assert dos.commandBuffer + [b] + bytes == dos.commandBuffer + ([b] + bytes);
  }

  lemma PiledNothing(dos: Dos)
    ensures Piled(dos, []) == dos
  {
    assert DataMessages([]) == [];
    assert dos.heard + [] == dos.heard && dos.name + [] == dos.name && dos.commandBuffer + [] == dos.commandBuffer;
  }

  /** What arrives of the bytes sent: zeros if the drive itself holds the line. */
  function Arrived(dos: Dos, bytes: seq<Byte>): (r: seq<Byte>)
    ensures |r| == |bytes|
  {
    if HoldsData(dos.disk.memory) then Zeros(|bytes|) else bytes
  }

  lemma ArrivedFirst(dos: Dos, bytes: seq<Byte>)
    requires bytes != []
    ensures Arrived(dos, bytes) == [Arriving(dos, true, bytes[0])] + Arrived(dos, bytes[1..])
  {
  }

  lemma {:induction false} BytesPile(dos: Dos, ch: Byte, bytes: seq<Byte>, rest: seq<Message>)
    requires Attends(dos, ch) && !HoldsClk(dos.disk.memory)
    ensures var d := Piled(dos, Arrived(dos, bytes));
            && Attends(d, ch)
            && HeardAll(Consume, dos, DataMessages(bytes) + rest) == HeardAll(Consume, d, rest)
            && (Sendable(Consume, d, rest) ==> Sendable(Consume, dos, DataMessages(bytes) + rest))
    decreases |bytes|
  {
    hide Consume, HoldsClk, HoldsData;
    var ms := DataMessages(bytes) + rest;
    if bytes == [] {
      assert ms == rest;
      assert Arrived(dos, bytes) == [];
      PiledNothing(dos);
    } else {
      assert ms[0] == Message(bytes[0], false) && ms[1..] == DataMessages(bytes[1..]) + rest;
      var b, d := Arriving(dos, true, bytes[0]), Piled(dos, [Arriving(dos, true, bytes[0])]);
      BytePiles(dos, ch, b);
      assert Heard(Consume, dos, ms[0]) == d;
      ArrivedFirst(dos, bytes);
      BytesPile(d, ch, bytes[1..], rest);
      hide Arriving;
      assert Arrived(d, bytes[1..]) == Arrived(dos, bytes[1..]);
      hide Arrived;
      PilesAdd(dos, b, Arrived(dos, bytes[1..]));
    }
  }

  /** The DOS once a channel is open ... */
  function Opened(dos: Dos, device: Byte, open: Message): Dos {
    Consume(Consume(Consume(dos, UNTALK), Message(0x20 | device, true)), open)
  }

  /** ... and once the bytes are in. */
  function Filled(dos: Dos, device: Byte, open: Message, bytes: seq<Byte>): Dos {
    Piled(Opened(dos, device, open), bytes)
  }

  lemma OpenedDisk(dos: Dos, device: Byte, open: Message)
    requires Addressed(dos, device) && open in {OPEN_ZERO, OPEN_FIFTEEN}
    ensures var ch, d := open.byte & 0x0F, Opened(dos, device, open);
            && Attends(d, ch) && d.name == [] && d.commandBuffer == dos.commandBuffer && d.address == dos.address
            && d.disk == WithoutName(dos.disk, ch) && d.disk.memory == dos.disk.memory
            && d.status == dos.status && d.response == dos.response
  {
    UntalkQuiets(dos);
    var d0 := Consume(dos, UNTALK);
    ListenOpens(d0, device);
    var d1 := Consume(d0, Message(0x20 | device, true));
    ChannelOpens(d1, open);
    WithoutNameStoresNothing(dos.disk, open.byte & 0x0F);
    hide Consume, WithoutName;
  }

  lemma ChannelFills(dos: Dos, device: Byte, open: Message, bytes: seq<Byte>, rest: seq<Message>)
    requires Addressed(dos, device) && open in {OPEN_ZERO, OPEN_FIFTEEN} && !HoldsClk(dos.disk.memory)
    ensures var d := Filled(dos, device, open, Arrived(dos, bytes));
            var ms := [UNTALK, Message(0x20 | device, true), open] + (DataMessages(bytes) + rest);
            && Attends(d, open.byte & 0x0F)
            && HeardAll(Consume, dos, ms) == HeardAll(Consume, d, rest)
            && (Sendable(Consume, d, rest) ==> Sendable(Consume, dos, ms))
  {
    hide Consume, Piled, HoldsClk, HoldsData;
    var tail := DataMessages(bytes) + rest;
    OpenedDisk(dos, device, open);
    var d3 := Opened(dos, device, open);
    BytesPile(d3, open.byte & 0x0F, bytes, rest);
    assert Arrived(d3, bytes) == Arrived(dos, bytes);
    HeardThree(dos, UNTALK, Message(0x20 | device, true), open, tail);
  }

  lemma HeardThree(dos: Dos, a: Message, b: Message, c: Message, tail: seq<Message>)
    requires a.command && b.command && c.command
    ensures var ms, d := [a, b, c] + tail, Consume(Consume(Consume(dos, a), b), c);
            && HeardAll(Consume, dos, ms) == HeardAll(Consume, d, tail)
            && (Sendable(Consume, d, tail) ==> Sendable(Consume, dos, ms))
  {
    hide Consume, HoldsClk;
    HeardOne(dos, a, [b, c] + tail);
    HeardOne(Consume(dos, a), b, [c] + tail);
    HeardOne(Consume(Consume(dos, a), b), c, tail);
    assert [a, b, c] + tail == [a] + ([b, c] + tail) && [b, c] + tail == [b] + ([c] + tail);
    hide HeardAll, Sendable;
  }

  lemma HeardOne(dos: Dos, a: Message, rest: seq<Message>)
    requires a.command
    ensures HeardAll(Consume, dos, [a] + rest) == HeardAll(Consume, Consume(dos, a), rest)
    ensures Sendable(Consume, Consume(dos, a), rest) ==> Sendable(Consume, dos, [a] + rest)
  {
    hide Consume, HoldsClk;
    assert ([a] + rest)[1..] == rest;
  }

  lemma FilledDisk(dos: Dos, device: Byte, open: Message, bytes: seq<Byte>)
    requires Addressed(dos, device) && open in {OPEN_ZERO, OPEN_FIFTEEN}
    ensures var ch, d := open.byte & 0x0F, Filled(dos, device, open, bytes);
            && d.disk == WithoutName(dos.disk, ch) && d.disk.memory == dos.disk.memory && d.address == dos.address
            && d.status == dos.status && d.response == dos.response
            && (if ch == 15 then d.commandBuffer == dos.commandBuffer + bytes && d.name == []
                else d.name == bytes && d.commandBuffer == dos.commandBuffer)
  {
    OpenedDisk(dos, device, open);
    hide Opened, WithoutName;
    assert [] + bytes == bytes;
  }

  // ---- a command ---------------------------------------------------------------------------------------

  lemma UnlistenEnds(dos: Dos, ch: Byte)
    requires Attends(dos, ch)
    ensures Consume(dos, UNLISTEN) == Unlisten(dos.(heard := dos.heard + [UNLISTEN]))
  {
    hide Unlisten, CloseChannel, OpenForListen, OpenForTalk, Talk, Listen;
  }

  /** Without a name the channel counts as unnamed. */
  function Unnamed(disk: Disk, ch: Byte): Disk {
    WithName(WithoutName(disk, ch), ch, [])
  }

  /** A command sent over the wire is carried out on the disk, once; if the drive holds DATA, zeros are. */
  lemma CommandHeard(dos: Dos, device: Byte, raw: seq<Byte>)
    requires Addressed(dos, device) && !HoldsClk(dos.disk.memory) && raw != []
    ensures var ms := CommandRequest(device, raw);
            var d, r := HeardAll(Consume, dos, ms),
                Execute(Unnamed(dos.disk, 15), dos.commandBuffer + Arrived(dos, raw));
            && Sendable(Consume, dos, ms)
            && d.disk == r.disk && d.status == r.status && d.commandBuffer == []
            && d.response == (if r.response.Some? then r.response.value else dos.response)
            && !d.talking && d.address == dos.address
  {
    var bytes := Arrived(dos, raw);
    var d := Filled(dos, device, OPEN_FIFTEEN, bytes);
    assert OPEN_FIFTEEN.byte & 0x0F == 15;
    hide Filled, Consume, Execute, WithName, WithoutName, DataMessages, HoldsClk, HoldsData, Arrived, HeardAll,
         Sendable;
    CommandTailHeard(d);
    ChannelFills(dos, device, OPEN_FIFTEEN, raw, [UNLISTEN]);
    FilledDisk(dos, device, OPEN_FIFTEEN, bytes);
    UnlistenEnds(d, 15);
    UnlistenRuns(d.(heard := d.heard + [UNLISTEN]));
  }

  lemma CommandTailHeard(d: Dos)
    ensures HeardAll(Consume, d, [UNLISTEN]) == Consume(d, UNLISTEN) && Sendable(Consume, d, [UNLISTEN])
  {
    hide Consume;
    HeardOne(d, UNLISTEN, []);
    assert [UNLISTEN] + [] == [UNLISTEN];
  }

  lemma UnlistenRuns(d: Dos)
    requires Attends(d, 15) && d.commandBuffer != [] && d.name == []
    ensures var r, u := Execute(WithName(d.disk, 15, []), d.commandBuffer), Unlisten(d);
            && u.disk == r.disk && u.status == r.status && u.commandBuffer == []
            && u.response == (if r.response.Some? then r.response.value else d.response)
            && !u.talking && u.address == d.address
  {
    hide Execute, WithName;
  }

  // ---- the directory request -----------------------------------------------------------------------------

  /** What the drive sends for a directory name: its own listing under the name's filters, unless a block
      was read or freed before; then the block buffer. */
  function DirectoryBytes(disk: Disk, name: seq<Byte>): seq<Byte> {
    match disk.buffer
    case None => Bytes(Payload(DirectoryLines(disk, name)))
    case Some(block) => [0x01, 0x08] + block[disk.positions[0]..] + [0x00, 0x00]
  }

  function DirectoryLines(disk: Disk, name: seq<Byte>): seq<Line> {
    StubLines(disk.tables.catalog, FiltersOf(name), BlocksFree(disk.tables))
  }

  function Asked(disk: Disk, name: seq<Byte>): Disk {
    WithDirectory(WithName(WithoutName(disk, 0), 0, name), name)
  }

  lemma AskedIsServed(disk: Disk, name: seq<Byte>)
    ensures BufferPayload(Asked(disk, name)) == DirectoryBytes(disk, name) && |DirectoryBytes(disk, name)| >= 4
  {
    PayloadIsNotEmpty(DirectoryLines(disk, name));
    hide StubLines, FiltersOf, SpecOf, Payload;
  }

  lemma PayloadIsNotEmpty(lines: seq<Line>)
    ensures |Payload(lines)| >= 4
  {
    hide Chain;
  }

  lemma UnlistenBuilds(d: Dos, disk: Disk, name: seq<Byte>)
    requires Attends(d, 0) && d.name == name && name != [] && name[0] == DOLLAR && d.disk == WithoutName(disk, 0)
    ensures var u := Unlisten(d);
            && u.queue == DirectoryBytes(disk, name) && !u.talking && !u.needsFreshCommand && u.address == d.address
            && u.disk == Asked(disk, name) && u.commandBuffer == d.commandBuffer
            && u.status == d.status && u.response == d.response
  {
    AskedIsServed(disk, name);
    hide DirectoryBytes, WithDirectory, WithName, WithoutName, BufferPayload;
  }

  lemma TalkOpens(dos: Dos, device: Byte)
    requires Addressed(dos, device) && dos.queue != []
    ensures var d1 := Consume(dos, Message(0x40 | device, true));
            var d2 := Consume(d1, TALK_ZERO);
            && d2.talking && d2.talkChannel == 0 && d2.sa0Confirmed && d2.queue == dos.queue
            && d2.disk == dos.disk && d2.address == dos.address && d2.commandBuffer == dos.commandBuffer
            && d2.status == dos.status && d2.response == dos.response
  {
    assert (0x40 | device) & 0xF0 == 0x40 && (0x40 | device) & 0x1F == device;
    assert 0x40 | device != 0x3F && 0x40 | device != 0x5F;
    hide Unlisten, CloseChannel, OpenForListen, Listen;
  }

  /** The DOS has the directory for that name to say, and nothing else about it has changed. */
  predicate Says(d: Dos, dos: Dos, name: seq<Byte>) {
    && d.queue == DirectoryBytes(dos.disk, name) && d.disk == Asked(dos.disk, name)
    && d.address == dos.address && d.commandBuffer == dos.commandBuffer
    && d.status == dos.status && d.response == dos.response
  }

  /** After the whole request the drive talks on channel 0 with the directory for that name queued. */
  lemma RequestHeard(dos: Dos, device: Byte, name: seq<Byte>)
    requires Addressed(dos, device) && Releases(dos) && name != [] && name[0] == DOLLAR
    ensures var ms := LoadRequest(device, name);
            var d := HeardAll(Consume, dos, ms);
            && Sendable(Consume, dos, ms)
            && d.talking && d.talkChannel == 0 && d.sa0Confirmed && Says(d, dos, name)
  {
    var d := Filled(dos, device, OPEN_ZERO, name);
    assert OPEN_ZERO.byte & 0x0F == 0;
    assert Arrived(dos, name) == name;
    NameArrives(dos, device, name);
    hide *;
    ChannelFills(dos, device, OPEN_ZERO, name, RequestTail(device));
    TailOpens(d, device, dos, name);
    RequestIsFilled(device, name);
  }

  lemma RequestIsFilled(device: Byte, name: seq<Byte>)
    ensures LoadRequest(device, name)
         == [UNTALK, Message(0x20 | device, true), OPEN_ZERO] + (DataMessages(name) + RequestTail(device))
  {
    hide DataMessages;
  }

  /** The name is in; its UNLISTEN builds the directory. */
  lemma NameArrives(dos: Dos, device: Byte, name: seq<Byte>)
    requires Addressed(dos, device) && name != [] && name[0] == DOLLAR
    ensures var u := Consume(Filled(dos, device, OPEN_ZERO, name), UNLISTEN);
            Says(u, dos, name) && u.queue != [] && !u.talking && Addressed(u, device)
  {
    var d := Filled(dos, device, OPEN_ZERO, name);
    assert OPEN_ZERO.byte & 0x0F == 0;
    hide Filled, Consume, WithoutName, DataMessages, DirectoryBytes, Unlisten, Asked;
    NameAttended(dos, device, name);
    FilledDisk(dos, device, OPEN_ZERO, name);
    UnlistenEnds(d, 0);
    AskedIsServed(dos.disk, name);
    UnlistenBuilds(d.(heard := d.heard + [UNLISTEN]), dos.disk, name);
  }

  lemma NameAttended(dos: Dos, device: Byte, name: seq<Byte>)
    requires Addressed(dos, device)
    ensures Attends(Filled(dos, device, OPEN_ZERO, name), 0)
  {
    OpenedDisk(dos, device, OPEN_ZERO);
    assert OPEN_ZERO.byte & 0x0F == 0;
    hide Opened;
  }

  lemma TailOpens(d: Dos, device: Byte, dos: Dos, name: seq<Byte>)
    requires var u := Consume(d, UNLISTEN); Says(u, dos, name) && u.queue != [] && !u.talking && Addressed(u, device)
    ensures var e := HeardAll(Consume, d, RequestTail(device));
            && e.talking && e.talkChannel == 0 && e.sa0Confirmed && Says(e, dos, name)
            && Sendable(Consume, d, RequestTail(device))
  {
    TalkOpens(Consume(d, UNLISTEN), device);
    TailHeard(d, device);
    hide Consume, HeardAll, Sendable, DirectoryBytes, Asked;
  }

  lemma TailHeard(dos: Dos, device: Byte)
    ensures var tail := RequestTail(device);
            var d2 := Consume(Consume(dos, tail[0]), tail[1]);
            HeardAll(Consume, dos, tail) == Consume(d2, tail[2]) && Sendable(Consume, dos, tail)
  {
    hide Consume, HoldsClk;
    var tail := RequestTail(device);
    HeardThree(dos, tail[0], tail[1], tail[2], []);
    assert tail + [] == tail;
  }

  /** A drive that holds DATA hears zeros for a name; its memory and VIA stay as they are. */
  lemma RequestHeardHeld(dos: Dos, device: Byte, name: seq<Byte>)
    requires Addressed(dos, device) && !HoldsClk(dos.disk.memory)
    ensures Sendable(Consume, dos, LoadRequest(device, name))
    ensures HeardAll(Consume, dos, LoadRequest(device, name)).disk.memory == dos.disk.memory
  {
    var d := Filled(dos, device, OPEN_ZERO, Arrived(dos, name));
    assert OPEN_ZERO.byte & 0x0F == 0;
    ChannelFills(dos, device, OPEN_ZERO, name, RequestTail(device));
    FilledDisk(dos, device, OPEN_ZERO, Arrived(dos, name));
    TailHeard(d, device);
    ConsumeStores(d, UNLISTEN);
    var d1 := Consume(d, UNLISTEN);
    ConsumeStores(d1, Message(0x40 | device, true));
    ConsumeStores(Consume(d1, Message(0x40 | device, true)), TALK_ZERO);
    assert 0x40 | device != 0x3F;
    RequestIsFilled(device, name);
    hide Filled, Arrived, Consume, HeardAll, Sendable, LoadRequest, HoldsClk, Execute;
  }

  // ---- the whole load --------------------------------------------------------------------------------------

  lemma BytesAreOctets(octets: seq<Octet>)
    ensures Octets8(Bytes(octets)) == octets
  {
    forall i | 0 <= i < |octets| ensures ByteOf(octets[i]) as int == octets[i] {
      ByteHasValue(octets[i]);
    }
    hide ByteOf;
  }

  /** What is served lists back as the drive's own lines, in every good state without a block buffer. */
  lemma ServedListsBack(disk: Disk, name: seq<Byte>)
    requires DiskOk(disk) && disk.buffer.None?
    ensures List(Octets8(DirectoryBytes(disk, name))[2..], LOAD_ADDRESS) == Some(DirectoryLines(disk, name))
  {
    GoodTablesArePresentable(disk.tables);
    ShapeOf(disk.tables);
    hide Ok, AllTextOk, StubLines, List, Payload, FiltersOf;
    StubListsBack(disk.tables.catalog, FiltersOf(name), BlocksFree(disk.tables));
    BytesAreOctets(Payload(DirectoryLines(disk, name)));
  }

  /** The host sends the request and reads as many bytes as there are gaps. */
  function Loading(w: Wire, device: Byte, name: seq<Byte>, gaps: seq<nat>): Stream {
    ReadAll(Consume, SendAll(Consume, w, LoadRequest(device, name)), gaps)
  }

  /** The drive lies ready for the host: between bytes, at this address, DATA an input of the host. */
  predicate Ready(w: Wire, device: Byte) {
    Aligned(w.drive) && Addressed(w.drive.dos, device) && w.port.ddra & 0x80 == 0
  }

  /** A load from a drive that leaves both lines alone: the host receives what is served, the end is
      signalled, and the drive lies ready for the next request. */
  lemma LoadServes(w: Wire, device: Byte, name: seq<Byte>, gaps: seq<nat>)
    requires Ready(w, device) && Releases(w.drive.dos) && name != [] && name[0] == DOLLAR
    requires |gaps| == |DirectoryBytes(w.drive.dos.disk, name)|
    ensures var dos, s := w.drive.dos, Loading(w, device, name, gaps);
            && s.bytes == DirectoryBytes(dos.disk, name) && s.wire.drive.eoi.pending && Ready(s.wire, device)
            && Says(s.wire.drive.dos.(queue := DirectoryBytes(dos.disk, name)), dos, name)
  {
    hide Consume, SendAll, ReadAll, HeardAll, Sendable, List, Delivered, DirectoryBytes, HoldsClk, HoldsData;
    var ms := LoadRequest(device, name);
    RequestHeard(w.drive.dos, device, name);
    ListenRoundTrip(Consume, w, ms);
    SendAllKeepsDirection(Consume, w, ms);
    var asked := SendAll(Consume, w, ms);
    assert ms[|ms| - 1].command;
    AskedIsServed(w.drive.dos.disk, name);
    AskedReleases(w.drive.dos.disk, name);
    assert TalkReady(asked.drive);
    TalkRoundTrip(Consume, asked, gaps);
    assert asked.drive.dos.queue[..|gaps|] == asked.drive.dos.queue;
    AllDelivered(asked.drive.dos, ReadAll(Consume, asked, gaps).wire.drive);
  }

  lemma AskedReleases(disk: Disk, name: seq<Byte>)
    ensures Asked(disk, name).memory == disk.memory
  {
    hide SpecOf, FiltersOf;
  }

  lemma AllDelivered(before: Dos, d: Drive)
    requires before.queue != [] && Delivered(before, |before.queue|, d)
    ensures Aligned(d) && d.eoi.pending && d.dos == before.(queue := [])
  {
    assert before.queue[|before.queue|..] == [];
  }

  /** Loading "$...", in every state a drive can reach from power-on and at any pace of reading: exactly if
      the VIA leaves both lines alone, the host receives the drive's catalog under the filters in that very
      name, with the drive's free count; then following its links yields those lines, and the last byte
      raises the end signal; once a block has been read or freed, the block buffer comes instead. If the
      VIA holds DATA the host receives nothing but zeros, and if it holds CLK alone nothing but set bits. */
  lemma LoadDirectory(w: Wire, device: Byte, name: seq<Byte>, gaps: seq<nat>)
    requires Reachable(w.drive) && Ready(w, device)
    requires name != [] && name[0] == DOLLAR && |gaps| == |DirectoryBytes(w.drive.dos.disk, name)|
    ensures var dos, s := w.drive.dos, Loading(w, device, name, gaps);
            && (s.bytes == DirectoryBytes(dos.disk, name) <==> Releases(dos))
            && (s.bytes == Zeros(|gaps|) <==> HoldsData(dos.disk.memory))
            && (s.bytes == Ones(|gaps|) <==> HoldsClk(dos.disk.memory) && !HoldsData(dos.disk.memory))
            && (Releases(dos) ==> s.wire.drive.eoi.pending)
            && (Releases(dos) && dos.disk.buffer.None?
                ==> List(Octets8(s.bytes)[2..], LOAD_ADDRESS) == Some(DirectoryLines(dos.disk, name)))
  {
    hide Consume, Loading, List, DirectoryBytes, HoldsClk, HoldsData, DriveRuns.Run, DiskOk, Ready, Reachable,
         DirectoryLines;
    var disk := w.drive.dos.disk;
    ReachableIsOk(w.drive);
    ServedBeginsWithOne(disk, name);
    assert Zeros(|gaps|)[0] == 0 && Ones(|gaps|)[0] == 0xFF;
    hide Zeros, Ones;
    if HoldsClk(disk.memory) {
      LoadClockHeld(w, device, name, gaps);
    } else if HoldsData(disk.memory) {
      LoadHeld(w, device, name, gaps);
    } else {
      LoadServes(w, device, name, gaps);
      if disk.buffer.None? { ServedListsBack(disk, name); }
    }
  }

  lemma ServedBeginsWithOne(disk: Disk, name: seq<Byte>)
    ensures DirectoryBytes(disk, name) != [] && DirectoryBytes(disk, name)[0] == 1
  {
    match disk.buffer
    case None =>
      PayloadBeginsWithOne(DirectoryLines(disk, name));
      hide DirectoryLines, Payload;
      assert DirectoryBytes(disk, name)[0] == Bytes(Payload(DirectoryLines(disk, name)))[0];
    case Some(block) =>
      assert DirectoryBytes(disk, name)[0] == 1;
  }

  lemma PayloadBeginsWithOne(lines: seq<Line>)
    ensures |Payload(lines)| >= 4 && Bytes(Payload(lines))[0] == 1
  {
    assert Payload(lines)[0] == 1 by { hide Chain; }
    ByteHasValue(1);
    hide Chain, ByteOf;
  }

  /** A load from a drive that holds CLK: the name is lost, the commands behind it arrive one bit out of step,
      and the drive is never told to talk. */
  lemma LoadClockHeld(w: Wire, device: Byte, name: seq<Byte>, gaps: seq<nat>)
    requires Ready(w, device) && HoldsClk(w.drive.dos.disk.memory) && name != []
    ensures Loading(w, device, name, gaps).bytes
         == if HoldsData(w.drive.dos.disk.memory) then Zeros(|gaps|) else Ones(|gaps|)
  {
    hide Consume, SendAll, ReadAll, HeardAll, Sendable, HoldsClk, HoldsData, RequestTail;
    ClockHeldRequest(w, device, name);
    var asked := SendAll(Consume, w, LoadRequest(device, name));
    SendAllKeepsDirection(Consume, w, LoadRequest(device, name));
    hide LoadRequest;
    if HoldsData(w.drive.dos.disk.memory) {
      HeldReadsZeros(asked, gaps);
    } else {
      SilentReadsOnes(asked, gaps);
    }
  }

  lemma ClockHeldRequest(w: Wire, device: Byte, name: seq<Byte>)
    requires Ready(w, device) && HoldsClk(w.drive.dos.disk.memory) && name != []
    ensures var d := SendAll(Consume, w, LoadRequest(device, name)).drive.dos;
            !d.talking && d.disk.memory == w.drive.dos.disk.memory
  {
    hide Consume, SendAll, HeardAll, Sendable, HoldsClk, HoldsData, Stuck, Opened, WithoutName;
    var open := [UNTALK, Message(0x20 | device, true), OPEN_ZERO];
    OpenedIsHeard(w.drive.dos, device);
    ListenRoundTrip(Consume, w, open);
    OpenedDisk(w.drive.dos, device, OPEN_ZERO);
    var w1 := SendAll(Consume, w, open);
    StuckData(Consume, w1, DataMessages(name));
    var w2 := SendAll(Consume, w1, DataMessages(name));
    OutOfStep(Consume, w2, 0x3F, 0x40 | device, 0x60);
    StraddlersStoreNothing(w1.drive.dos, device);
    RequestIsFilled(device, name);
    SendAllJoins(Consume, w, open, DataMessages(name) + RequestTail(device));
    SendAllJoins(Consume, w1, DataMessages(name), RequestTail(device));
  }

  lemma NothingToSend(d: Dos)
    ensures HeardAll(Consume, d, []) == d && Sendable(Consume, d, [])
  {
  }

  lemma OpenedIsHeard(dos: Dos, device: Byte)
    ensures var ms := [UNTALK, Message(0x20 | device, true), OPEN_ZERO];
            HeardAll(Consume, dos, ms) == Opened(dos, device, OPEN_ZERO) && Sendable(Consume, dos, ms)
  {
    hide Consume, HoldsClk, HoldsData, HeardAll, Sendable;
    HeardThree(dos, UNTALK, Message(0x20 | device, true), OPEN_ZERO, []);
    NothingToSend(Opened(dos, device, OPEN_ZERO));
    assert [UNTALK, Message(0x20 | device, true), OPEN_ZERO] + [] == [UNTALK, Message(0x20 | device, true), OPEN_ZERO];
  }

  /** What arrives of UNLISTEN, TALK and channel 0 one bit out of step: nothing, and a LISTEN. */
  lemma StraddlersStoreNothing(dos: Dos, device: Byte)
    requires device < 16 && !dos.talking
    ensures var d1 := Consume(dos, Message(Straddling(0x3F, 0x40 | device), true));
            var d2 := Consume(d1, Message(Straddling(0x40 | device, 0x60), true));
            !d2.talking && d2.disk.memory == dos.disk.memory
  {
    StraddlersAre(device);
    var a, b := Straddling(0x3F, 0x40 | device), Straddling(0x40 | device, 0x60);
    hide Straddling;
    var d1 := Consume(dos, Message(a, true));
    ConsumeStores(dos, Message(a, true));
    ConsumeStores(d1, Message(b, true));
    StraddlerIsSilent(dos, a);
    StraddlerIsSilent(d1, b);
    hide Consume;
  }

  lemma StraddlersAre(device: Byte)
    requires device < 16
    ensures Straddling(0x3F, 0x40 | device) & 0xF0 in {0x10, 0x90} && Straddling(0x40 | device, 0x60) & 0xF0 == 0x20
  {
    BitValues();
  }

  lemma StraddlerIsSilent(dos: Dos, cmd: Byte)
    requires !dos.talking && cmd & 0xF0 in {0x10, 0x20, 0x90}
    ensures cmd != 0x3F && !Consume(dos, Message(cmd, true)).talking
  {
    hide CloseChannel, Unlisten, OpenForListen, OpenForTalk, Talk, ForDevice;
  }

  /** A load from a drive that holds DATA. */
  lemma LoadHeld(w: Wire, device: Byte, name: seq<Byte>, gaps: seq<nat>)
    requires Ready(w, device) && !HoldsClk(w.drive.dos.disk.memory) && HoldsData(w.drive.dos.disk.memory)
    ensures Loading(w, device, name, gaps).bytes == Zeros(|gaps|)
  {
    hide Consume, SendAll, ReadAll, HeardAll, Sendable, HoldsClk, HoldsData;
    var ms := LoadRequest(device, name);
    RequestHeardHeld(w.drive.dos, device, name);
    ListenRoundTrip(Consume, w, ms);
    SendAllKeepsDirection(Consume, w, ms);
    HeldReadsZeros(SendAll(Consume, w, ms), gaps);
  }

  /** A fresh drive lists an empty disk. */
  lemma FreshDirectory(address: Byte, memory: seq<Byte>, name: seq<Byte>, gaps: seq<nat>)
    requires address < 16 && name != [] && name[0] == DOLLAR && |gaps| == |DirectoryBytes(ResetDisk(memory), name)|
    ensures var s := Loading(Started(address, memory), address, name, gaps);
            && |Octets8(s.bytes)| >= 2
            && List(Octets8(s.bytes)[2..], LOAD_ADDRESS) == Some(DirectoryLines(ResetDisk(memory), name))
  {
    PowerOnIsReachable(address, memory);
    StartedIsReady(address, memory);
    AskedIsServed(ResetDisk(memory), name);
    assert ResetDisk(memory).buffer.None?;
    hide Reachable, Ready, Loading, List, DirectoryLines, DirectoryBytes, HoldsClk, HoldsData, ResetDisk, PowerOn,
         DiskOk;
    LoadDirectory(Started(address, memory), address, name, gaps);
  }

  /** A host that has just been switched on, on a bus with a drive that has just been reset. */
  function Started(address: Byte, memory: seq<Byte>): Wire {
    Wire(Port(0, 0, 0xFF), PowerOn(address, memory))
  }

  lemma StartedIsReady(address: Byte, memory: seq<Byte>)
    requires address < 16
    ensures var w := Started(address, memory);
            && Ready(w, address) && Releases(w.drive.dos) && w.drive.dos.commandBuffer == []
            && w.drive.dos.disk == ResetDisk(memory) && DiskOk(w.drive.dos.disk)
  {
    assert address & 0x1F == address;
    ResetDiskOk(memory);
    hide DiskOk;
  }

  // ---- sessions stay reachable -----------------------------------------------------------------------------

  lemma ClockIsReachable(w: Wire, host: Lines)
    requires Reachable(w.drive)
    ensures Reachable(Clock(Consume, w, host).drive)
  {
    hide Tick, Consume;
    var seen := DriveLines(w, host).drive;
    OtherLinesReachable(w.drive, seen);
    TickIsReachable(seen);
    OtherLinesReachable(Tick(Consume, seen), Clock(Consume, w, host).drive);
  }

  lemma OtherLinesReachable(d: Drive, e: Drive)
    requires Reachable(d) && e == d.(lines := e.lines)
    ensures Reachable(e)
  {
    var address: Byte, memory: seq<Byte>, lines: seq<Lines> :|
      d == DriveRuns.Run(PowerOn(address, memory), lines).(lines := d.lines);
    hide PowerOn, DriveRuns.Run;
    assert e == DriveRuns.Run(PowerOn(address, memory), lines).(lines := e.lines);
  }

  lemma {:induction false} SendBitsReachable(w: Wire, atn: bool, byte: Byte, from: nat)
    requires Reachable(w.drive) && from <= 8
    ensures Reachable(SendBits(Consume, w, atn, byte, from).drive)
    decreases 8 - from
  {
    hide Clock, Reachable, HasBit, Consume;
    if from < 8 {
      var bit := HasBit(byte, from);
      ClockIsReachable(w, Lines(atn, false, bit));
      ClockIsReachable(Clock(Consume, w, Lines(atn, false, bit)), Lines(atn, true, bit));
      SendBitsReachable(SendBit(Consume, w, atn, bit), atn, byte, from + 1);
    }
  }

  /** Whatever the host sends, the drive stays one that power-on leads to. */
  lemma {:induction false} SendingStaysReachable(w: Wire, ms: seq<Message>)
    requires Reachable(w.drive)
    ensures Reachable(SendAll(Consume, w, ms).drive)
    decreases |ms|
  {
    hide SendBits, Reachable, Consume;
    if ms != [] {
      SendBitsReachable(w, !ms[0].command, ms[0].byte, 0);
      SendingStaysReachable(SendByte(Consume, w, !ms[0].command, ms[0].byte), ms[1..]);
    }
  }
}
