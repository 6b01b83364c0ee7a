/** What whole sessions come to: allocations show in the directory, stored bytes come back, a freed block
    takes the directory's place, and a byte stored behind the VIA silences the drive. */
module SessionResults {
  import opened Options
  import opened IecLines
  import Glob
  import opened BlockTables
  import opened Directory
  import opened DosNames
  import opened ByteValues
  import opened DosCommands
  import opened CatalogText
  import opened CommandLaws
  import opened CommandStores
  import opened DriveDos
  import opened DriveSerial
  import opened DriveRuns
  import opened IecHost
  import opened IecTalk
  import opened HeldBus
  import opened LoadSession
  import opened WireSessions

  // ---- sessions in parts ------------------------------------------------------------------------

  lemma {:induction false} SessionsJoin(s: State, a: seq<Step>, b: seq<Step>)
    ensures Final(s, a + b) == Final(Final(s, a), b)
    ensures Replies(s, a + b) == Replies(s, a) + Replies(Final(s, a), b)
    ensures Playable(s, a + b) <==> Playable(s, a) && Playable(Final(s, a), b)
    decreases |a|
  {
    hide After, Output, Suits, LeavesBus;
    if a == [] {
      assert a + b == b;
    } else {
      var t := After(s, a[0]);
      SessionsJoin(t, a[1..], b);
      assert (a + b)[0] == a[0] && (a + b)[1..] == a[1..] + b;
      Prepended(Output(s, a[0]), Replies(t, a[1..]), Replies(Final(t, a[1..]), b));
    }
  }

  lemma Prepended(x: seq<Byte>, a: seq<seq<Byte>>, b: seq<seq<Byte>>)
    ensures [x] + (a + b) == ([x] + a) + b
  {
  }

  lemma OneStep(s: State, step: Step)
    ensures Final(s, [step]) == After(s, step) && Replies(s, [step]) == [Output(s, step)]
    ensures Playable(s, [step]) <==> Suits(s, step) && LeavesBus(After(s, step).disk.memory)
  {
    hide After, Output, Suits, LeavesBus;
    assert [step][1..] == [];
  }

  /** One step after a session. */
  lemma SessionGoesOn(s: State, steps: seq<Step>, step: Step)
    ensures Final(s, steps + [step]) == After(Final(s, steps), step)
    ensures Replies(s, steps + [step]) == Replies(s, steps) + [Output(Final(s, steps), step)]
    ensures Playable(s, steps) && Suits(Final(s, steps), step) && LeavesBus(After(Final(s, steps), step).disk.memory)
            ==> Playable(s, steps + [step])
  {
    SessionsJoin(s, steps, [step]);
    OneStep(Final(s, steps), step);
    hide *;
  }

  /** Each step is well formed where it stands. */
  predicate AllSuit(s: State, steps: seq<Step>)
    decreases |steps|
  {
    steps == [] || (Suits(s, steps[0]) && AllSuit(After(s, steps[0]), steps[1..]))
  }

  predicate OrdersHarmless(steps: seq<Step>) {
    forall i :: 0 <= i < |steps| && steps[i].Order? ==> Harmless(steps[i].raw)
  }

  lemma HarmlessStepIsQuiet(s: State, step: Step)
    requires LeavesBus(s.disk.memory) && (step.Order? ==> Harmless(step.raw))
    ensures LeavesBus(After(s, step).disk.memory)
  {
    match step
    case Order(raw) =>
      UnnamedKeepsMemory(s.disk);
      HarmlessKeepsHold(Unnamed(s.disk, 15), raw);
      hide Execute, Unnamed, HoldsClk, HoldsData, Harmless;
    case Ask(_) =>
    case Load(name, _) =>
      AskedReleases(s.disk, name);
      hide Asked;
  }

  lemma UnnamedKeepsMemory(disk: Disk)
    ensures Unnamed(disk, 15).memory == disk.memory && Unnamed(disk, 15).tables == disk.tables
    ensures Unnamed(disk, 15).buffer == disk.buffer
  {
    hide SpecOf;
  }

  /** A host that sends no command that stores to the VIA's two registers, which it can tell from the
      commands alone, can play any session from a drive that leaves the bus alone. */
  lemma {:induction false} HarmlessSessionsArePlayable(s: State, steps: seq<Step>)
    requires LeavesBus(s.disk.memory) && AllSuit(s, steps) && OrdersHarmless(steps)
    ensures Playable(s, steps) && LeavesBus(Final(s, steps).disk.memory)
    decreases |steps|
  {
    hide After, Suits, LeavesBus, Harmless;
    if steps != [] {
      HarmlessStepIsQuiet(s, steps[0]);
      HarmlessSessionsArePlayable(After(s, steps[0]), steps[1..]);
    }
  }

  /** A session from power-on. */
  lemma FreshSession(address: Byte, memory: seq<Byte>, steps: seq<Step>)
    requires address < 16 && Playable(Fresh(memory), steps)
    ensures var p := Play(Started(address, memory), address, steps);
            && p.outputs == Replies(Fresh(memory), steps)
            && StateOf(p.wire.drive.dos) == Final(Fresh(memory), steps) && Good(p.wire, address)
  {
    StartedIsReady(address, memory);
    hide Playable, Replies, Final, Play, ResetDisk, DiskOk, Ready, Releases;
    SessionIsRun(Started(address, memory), address, steps);
  }

  function Fresh(memory: seq<Byte>): State {
    State(ResetDisk(memory), NoError, [])
  }

  lemma FreshIsQuiet(memory: seq<Byte>)
    ensures LeavesBus(Fresh(memory).disk.memory) && Fresh(memory).disk.buffer.None?
    ensures Fresh(memory).disk.specs == Nameless() && Fresh(memory).disk.memory == Memory(memory, 0, 0)
    ensures Fresh(memory).disk.tables == Empty() && DiskOk(Fresh(memory).disk)
    ensures Fresh(memory).disk.positions == seq(CHANNELS, _ => 0)
  {
    ResetDiskOk(memory);
    hide DiskOk, Reset;
  }

  // ---- what stays in order ---------------------------------------------------------------------------

  lemma StepKeepsDiskOk(s: State, step: Step)
    requires DiskOk(s.disk)
    ensures DiskOk(After(s, step).disk)
  {
    NamesKeepDiskOk(s.disk, 15, []);
    NamesKeepDiskOk(s.disk, 0, []);
    match step
    case Order(raw) =>
      NamesKeepDiskOk(WithoutName(s.disk, 15), 15, []);
      ExecuteKeepsDiskOk(Unnamed(s.disk, 15), raw);
      hide DiskOk, Execute, WithName, WithoutName;
    case Ask(_) =>
    case Load(name, _) =>
      NamesKeepDiskOk(WithoutName(s.disk, 0), 0, name);
      DirectoryKeepsDiskOk(WithName(WithoutName(s.disk, 0), 0, name), name);
      hide DiskOk, WithName, WithoutName, WithDirectory;
  }

  lemma {:induction false} SessionKeepsDiskOk(s: State, steps: seq<Step>)
    requires DiskOk(s.disk)
    ensures DiskOk(Final(s, steps).disk)
    decreases |steps|
  {
    hide DiskOk, After;
    if steps != [] {
      StepKeepsDiskOk(s, steps[0]);
      SessionKeepsDiskOk(After(s, steps[0]), steps[1..]);
    }
  }

  /** At the end of any session from power-on without a block buffer, a directory load brings the host the
      catalog that the session has left: it lists back as the state's own lines. */
  lemma LoadAfterSession(address: Byte, memory: seq<Byte>, steps: seq<Step>, name: seq<Byte>, gaps: seq<nat>)
    requires address < 16 && Playable(Fresh(memory), steps) && Final(Fresh(memory), steps).disk.buffer.None?
    requires Suits(Final(Fresh(memory), steps), Load(name, gaps))
    requires LeavesBus(Final(Fresh(memory), steps).disk.memory)
    ensures var p := Play(Started(address, memory), address, steps + [Load(name, gaps)]);
            var disk := Final(Fresh(memory), steps).disk;
            && |p.outputs| == |Replies(Fresh(memory), steps)| + 1
            && var out := p.outputs[|p.outputs| - 1];
               && out == DirectoryBytes(disk, name) && |out| >= 2
               && List(Octets8(out)[2..], LOAD_ADDRESS) == Some(DirectoryLines(disk, name))
  {
    var s, load := Final(Fresh(memory), steps), Load(name, gaps);
    FreshIsQuiet(memory);
    SessionKeepsDiskOk(Fresh(memory), steps);
    SessionGoesOn(Fresh(memory), steps, load);
    AskedReleases(s.disk, name);
    ServedListsBack(s.disk, name);
    AskedIsServed(s.disk, name);
    assert After(s, load).disk.memory == s.disk.memory;
    assert Output(s, load) == DirectoryBytes(s.disk, name);
    hide After, Output, Suits, LeavesBus, Playable, Final, Replies, Fresh, DiskOk, DirectoryLines, DirectoryBytes,
         List, Asked;
    FreshSession(address, memory, steps + [load]);
    hide Play, Started;
  }

  // ---- allocations are listed ----------------------------------------------------------------------

  /** A block to allocate, and the channel it is allocated for. */
  datatype Claim = Claim(channel: Octet, track: Octet, sector: Octet)

  function ClaimStep(c: Claim): Step {
    Order(Raw(BlockText("B-A", c.channel, c.track, c.sector)))
  }

  function ClaimSteps(claims: seq<Claim>): seq<Step> {
    seq(|claims|, i requires 0 <= i < |claims| => ClaimStep(claims[i]))
  }

  function Takes(claims: seq<Claim>): seq<Op> {
    seq(|claims|, i requires 0 <= i < |claims| =>
      Take(claims[i].track, claims[i].sector, claims[i].channel, NO_SPEC))
  }

  function Nameless(): Specs {
    seq(CHANNELS, _ => NO_SPEC)
  }

  lemma UnnamedStays(disk: Disk)
    requires disk.specs == Nameless()
    ensures Unnamed(disk, 15) == disk
  {
    EmptyNameIsNoSpec();
    hide SpecOf;
    assert (15 as Byte) as nat == 15;
    assert Unnamed(disk, 15).specs == disk.specs;
  }

  lemma EmptyNameIsNoSpec()
    ensures SpecOf([]) == NO_SPEC
  {
    assert OpenName([]) == [];
    assert Glob.Normalized([]) == [];
    assert Split([]) == [[]];
    assert Trim([]) == [];
  }

  /** One allocation command is one allocation in the tables. */
  lemma ClaimIsTaken(s: State, c: Claim)
    requires s.disk.specs == Nameless()
    ensures Suits(s, ClaimStep(c))
    ensures After(s, ClaimStep(c)).disk
         == s.disk.(tables := Apply(s.disk.tables, Take(c.track, c.sector, c.channel, NO_SPEC)).tables)
  {
    BlockTextParts("B-A", c.channel, c.track, c.sector);
    BlockCommandReads(s.disk, "B-A", c.channel, c.track, c.sector);
    UnnamedStays(s.disk);
    assert s.disk.specs[c.channel % CHANNELS] == NO_SPEC;
    hide Raw, BlockText, Execute, Allocate, Unnamed;
  }

  /** Any sequence of allocation commands is that run of the allocator. */
  lemma {:induction false} ClaimsAreTaken(s: State, claims: seq<Claim>)
    requires s.disk.specs == Nameless() && BlockTables.Ok(s.disk.tables) && LeavesBus(s.disk.memory)
    ensures Final(s, ClaimSteps(claims)).disk == s.disk.(tables := BlockTables.Run(s.disk.tables, Takes(claims)))
    ensures Playable(s, ClaimSteps(claims)) && |Replies(s, ClaimSteps(claims))| == |claims|
    decreases |claims|
  {
    hide After, Output, Suits, LeavesBus, ClaimStep, Apply, BlockTables.Ok, Nameless;
    if claims == [] {
      assert ClaimSteps(claims) == [] && Takes(claims) == [];
    } else {
      var step, op := ClaimStep(claims[0]), Take(claims[0].track, claims[0].sector, claims[0].channel, NO_SPEC);
      ClaimIsTaken(s, claims[0]);
      ApplyRefines(s.disk.tables, op);
      var t := After(s, step);
      ClaimsAreTaken(t, claims[1..]);
      assert ClaimSteps(claims)[0] == step && ClaimSteps(claims)[1..] == ClaimSteps(claims[1..]);
      assert Takes(claims)[0] == op && Takes(claims)[1..] == Takes(claims[1..]);
      hide ClaimSteps, Takes;
    }
  }

  /** The listing of an empty disk after the allocations. */
  ghost function ListedAfter(claims: seq<Claim>, name: seq<Byte>): seq<Line>
  {
    var s := BlockTables.Run(Empty(), Takes(claims));
    StubLines(s.catalog, FiltersOf(name), BlocksFree(s))
  }

  /** The state that the allocations leave. */
  lemma ClaimsLeave(memory: seq<Byte>, claims: seq<Claim>, name: seq<Byte>)
    ensures var s, steps := Fresh(memory), ClaimSteps(claims);
            var disk := Final(s, steps).disk;
            && Playable(s, steps) && |Replies(s, steps)| == |claims| && LeavesBus(disk.memory) && disk.buffer.None?
            && DirectoryLines(disk, name) == ListedAfter(claims, name)
            && |DirectoryBytes(disk, name)| == |Payload(ListedAfter(claims, name))|
  {
    FreshIsQuiet(memory);
    ClaimsAreTaken(Fresh(memory), claims);
    hide Final, ClaimSteps, Playable, Replies, Payload, BlockTables.Run, LeavesBus, StubLines, FiltersOf, Takes,
         BlockTables.Ok, Fresh, DiskOk, Nameless;
  }

  /** From power-on: the host allocates any blocks for any channels by command, then loads the directory
      under any name that begins with `$`. What it receives lists back as the catalog that those
      allocations make of an empty disk, under that name's filters, with what they leave free. */
  lemma AllocationsAreListed(address: Byte, memory: seq<Byte>, claims: seq<Claim>, name: seq<Byte>, gaps: seq<nat>)
    requires address < 16 && name != [] && name[0] == DOLLAR
    requires |gaps| == |Payload(ListedAfter(claims, name))|
    ensures var p := Play(Started(address, memory), address, ClaimSteps(claims) + [Load(name, gaps)]);
            && |p.outputs| == |claims| + 1 && |p.outputs[|claims|]| >= 2
            && List(Octets8(p.outputs[|claims|])[2..], LOAD_ADDRESS) == Some(ListedAfter(claims, name))
  {
    hide Fresh, Final, ClaimSteps, ListedAfter, DirectoryLines, Playable, Replies, Payload, List, Play, Started,
         BlockTables.Run,
         LeavesBus, BlockTables.Ok, DiskOk, Nameless, Octets8;
    ClaimsLeave(memory, claims, name);
    LoadAfterSession(address, memory, ClaimSteps(claims), name, gaps);
  }

  // ---- bytes over the wire ---------------------------------------------------------------------------

  /** Bytes stored by one command and asked for by another come back over channel 15. */
  lemma StoredBytesComeBack(address: Byte, memory: seq<Byte>, addr: nat, bytes: seq<Octet>, gaps: seq<nat>)
    requires address < 16 && 0 < |bytes| <= 255 && addr + |bytes| <= RAM_END <= |memory|
    requires (addr + |bytes| <= PORT_B || DIRECTION_B < addr) && |gaps| == |bytes| + 1
    ensures var steps := [Order(Raw(Join(StoreParts(addr, bytes)))), Order(Raw(Join(FetchParts(addr, |bytes|)))),
                          Ask(gaps)];
            Play(Started(address, memory), address, steps).outputs == [[], [], Bytes(bytes) + [0x0D]]
  {
    var store, fetch := Raw(Join(StoreParts(addr, bytes))), Raw(Join(FetchParts(addr, |bytes|)));
    var s0 := Fresh(memory);
    FreshIsQuiet(memory);
    StoredThenFetched(s0, addr, bytes);
    hide StoreParts, FetchParts, Raw, Join, Bytes, Fresh, Execute, Unnamed;
    var s1 := After(s0, Order(store));
    var s2 := After(s1, Order(fetch));
    ThreeSteps(s0, Order(store), Order(fetch), Ask(gaps));
    hide Play, Started, Final, Playable;
    FreshSession(address, memory, [Order(store), Order(fetch), Ask(gaps)]);
  }

  lemma ThreeSteps(s: State, a: Step, b: Step, c: Step)
    ensures var s1 := After(s, a);
            var s2 := After(s1, b);
            && Replies(s, [a, b, c]) == [Output(s, a), Output(s1, b), Output(s2, c)]
            && (Suits(s, a) && LeavesBus(s1.disk.memory) && Suits(s1, b) && LeavesBus(s2.disk.memory) && Suits(s2, c)
                && LeavesBus(After(s2, c).disk.memory)
                ==> Playable(s, [a, b, c]))
  {
    hide After, Output, Suits, LeavesBus;
    assert [a, b, c][1..] == [b, c] && [b, c][1..] == [c] && [c][1..] == [];
    OneStep(After(After(s, a), b), c);
  }

  lemma StoredThenFetched(s: State, addr: nat, bytes: seq<Octet>)
    requires s.disk.specs == Nameless() && s.disk.memory.portB == 0 && s.disk.memory.directionB == 0
    requires 0 < |bytes| <= 255 && addr + |bytes| <= RAM_END <= |s.disk.memory.bytes|
    requires addr + |bytes| <= PORT_B || DIRECTION_B < addr
    ensures var store, fetch := Raw(Join(StoreParts(addr, bytes))), Raw(Join(FetchParts(addr, |bytes|)));
            var s1 := After(s, Order(store));
            var s2 := After(s1, Order(fetch));
            && store != [] && fetch != []
            && LeavesBus(s1.disk.memory) && LeavesBus(s2.disk.memory) && s2.response == Bytes(bytes)
  {
    var store, fetch := Raw(Join(StoreParts(addr, bytes))), Raw(Join(FetchParts(addr, |bytes|)));
    MemoryCommandsRoundTrip(s.disk, addr, bytes);
    StoreCommandReads(s.disk, addr, bytes);
    UnnamedStays(s.disk);
    var s1 := After(s, Order(store));
    hide StoreParts, FetchParts, Raw, Join, Bytes, Execute, Unnamed, MemoryWrite;
    UnnamedStays(s1.disk);
    assert 0 & 0x40 == 0 as Byte;
  }

  lemma StoreCommandReads(disk: Disk, addr: nat, bytes: seq<Octet>)
    requires 0 < |bytes| <= 255 && addr + |bytes| <= RAM_END <= |disk.memory.bytes|
    requires addr + |bytes| <= PORT_B || DIRECTION_B < addr
    ensures var store, fetch := Raw(Join(StoreParts(addr, bytes))), Raw(Join(FetchParts(addr, |bytes|)));
            var r := Execute(disk, store);
            && store != [] && fetch != []
            && r.disk == disk.(memory := r.disk.memory) && r.response.None?
            && r.disk.memory.portB == disk.memory.portB && r.disk.memory.directionB == disk.memory.directionB
  {
    StorePartsAreText(addr, bytes);
    StoreCommand(disk, addr, bytes);
    var parts, fetch := StoreParts(addr, bytes), FetchParts(addr, |bytes|);
    assert parts[0] == "M-W" && fetch[0] == "M-R" && |fetch| == 4;
    hide StoreParts, FetchParts, Commanding, CommaFree, CommandText, Split, MemoryWrite, Execute, Bytes;
    MemoryCommandRuns(disk, parts);
    JoinIsCommanding(parts);
    JoinIsCommanding(fetch);
    hide Join;
  }

  // ---- a freed block instead of the directory ---------------------------------------------------------

  /** A block allocated and freed again leaves an empty block in the buffer, and loading the directory
      under any name brings that block. */
  lemma FreedBlockReplacesDirectory(address: Byte, memory: seq<Byte>, c: Claim, name: seq<Byte>, gaps: seq<nat>)
    requires address < 16 && name != [] && name[0] == DOLLAR && |gaps| == 4 + BLOCK_SIZE
    ensures var free := Order(Raw(BlockText("B-F", c.channel, c.track, c.sector)));
            Play(Started(address, memory), address, [ClaimStep(c), free, Load(name, gaps)]).outputs
            == [[], [], [0x01, 0x08] + Zeros(BLOCK_SIZE) + [0x00, 0x00]]
  {
    hide BlockText, Raw, Execute, Unnamed, BlockTables.Ok, DiskOk, Empty, Fresh, Zeros, Nameless, LeavesBus,
         Play, Started, Final, Playable, DirectoryBytes, Asked;
    var s0, free := Fresh(memory), Order(Raw(BlockText("B-F", c.channel, c.track, c.sector)));
    FreshIsQuiet(memory);
    ClaimedThenFreed(s0, c);
    var s1 := After(s0, ClaimStep(c));
    var s2 := After(s1, free);
    AskedReleases(s2.disk, name);
    ServedBlock(s2.disk, name);
    ThreeSteps(s0, ClaimStep(c), free, Load(name, gaps));
    FreshSession(address, memory, [ClaimStep(c), free, Load(name, gaps)]);
  }

  lemma ServedBlock(disk: Disk, name: seq<Byte>)
    requires disk.buffer == Some(Zeros(BLOCK_SIZE)) && disk.positions[0] == 0
    ensures DirectoryBytes(disk, name) == [0x01, 0x08] + Zeros(BLOCK_SIZE) + [0x00, 0x00]
    ensures |DirectoryBytes(disk, name)| == 4 + BLOCK_SIZE
  {
    assert Zeros(BLOCK_SIZE)[0..] == Zeros(BLOCK_SIZE);
  }

  lemma ClaimedThenFreed(s: State, c: Claim)
    requires s.disk.specs == Nameless() && s.disk.tables == Empty() && LeavesBus(s.disk.memory)
    requires s.disk.positions == seq(CHANNELS, _ => 0)
    ensures var free := Order(Raw(BlockText("B-F", c.channel, c.track, c.sector)));
            var s1 := After(s, ClaimStep(c));
            var s2 := After(s1, free);
            && ClaimStep(c).raw != [] && free.raw != []
            && LeavesBus(s1.disk.memory) && LeavesBus(s2.disk.memory)
            && s2.disk.buffer == Some(Zeros(BLOCK_SIZE)) && s2.disk.positions[0] == 0
  {
    ClaimIsTaken(s, c);
    var s1 := After(s, ClaimStep(c));
    BlockTextParts("B-F", c.channel, c.track, c.sector);
    BlockCommandReads(s1.disk, "B-F", c.channel, c.track, c.sector);
    UnnamedStays(s1.disk);
    AllocatedIsTaken(s.disk.tables, c.track, c.sector, c.channel, NO_SPEC);
    FreeSucceedsIff(s1.disk.tables, c.track, c.sector);
    assert seq(BLOCK_SIZE, _ => 0 as Byte) == Zeros(BLOCK_SIZE);
    hide Raw, BlockText, Execute, Allocate, Free, Unnamed, BlockTables.Ok, Empty, BlockIndex, LeavesBus;
  }

  // ---- a byte behind the VIA ---------------------------------------------------------------------------

  /** From power-on: one byte stored to the VIA's direction register by command, accepted without an error,
      and the drive pulls DATA although nobody told it to talk; from then on every directory load brings
      nothing but zeros. */
  lemma StoredDirectionSilencesTheDrive(address: Byte, memory: seq<Byte>, name: seq<Byte>, gaps: seq<nat>)
    requires address < 16 && RAM_END <= |memory| && name != [] && name[0] == DOLLAR
    ensures var w := SendAll(Consume, Started(address, memory),
                             CommandRequest(address, Raw(Join(StoreParts(DIRECTION_B, [0x20])))));
            && w.drive.dos.status == NoError && !w.drive.dos.talking
            && Clock(Consume, w, RELEASED).drive.pullsData
            && Loading(w, address, name, gaps).bytes == Zeros(|gaps|)
  {
    var raw := Raw(Join(StoreParts(DIRECTION_B, [0x20])));
    DirectionIsStored(address, memory);
    var w := SendAll(Consume, Started(address, memory), CommandRequest(address, raw));
    hide Consume, SendAll, Started, CommandRequest, Raw, Join, StoreParts, Loading, HoldsClk, HoldsData;
    LoadHeld(w, address, name, gaps);
    ClockIsPulse(Consume, w, RELEASED);
    HeldTick(Settle(w.drive, RELEASED));
    hide Tick, Clock;
  }

  lemma DirectionIsStored(address: Byte, memory: seq<Byte>)
    requires address < 16 && RAM_END <= |memory|
    ensures var w := SendAll(Consume, Started(address, memory),
                             CommandRequest(address, Raw(Join(StoreParts(DIRECTION_B, [0x20])))));
            && w.drive.dos.status == NoError && !w.drive.dos.talking
            && !HoldsClk(w.drive.dos.disk.memory) && HoldsData(w.drive.dos.disk.memory) && Ready(w, address)
  {
    hide Consume, SendAll, HeardAll, Sendable, Raw, Join, StoreParts, Execute, Unnamed, CommandRequest, Arrived,
         Aligned,
         HoldsClk, HoldsData, DiskOk, ResetDisk;
    var raw, w0 := Raw(Join(StoreParts(DIRECTION_B, [0x20]))), Started(address, memory);
    StartedIsReady(address, memory);
    DirectionCommand(memory);
    WholeCommand(w0.drive.dos, raw);
    CommandHeard(w0.drive.dos, address, raw);
    ListenRoundTrip(Consume, w0, CommandRequest(address, raw));
    SendAllKeepsDirection(Consume, w0, CommandRequest(address, raw));
  }

  lemma DirectionCommand(memory: seq<Byte>)
    requires RAM_END <= |memory|
    ensures var raw, disk := Raw(Join(StoreParts(DIRECTION_B, [0x20]))), ResetDisk(memory);
            var r := Execute(Unnamed(disk, 15), raw);
            raw != [] && r.status == NoError && !HoldsClk(r.disk.memory) && HoldsData(r.disk.memory)
  {
    FreshIsQuiet(memory);
    UnnamedStays(ResetDisk(memory));
    DirectionHoldsLines(ResetDisk(memory), 0x20);
    ByteHasValue(0x20);
    StorePartsAreText(DIRECTION_B, [0x20]);
    JoinIsCommanding(StoreParts(DIRECTION_B, [0x20]));
    assert StoreParts(DIRECTION_B, [0x20])[0] == "M-W";
    assert ByteOf(0x20) == 0x20;
    hide *;
  }
}
