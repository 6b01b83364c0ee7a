/** The drive over whole runs of arbitrary bus lines: its channels stay in order, and with ATN released it
    pulls DATA for what it was told to say and for what its VIA holds, and for nothing else. */
module DriveRuns {
  import opened IecLines
  import opened DosNames
  import opened DosCommands
  import opened DriveDos
  import opened DriveSerial
  import opened BlockTables
  import opened CatalogText
  import opened CommandLaws
  import opened CommandStores

  /** Channels and the flags that go with them. */
  predicate ChannelsInOrder(dos: Dos) {
    && (dos.sa0Confirmed ==> dos.talkChannel == 0)
    && (!dos.talking ==> dos.talkChannel == NO_CHANNEL)
    && (dos.talkChannel < 16 || dos.talkChannel == NO_CHANNEL)
    && (dos.expectingName ==> dos.listening && dos.listenChannel < 16)
    && (dos.listenChannel < 16 || dos.listenChannel == NO_CHANNEL)
    && (dos.listening || dos.talking ==> !dos.needsFreshCommand)
  }

  predicate DosOk(dos: Dos) {
    ChannelsInOrder(dos) && DiskOk(dos.disk)
  }

  lemma NamesKeepDiskOk(disk: Disk, ch: Byte, name: seq<Byte>)
    requires DiskOk(disk)
    ensures DiskOk(WithName(disk, ch, name)) && DiskOk(WithoutName(disk, ch))
  {
    SpecIsOk(name);
    var spec := SpecOf(name);
    hide SpecOf, Ok, AllTextOk;
    if ch < 16 {
      NamelessIsOk(disk.specs[ch as nat]);
      hide SpecOk;
    }
  }

  lemma NamelessIsOk(o: OpenSpec)
    requires SpecOk(o)
    ensures SpecOk(o.(valid := false, name := ""))
  {
  }

  lemma DirectoryKeepsDiskOk(disk: Disk, name: seq<Byte>)
    requires DiskOk(disk)
    ensures DiskOk(WithDirectory(disk, name))
  {
    hide Ok, AllTextOk, SpecOk, FiltersOf;
  }

  lemma CommitKeepsDosOk(dos: Dos)
    requires DosOk(dos) && !dos.needsFreshCommand
    ensures DosOk(CommitName(dos)) && !CommitName(dos).needsFreshCommand && !CommitName(dos).expectingName
  {
    NamesKeepDiskOk(dos.disk, dos.listenChannel, dos.name);
    DirectoryKeepsDiskOk(WithName(dos.disk, dos.listenChannel, dos.name), dos.name);
    hide DiskOk, WithName, WithDirectory, BufferPayload, AsksForDirectory;
  }

  lemma UnlistenKeepsDosOk(dos: Dos)
    requires DosOk(dos) && !dos.needsFreshCommand
    ensures DosOk(Unlisten(dos)) && !Unlisten(dos).needsFreshCommand
  {
    CommitKeepsDosOk(dos);
    hide CommitName;
    var d1 := CommitName(dos);
    ExecuteKeepsDiskOk(d1.disk, d1.commandBuffer);
    hide DiskOk, Execute;
  }

  lemma ListenKeepsDosOk(dos: Dos, cmd: Byte)
    requires DosOk(dos) && !dos.needsFreshCommand
    ensures DosOk(Listen(dos, cmd)) && !Listen(dos, cmd).needsFreshCommand
  {
    hide ForDevice, DiskOk;
  }

  lemma TalkKeepsDosOk(dos: Dos, cmd: Byte)
    requires DosOk(dos) && !dos.needsFreshCommand
    ensures DosOk(Talk(dos, cmd)) && !Talk(dos, cmd).needsFreshCommand
  {
    hide ForDevice, DiskOk;
  }

  lemma OpenKeepsDosOk(dos: Dos, ch: Byte)
    requires DosOk(dos) && !dos.needsFreshCommand && ch < 16
    ensures dos.listening ==> DosOk(OpenForListen(dos, ch))
    ensures dos.talking ==> DosOk(OpenForTalk(dos, ch)) && !OpenForTalk(dos, ch).needsFreshCommand
  {
    NamesKeepDiskOk(dos.disk, ch, []);
    RefillKeepsDosOk(dos.(talkChannel := ch, sa0Confirmed := ch == 0));
    hide ChannelFifteen, DiskOk, WithoutName, Refill;
  }

  lemma RefillKeepsDosOk(dos: Dos)
    ensures var d := Refill(dos);
            && d == dos.(queue := d.queue, disk := d.disk)
            && (DiskOk(dos.disk) ==> DiskOk(d.disk))
  {
    hide BufferPayload, StubPayload;
    if dos.queue == [] && dos.disk.prepared && DiskOk(dos.disk) {
      FromBufferIsFree(dos.disk, dos.disk.fromBuffer && dos.disk.buffer.Some?);
    }
    hide DiskOk;
  }

  lemma FromBufferIsFree(disk: Disk, fromBuffer: bool)
    requires DiskOk(disk) && (fromBuffer ==> disk.buffer.Some?)
    ensures DiskOk(disk.(fromBuffer := fromBuffer))
  {
    hide Ok, AllTextOk, SpecOk;
  }

  lemma CloseKeepsDosOk(dos: Dos, ch: Byte)
    requires DosOk(dos) && !dos.needsFreshCommand && ch < 16
    ensures DosOk(CloseChannel(dos, ch)) && !CloseChannel(dos, ch).needsFreshCommand
    ensures DosOk(Untalk(dos))
  {
    hide DiskOk;
  }

  lemma CommandIsOneOf(dos: Dos, cmd: Byte)
    ensures var ch, d := cmd & 0x0F, CommandByte(dos, cmd);
            || d == CloseChannel(dos, ch) || (cmd == 0x3F && d == Unlisten(dos)) || d == Untalk(dos)
            || (dos.listening && d == OpenForListen(dos, ch)) || (dos.talking && d == OpenForTalk(dos, ch))
            || d == Listen(dos, cmd) || d == Talk(dos, cmd) || d == dos
  {
    hide CloseChannel, Unlisten, OpenForListen, OpenForTalk, Listen, Talk, Untalk;
  }

  lemma OpenListenKeepsFresh(dos: Dos, ch: Byte)
    ensures OpenForListen(dos, ch).needsFreshCommand == dos.needsFreshCommand
    ensures Untalk(dos).needsFreshCommand == dos.needsFreshCommand
  {
    hide WithoutName;
  }

  lemma CommandKeepsDosOk(dos: Dos, cmd: Byte)
    requires DosOk(dos) && !dos.needsFreshCommand
    ensures DosOk(CommandByte(dos, cmd)) && !CommandByte(dos, cmd).needsFreshCommand
  {
    var ch := cmd & 0x0F;
    assert ch < 16;
    CommandIsOneOf(dos, cmd);
    OpenListenKeepsFresh(dos, ch);
    hide *;
    UnlistenKeepsDosOk(dos);
    ListenKeepsDosOk(dos, cmd);
    TalkKeepsDosOk(dos, cmd);
    OpenKeepsDosOk(dos, ch);
    CloseKeepsDosOk(dos, ch);
  }

  lemma ConsumeKeepsDosOk(dos: Dos, m: Message)
    requires DosOk(dos)
    ensures DosOk(Consume(dos, m))
  {
    if !(dos.needsFreshCommand && !m.command) {
      var d1 := dos.(needsFreshCommand := false, heard := dos.heard + [m]);
      assert DosOk(d1);
      hide CommandByte, DiskOk;
      if m.command { CommandKeepsDosOk(d1, m.byte); }
    }
  }

  /** A byte under way, a start in waiting and an end signal exclude each other. */
  predicate OneAtATime(tx: Transmitter, eoi: Eoi) {
    && (tx.active ==> !tx.startPending)
    && (eoi.pending ==> !tx.active && !tx.startPending)
  }

  /** What the drive does to the bus is justified by what it was told. */
  predicate Behaves(d: Drive) {
    && d == Outputs(d) && OneAtATime(d.tx, d.eoi)
    && (d.tx.pullData || d.tx.active || d.tx.startPending ==> d.mode == TalkData)
    && (d.mode == TalkData ==> d.dos.talking && d.prev.atn)
    && (d.eoi.pending ==> d.mode == TalkData || d.mode == TalkEoiAck)
  }

  /** The same talker, or none; the DOS in order. */
  predicate DosGoesOn(d: Drive, d': Drive) {
    DosOk(d'.dos) && d'.dos.talking == d.dos.talking
  }

  lemma BeforeReceiving(d: Drive, next: Mode)
    requires DosOk(d.dos)
    ensures DosGoesOn(d, Preempt(AbsenceCheck(d, next)))
  {
    hide SilentTransmitter, DiskOk;
  }

  lemma ReceivingKeepsDos(d: Drive, next: Mode)
    requires DosOk(d.dos)
    ensures DosOk(Receive(Consume, d, next).dos)
    ensures next == TalkData ==> DosGoesOn(d, Receive(Consume, d, next))
  {
    if Completes(d, next) {
      ConsumeKeepsDosOk(d.dos, Received(d, next));
    }
    hide Consume, SilentTransmitter, ClockReceiver, DosOk, Received;
  }

  lemma AfterReceiving(d: Drive, next: Mode)
    requires DosOk(d.dos)
    ensures DosGoesOn(d, ReceiveTimeout(d, next))
  {
    hide TimedReceiver, ReceiverStalls, DiskOk;
  }

  /** The step's DOS is what the talker's part leaves of it. */
  lemma StepIsTalk(d: Drive)
    ensures var next := NextMode(d);
            var d1 := ReceiveTimeout(Receive(Consume, Preempt(AbsenceCheck(d, next)), next), next);
            var t := Tick(Consume, d).dos;
            t == (match next case TalkEoiAck => EoiWait(d1).dos case TalkData => Transmit(d1).dos case _ => d1.dos)
  {
    hide Consume, Receive, ReceiveTimeout, Preempt, AbsenceCheck, EoiWait, Transmit, SilentTransmitter;
  }

  lemma StepDos(d: Drive)
    requires DosOk(d.dos)
    ensures DosOk(Tick(Consume, d).dos)
    ensures NextMode(d) == TalkData ==> Tick(Consume, d).dos.talking == d.dos.talking
  {
    var next := NextMode(d);
    hide Tick, Consume, Receive, ReceiveTimeout, Preempt, AbsenceCheck, EoiWait, Transmit, DiskOk;
    StepIsTalk(d);
    var d0 := Preempt(AbsenceCheck(d, next));
    BeforeReceiving(d, next);
    ReceivingKeepsDos(d0, next);
    var d1 := Receive(Consume, d0, next);
    AfterReceiving(d1, next);
    TransmitKeepsDos(ReceiveTimeout(d1, next));
  }

  lemma TransmitKeepsDos(d: Drive)
    requires DosOk(d.dos)
    ensures DosOk(Transmit(d).dos) && Transmit(d).dos.talking == d.dos.talking
    ensures DosOk(EoiWait(d).dos)
  {
    hide ArmStart, OpenFrame, ClockTransmitter, DriveBit, DiskOk;
  }

  lemma TransmitBehaves(d: Drive)
    requires OneAtATime(d.tx, d.eoi)
    ensures OneAtATime(Transmit(d).tx, Transmit(d).eoi)
  {
    ArmBehaves(d);
    ClockTalkBehaves(Arm(d));
    hide HasBit, Confirmed, Complain, Arm, ClockTalk, TransmitterStalls;
  }

  lemma ArmBehaves(d: Drive)
    requires OneAtATime(d.tx, d.eoi)
    ensures OneAtATime(Arm(d).tx, Arm(d).eoi)
  {
    hide Confirmed;
  }

  lemma ClockTalkBehaves(d: Drive)
    requires OneAtATime(d.tx, d.eoi)
    ensures OneAtATime(ClockTalk(d).tx, ClockTalk(d).eoi)
  {
    hide Confirmed;
  }

  lemma ReceiveBehaves(d: Drive, next: Mode)
    requires OneAtATime(d.tx, d.eoi) && next == NextMode(d)
    ensures var d0 := Preempt(AbsenceCheck(d, next));
            var d1 := ReceiveTimeout(Receive(Consume, d0, next), next);
            && OneAtATime(d1.tx, d1.eoi) && d1.mode == d.mode && d1.lines == d.lines
            && (d1.eoi.pending ==> d.eoi.pending)
            && (next == TalkEoiAck ==> d1.eoi.pending == d.eoi.pending)
  {
    hide Consume, Complain, TimedReceiver, ReceiverStalls, ClockReceiver;
  }

  lemma TickBehaves(d: Drive)
    requires Behaves(d) && DosOk(d.dos)
    ensures Behaves(Tick(Consume, d))
  {
    hide HoldsClk, HoldsData;
    StepDos(d);
    var next := NextMode(d);
    ReceiveBehaves(d, next);
    var d1 := ReceiveTimeout(Receive(Consume, Preempt(AbsenceCheck(d, next)), next), next);
    TransmitBehaves(d1);
    hide Consume, Transmit, Receive, ReceiveTimeout, Preempt, AbsenceCheck, DosOk, Complain;
  }

  function Run(d: Drive, lines: seq<Lines>): Drive {
    if lines == [] then d
    else Tick(Consume, Run(d, lines[..|lines| - 1]).(lines := lines[|lines| - 1]))
  }

  /** From power-on, whatever the bus lines do: the bit counters stay in range, channels, allocator and
      names stay in order, and while ATN is low the drive pulls neither line. With ATN released it pulls CLK
      exactly if its VIA holds it, and DATA exactly for a zero bit of the byte it was told to say or if its
      VIA holds it. */
  lemma {:induction false} DriveIsWellBehaved(address: Byte, memory: seq<Byte>, lines: seq<Lines>)
    ensures var d := Run(PowerOn(address, memory), lines);
            var released := lines != [] && lines[|lines| - 1].atn;
            && DriveOk(d) && DosOk(d.dos) && Behaves(d)
            && (d.pullsClk <==> released && HoldsClk(d.dos.disk.memory))
            && (d.pullsData <==> d.tx.pullData || (released && HoldsData(d.dos.disk.memory)))
            && (d.tx.pullData ==> released && d.dos.talking && d.mode == TalkData)
  {
    hide DriveOk, DosOk, Tick, HoldsClk, HoldsData;
    var start := PowerOn(address, memory);
    if lines == [] {
      PowerOnOk(address, memory);
    } else {
      var front, last := lines[..|lines| - 1], lines[|lines| - 1];
      DriveIsWellBehaved(address, memory, front);
      var d := Run(start, front).(lines := last);
      LinesAreFree(Run(start, front), last);
      TickKeepsDriveOk(Consume, d);
      StepDos(d);
      TickBehaves(d);
      TickRemembersLines(d);
    }
  }

  lemma PowerOnOk(address: Byte, memory: seq<Byte>)
    ensures var d := PowerOn(address, memory);
            && DriveOk(d) && DosOk(d.dos) && Behaves(d) && !d.pullsClk && !d.pullsData && !d.tx.pullData
            && Releases(d.dos)
  {
    ResetDiskOk(memory);
    hide DiskOk;
  }

  lemma LinesAreFree(d: Drive, lines: Lines)
    ensures DriveOk(d.(lines := lines)) == DriveOk(d) && Behaves(d.(lines := lines)) == Behaves(d)
  {
    hide HoldsClk, HoldsData;
  }

  lemma TickRemembersLines(d: Drive)
    ensures Tick(Consume, d).prev == d.lines && (Tick(Consume, d).mode == Command <==> !d.lines.atn)
  {
    hide Consume, Transmit, Receive, ReceiveTimeout, Preempt, AbsenceCheck, EoiWait, NotTalking, HoldsClk, HoldsData;
  }

  /** That it pulls DATA only while told to talk, and CLK never, holds of a drive exactly if its VIA holds
      neither line while ATN is released, or DATA only while it talks. */
  lemma PullsOnlyToTalkIff(address: Byte, memory: seq<Byte>, lines: seq<Lines>)
    ensures var d := Run(PowerOn(address, memory), lines);
            !d.pullsClk && (d.pullsData ==> d.dos.talking) <==>
            (lines != [] && lines[|lines| - 1].atn ==>
               !HoldsClk(d.dos.disk.memory) && (HoldsData(d.dos.disk.memory) ==> d.dos.talking))
  {
    DriveIsWellBehaved(address, memory, lines);
    hide *;
  }

  // ---- what the drive stores over a run -------------------------------------------------------------

  /** The same stored content: memory and VIA, allocator and block buffer. */
  predicate SameStores(a: Disk, b: Disk) {
    a.memory == b.memory && a.tables == b.tables && a.buffer == b.buffer
  }

  /** Naming a channel and building a directory leave memory and the allocator's tables alone. */
  lemma CommitKeepsStores(dos: Dos)
    ensures var d := CommitName(dos);
            && SameStores(d.disk, dos.disk)
            && d.commandBuffer == dos.commandBuffer && d.listenChannel == dos.listenChannel
  {
    hide SpecOf, FiltersOf, BufferPayload;
  }

  /** UNLISTEN carries out what channel 15 has collected. */
  predicate Executes(dos: Dos, m: Message) {
    m == Message(0x3F, true) && dos.listenChannel == 15 && dos.commandBuffer != []
  }

  /** A byte heard changes memory, tables and buffer only by the command it completes. */
  lemma ConsumeStores(dos: Dos, m: Message)
    ensures var disk, after := dos.disk, Consume(dos, m).disk;
            if Executes(dos, m)
            then exists named: Disk :: SameStores(named, disk) && after == Execute(named, dos.commandBuffer).disk
            else SameStores(after, disk)
  {
    if m.command || !dos.needsFreshCommand {
      var d1 := dos.(needsFreshCommand := false, heard := dos.heard + [m]);
      CommitKeepsStores(d1);
      var named := CommitName(d1).disk;
      hide CommitName, Execute, CommandByte;
      if m == Message(0x3F, true) {
        UnlistenIsByte(d1);
        if Executes(dos, m) {
          assert Consume(dos, m).disk == Execute(named, dos.commandBuffer).disk;
        }
      } else if m.command {
        OtherCommandsStoreNothing(d1, m.byte);
      }
    }
  }

  lemma UnlistenIsByte(dos: Dos)
    ensures CommandByte(dos, 0x3F) == Unlisten(dos)
  {
    hide Unlisten, CloseChannel, OpenForListen, OpenForTalk, Listen, Talk;
  }

  lemma OtherCommandsStoreNothing(dos: Dos, cmd: Byte)
    requires cmd != 0x3F
    ensures SameStores(CommandByte(dos, cmd).disk, dos.disk)
  {
    var ch := cmd & 0x0F;
    CommandIsOneOf(dos, cmd);
    OpeningStoresNothing(dos, ch);
    ClosingStoresNothing(dos, ch);
    ListenStoresNothing(dos, cmd);
    hide *;
    assert SameStores(dos.disk, dos.disk) by { SameStoresItself(dos.disk); }
  }

  lemma SameStoresItself(disk: Disk)
    ensures SameStores(disk, disk)
  {
  }

  lemma ClosingStoresNothing(dos: Dos, ch: Byte)
    ensures SameStores(CloseChannel(dos, ch).disk, dos.disk) && SameStores(Untalk(dos).disk, dos.disk)
  {
  }

  lemma ListenStoresNothing(dos: Dos, cmd: Byte)
    ensures SameStores(Listen(dos, cmd).disk, dos.disk) && SameStores(Talk(dos, cmd).disk, dos.disk)
  {
    hide ForDevice, SameStores;
    SameStoresItself(dos.disk);
  }

  /** The step completes the UNLISTEN that has the collected command carried out. */
  predicate ExecutesNow(d: Drive) {
    Completes(d, NextMode(d)) && Executes(d.dos, Received(d, NextMode(d)))
  }

  /** A step changes what is stored only by the command it carries out. */
  lemma TickStores(d: Drive)
    ensures var disk, after := d.dos.disk, Tick(Consume, d).dos.disk;
            if ExecutesNow(d)
            then exists named: Disk :: SameStores(named, disk) && after == Execute(named, d.dos.commandBuffer).disk
            else SameStores(after, disk)
  {
    var next := NextMode(d);
    var d0 := Preempt(AbsenceCheck(d, next));
    BeforeReceivingStays(d, next);
    ConsumeStores(d0.dos, Received(d, next));
    SameStoresItself(d.dos.disk);
    hide Consume, NextMode, Preempt, AbsenceCheck, SameStores, Completes, Received, Execute;
    ReceivedDisk(d0, next);
    TickDisk(d);
    hide Receive, Tick;
  }

  lemma BeforeReceivingStays(d: Drive, next: Mode)
    ensures var d0 := Preempt(AbsenceCheck(d, next));
            && d0.dos == d.dos.(status := d0.dos.status)
            && Completes(d0, next) == Completes(d, next) && Received(d0, next) == Received(d, next)
  {
    hide SilentTransmitter, NoEoi, Sample;
  }

  lemma ReceivedDisk(d: Drive, next: Mode)
    ensures Receive(Consume, d, next).dos.disk
         == if Completes(d, next) then Consume(d.dos, Received(d, next)).disk else d.dos.disk
  {
    hide Consume, ClockReceiver, Completes, Received, SilentTransmitter, NoEoi;
  }

  /** Everything but the receiver leaves the disk alone. */
  lemma TickDisk(d: Drive)
    ensures var next := NextMode(d);
            Tick(Consume, d).dos.disk == Receive(Consume, Preempt(AbsenceCheck(d, next)), next).dos.disk
  {
    var next := NextMode(d);
    var d1 := Receive(Consume, Preempt(AbsenceCheck(d, next)), next);
    StepIsTalk(d);
    TalkKeepsDisk(ReceiveTimeout(d1, next));
    assert ReceiveTimeout(d1, next).dos.disk == d1.dos.disk;
    hide *;
  }

  lemma TalkKeepsDisk(d: Drive)
    ensures Transmit(d).dos.disk == d.dos.disk && EoiWait(d).dos.disk == d.dos.disk
  {
    hide ArmStart, OpenFrame, ClockTransmitter, DriveBit, TransmitterStalls, EoiSeen, EoiTimed;
  }

  /** The drive as step `k` of a run finds it. */
  function Before(d: Drive, lines: seq<Lines>, k: nat): Drive
    requires k < |lines|
  {
    Run(d, lines[..k]).(lines := lines[k])
  }

  /** Every command carried out over the run leaves the VIA's registers alone. */
  predicate HarmlessRun(d: Drive, lines: seq<Lines>) {
    forall k :: 0 <= k < |lines| && ExecutesNow(Before(d, lines, k)) ==> Harmless(Before(d, lines, k).dos.commandBuffer)
  }

  lemma TickKeepsHold(d: Drive)
    requires ExecutesNow(d) ==> Harmless(d.dos.commandBuffer)
    ensures SameHold(d.dos.disk.memory, Tick(Consume, d).dos.disk.memory)
  {
    TickStores(d);
    hide Tick, ExecutesNow, Harmless, HoldsClk, HoldsData, Execute;
    if ExecutesNow(d) {
      var named: Disk :| SameStores(named, d.dos.disk)
                         && Tick(Consume, d).dos.disk == Execute(named, d.dos.commandBuffer).disk;
      HarmlessKeepsHold(named, d.dos.commandBuffer);
    }
  }

  lemma BeforeInFront(d: Drive, lines: seq<Lines>, k: nat)
    requires k < |lines| - 1
    ensures Before(d, lines[..|lines| - 1], k) == Before(d, lines, k)
  {
    assert lines[..|lines| - 1][..k] == lines[..k];
    hide Run;
  }

  lemma RunEnds(d: Drive, lines: seq<Lines>)
    requires lines != []
    ensures Run(d, lines) == Tick(Consume, Before(d, lines, |lines| - 1))
  {
    hide Tick;
  }

  lemma {:induction false} HarmlessRunKeepsHold(d: Drive, lines: seq<Lines>)
    requires HarmlessRun(d, lines)
    ensures SameHold(d.dos.disk.memory, Run(d, lines).dos.disk.memory)
    decreases |lines|
  {
    hide Harmless, ExecutesNow, Tick, HoldsClk, HoldsData;
    if lines != [] {
      var last := |lines| - 1;
      forall k | 0 <= k < last ensures Before(d, lines[..last], k) == Before(d, lines, k) {
        BeforeInFront(d, lines, k);
      }
      HarmlessRunKeepsHold(d, lines[..last]);
      RunEnds(d, lines);
      TickKeepsHold(Before(d, lines, last));
      hide Run;
    }
  }

  /** From power-on, over any run in which no command stores to the VIA's port or direction register, the
      drive never pulls CLK, and DATA only while it is told to talk and ATN is released. */
  lemma HarmlessRunPullsOnlyToTalk(address: Byte, memory: seq<Byte>, lines: seq<Lines>)
    requires HarmlessRun(PowerOn(address, memory), lines)
    ensures var d := Run(PowerOn(address, memory), lines);
            && Releases(d.dos) && !d.pullsClk
            && (d.pullsData ==> d.dos.talking && lines != [] && lines[|lines| - 1].atn)
  {
    hide Run, PowerOn, HarmlessRun, HoldsClk, HoldsData, Behaves, DriveOk, DosOk;
    PowerOnOk(address, memory);
    HarmlessRunKeepsHold(PowerOn(address, memory), lines);
    DriveIsWellBehaved(address, memory, lines);
  }

  // ---- the block buffer over a run ------------------------------------------------------------------

  predicate FillsNow(d: Drive) {
    ExecutesNow(d) && FillsBuffer(d.dos.disk.tables, d.dos.commandBuffer)
  }

  lemma TickFillsIff(d: Drive)
    ensures Tick(Consume, d).dos.disk.buffer.Some? <==> d.dos.disk.buffer.Some? || FillsNow(d)
  {
    TickStores(d);
    hide Tick, ExecutesNow, FillsBuffer, Execute;
    if ExecutesNow(d) {
      var named: Disk :| SameStores(named, d.dos.disk)
                         && Tick(Consume, d).dos.disk == Execute(named, d.dos.commandBuffer).disk;
      BufferFilledIff(named, d.dos.commandBuffer);
    }
  }

  /** Over any run the block buffer is there exactly if it was before or some step carried out a successful
      B-R or B-F: nothing but a reset takes it away again. */
  lemma {:induction false} BufferStandsIff(d: Drive, lines: seq<Lines>)
    ensures Run(d, lines).dos.disk.buffer.Some?
       <==> d.dos.disk.buffer.Some? || exists k :: 0 <= k < |lines| && FillsNow(Before(d, lines, k))
    decreases |lines|
  {
    hide FillsNow, Tick;
    if lines != [] {
      var last := |lines| - 1;
      forall k | 0 <= k < last ensures Before(d, lines[..last], k) == Before(d, lines, k) {
        BeforeInFront(d, lines, k);
      }
      BufferStandsIff(d, lines[..last]);
      RunEnds(d, lines);
      TickFillsIff(Before(d, lines, last));
      assert Run(d, lines[..last]).dos == Before(d, lines, last).dos;
      hide Run, Before;
    }
  }

  lemma OpeningStoresNothing(dos: Dos, ch: Byte)
    ensures SameStores(OpenForListen(dos, ch).disk, dos.disk) && SameStores(OpenForTalk(dos, ch).disk, dos.disk)
  {
    WithoutNameStoresNothing(dos.disk, ch);
    RefillStoresNothing(dos.(talkChannel := ch, sa0Confirmed := ch == 0));
    hide WithoutName, Refill, ChannelFifteen;
  }

  lemma WithoutNameStoresNothing(disk: Disk, ch: Byte)
    ensures SameStores(WithoutName(disk, ch), disk)
  {
  }

  lemma RefillStoresNothing(dos: Dos)
    ensures SameStores(Refill(dos).disk, dos.disk)
  {
    hide BufferPayload, StubPayload;
  }

  /** A reset at any moment: from the next half cycle on the drive is one just switched on with the memory
      it had, whatever it was doing before. */
  lemma {:induction false} ResetIsPowerOn(d: Drive, lines: seq<Lines>)
    requires lines != []
    ensures Run(ResetDrive(d), lines) == Run(PowerOn(d.dos.address, d.dos.disk.memory.bytes), lines)
    decreases |lines|
  {
    var last := |lines| - 1;
    if last > 0 {
      ResetIsPowerOn(d, lines[..last]);
    } else {
      assert lines[..last] == [];
      PullIsForgotten(PowerOn(d.dos.address, d.dos.disk.memory.bytes).(lines := lines[last]), d.pullsClk, d.pullsData);
    }
    hide Tick, PowerOn;
  }

  function WithPull(d: Drive, clk: bool, data: bool): Drive {
    d.(pullsClk := clk, pullsData := data)
  }

  /** A step does not look at the pulls it left behind, nor does any part of it. */
  lemma PullIsForgotten(d: Drive, clk: bool, data: bool)
    ensures Tick(Consume, WithPull(d, clk, data)) == Tick(Consume, d)
  {
    hide AbsenceCheck, Preempt, Receive, ReceiveTimeout, EoiWait, NotTalking, Transmit, Consume, NextMode, HoldsClk,
         HoldsData;
    NextModeIgnoresPull(d, clk, data);
    var next := NextMode(d);
    var d1 := AbsenceCheck(d, next);
    var d2 := Preempt(d1);
    var d3 := Receive(Consume, d2, next);
    ReceivingIgnoresPull(d, d1, d2, d3, next, clk, data);
    TalkingIgnoresPull(ReceiveTimeout(d3, next), clk, data);
  }

  lemma NextModeIgnoresPull(d: Drive, clk: bool, data: bool)
    ensures NextMode(WithPull(d, clk, data)) == NextMode(d)
  {
  }

  lemma ReceivingIgnoresPull(d: Drive, d1: Drive, d2: Drive, d3: Drive, next: Mode, clk: bool, data: bool)
    requires d1 == AbsenceCheck(d, next) && d2 == Preempt(d1) && d3 == Receive(Consume, d2, next)
    ensures ReceiveTimeout(Receive(Consume, Preempt(AbsenceCheck(WithPull(d, clk, data), next)), next), next)
         == WithPull(ReceiveTimeout(d3, next), clk, data)
  {
    hide *;
    AbsenceCheckIgnoresPull(d, next, clk, data);
    PreemptIgnoresPull(d1, clk, data);
    ReceiveIgnoresPull(d2, next, clk, data);
    ReceiveTimeoutIgnoresPull(d3, next, clk, data);
  }

  lemma TalkingIgnoresPull(d: Drive, clk: bool, data: bool)
    ensures EoiWait(WithPull(d, clk, data)) == WithPull(EoiWait(d), clk, data)
    ensures NotTalking(WithPull(d, clk, data)) == WithPull(NotTalking(d), clk, data)
    ensures Transmit(WithPull(d, clk, data)) == WithPull(Transmit(d), clk, data)
  {
    hide EoiWait, NotTalking, Arm, ClockTalk, PutBit, WithPull;
    EoiWaitIgnoresPull(d, clk, data);
    NotTalkingIgnoresPull(d, clk, data);
    ArmIgnoresPull(d, clk, data);
    ClockTalkIgnoresPull(Arm(d), clk, data);
    PutBitIgnoresPull(ClockTalk(Arm(d)), clk, data);
  }

  lemma AbsenceCheckIgnoresPull(d: Drive, next: Mode, clk: bool, data: bool)
    ensures AbsenceCheck(WithPull(d, clk, data), next) == WithPull(AbsenceCheck(d, next), clk, data)
  {
  }

  lemma PreemptIgnoresPull(d: Drive, clk: bool, data: bool)
    ensures Preempt(WithPull(d, clk, data)) == WithPull(Preempt(d), clk, data)
  {
  }

  lemma ReceiveIgnoresPull(d: Drive, next: Mode, clk: bool, data: bool)
    ensures Receive(Consume, WithPull(d, clk, data), next) == WithPull(Receive(Consume, d, next), clk, data)
  {
    hide Consume, ClockReceiver, Completes, Received, SilentTransmitter, NoEoi;
    ClockReceiverIgnoresPull(d, next, clk, data);
    CompletesIgnoresPull(d, next, clk, data);
  }

  lemma ClockReceiverIgnoresPull(d: Drive, next: Mode, clk: bool, data: bool)
    ensures ClockReceiver(WithPull(d, clk, data), next) == ClockReceiver(d, next)
  {
  }

  lemma CompletesIgnoresPull(d: Drive, next: Mode, clk: bool, data: bool)
    ensures Completes(WithPull(d, clk, data), next) == Completes(d, next)
    ensures Received(WithPull(d, clk, data), next) == Received(d, next)
  {
  }

  lemma ReceiveTimeoutIgnoresPull(d: Drive, next: Mode, clk: bool, data: bool)
    ensures ReceiveTimeout(WithPull(d, clk, data), next) == WithPull(ReceiveTimeout(d, next), clk, data)
  {
  }

  lemma EoiWaitIgnoresPull(d: Drive, clk: bool, data: bool)
    ensures EoiWait(WithPull(d, clk, data)) == WithPull(EoiWait(d), clk, data)
  {
  }

  lemma NotTalkingIgnoresPull(d: Drive, clk: bool, data: bool)
    ensures NotTalking(WithPull(d, clk, data)) == WithPull(NotTalking(d), clk, data)
  {
  }

  lemma ArmIgnoresPull(d: Drive, clk: bool, data: bool)
    ensures Arm(WithPull(d, clk, data)) == WithPull(Arm(d), clk, data)
  {
  }

  lemma ClockTalkIgnoresPull(d: Drive, clk: bool, data: bool)
    ensures ClockTalk(WithPull(d, clk, data)) == WithPull(ClockTalk(d), clk, data)
  {
  }

  lemma PutBitIgnoresPull(d: Drive, clk: bool, data: bool)
    ensures PutBit(WithPull(d, clk, data)) == WithPull(PutBit(d), clk, data)
  {
  }

  // ---- reachable drives ----------------------------------------------------------------------------

  /** A drive that some run from power-on leads to, seeing any lines. */
  ghost predicate Reachable(d: Drive) {
    exists address: Byte, memory: seq<Byte>, lines: seq<Lines> ::
      d == Run(PowerOn(address, memory), lines).(lines := d.lines)
  }

  lemma ReachableIsOk(d: Drive)
    requires Reachable(d)
    ensures DosOk(d.dos)
  {
    var address: Byte, memory: seq<Byte>, lines: seq<Lines> :|
      d == Run(PowerOn(address, memory), lines).(lines := d.lines);
    DriveIsWellBehaved(address, memory, lines);
  }

  lemma TickIsReachable(d: Drive)
    requires Reachable(d)
    ensures Reachable(Tick(Consume, d))
  {
    hide Tick, PowerOn, Run;
    var address: Byte, memory: seq<Byte>, lines: seq<Lines> :|
      d == Run(PowerOn(address, memory), lines).(lines := d.lines);
    var start, more := PowerOn(address, memory), lines + [d.lines];
    assert more[..|more| - 1] == lines;
    RunEnds(start, more);
    assert Before(start, more, |more| - 1) == d;
    hide Before;
    assert Tick(Consume, d) == Run(start, more).(lines := Tick(Consume, d).lines);
  }

  lemma PowerOnIsReachable(address: Byte, memory: seq<Byte>)
    ensures Reachable(PowerOn(address, memory))
  {
    var d := PowerOn(address, memory);
    assert Run(d, []) == d;
    hide Run;
    assert d == Run(PowerOn(address, memory), []).(lines := d.lines);
  }
}
