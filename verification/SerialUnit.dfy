/** The drive's serial unit as an object that updates its fields, proved against the step functions.
    Related flags of the source are grouped into one record per field. */
module SerialUnit {
  import opened IecLines
  import opened DosNames
  import opened DosCommands
  import opened DriveDos
  import opened DriveSerial
  import opened Options
  import opened CommandRunner

  lemma SampleCounts(rx: Receiver, data: bool)
    ensures Sample(rx, data).count == rx.count + 1
  {
  }

  lemma ClockTalkKeepsEdge(d: Drive)
    ensures Falling(ClockTalk(d)) == Falling(d)
  {
  }

  /** The head of the queue moves into the transmitter. */
  function Loaded(tx: Transmitter, dos: Dos): (Transmitter, Dos)
    requires dos.queue != []
  {
    (tx.(shift := dos.queue[0], count := 0, active := true, isEoi := |dos.queue| == 1, between := 0),
     dos.(queue := dos.queue[1..]))
  }

  function StartedPending(tx: Transmitter, dos: Dos, eoiPending: bool, confirmed: bool): (Transmitter, Dos) {
    if tx.sawStart && tx.startPending && !tx.active && !eoiPending && confirmed then
      if dos.queue != [] then Loaded(tx.(startPending := false), dos)
      else (tx.(startPending := false, pullData := false), dos)
    else (tx, dos)
  }

  function StartedNext(tx: Transmitter, dos: Dos, eoiPending: bool, confirmed: bool): (Transmitter, Dos) {
    if tx.sawStart && !tx.active && !eoiPending && dos.queue != [] && confirmed then Loaded(tx, dos) else (tx, dos)
  }

  /** A falling edge starts the byte in waiting or, failing that, the next one: never two. */
  lemma FetchIsTwoStarts(d: Drive)
    ensures Falling(d) ==>
              var framed := d.tx.(sawStart := d.tx.sawStart || d.tx.armed);
              var one := StartedPending(framed, d.dos, d.eoi.pending, Confirmed(d.dos));
              var two := StartedNext(one.0, one.1, d.eoi.pending, Confirmed(d.dos));
              ClockTalk(d) == d.(tx := two.0, dos := two.1)
  {
    hide Confirmed;
  }

  lemma AdvanceIsOneBit(d: Drive)
    ensures !Falling(d) ==>
              var step := Rising(d) && d.tx.active;
              var ends := step && d.tx.count + 1 >= 8;
              ClockTalk(d) == d.(
                tx := if ends then d.tx.(active := false, count := 0, isEoi := false)
                      else if step then d.tx.(count := d.tx.count + 1) else d.tx,
                eoi := if ends && d.tx.isEoi then d.eoi.(pending := true, lowSeen := false, wait := 0) else d.eoi)
  {
    hide Confirmed;
  }

  /** Only channel 15 holds commands. */
  lemma NotFifteen(dos: Dos)
    ensures dos.listenChannel != 15 ==> RunCommand(dos) == dos
  {
    hide Execute;
  }

  class SerialUnit {
    var lines: Lines
    var prev: Lines
    var mode: Mode
    var rx: Receiver
    var tx: Transmitter
    var eoi: Eoi
    var dos: Dos
    var absentWait: nat
    var pullsClk: bool
    var pullsData: bool

    ghost function Model(): Drive
      reads this
    {
      Drive(lines, prev, mode, rx, tx, eoi, dos, absentWait, pullsClk, pullsData)
    }

    /** The unit as built and reset, for the given device address. */
    constructor (address: Byte, memory: seq<Byte>)
      ensures Model() == PowerOn(address, memory)
    {
      lines, prev, mode := RELEASED, RELEASED, Idle;
      rx := Receiver(0, 0, 0, false, false);
      tx := Transmitter(false, 0, 0, false, false, false, false, 0, 0, false);
      eoi := Eoi(false, false, 0, 0);
      dos := ResetDos(address, memory);
      absentWait, pullsClk, pullsData := 0, false, false;
    }

    /** The unit reset while it runs. */
    method Reset()
      modifies this
      ensures Model() == ResetDrive(old(Model()))
    {
      prev, mode := RELEASED, Idle;
      rx := Receiver(0, 0, 0, false, false);
      tx := Transmitter(false, 0, 0, false, false, false, false, 0, 0, false);
      eoi := Eoi(false, false, 0, 0);
      dos := ResetDos(dos.address, dos.disk.memory.bytes);
      absentWait := 0;
    }

    method SetLines(atnHigh: bool, clkHigh: bool, dataHigh: bool)
      modifies this
      ensures Model() == old(Model()).(lines := Lines(atnHigh, clkHigh, dataHigh))
    {
      lines := Lines(atnHigh, clkHigh, dataHigh);
    }

    method CheckAbsence(next: Mode)
      modifies this
      ensures Model() == AbsenceCheck(old(Model()), next)
    {
      if next == TalkData && !tx.active && !tx.startPending && dos.queue == [] {
        absentWait := absentWait + 1;
        if absentWait > TIMEOUT_TICKS {
          dos := dos.(status := NotReady);
          absentWait := 0;
        }
      } else {
        absentWait := 0;
      }
    }

    method ResetTransmitter()
      modifies this
      ensures Model() == old(Model()).(tx := SilentTransmitter(old(tx)))
    {
      tx := tx.(active := false, count := 0, isEoi := false);
      tx := tx.(startPending := false, armed := false, sawStart := false);
      tx := tx.(between := 0, pullData := false);
    }

    method ClearEoi()
      modifies this
      ensures Model() == old(Model()).(eoi := NoEoi(old(eoi)))
    {
      eoi := eoi.(pending := false, lowSeen := false);
      eoi := eoi.(wait := 0);
    }

    method PreemptTalk()
      modifies this
      ensures Model() == Preempt(old(Model()))
    {
      if !lines.atn && (mode == TalkData || mode == TalkEoiAck || tx.active || tx.startPending || eoi.pending) {
        ResetTransmitter();
        ClearEoi();
      }
    }

    // ---- the DOS behind the receiver ------------------------------------------------------------------

    method CloseIecChannel(ch: Byte)
      modifies this`dos
      ensures dos == CloseChannel(old(dos), ch)
    {
      if dos.listenChannel == ch {
        dos := dos.(listenChannel := NO_CHANNEL, expectingName := false);
        if ch == 15 {
          dos := dos.(commandBuffer := []);
        }
      }
      if dos.talkChannel == ch {
        dos := dos.(talkChannel := NO_CHANNEL);
        if ch == 0 {
          dos := dos.(sa0Confirmed := false);
        }
      }
    }

    /** The name becomes the channel's; a `$` on channel 0 builds the directory. */
    method CommitReceivedName()
      modifies this`dos
      ensures dos == CommitName(old(dos))
    {
      hide WithName, WithDirectory, BufferPayload;
      if dos.expectingName {
        var disk := CommitOpenName(dos.disk, dos.listenChannel, dos.name);
        if dos.listenChannel == 0 && dos.name != [] && dos.name[0] == DOLLAR {
          disk := PrepareDirectory(disk, dos.name);
          dos := dos.(queue := BufferPayload(disk));
        }
        dos := dos.(expectingName := false, disk := disk);
      }
    }

    method ProcessCommandChannelBuffer()
      modifies this`dos
      ensures dos == (if old(dos).listenChannel == 15 then RunCommand(old(dos)) else old(dos))
    {
      hide Execute;
      if dos.listenChannel == 15 && dos.commandBuffer != [] {
        var r := ProcessCommand(dos.disk, dos.commandBuffer);
        dos := dos.(commandBuffer := [], disk := r.disk, status := r.status);
        if r.response.Some? {
          dos := dos.(response := r.response.value);
        }
      }
    }

    method OpenTalkChannel(ch: Byte)
      modifies this`dos
      ensures dos == OpenForTalk(old(dos), ch)
    {
      hide ChannelFifteen, StubPayload;
      dos := dos.(talkChannel := ch, sa0Confirmed := ch == 0);
      if ch == 0 {
        if dos.queue == [] && dos.disk.prepared {
          if dos.disk.fromBuffer && dos.disk.buffer.Some? {
            dos := dos.(queue := BufferPayload(dos.disk));
          } else {
            dos := dos.(queue := StubPayload(dos.disk), disk := dos.disk.(fromBuffer := false));
          }
        }
      } else if ch == 15 {
        dos := dos.(queue := ChannelFifteen(dos));
        dos := dos.(response := []);
      } else {
        dos := dos.(status := NoChannel);
      }
    }

    method ListenOrTalk(cmd: Byte)
      requires cmd & 0xF0 == 0x20 || cmd & 0xF0 == 0x40
      modifies this`dos
      ensures dos == if cmd & 0xF0 == 0x20 then Listen(old(dos), cmd) else Talk(old(dos), cmd)
    {
      hide ForDevice;
      var mine := ForDevice(dos, cmd);
      if cmd & 0xF0 == 0x20 {
        dos := dos.(listening := mine);
        if mine {
          dos := dos.(listenChannel := 0, expectingName := true, name := []);
        } else {
          dos := dos.(expectingName := false, listenChannel := NO_CHANNEL);
        }
      } else {
        dos := dos.(talking := mine);
        if !mine {
          dos := dos.(talkChannel := NO_CHANNEL, sa0Confirmed := false);
        } else if dos.talkChannel != 0 {
          dos := dos.(sa0Confirmed := false);
        }
      }
    }

    method ProcessIecCommandByte(cmd: Byte)
      modifies this`dos
      ensures dos == CommandByte(old(dos), cmd)
    {
      hide CloseChannel, CommitName, RunCommand, OpenForListen, OpenForTalk, Listen, Talk;
      var ch := cmd & 0x0F;
      if cmd & 0xF0 == 0xE0 {
        CloseIecChannel(ch);
      } else if cmd == 0x3F {
        CommitReceivedName();
        NotFifteen(dos);
        ProcessCommandChannelBuffer();
        dos := dos.(listening := false);
      } else if cmd == 0x5F {
        dos := dos.(talking := false, talkChannel := NO_CHANNEL, sa0Confirmed := false);
      } else if dos.listening && cmd & 0xF0 == 0xF0 {
        dos := OpenForListen(dos, ch);
      } else if dos.talking && cmd & 0xF0 == 0x60 {
        OpenTalkChannel(ch);
      } else if cmd & 0xF0 == 0x20 || cmd & 0xF0 == 0x40 {
        ListenOrTalk(cmd);
      }
    }

    method ProcessIecDataByte(data: Byte)
      modifies this`dos
      ensures dos == DataByte(old(dos), data)
    {
      if dos.listening {
        if dos.listenChannel == 15 {
          dos := dos.(commandBuffer := dos.commandBuffer + [data]);
        } else if dos.expectingName {
          dos := dos.(name := dos.name + [data]);
        } else if dos.listenChannel != 0 {
          dos := dos.(status := NoChannel);
        } else {
          dos := dos.(status := FileTypeMismatch);
        }
      }
    }

    method DispatchByte(byte: Byte, isCommand: bool)
      modifies this`dos
      ensures dos == Consume(old(dos), Message(byte, isCommand))
    {
      hide CommandByte, DataByte;
      if dos.needsFreshCommand && !isCommand {
        return;
      }
      dos := dos.(needsFreshCommand := false);
      dos := dos.(heard := dos.heard + [Message(byte, isCommand)]);
      if isCommand {
        ProcessIecCommandByte(byte);
      } else {
        ProcessIecDataByte(byte);
      }
    }

    /** Hands a byte to the DOS; UNLISTEN and UNTALK reach back into the receiver and the transmitter. */
    method ConsumeReceivedByte(byte: Byte, isCommand: bool)
      modifies this
      ensures var m, before := Message(byte, isCommand), old(Model());
              Model() == before.(
                dos := Consume(before.dos, m),
                rx := if m == Message(0x3F, true) then before.rx.(shift := 0, count := 0, idle := 0) else before.rx,
                tx := if m == Message(0x5F, true)
                      then SilentTransmitter(before.tx).(between := before.tx.between, idle := 0) else before.tx,
                eoi := if m == Message(0x5F, true) then NoEoi(before.eoi) else before.eoi)
    {
      hide Consume;
      DispatchByte(byte, isCommand);
      if isCommand && byte == 0x3F {
        rx := rx.(count := 0, shift := 0, idle := 0);
      }
      if isCommand && byte == 0x5F {
        var between := tx.between;
        ResetTransmitter();
        tx := tx.(between := between, idle := 0);
        ClearEoi();
      }
    }

    method FrameBit(next: Mode) returns (qualified: bool)
      modifies this
      ensures Model() == old(Model()).(rx := FrameReceiver(old(Model()), next))
      ensures qualified == EdgeQualified(old(Model()), next)
    {
      var falling := prev.clk && !lines.clk;
      if mode != Command && next == Command {
        rx := rx.(shift := 0, count := 0, idle := 0);
        rx := rx.(frameSync := true, sawStart := false);
      }
      if next != Command {
        rx := rx.(frameSync := false, sawStart := false);
      }
      qualified := next == Command || next == ListenData;
      if next == Command && rx.frameSync && !rx.sawStart {
        if falling {
          rx := rx.(sawStart := true);
        }
        qualified := false;
      }
    }

    method SampleBit()
      modifies this
      ensures Model() == old(Model()).(rx := Sample(old(rx), old(lines.data)))
    {
      hide Bit;
      rx := rx.(shift := rx.shift | (if lines.data then Bit(rx.count) else 0));
      rx := rx.(count := rx.count + 1);
    }

    method ReceiveClockedBit(next: Mode)
      modifies this
      ensures Model() == Receive(Consume, old(Model()), next)
    {
      hide Consume, FrameReceiver, Sample, SilentTransmitter, NoEoi, EdgeQualified;
      ghost var before := Model();
      var rising := !prev.clk && lines.clk;
      var qualified := FrameBit(next);
      if rising && qualified {
        SampleBit();
        assert rx == ClockReceiver(before, next);
        SampleCounts(FrameReceiver(before, next), lines.data);
        if rx.count >= 8 {
          ConsumeReceivedByte(rx.shift, next == Command);
          rx := rx.(shift := 0, count := 0);
        }
      }
    }

    method TimeReceiver(next: Mode)
      modifies this
      ensures Model() == ReceiveTimeout(old(Model()), next)
    {
      if rx.count > 0 {
        if prev.clk != lines.clk {
          rx := rx.(idle := 0);
        } else if next != Command {
          rx := rx.(idle := rx.idle + 1);
          if rx.idle > RECEIVER_TIMEOUT + TIMEOUT_HYSTERESIS {
            rx := rx.(count := 0, shift := 0, idle := 0);
            dos := dos.(status := NotReady);
          }
        }
      } else {
        rx := rx.(idle := 0);
      }
    }

    method WaitForEoiAck()
      modifies this
      ensures Model() == EoiWait(old(Model()))
    {
      tx := tx.(pullData := false);
      if !lines.data {
        eoi := eoi.(lowSeen := true);
      }
      if eoi.lowSeen && lines.data {
        ClearEoi();
        eoi := eoi.(acks := eoi.acks + 1);
      }
      if !eoi.lowSeen {
        eoi := eoi.(wait := eoi.wait + 1);
        if eoi.wait > TIMEOUT_TICKS {
          eoi := eoi.(pending := false, wait := 0);
          dos := dos.(status := NotReady);
        }
      }
    }

    method SilenceTalker()
      modifies this
      ensures Model() == NotTalking(old(Model()))
    {
      ResetTransmitter();
      eoi := eoi.(pending := false, lowSeen := false);
    }

    method ArmTalkStart()
      modifies this
      ensures Model() == Arm(old(Model()))
    {
      var entering := mode != TalkData;
      if entering {
        tx := tx.(armed := true, sawStart := false);
      }
      var confirmed := Confirmed(dos);
      if entering && !tx.active && !eoi.pending && dos.queue != [] {
        tx := tx.(startPending := confirmed, pullData := false, between := 0);
      }
      if !tx.startPending && !tx.active && !eoi.pending && dos.queue != [] && confirmed {
        if tx.between < BETWEEN_BYTES {
          tx := tx.(between := tx.between + 1);
        }
        if tx.between >= BETWEEN_BYTES {
          tx := tx.(startPending := true, between := 0);
        }
      }
    }

    method LoadNextByte()
      requires dos.queue != []
      modifies this`tx, this`dos
      ensures (tx, dos) == Loaded(old(tx), old(dos))
    {
      tx := tx.(isEoi := |dos.queue| == 1, shift := dos.queue[0]);
      dos := dos.(queue := dos.queue[1..]);
      tx := tx.(count := 0, active := true, between := 0);
    }

    method FrameByte()
      modifies this`tx
      ensures tx == old(tx).(sawStart := old(tx).sawStart || old(tx).armed)
    {
      if tx.armed && !tx.sawStart {
        tx := tx.(sawStart := true);
      }
    }

    method StartPendingByte(confirmed: bool)
      modifies this`tx, this`dos
      ensures StartedPending(old(tx), old(dos), eoi.pending, confirmed) == (tx, dos)
    {
      if tx.sawStart && tx.startPending && !tx.active && !eoi.pending && confirmed {
        tx := tx.(startPending := false);
        if dos.queue != [] {
          LoadNextByte();
        } else {
          tx := tx.(pullData := false);
        }
      }
    }

    method StartNextByte(confirmed: bool)
      modifies this`tx, this`dos
      ensures StartedNext(old(tx), old(dos), eoi.pending, confirmed) == (tx, dos)
    {
      if tx.sawStart && !tx.active && !eoi.pending && dos.queue != [] && confirmed {
        LoadNextByte();
      }
    }

    method FetchOnFallingClock()
      modifies this`tx, this`dos
      ensures Model() == if Falling(old(Model())) then ClockTalk(old(Model())) else old(Model())
    {
      var confirmed := Confirmed(dos);
      FetchIsTwoStarts(Model());
      hide Confirmed, ClockTalk, StartedPending, StartedNext;
      if prev.clk && !lines.clk {
        FrameByte();
        StartPendingByte(confirmed);
        StartNextByte(confirmed);
      }
    }

    method AdvanceOnRisingClock()
      modifies this`tx, this`eoi
      ensures Model() == if Falling(old(Model())) then old(Model()) else ClockTalk(old(Model()))
    {
      AdvanceIsOneBit(Model());
      hide ClockTalk;
      if !prev.clk && lines.clk && tx.active {
        tx := tx.(count := tx.count + 1);
        if tx.count >= 8 {
          tx := tx.(active := false, count := 0);
          if tx.isEoi {
            eoi := eoi.(pending := true, lowSeen := false, wait := 0);
          }
          tx := tx.(isEoi := false);
        }
      }
    }

    method OutputBit()
      modifies this
      ensures Model() == PutBit(old(Model()))
    {
      hide HasBit;
      if !tx.active {
        tx := tx.(idle := 0);
      } else if prev.clk != lines.clk {
        tx := tx.(pullData := !HasBit(tx.shift, tx.count), idle := 0);
      } else if tx.idle + 1 > TIMEOUT_TICKS + TIMEOUT_HYSTERESIS {
        tx := tx.(active := false, count := 0, pullData := false, idle := 0);
        dos := dos.(status := NotReady);
      } else {
        tx := tx.(pullData := !HasBit(tx.shift, tx.count), idle := tx.idle + 1);
      }
    }

    method TransmitClockedBit()
      modifies this
      ensures Model() == Transmit(old(Model()))
    {
      hide ArmStart, PutBit;
      ArmTalkStart();
      ghost var armed := Model();
      ClockTalkKeepsEdge(armed);
      hide ClockTalk;
      FetchOnFallingClock();
      AdvanceOnRisingClock();
      OutputBit();
    }

    /** One serial step: the next state is fixed first, then receiver and transmitter run. */
    method StepIecSerial()
      modifies this
      ensures Model() == StepSerial(Consume, old(Model()))
    {
      hide Consume, Receive, Transmit, EoiWait, NotTalking, Preempt, AbsenceCheck, ReceiveTimeout;
      var curr := lines;
      var next := Idle;
      if !lines.atn {
        next := Command;
      } else if dos.talking {
        next := if eoi.pending then TalkEoiAck else TalkData;
      } else if dos.listening {
        next := ListenData;
      }
      CheckAbsence(next);
      PreemptTalk();
      ReceiveClockedBit(next);
      TimeReceiver(next);
      if next == TalkEoiAck {
        WaitForEoiAck();
      } else if next != TalkData {
        SilenceTalker();
      } else {
        TransmitClockedBit();
      }
      mode := next;
      prev := curr;
    }

    /** One half cycle of the powered drive. */
    method TickIecHalfCycle()
      modifies this
      ensures Model() == Tick(Consume, old(Model()))
    {
      hide StepSerial, HoldsClk, HoldsData;
      StepIecSerial();
      var viaPullsClk, viaPullsData := HoldsClk(dos.disk.memory), HoldsData(dos.disk.memory);
      if mode == Command {
        viaPullsClk, viaPullsData := false, false;
      }
      pullsClk := viaPullsClk;
      pullsData := viaPullsData || tx.pullData;
    }
  }
}
