/** The drive's DOS as the serial bus reaches it: what a command or data byte does to channels, names,
    the disk and the transmit queue. */
module DriveDos {
  import opened Options
  import opened DosNames
  import opened DosCommands

  const NO_CHANNEL: Byte := 0xFF
  const DOLLAR: Byte := 0x24

  /** A byte the receiver handed on, with the tag it was handed on under. */
  datatype Message = Message(byte: Byte, command: bool)

  datatype Dos = Dos(
    address: Byte, listening: bool, talking: bool,
    listenChannel: Byte, talkChannel: Byte, sa0Confirmed: bool,
    expectingName: bool, name: seq<Byte>, commandBuffer: seq<Byte>, needsFreshCommand: bool,
    status: Status, response: seq<Byte>, queue: seq<Byte>, heard: seq<Message>, disk: Disk)

  function ResetDos(address: Byte, memory: seq<Byte>): Dos {
    Dos(address, false, false, NO_CHANNEL, NO_CHANNEL, false, false, [], [], false,
        NoError, [], [], [], ResetDisk(memory))
  }

  function Ascii(s: string): seq<Byte> {
    seq(|s|, i requires 0 <= i < |s| => (s[i] as int % 256) as Byte)
  }

  /** What channel 15 says when it is asked to talk: a pending command response, else the status. */
  function ChannelFifteen(dos: Dos): seq<Byte> {
    (if dos.response != [] then dos.response else Ascii(StatusLine(dos.status))) + [0x0D]
  }

  function ForDevice(dos: Dos, cmd: Byte): bool {
    cmd & 0x1F == dos.address & 0x1F
  }

  function CloseChannel(dos: Dos, ch: Byte): Dos {
    var d1 := if dos.listenChannel == ch
              then dos.(listenChannel := NO_CHANNEL, expectingName := false,
                        commandBuffer := if ch == 15 then [] else dos.commandBuffer)
              else dos;
    if d1.talkChannel == ch
    then d1.(talkChannel := NO_CHANNEL, sa0Confirmed := if ch == 0 then false else d1.sa0Confirmed)
    else d1
  }

  /** The name received becomes the channel's. */
  function WithName(disk: Disk, ch: Byte, name: seq<Byte>): Disk {
    if ch < 16 then disk.(specs := disk.specs[ch as nat := SpecOf(name)]) else disk
  }

  predicate AsksForDirectory(dos: Dos) {
    dos.listenChannel == 0 && dos.name != [] && dos.name[0] == DOLLAR
  }

  /** A directory was asked for: the filters are kept, and a valid block buffer takes its place. */
  function WithDirectory(disk: Disk, name: seq<Byte>): Disk {
    disk.(filters := FiltersOf(name), prepared := true, fromBuffer := disk.buffer.Some?)
  }

  function CommitName(dos: Dos): Dos {
    if !dos.expectingName then dos
    else
      var named := WithName(dos.disk, dos.listenChannel, dos.name);
      var asked := AsksForDirectory(dos);
      var disk := if asked then WithDirectory(named, dos.name) else named;
      dos.(expectingName := false, disk := disk, queue := if asked then BufferPayload(disk) else dos.queue)
  }

  /** A command received on channel 15 is carried out. */
  function RunCommand(dos: Dos): Dos {
    if dos.listenChannel != 15 || dos.commandBuffer == [] then dos
    else
      var r := Execute(dos.disk, dos.commandBuffer);
      dos.(disk := r.disk, status := r.status, commandBuffer := [],
           response := if r.response.Some? then r.response.value else dos.response)
  }

  function Unlisten(dos: Dos): Dos {
    RunCommand(CommitName(dos)).(listening := false)
  }

  function Untalk(dos: Dos): Dos {
    dos.(talking := false, talkChannel := NO_CHANNEL, sa0Confirmed := false)
  }

  function WithoutName(disk: Disk, ch: Byte): Disk {
    if ch < 16 then disk.(specs := disk.specs[ch as nat := disk.specs[ch as nat].(valid := false, name := "")])
        else disk
  }

  function OpenForListen(dos: Dos, ch: Byte): Dos {
    dos.(listenChannel := ch, name := [], expectingName := true, disk := WithoutName(dos.disk, ch))
  }

  /** Asked to talk on channel 0 with nothing queued, the drive builds the last directory anew. */
  function Refill(dos: Dos): Dos {
    if dos.queue == [] && dos.disk.prepared then
      dos.(queue := if dos.disk.fromBuffer then BufferPayload(dos.disk) else StubPayload(dos.disk),
           disk := dos.disk.(fromBuffer := dos.disk.fromBuffer && dos.disk.buffer.Some?))
    else dos
  }

  function OpenForTalk(dos: Dos, ch: Byte): Dos {
    var d1 := dos.(talkChannel := ch, sa0Confirmed := ch == 0);
    if ch == 0 then Refill(d1)
    else if ch == 15 then d1.(queue := ChannelFifteen(d1), response := [])
    else d1.(status := NoChannel)
  }

  function Listen(dos: Dos, cmd: Byte): Dos {
    if ForDevice(dos, cmd)
    then dos.(listening := true, listenChannel := 0, expectingName := true, name := [])
    else dos.(listening := false, expectingName := false, listenChannel := NO_CHANNEL)
  }

  function Talk(dos: Dos, cmd: Byte): Dos {
    if !ForDevice(dos, cmd)
    then dos.(talking := false, talkChannel := NO_CHANNEL, sa0Confirmed := false)
    else dos.(talking := true, sa0Confirmed := if dos.talkChannel != 0 then false else dos.sa0Confirmed)
  }

  function CommandByte(dos: Dos, cmd: Byte): Dos {
    var ch := cmd & 0x0F;
    if cmd & 0xF0 == 0xE0 then CloseChannel(dos, ch)
    else if cmd == 0x3F then Unlisten(dos)
    else if cmd == 0x5F then Untalk(dos)
    else if dos.listening && cmd & 0xF0 == 0xF0 then OpenForListen(dos, ch)
    else if dos.talking && cmd & 0xF0 == 0x60 then OpenForTalk(dos, ch)
    else if cmd & 0xF0 == 0x20 then Listen(dos, cmd)
    else if cmd & 0xF0 == 0x40 then Talk(dos, cmd)
    else dos
  }

  function DataByte(dos: Dos, data: Byte): Dos {
    if !dos.listening then dos
    else if dos.listenChannel == 15 then dos.(commandBuffer := dos.commandBuffer + [data])
    else if dos.expectingName then dos.(name := dos.name + [data])
    else if dos.listenChannel != 0 then dos.(status := NoChannel)
    else dos.(status := FileTypeMismatch)
  }

  /** Hands a byte on, unless the drive waits for a fresh command after the host was off. */
  function Consume(dos: Dos, m: Message): Dos {
    if dos.needsFreshCommand && !m.command then dos
    else
      var d1 := dos.(needsFreshCommand := false, heard := dos.heard + [m]);
      if m.command then CommandByte(d1, m.byte) else DataByte(d1, m.byte)
  }

  /** The DOS layer as the serial step sees it; the drive's own is `Consume`. */
  type Hearing = (Dos, Message) -> Dos
}
