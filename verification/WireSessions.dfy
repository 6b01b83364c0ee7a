/** Whole sessions over the wire: any string of commands, status readings and directory loads does to the
    drive, and brings back to the host, exactly what the same string does to a plain state. */
module WireSessions {
  import opened Options
  import opened IecLines
  import opened BlockTables
  import opened Directory
  import opened DosNames
  import opened ByteValues
  import opened DosCommands
  import opened CommandLaws
  import opened CommandStores
  import opened DriveDos
  import opened DriveSerial
  import opened DriveRuns
  import opened IecHost
  import opened IecTalk
  import opened HeldBus
  import opened LoadSession

  // ---- the plain state --------------------------------------------------------------------------

  datatype State = State(disk: Disk, status: Status, response: seq<Byte>)

  /** Send a command, read channel 15, or load a directory; the gaps are the host's pace of reading. */
  datatype Step = Order(raw: seq<Byte>) | Ask(gaps: seq<nat>) | Load(name: seq<Byte>, gaps: seq<nat>)

  /** Channel 15's answer: a pending response, else the status line. */
  function Answered(s: State): seq<Byte> {
    (if s.response != [] then s.response else Ascii(StatusLine(s.status))) + [0x0D]
  }

  function After(s: State, step: Step): State {
    match step
    case Order(raw) =>
      var r := Execute(Unnamed(s.disk, 15), raw);
      State(r.disk, r.status, if r.response.Some? then r.response.value else s.response)
    case Ask(_) => s.(response := [])
    case Load(name, _) => s.(disk := Asked(s.disk, name))
  }

  function Output(s: State, step: Step): seq<Byte> {
    match step
    case Order(_) => []
    case Ask(_) => Answered(s)
    case Load(name, _) => DirectoryBytes(s.disk, name)
  }

  function Final(s: State, steps: seq<Step>): State
    decreases |steps|
  {
    if steps == [] then s else Final(After(s, steps[0]), steps[1..])
  }

  function Replies(s: State, steps: seq<Step>): seq<seq<Byte>>
    decreases |steps|
  {
    if steps == [] then [] else [Output(s, steps[0])] + Replies(After(s, steps[0]), steps[1..])
  }

  predicate LeavesBus(m: Memory) {
    !HoldsClk(m) && !HoldsData(m)
  }

  /** A command is not empty, a name begins with `$`, and the host reads what there is. */
  predicate Suits(s: State, step: Step) {
    match step
    case Order(raw) => raw != []
    case Ask(gaps) => |gaps| == |Answered(s)|
    case Load(name, gaps) => name != [] && name[0] == DOLLAR && |gaps| == |DirectoryBytes(s.disk, name)|
  }

  /** Every step is well formed and leaves the bus alone. */
  predicate Playable(s: State, steps: seq<Step>)
    decreases |steps|
  {
    steps == [] ||
    (Suits(s, steps[0]) && LeavesBus(After(s, steps[0]).disk.memory) && Playable(After(s, steps[0]), steps[1..]))
  }

  // ---- the same over the wire ---------------------------------------------------------------------

  function StateOf(dos: Dos): State {
    State(dos.disk, dos.status, dos.response)
  }

  const TALK_FIFTEEN := Message(0x6F, true)

  function AskRequest(device: Byte): seq<Message> {
    [UNTALK, Message(0x40 | device, true), TALK_FIFTEEN]
  }

  function PlayStep(w: Wire, device: Byte, step: Step): Stream {
    match step
    case Order(raw) => Stream(SendAll(Consume, w, CommandRequest(device, raw)), [])
    case Ask(gaps) => ReadAll(Consume, SendAll(Consume, w, AskRequest(device)), gaps)
    case Load(name, gaps) => Loading(w, device, name, gaps)
  }

  datatype Played = Played(wire: Wire, outputs: seq<seq<Byte>>)

  function Play(w: Wire, device: Byte, steps: seq<Step>): Played
    decreases |steps|
  {
    if steps == [] then Played(w, [])
    else
      var one := PlayStep(w, device, steps[0]);
      var rest := Play(one.wire, device, steps[1..]);
      Played(rest.wire, [one.bytes] + rest.outputs)
  }

  /** The drive lies ready, with no half-sent command, and leaves the bus alone. */
  predicate Good(w: Wire, device: Byte) {
    Ready(w, device) && Releases(w.drive.dos) && w.drive.dos.commandBuffer == []
  }

  // ---- one step ------------------------------------------------------------------------------------

  lemma OrderPlays(w: Wire, device: Byte, raw: seq<Byte>)
    requires Good(w, device) && raw != [] && LeavesBus(After(StateOf(w.drive.dos), Order(raw)).disk.memory)
    ensures var v := SendAll(Consume, w, CommandRequest(device, raw));
            Good(v, device) && StateOf(v.drive.dos) == After(StateOf(w.drive.dos), Order(raw))
  {
    hide Consume, SendAll, HeardAll, Sendable, HoldsClk, HoldsData, Execute, Unnamed, CommandRequest, Arrived, Aligned;
    var dos := w.drive.dos;
    WholeCommand(dos, raw);
    CommandHeard(dos, device, raw);
    ListenRoundTrip(Consume, w, CommandRequest(device, raw));
    SendAllKeepsDirection(Consume, w, CommandRequest(device, raw));
  }

  lemma WholeCommand(dos: Dos, raw: seq<Byte>)
    requires Releases(dos) && dos.commandBuffer == []
    ensures dos.commandBuffer + Arrived(dos, raw) == raw
  {
    hide HoldsClk, HoldsData;
    assert [] + raw == raw;
  }

  lemma AskHeard(dos: Dos, device: Byte)
    requires Addressed(dos, device)
    ensures var ms := AskRequest(device);
            var d := HeardAll(Consume, dos, ms);
            && Sendable(Consume, dos, ms)
            && d.talking && d.talkChannel == 15 && d.queue == Answered(StateOf(dos))
            && d.disk == dos.disk && d.status == dos.status && d.response == []
            && d.address == dos.address && d.commandBuffer == dos.commandBuffer
  {
    UntalkQuiets(dos);
    HeardThree(dos, UNTALK, Message(0x40 | device, true), TALK_FIFTEEN, []);
    assert AskRequest(device) + [] == AskRequest(device);
    TalkAnswers(Consume(dos, UNTALK), device);
    hide Consume, HoldsClk;
  }

  lemma TalkAnswers(dos: Dos, device: Byte)
    requires Addressed(dos, device) && !dos.needsFreshCommand
    ensures var d := Consume(Consume(dos, Message(0x40 | device, true)), TALK_FIFTEEN);
            && d.talking && d.talkChannel == 15 && d.queue == Answered(StateOf(dos))
            && d.disk == dos.disk && d.status == dos.status && d.response == []
            && d.address == dos.address && d.commandBuffer == dos.commandBuffer
  {
    assert (0x40 | device) & 0xF0 == 0x40 && (0x40 | device) & 0x1F == device;
    assert 0x40 | device != 0x3F && 0x40 | device != 0x5F;
    hide Unlisten, CloseChannel, OpenForListen, Listen, StatusLine, Refill;
  }

  lemma AskPlays(w: Wire, device: Byte, gaps: seq<nat>)
    requires Good(w, device) && |gaps| == |Answered(StateOf(w.drive.dos))|
    ensures var s, r := StateOf(w.drive.dos), PlayStep(w, device, Ask(gaps));
            && r.bytes == Answered(s) && Good(r.wire, device) && StateOf(r.wire.drive.dos) == After(s, Ask(gaps))
  {
    hide Consume, SendAll, ReadAll, HeardAll, Sendable, Delivered, HoldsClk, HoldsData, StatusLine, Ascii;
    var ms := AskRequest(device);
    AskHeard(w.drive.dos, device);
    ListenRoundTrip(Consume, w, ms);
    SendAllKeepsDirection(Consume, w, ms);
    var asked := SendAll(Consume, w, ms);
    assert ms[|ms| - 1].command;
    hide Answered, AskRequest;
    assert TalkReady(asked.drive);
    TalkRoundTrip(Consume, asked, gaps);
    assert asked.drive.dos.queue[..|gaps|] == asked.drive.dos.queue;
    AllDelivered(asked.drive.dos, ReadAll(Consume, asked, gaps).wire.drive);
  }

  lemma LoadPlays(w: Wire, device: Byte, name: seq<Byte>, gaps: seq<nat>)
    requires Good(w, device) && Suits(StateOf(w.drive.dos), Load(name, gaps))
    ensures var s, r := StateOf(w.drive.dos), Loading(w, device, name, gaps);
            && r.bytes == DirectoryBytes(s.disk, name) && Good(r.wire, device)
            && StateOf(r.wire.drive.dos) == After(s, Load(name, gaps))
  {
    hide Consume, Loading, DirectoryBytes, HoldsClk, HoldsData, Asked, Ready;
    LoadServes(w, device, name, gaps);
    AskedReleases(w.drive.dos.disk, name);
  }

  // ---- whole sessions --------------------------------------------------------------------------------

  /** Any session is a run of the plain state: what the host reads and what it leaves in the drive are
      exactly that run's outputs and its final state. */
  lemma {:induction false} SessionIsRun(w: Wire, device: Byte, steps: seq<Step>)
    requires Good(w, device) && Playable(StateOf(w.drive.dos), steps)
    ensures var s, p := StateOf(w.drive.dos), Play(w, device, steps);
            && p.outputs == Replies(s, steps)
            && StateOf(p.wire.drive.dos) == Final(s, steps) && Good(p.wire, device)
    decreases |steps|
  {
    hide Good, StateOf, Consume, SendAll, ReadAll, Loading, Execute, Asked, DirectoryBytes, Answered, LeavesBus;
    if steps != [] {
      var step := steps[0];
      StepPlays(w, device, step);
      var v := PlayStep(w, device, step).wire;
      hide PlayStep, After, Output, Suits;
      SessionIsRun(v, device, steps[1..]);
    }
  }

  lemma StepPlays(w: Wire, device: Byte, step: Step)
    requires Good(w, device) && Suits(StateOf(w.drive.dos), step)
    requires LeavesBus(After(StateOf(w.drive.dos), step).disk.memory)
    ensures var s, r := StateOf(w.drive.dos), PlayStep(w, device, step);
            r.bytes == Output(s, step) && Good(r.wire, device) && StateOf(r.wire.drive.dos) == After(s, step)
  {
    match step
    case Order(raw) =>
      OrderPlays(w, device, raw);
      hide Good, CommandRequest, Consume, SendAll, Execute, LeavesBus;
    case Ask(gaps) =>
      AskPlays(w, device, gaps);
      hide *;
    case Load(name, gaps) =>
      LoadPlays(w, device, name, gaps);
      hide *;
  }
}
