/** The drive's bus port: line changes queued as time-stamped edges and applied when due. The latch
    remembers the level last queued, so that only changes are queued. */
module IecPort {
  import opened IecLines
  import opened TimedQueue
  import opened EdgeQueue

  function Level(l: Lines, line: Line): bool {
    match line case Atn => l.atn case Clk => l.clk case Data => l.data
  }

  function WithLevel(l: Lines, line: Line, level: bool): Lines {
    match line
    case Atn => l.(atn := level)
    case Clk => l.(clk := level)
    case Data => l.(data := level)
  }

  /** One direction of the port. */
  datatype Side = Side(lines: Lines, latched: Lines, queue: seq<Edge>, next: nat)

  predicate Ok(s: Side, source: Source) {
    && Sorted(s.queue, Before) && NumberedBelow(s.queue, NumberOf, s.next)
    && forall i :: 0 <= i < |s.queue| ==> s.queue[i].source == source
  }

  // ---- operations --------------------------------------------------------------------------------

  function QueueChange(s: Side, ts: nat, source: Source, line: Line, level: bool): Side {
    if Level(s.latched, line) == level then s
    else Side(s.lines, WithLevel(s.latched, line, level), Inserted(s.queue, Edge(ts, line, level, source, s.next)),
              s.next + 1)
  }

  function QueueLines(s: Side, ts: nat, source: Source, lines: Lines): Side {
    var s1 := QueueChange(s, ts, source, Atn, lines.atn);
    var s2 := QueueChange(s1, ts, source, Clk, lines.clk);
    QueueChange(s2, ts, source, Data, lines.data)
  }

  function Applied(lines: Lines, events: seq<Edge>): Lines
    decreases |events|
  {
    if events == [] then lines
    else Applied(WithLevel(lines, events[0].line, events[0].level), events[1..])
  }

  function ApplyReady(s: Side, now: nat): Side {
    var k := Due(s.queue, TimeOf, now);
    s.(lines := Applied(s.lines, s.queue[..k]), queue := s.queue[k..])
  }

  function SetLines(s: Side, lines: Lines): Side {
    s.(lines := lines, latched := lines)
  }

  function DropPending(s: Side): Side {
    s.(queue := [], next := 0)
  }

  const FRESH := Side(Lines(true, true, true), Lines(true, true, true), [], 0)

  // ---- agreement of port and latch -------------------------------------------------------------------

  /** The level a line ends at when the queued edges are applied from `level`. */
  function Final(q: seq<Edge>, line: Line, level: bool): bool {
    if q == [] then level else Final(q[1..], line, if q[0].line == line then q[0].level else level)
  }

  /** The queued edges of a line change its level one after another. */
  predicate Alternates(q: seq<Edge>, line: Line, level: bool) {
    q == [] || (if q[0].line == line then q[0].level != level && Alternates(q[1..], line, q[0].level)
                else Alternates(q[1..], line, level))
  }

  predicate AgreesOn(s: Side, line: Line) {
    Final(s.queue, line, Level(s.lines, line)) == Level(s.latched, line)
  }

  predicate AlternatesOn(s: Side, line: Line) {
    Alternates(s.queue, line, Level(s.lines, line))
  }

  /** Applying everything pending would bring the port to the latch. */
  predicate Agrees(s: Side) {
    AgreesOn(s, Atn) && AgreesOn(s, Clk) && AgreesOn(s, Data)
  }

  predicate AllAlternate(s: Side) {
    AlternatesOn(s, Atn) && AlternatesOn(s, Clk) && AlternatesOn(s, Data)
  }

  predicate Mentions(q: seq<Edge>, line: Line) {
    exists i :: 0 <= i < |q| && q[i].line == line
  }

  lemma {:induction false} FinalConcat(a: seq<Edge>, b: seq<Edge>, line: Line, level: bool)
    ensures Final(a + b, line, level) == Final(b, line, Final(a, line, level))
    ensures Alternates(a + b, line, level) <==> Alternates(a, line, level) && Alternates(b, line, Final(a, line, level))
  {
    if a == [] {
      assert a + b == b;
    } else {
      assert (a + b)[1..] == a[1..] + b;
      FinalConcat(a[1..], b, line, if a[0].line == line then a[0].level else level);
    }
  }

  lemma {:induction false} FinalWithout(q: seq<Edge>, line: Line, x: bool, y: bool)
    ensures Mentions(q, line) ==> Final(q, line, x) == Final(q, line, y)
    ensures !Mentions(q, line) ==> Final(q, line, x) == x && Alternates(q, line, x)
  {
    if q != [] {
      MentionsNext(q, line);
      if q[0].line != line {
        FinalWithout(q[1..], line, x, y);
      } else {
        FinalWithout(q[1..], line, q[0].level, q[0].level);
      }
    }
  }

  lemma MentionsNext(q: seq<Edge>, line: Line)
    requires q != []
    ensures Mentions(q, line) <==> q[0].line == line || Mentions(q[1..], line)
  {
    if Mentions(q, line) && q[0].line != line {
      var i :| 0 <= i < |q| && q[i].line == line;
      assert q[1..][i - 1].line == line;
    }
    if Mentions(q[1..], line) {
      var i :| 0 <= i < |q| - 1 && q[1..][i].line == line;
      assert q[i + 1].line == line;
    }
  }

  /** A change comes no earlier than any pending edge of its line. */
  predicate InTime(q: seq<Edge>, ts: nat, line: Line) {
    forall i :: 0 <= i < |q| && q[i].line == line ==> q[i].ts <= ts
  }

  lemma InsertionPlace(s: Side, ts: nat, source: Source, line: Line, level: bool)
    requires Ok(s, source)
    ensures var ev := Edge(ts, line, level, source, s.next);
            InTime(s.queue, ts, line) <==> !Mentions(s.queue[Place(s.queue, ev)..], line)
  {
    var ev := Edge(ts, line, level, source, s.next);
    var q, k := s.queue, Place(s.queue, ev);
    PlaceSplits(q, ev);
    assert forall i :: 0 <= i < |q| ==> NumberOf(q[i]) < ev.sequence;
    hide Place, Sorted, NumberedBelow, Before;
    if !InTime(q, ts, line) {
      LaterEdgeBehind(q, k, ev);
    }
    if Mentions(q[k..], line) {
      EdgeBehindIsLater(q, k, ev);
    }
  }

  lemma LaterEdgeBehind(q: seq<Edge>, k: nat, ev: Edge)
    requires k <= |q| && (forall i :: 0 <= i < k ==> Before(q[i], ev)) && !InTime(q, ev.ts, ev.line)
    ensures Mentions(q[k..], ev.line)
  {
    var i :| 0 <= i < |q| && q[i].line == ev.line && q[i].ts > ev.ts;
    assert !Before(q[i], ev);
    assert q[k..][i - k].line == ev.line;
  }

  lemma EdgeBehindIsLater(q: seq<Edge>, k: nat, ev: Edge)
    requires k <= |q| && (forall i :: k <= i < |q| ==> Before(ev, q[i])) && Mentions(q[k..], ev.line)
    requires forall i :: 0 <= i < |q| ==> q[i].source == ev.source && q[i].sequence < ev.sequence
    ensures !InTime(q, ev.ts, ev.line)
  {
    var i :| 0 <= i < |q| - k && q[k..][i].line == ev.line;
    assert q[k + i].line == ev.line && Before(ev, q[k + i]);
  }

  /** Insertion on one line leaves every other line's edges as they are. */
  lemma InsertedElsewhere(q: seq<Edge>, ev: Edge, line: Line, level: bool)
    requires line != ev.line
    ensures Final(Inserted(q, ev), line, level) == Final(q, line, level)
    ensures Alternates(Inserted(q, ev), line, level) <==> Alternates(q, line, level)
  {
    var k := Place(q, ev);
    var a, b := q[..k], q[k..];
    assert q == a + b;
    FinalConcat(a, b, line, level);
    FinalConcat(a + [ev], b, line, level);
    FinalConcat(a, [ev], line, level);
    Single(ev, line, Final(a, line, level));
    hide Final, Alternates, Place;
  }

  lemma Single(ev: Edge, line: Line, level: bool)
    ensures Final([ev], line, level) == if ev.line == line then ev.level else level
    ensures Alternates([ev], line, level) <==> ev.line != line || ev.level != level
  {
    assert [ev][1..] == [];
  }

  lemma InsertedHere(q: seq<Edge>, ev: Edge, level: bool)
    ensures var tail := q[Place(q, ev)..];
            && Final(Inserted(q, ev), ev.line, level)
                == (if Mentions(tail, ev.line) then Final(q, ev.line, level) else ev.level)
            && (!Mentions(tail, ev.line) && Alternates(q, ev.line, level) && Final(q, ev.line, level) != ev.level
                ==> Alternates(Inserted(q, ev), ev.line, level))
  {
    var k := Place(q, ev);
    var a, b := q[..k], q[k..];
    var mid := Final(a, ev.line, level);
    assert q == a + b;
    FinalConcat(a, b, ev.line, level);
    FinalConcat(a + [ev], b, ev.line, level);
    FinalConcat(a, [ev], ev.line, level);
    Single(ev, ev.line, mid);
    FinalWithout(b, ev.line, mid, ev.level);
    FinalWithout(b, ev.line, ev.level, mid);
    hide Final, Alternates, Place, Mentions;
  }

  /** Queueing one change: the other lines are untouched, and on its own line the port still agrees with
      the latch exactly if the level did not change or no pending edge of that line is later. */
  lemma ChangeKeepsAgreementIff(s: Side, ts: nat, source: Source, line: Line, level: bool, other: Line)
    requires Ok(s, source)
    ensures var t := QueueChange(s, ts, source, line, level);
            && Ok(t, source)
            && t.lines == s.lines
            && Level(t.latched, line) == level
            && (other != line ==> Level(t.latched, other) == Level(s.latched, other)
                                  && (AgreesOn(t, other) <==> AgreesOn(s, other))
                                  && (AlternatesOn(t, other) <==> AlternatesOn(s, other))
                                  && forall when: nat :: InTime(t.queue, when, other) <==> InTime(s.queue, when, other))
            && (AgreesOn(s, line) ==>
                  (AgreesOn(t, line) <==> Level(s.latched, line) == level || InTime(s.queue, ts, line)))
            && (AgreesOn(s, line) && AlternatesOn(s, line) && AgreesOn(t, line) ==> AlternatesOn(t, line))
  {
    if Level(s.latched, line) != level {
      var ev := Edge(ts, line, level, source, s.next);
      InsertKeepsOrder(s.queue, ev);
      InsertedSources(s.queue, ev, source);
      InsertionPlace(s, ts, source, line, level);
      InsertedHere(s.queue, ev, Level(s.lines, line));
      if other != line {
        InsertedElsewhere(s.queue, ev, other, Level(s.lines, other));
        InTimeElsewhere(s.queue, ev, other);
      }
      hide Inserted, Final, Alternates, Place, Mentions, InTime, Sorted, NumberedBelow;
    }
  }

  lemma InsertedSources(q: seq<Edge>, ev: Edge, source: Source)
    requires ev.source == source && forall i :: 0 <= i < |q| ==> q[i].source == source
    ensures forall i :: 0 <= i < |Inserted(q, ev)| ==> Inserted(q, ev)[i].source == source
  {
    hide Place;
  }

  lemma InTimeElsewhere(q: seq<Edge>, ev: Edge, other: Line)
    requires other != ev.line
    ensures forall when: nat :: InTime(Inserted(q, ev), when, other) <==> InTime(q, when, other)
  {
    forall when: nat ensures InTime(Inserted(q, ev), when, other) <==> InTime(q, when, other) {
      var a, b := q[..Place(q, ev)], q[Place(q, ev)..];
      assert q == a + b;
      InTimeConcat(a, b, when, other);
      InTimeConcat(a + [ev], b, when, other);
      InTimeConcat(a, [ev], when, other);
      assert InTime([ev], when, other);
      hide InTime, Place;
    }
  }

  lemma InTimeConcat(a: seq<Edge>, b: seq<Edge>, ts: nat, line: Line)
    ensures InTime(a + b, ts, line) <==> InTime(a, ts, line) && InTime(b, ts, line)
  {
    var all := a + b;
    assert forall i :: 0 <= i < |a| ==> all[i] == a[i];
    assert forall i :: 0 <= i < |b| ==> all[|a| + i] == b[i];
  }

  predicate ChangeInTime(s: Side, ts: nat, lines: Lines, line: Line) {
    Level(s.latched, line) == Level(lines, line) || InTime(s.queue, ts, line)
  }

  /** No changed line has a pending edge later than `ts`. */
  predicate AllInTime(s: Side, ts: nat, lines: Lines) {
    ChangeInTime(s, ts, lines, Atn) && ChangeInTime(s, ts, lines, Clk) && ChangeInTime(s, ts, lines, Data)
  }

  lemma QueueLinesOn(s: Side, ts: nat, source: Source, lines: Lines, line: Line)
    requires Ok(s, source)
    ensures var t := QueueLines(s, ts, source, lines);
            && Ok(t, source) && t.lines == s.lines && Level(t.latched, line) == Level(lines, line)
            && (AgreesOn(s, line) ==> (AgreesOn(t, line) <==> ChangeInTime(s, ts, lines, line)))
            && (AgreesOn(s, line) && AlternatesOn(s, line) && AgreesOn(t, line) ==> AlternatesOn(t, line))
  {
    var s1 := QueueChange(s, ts, source, Atn, lines.atn);
    var s2 := QueueChange(s1, ts, source, Clk, lines.clk);
    ChangeKeepsAgreementIff(s, ts, source, Atn, lines.atn, line);
    ChangeKeepsAgreementIff(s1, ts, source, Clk, lines.clk, line);
    ChangeKeepsAgreementIff(s2, ts, source, Data, lines.data, line);
    hide QueueChange, AgreesOn, AlternatesOn, InTime, Ok;
  }

  /** Queueing all three lines keeps port and latch in agreement exactly if no changed line has a pending
      edge later than the new time stamp. */
  lemma QueueKeepsAgreementIff(s: Side, ts: nat, source: Source, lines: Lines)
    requires Ok(s, source) && Agrees(s)
    ensures var t := QueueLines(s, ts, source, lines);
            && Ok(t, source) && t.latched == lines && t.lines == s.lines
            && (Agrees(t) <==> AllInTime(s, ts, lines))
            && (AllAlternate(s) && Agrees(t) ==> AllAlternate(t))
  {
    QueueLinesOn(s, ts, source, lines, Atn);
    QueueLinesOn(s, ts, source, lines, Clk);
    QueueLinesOn(s, ts, source, lines, Data);
    hide QueueLines, AgreesOn, AlternatesOn, ChangeInTime, Ok;
  }

  // ---- applying, setting, dropping -----------------------------------------------------------------------

  lemma {:induction false} AppliedLevel(lines: Lines, events: seq<Edge>, line: Line)
    ensures Level(Applied(lines, events), line) == Final(events, line, Level(lines, line))
    decreases |events|
  {
    if events != [] {
      AppliedLevel(WithLevel(lines, events[0].line, events[0].level), events[1..], line);
    }
  }

  lemma ApplyKeepsOn(s: Side, now: nat, line: Line)
    ensures var t := ApplyReady(s, now);
            && (AgreesOn(t, line) <==> AgreesOn(s, line))
            && (AlternatesOn(s, line) ==> AlternatesOn(t, line))
  {
    var k := Due(s.queue, TimeOf, now);
    var a, b := s.queue[..k], s.queue[k..];
    assert s.queue == a + b;
    FinalConcat(a, b, line, Level(s.lines, line));
    AppliedLevel(s.lines, a, line);
    hide Final, Alternates, Due, Applied;
  }

  /** Applying due edges keeps the order, the alternation and the agreement, in both directions; once
      everything pending is due, port and latch are equal exactly if they agreed. */
  lemma ApplyKeeps(s: Side, now: nat, source: Source)
    requires Ok(s, source)
    ensures var t := ApplyReady(s, now);
            && Ok(t, source) && t.latched == s.latched
            && (Agrees(t) <==> Agrees(s))
            && (AllAlternate(s) ==> AllAlternate(t))
            && ((forall i :: 0 <= i < |s.queue| ==> s.queue[i].ts <= now) ==>
                  t.queue == [] && (t.lines == t.latched <==> Agrees(s)))
  {
    var t := ApplyReady(s, now);
    ApplyKeepsOn(s, now, Atn);
    ApplyKeepsOn(s, now, Clk);
    ApplyKeepsOn(s, now, Data);
    DueEdgesLead(s.queue, now);
    hide Before;
    if forall i :: 0 <= i < |s.queue| ==> s.queue[i].ts <= now {
      assert Due(s.queue, TimeOf, now) == |s.queue|;
      assert t.queue == [];
    }
    hide AlternatesOn, Due, Applied;
  }

  /** Setting the lines outright keeps the agreement exactly if the last pending edge of every line, where
      there is one, already leads to the new level. */
  lemma SetKeepsAgreementIff(s: Side, lines: Lines, line: Line)
    ensures AgreesOn(SetLines(s, lines), line) <==>
            !Mentions(s.queue, line) || Final(s.queue, line, true) == Level(lines, line)
  {
    FinalWithout(s.queue, line, Level(lines, line), true);
  }

  /** Dropping pending edges leaves the latch behind: it agrees only if the port had already caught up. */
  lemma DropKeepsAgreementIff(s: Side)
    ensures Agrees(DropPending(s)) <==> s.lines == s.latched
  {
  }

  // ---- runs -----------------------------------------------------------------------------------------------

  datatype Op = Queue(ts: nat, lines: Lines) | Apply(now: nat)

  function Step(s: Side, source: Source, op: Op): Side {
    match op
    case Queue(ts, lines) => QueueLines(s, ts, source, lines)
    case Apply(now) => ApplyReady(s, now)
  }

  function Run(s: Side, source: Source, ops: seq<Op>): Side
    decreases |ops|
  {
    if ops == [] then s else Run(Step(s, source, ops[0]), source, ops[1..])
  }

  /** Every change of the run comes no earlier than the pending edges of its line. */
  predicate RunInTime(s: Side, source: Source, ops: seq<Op>)
    decreases |ops|
  {
    ops == [] || ((ops[0].Queue? ==> AllInTime(s, ops[0].ts, ops[0].lines))
                  && RunInTime(Step(s, source, ops[0]), source, ops[1..]))
  }

  predicate AgreesThroughout(s: Side, source: Source, ops: seq<Op>)
    decreases |ops|
  {
    Agrees(s) && (ops == [] || AgreesThroughout(Step(s, source, ops[0]), source, ops[1..]))
  }

  /** Over any interleaving of changes and applications, port and latch agree all along exactly if every
      change comes in time, and then each line's pending edges alternate and the order is kept. */
  lemma {:induction false} AgreementOverRuns(s: Side, source: Source, ops: seq<Op>)
    requires Ok(s, source) && Agrees(s) && AllAlternate(s)
    ensures RunInTime(s, source, ops) <==> AgreesThroughout(s, source, ops)
    ensures RunInTime(s, source, ops) ==> var t := Run(s, source, ops); Ok(t, source) && Agrees(t) && AllAlternate(t)
    decreases |ops|
  {
    if ops != [] {
      var t := Step(s, source, ops[0]);
      match ops[0] {
        case Queue(ts, lines) => QueueKeepsAgreementIff(s, ts, source, lines);
        case Apply(now) => ApplyKeeps(s, now, source);
      }
      if Agrees(t) {
        AgreementOverRuns(t, source, ops[1..]);
      }
      hide QueueLines, ApplyReady, Agrees, AllAlternate, Ok, AllInTime;
    }
  }

  predicate NoneLater(q: seq<Edge>, ts: nat) {
    forall i :: 0 <= i < |q| ==> q[i].ts <= ts
  }

  predicate NonDecreasing(ops: seq<Op>, from: nat)
    decreases |ops|
  {
    ops == [] || (if ops[0].Queue? then from <= ops[0].ts && NonDecreasing(ops[1..], ops[0].ts)
                  else NonDecreasing(ops[1..], from))
  }

  lemma ChangeNoneLater(s: Side, ts: nat, source: Source, line: Line, level: bool)
    requires NoneLater(s.queue, ts)
    ensures NoneLater(QueueChange(s, ts, source, line, level).queue, ts)
  {
    hide Place;
  }

  lemma QueueNoneLater(s: Side, ts: nat, source: Source, lines: Lines)
    requires NoneLater(s.queue, ts)
    ensures NoneLater(QueueLines(s, ts, source, lines).queue, ts)
  {
    var s1 := QueueChange(s, ts, source, Atn, lines.atn);
    ChangeNoneLater(s, ts, source, Atn, lines.atn);
    ChangeNoneLater(s1, ts, source, Clk, lines.clk);
    ChangeNoneLater(QueueChange(s1, ts, source, Clk, lines.clk), ts, source, Data, lines.data);
    hide QueueChange, NoneLater;
  }

  lemma LaterIsInTime(s: Side, ts: nat, lines: Lines)
    requires NoneLater(s.queue, ts)
    ensures AllInTime(s, ts, lines)
  {
  }

  /** Time stamps that never go back are in time. */
  lemma {:induction false} NonDecreasingIsInTime(s: Side, source: Source, ops: seq<Op>, from: nat)
    requires NoneLater(s.queue, from) && NonDecreasing(ops, from)
    ensures RunInTime(s, source, ops)
    decreases |ops|
  {
    if ops != [] {
      match ops[0] {
        case Queue(ts, lines) =>
          assert NoneLater(s.queue, ts);
          LaterIsInTime(s, ts, lines);
          QueueNoneLater(s, ts, source, lines);
          hide NoneLater, AllInTime, QueueLines;
          NonDecreasingIsInTime(Step(s, source, ops[0]), source, ops[1..], ts);
        case Apply(now) =>
          NonDecreasingIsInTime(Step(s, source, ops[0]), source, ops[1..], from);
      }
    }
  }

  /** Used as the drive uses it, queueing its lines at the current time and applying at once, the port
      passes every level through undelayed and keeps nothing back. */
  lemma PassesThrough(s: Side, now: nat, source: Source, lines: Lines)
    requires Ok(s, source) && Agrees(s) && NoneLater(s.queue, now)
    ensures var t := ApplyReady(QueueLines(s, now, source, lines), now);
            t == Side(lines, lines, [], t.next) && Ok(t, source) && Agrees(t)
  {
    LaterIsInTime(s, now, lines);
    QueueKeepsAgreementIff(s, now, source, lines);
    QueueNoneLater(s, now, source, lines);
    ApplyKeeps(QueueLines(s, now, source, lines), now, source);
    hide QueueLines, Agrees, Ok, AllInTime, AllAlternate, Applied, Due;
  }

  // ---- the port as an object ----------------------------------------------------------------------------------

  class IecPort {
    var input: Lines
    var output: Lines
    var hostLatched: Lines
    var driveLatched: Lines
    const inputEdges: EdgeQueue
    const outputEdges: EdgeQueue

    ghost predicate Valid()
      reads this, inputEdges, outputEdges
    {
      inputEdges != outputEdges && inputEdges.Valid() && outputEdges.Valid()
    }

    ghost function HostSide(): Side
      reads this, inputEdges
    {
      Side(input, hostLatched, inputEdges.queue, inputEdges.nextSequence)
    }

    ghost function DriveSide(): Side
      reads this, outputEdges
    {
      Side(output, driveLatched, outputEdges.queue, outputEdges.nextSequence)
    }

    constructor ()
      ensures Valid() && fresh(inputEdges) && fresh(outputEdges) && HostSide() == FRESH && DriveSide() == FRESH
    {
      var released := Lines(true, true, true);
      input, output, hostLatched, driveLatched := released, released, released, released;
      inputEdges := new EdgeQueue();
      outputEdges := new EdgeQueue();
    }

    method QueueHostLine(ts: nat, line: Line, level: bool)
      requires Valid()
      modifies this`hostLatched, inputEdges
      ensures Valid() && HostSide() == QueueChange(old(HostSide()), ts, Host, line, level)
    {
      if Level(hostLatched, line) != level {
        hostLatched := WithLevel(hostLatched, line, level);
        inputEdges.Push(ts, line, level, Host);
      }
    }

    method QueueDriveLine(ts: nat, line: Line, level: bool)
      requires Valid()
      modifies this`driveLatched, outputEdges
      ensures Valid() && DriveSide() == QueueChange(old(DriveSide()), ts, Drive, line, level)
    {
      if Level(driveLatched, line) != level {
        driveLatched := WithLevel(driveLatched, line, level);
        outputEdges.Push(ts, line, level, Drive);
      }
    }

    method QueueHostLines(ts: nat, lines: Lines)
      requires Valid()
      modifies this`hostLatched, inputEdges
      ensures Valid() && HostSide() == QueueLines(old(HostSide()), ts, Host, lines) && DriveSide() == old(DriveSide())
    {
      hide QueueChange;
      QueueHostLine(ts, Atn, lines.atn);
      QueueHostLine(ts, Clk, lines.clk);
      QueueHostLine(ts, Data, lines.data);
    }

    method QueueDriveLines(ts: nat, lines: Lines)
      requires Valid()
      modifies this`driveLatched, outputEdges
      ensures Valid() && DriveSide() == QueueLines(old(DriveSide()), ts, Drive, lines) && HostSide() == old(HostSide())
    {
      hide QueueChange;
      QueueDriveLine(ts, Atn, lines.atn);
      QueueDriveLine(ts, Clk, lines.clk);
      QueueDriveLine(ts, Data, lines.data);
    }

    method SetBusLines(lines: Lines)
      modifies this`hostLatched, this`input
      ensures HostSide() == SetLines(old(HostSide()), lines)
    {
      hostLatched, input := lines, lines;
    }

    method SetDriveOutput(lines: Lines)
      modifies this`driveLatched, this`output
      ensures DriveSide() == SetLines(old(DriveSide()), lines)
    {
      driveLatched, output := lines, lines;
    }

    method ApplyDue(now: nat, allowDriveOutput: bool) returns (applied: nat)
      requires Valid()
      modifies this`input, this`output, inputEdges, outputEdges
      ensures Valid() && HostSide() == ApplyReady(old(HostSide()), now)
      ensures DriveSide() == if allowDriveOutput then ApplyReady(old(DriveSide()), now) else old(DriveSide())
      ensures applied == Due(old(inputEdges.queue), TimeOf, now)
                         + if allowDriveOutput then Due(old(outputEdges.queue), TimeOf, now) else 0
    {
      var inEvents := inputEdges.PopReady(now);
      input := ApplyEvents(inEvents, input);
      applied := |inEvents|;
      if allowDriveOutput {
        var outEvents := outputEdges.PopReady(now);
        output := ApplyEvents(outEvents, output);
        applied := applied + |outEvents|;
      }
      hide Due, Applied;
    }

    method DropPendingHostEdges()
      requires Valid()
      modifies inputEdges
      ensures Valid() && HostSide() == DropPending(old(HostSide())) && DriveSide() == old(DriveSide())
    {
      inputEdges.Reset();
    }

    method DropPendingDriveEdges()
      requires Valid()
      modifies outputEdges
      ensures Valid() && DriveSide() == DropPending(old(DriveSide())) && HostSide() == old(HostSide())
    {
      outputEdges.Reset();
    }
  }

  method ApplyEvents(events: seq<Edge>, lines: Lines) returns (r: Lines)
    ensures r == Applied(lines, events)
  {
    r := lines;
    for i := 0 to |events|
      invariant Applied(lines, events) == Applied(r, events[i..])
    {
      assert events[i..][1..] == events[i + 1..];
      match events[i].line
      case Atn => r := r.(atn := events[i].level);
      case Clk => r := r.(clk := events[i].level);
      case Data => r := r.(data := events[i].level);
    }
  }
}
