/** The drive's scheduler: a rational clock that does not drift, and timed events in (time, sequence) order. */
module Scheduler {
  import opened TimedQueue
  import opened Division

  datatype Kind = NoKind | IecEdge | CpuTick | ViaTick | Custom

  datatype Event = Event(timestamp: nat, kind: Kind, payload: nat, sequence: nat)

  datatype State = State(hostTicks: nat, driveCycles: nat, numerator: nat, denominator: nat, remainder: nat,
                         next: nat, queue: seq<Event>)

  predicate Before(a: Event, b: Event) {
    a.timestamp < b.timestamp || (a.timestamp == b.timestamp && a.sequence < b.sequence)
  }

  function TimeOf(e: Event): nat {
    e.timestamp
  }

  function NumberOf(e: Event): nat {
    e.sequence
  }

  predicate Ok(s: State) {
    s.remainder < s.denominator && s.numerator > 0 && Sorted(s.queue, Before)
        && NumberedBelow(s.queue, NumberOf, s.next)
  }

  const FRESH := State(0, 0, 1, 1, 0, 0, [])

  // ---- the operations ------------------------------------------------------------------------------

  function Tick(s: State, cycles: nat): State
    requires s.denominator > 0
  {
    var scaled := cycles * s.numerator + s.remainder;
    s.(hostTicks := s.hostTicks + cycles, driveCycles := s.driveCycles + scaled / s.denominator,
       remainder := scaled % s.denominator)
  }

  function SetRatio(s: State, numerator: nat, denominator: nat): State {
    s.(numerator := if numerator == 0 then 1 else numerator,
       denominator := if denominator == 0 then 1 else denominator,
       remainder := 0)
  }

  /** A new event goes behind everything due no later than it. */
  function Inserted(q: seq<Event>, ev: Event): seq<Event> {
    q[..Due(q, TimeOf, ev.timestamp)] + [ev] + q[Due(q, TimeOf, ev.timestamp)..]
  }

  function Schedule(s: State, ts: nat, kind: Kind, payload: nat): State {
    s.(queue := Inserted(s.queue, Event(ts, kind, payload, s.next)), next := s.next + 1)
  }

  function RunUntil(s: State, ts: nat): State {
    s.(queue := s.queue[Due(s.queue, TimeOf, ts)..], driveCycles := if s.driveCycles < ts then ts else s.driveCycles)
  }

  function Output(s: State, ts: nat): seq<Event> {
    s.queue[..Due(s.queue, TimeOf, ts)]
  }

  // ---- order ----------------------------------------------------------------------------------------

  lemma BeforeRespectsTime()
    ensures forall a: Event, b: Event :: Before(a, b) ==> TimeOf(a) <= TimeOf(b)
  {
  }

  lemma DueEventsLead(q: seq<Event>, ts: nat)
    requires Sorted(q, Before)
    ensures forall i :: 0 <= i < |q| ==> (i < Due(q, TimeOf, ts) <==> q[i].timestamp <= ts)
  {
    BeforeRespectsTime();
    DueIsExact(q, Before, TimeOf, ts);
  }

  lemma InsertKeepsOrder(q: seq<Event>, ev: Event)
    requires Sorted(q, Before) && NumberedBelow(q, NumberOf, ev.sequence)
    ensures Sorted(Inserted(q, ev), Before) && NumberedBelow(Inserted(q, ev), NumberOf, ev.sequence + 1)
    ensures multiset(Inserted(q, ev)) == multiset(q) + multiset{ev}
  {
    var k := Due(q, TimeOf, ev.timestamp);
    DueSeparates(q, ev);
    SortedAround(q, Before, k, ev);
    AroundKeeps(q, NumberOf, k, ev);
    hide Due, Sorted, Before, NumberedBelow;
  }

  lemma DueSeparates(q: seq<Event>, ev: Event)
    requires Sorted(q, Before) && NumberedBelow(q, NumberOf, ev.sequence)
    ensures forall i :: 0 <= i < Due(q, TimeOf, ev.timestamp) ==> Before(q[i], ev)
    ensures forall i :: Due(q, TimeOf, ev.timestamp) <= i < |q| ==> Before(ev, q[i])
  {
    DueEventsLead(q, ev.timestamp);
    hide Due, Sorted;
  }

  lemma AppendedComparable(q: seq<Event>, ev: Event)
    requires Sorted(q, Before) && NumberedBelow(q, NumberOf, ev.sequence)
    ensures AllComparable(q + [ev])
  {
  }

  /** The first of an ordered queue comes before every other of its events. */
  lemma FirstIsLeast(q: seq<Event>, x: Event)
    requires q != [] && Sorted(q, Before) && x in multiset(q)
    ensures x == q[0] || Before(q[0], x)
  {
    var i :| 0 <= i < |q| && q[i] == x;
  }

  lemma TailOf(q: seq<Event>)
    requires q != []
    ensures multiset(q[1..]) == multiset(q) - multiset{q[0]}
  {
    assert q == [q[0]] + q[1..];
  }

  lemma TailIsSorted(q: seq<Event>)
    requires q != [] && Sorted(q, Before)
    ensures Sorted(q[1..], Before)
  {
    hide Before;
  }

  /** Ordered queues with the same events are the same queue, so any sort gives the same result. */
  lemma {:induction false} SortedIsUnique(a: seq<Event>, b: seq<Event>)
    requires Sorted(a, Before) && Sorted(b, Before) && multiset(a) == multiset(b)
    ensures a == b
  {
    hide Sorted;
    assert |a| == |multiset(a)| == |multiset(b)| == |b|;
    if a != [] {
      assert a[0] in multiset(a) && b[0] in multiset(b);
      FirstIsLeast(a, b[0]);
      FirstIsLeast(b, a[0]);
      TailOf(a);
      TailOf(b);
      TailIsSorted(a);
      TailIsSorted(b);
      SortedIsUnique(a[1..], b[1..]);
      assert a == [a[0]] + a[1..] && b == [b[0]] + b[1..];
    }
  }

  /** Running to a and then on to b delivers the same events in the same order, and ends in the same
      state, as running to b at once. */
  lemma RunSplits(s: State, a: nat, b: nat)
    requires a <= b
    ensures RunUntil(RunUntil(s, a), b) == RunUntil(s, b)
    ensures Output(s, a) + Output(RunUntil(s, a), b) == Output(s, b)
  {
    DueSplits(s.queue, TimeOf, a, b);
    hide Due;
  }

  // ---- runs --------------------------------------------------------------------------------------------

  datatype Op = Ticks(cycles: nat) | At(ts: nat, kind: Kind, payload: nat) | Until(ts: nat)

  function Step(s: State, op: Op): State
    requires Ok(s)
  {
    match op
    case Ticks(cycles) => Tick(s, cycles)
    case At(ts, kind, payload) => Schedule(s, ts, kind, payload)
    case Until(ts) => RunUntil(s, ts)
  }

  lemma StepKeepsOk(s: State, op: Op)
    requires Ok(s)
    ensures Ok(Step(s, op))
    ensures Step(s, op).numerator == s.numerator && Step(s, op).denominator == s.denominator
  {
    match op
    case Ticks(_) =>
    case At(ts, kind, payload) => InsertKeepsOrder(s.queue, Event(ts, kind, payload, s.next));
    case Until(_) => hide Before;
  }

  function Run(s: State, ops: seq<Op>): (r: State)
    requires Ok(s)
    ensures Ok(r) && r.numerator == s.numerator && r.denominator == s.denominator
  {
    if ops == [] then s else
      var t := Run(s, ops[..|ops| - 1]);
      StepKeepsOk(t, ops[|ops| - 1]);
      Step(t, ops[|ops| - 1])
  }

  function HostCycles(ops: seq<Op>): nat {
    if ops == [] then 0 else HostCycles(ops[..|ops| - 1]) + if ops[|ops| - 1].Ticks? then ops[|ops| - 1].cycles else 0
  }

  /** How far the run's `Until` steps pushed the drive clock ahead of its ticks. */
  function Jumps(s: State, ops: seq<Op>): nat
    requires Ok(s)
  {
    if ops == [] then 0 else
      var t, op := Run(s, ops[..|ops| - 1]), ops[|ops| - 1];
      Jumps(s, ops[..|ops| - 1]) + if op.Until? && t.driveCycles < op.ts then op.ts - t.driveCycles else 0
  }

  /** No drift: however the host cycles are split, and whatever is scheduled or run in between, the drive
      clock is the start plus the exact quotient of all host cycles, plus the jumps of the runs. */
  lemma {:induction false} ClockDoesNotDrift(s: State, ops: seq<Op>)
    requires Ok(s)
    ensures var r, scaled := Run(s, ops), HostCycles(ops) * s.numerator + s.remainder;
            && r.hostTicks == s.hostTicks + HostCycles(ops)
            && r.driveCycles == s.driveCycles + scaled / s.denominator + Jumps(s, ops)
            && r.remainder == scaled % s.denominator
  {
    hide Sorted, NumberedBelow, Inserted, Due;
    if ops == [] {
      SmallQuotient(s.remainder, s.denominator);
    } else {
      var front, op := ops[..|ops| - 1], ops[|ops| - 1];
      ClockDoesNotDrift(s, front);
      if op.Ticks? {
        TicksAdd(HostCycles(front), op.cycles, s.numerator, s.remainder, s.denominator);
      }
      hide Run;
    }
  }

  lemma TicksAdd(h: nat, c: nat, n: nat, r: nat, d: nat)
    requires d > 0
    ensures var x, y := h * n + r, (h + c) * n + r;
            x / d + (c * n + x % d) / d == y / d && (c * n + x % d) % d == y % d
  {
    assert (h + c) * n == h * n + c * n;
    DivisionAdds(c * n, h * n + r, d);
  }

  lemma SmallQuotient(y: nat, d: nat)
    requires y < d
    ensures y / d == 0 && y % d == y
  {
    QuotientUnique(y, d, 0, y);
  }

  lemma DivisionAdds(x: nat, y: nat, d: nat)
    requires d > 0
    ensures y / d + (x + y % d) / d == (x + y) / d && (x + y % d) % d == (x + y) % d
  {
    var q := y / d + (x + y % d) / d;
    var r := (x + y % d) % d;
    assert x + y == q * d + r;
    QuotientUnique(x + y, d, q, r);
  }

  /** Everything the run has delivered so far. */
  function Delivered(s: State, ops: seq<Op>): seq<Event>
    requires Ok(s)
  {
    if ops == [] then [] else
      var op := ops[|ops| - 1];
      Delivered(s, ops[..|ops| - 1]) + if op.Until? then Output(Run(s, ops[..|ops| - 1]), op.ts) else []
  }

  function Scheduled(s: State, ops: seq<Op>): multiset<Event>
    requires Ok(s)
  {
    if ops == [] then multiset{} else
      var t, op := Run(s, ops[..|ops| - 1]), ops[|ops| - 1];
      Scheduled(s, ops[..|ops| - 1]) + if op.At? then multiset{Event(op.ts, op.kind, op.payload, t.next)}
          else multiset{}
  }

  /** Every event scheduled is delivered exactly once or still pending. */
  lemma {:induction false} EventsAreConserved(s: State, ops: seq<Op>)
    requires Ok(s)
    ensures multiset(Delivered(s, ops)) + multiset(Run(s, ops).queue) == multiset(s.queue) + Scheduled(s, ops)
  {
    if ops != [] {
      var front, op := ops[..|ops| - 1], ops[|ops| - 1];
      var t := Run(s, front);
      EventsAreConserved(s, front);
      QueueChanges(t, op);
      RunNext(s, ops);
      var out := if op.Until? then Output(t, op.ts) else [];
      var new' := if op.At? then multiset{Event(op.ts, op.kind, op.payload, t.next)} else multiset{};
      assert Delivered(s, ops) == Delivered(s, front) + out;
      assert Scheduled(s, ops) == Scheduled(s, front) + new';
      hide *;
      Move(Delivered(s, front), out, multiset(t.queue), multiset(Run(s, ops).queue),
           new', multiset(s.queue) + Scheduled(s, front));
      assert multiset(s.queue) + Scheduled(s, front) + new' == multiset(s.queue) + (Scheduled(s, front) + new');
    }
  }

  lemma Move(d: seq<Event>, out: seq<Event>, q: multiset<Event>, u: multiset<Event>,
             new': multiset<Event>, total: multiset<Event>)
    requires multiset(d) + q == total && u + multiset(out) == q + new'
    ensures multiset(d + out) + u == total + new'
  {
    var a, o := multiset(d), multiset(out);
    assert multiset(d + out) == a + o;
    assert a + o + u == a + (u + o);
    assert a + (q + new') == a + q + new';
  }

  lemma RunNext(s: State, ops: seq<Op>)
    requires Ok(s) && ops != []
    ensures Run(s, ops) == Step(Run(s, ops[..|ops| - 1]), ops[|ops| - 1])
  {
    hide Step;
  }

  lemma QueueChanges(t: State, op: Op)
    requires Ok(t)
    ensures var u := Step(t, op);
            multiset(u.queue) + (if op.Until? then multiset(Output(t, op.ts)) else multiset{})
            == multiset(t.queue) + if op.At? then multiset{Event(op.ts, op.kind, op.payload, t.next)} else multiset{}
  {
    match op
    case Ticks(_) =>
    case At(ts, kind, payload) => InsertKeepsOrder(t.queue, Event(ts, kind, payload, t.next));
    case Until(ts) => assert t.queue == Output(t, ts) + RunUntil(t, ts).queue;
    hide Inserted, Sorted, Due;
  }

  /** The latest time run to, or -1. */
  function Horizon(ops: seq<Op>): int {
    if ops == [] then -1 else
      var h, op := Horizon(ops[..|ops| - 1]), ops[|ops| - 1];
      if op.Until? && op.ts > h then op.ts else h
  }

  /** No event is scheduled at or before a time already run to. */
  predicate Punctual(ops: seq<Op>) {
    ops == [] || (Punctual(ops[..|ops| - 1]) && (ops[|ops| - 1].At? ==> ops[|ops| - 1].ts > Horizon(ops[..|ops| - 1])))
  }

  predicate NoneAfter(q: seq<Event>, h: int) {
    forall i :: 0 <= i < |q| ==> q[i].timestamp <= h
  }

  /** If nothing is scheduled into time already run, everything delivered over the whole run, followed by
      what is pending, comes in order of time, events for the same time in the order they were scheduled. */
  lemma {:induction false} DeliveryIsOrdered(s: State, ops: seq<Op>)
    requires Ok(s) && Punctual(ops)
    ensures Sorted(Delivered(s, ops) + Run(s, ops).queue, Before)
    ensures NumberedBelow(Delivered(s, ops), NumberOf, Run(s, ops).next) && NoneAfter(Delivered(s, ops), Horizon(ops))
  {
    if ops == [] {
      assert [] + s.queue == s.queue;
    } else {
      var front, op := ops[..|ops| - 1], ops[|ops| - 1];
      DeliveryIsOrdered(s, front);
      OrderedStep(Run(s, front), Delivered(s, front), Horizon(front), op);
      RunNext(s, ops);
      hide Run, Step, Sorted, NumberedBelow, NoneAfter, Output;
      assert Delivered(s, front) + [] == Delivered(s, front);
    }
  }

  lemma OrderedStep(t: State, d: seq<Event>, h: int, op: Op)
    requires Ok(t) && Sorted(d + t.queue, Before) && NumberedBelow(d, NumberOf, t.next) && NoneAfter(d, h)
    requires op.At? ==> op.ts > h
    ensures var u := Step(t, op);
            var all := if op.Until? then d + Output(t, op.ts) else d;
            && Sorted(all + u.queue, Before) && NumberedBelow(all, NumberOf, u.next)
            && NoneAfter(all, if op.Until? && op.ts > h then op.ts else h)
  {
    hide Sorted, Due;
    match op
    case Ticks(_) =>
    case At(ts, kind, payload) => PunctualInsert(d, t.queue, Event(ts, kind, payload, t.next));
    case Until(ts) =>
      DueEventsLead(t.queue, ts);
      assert (d + Output(t, ts)) + t.queue[Due(t.queue, TimeOf, ts)..] == d + t.queue;
  }

  lemma PunctualInsert(d: seq<Event>, q: seq<Event>, ev: Event)
    requires Sorted(d + q, Before) && NumberedBelow(q, NumberOf, ev.sequence) && NumberedBelow(d, NumberOf, ev.sequence)
    requires forall i :: 0 <= i < |d| ==> d[i].timestamp < ev.timestamp
    ensures Sorted(d + Inserted(q, ev), Before)
  {
    var k := Due(q, TimeOf, ev.timestamp);
    var all := d + q;
    assert Sorted(q, Before) by {
      assert forall i :: 0 <= i < |q| ==> all[|d| + i] == q[i];
    }
    DueEventsLead(q, ev.timestamp);
    hide Due;
    assert all[..|d| + k] + [ev] + all[|d| + k..] == d + Inserted(q, ev);
    SortedAround(all, Before, |d| + k, ev);
  }

  // ---- the scheduler as an object ---------------------------------------------------------------------------

  class DriveScheduler {
    var hostTicks: nat
    var driveCycles: nat
    var ratioNumerator: nat
    var ratioDenominator: nat
    var ratioRemainder: nat
    var nextSequence: nat
    var queue: seq<Event>

    ghost function Model(): State
      reads this
    {
      State(hostTicks, driveCycles, ratioNumerator, ratioDenominator, ratioRemainder, nextSequence, queue)
    }

    constructor ()
      ensures Model() == FRESH && Ok(Model())
    {
      hostTicks, driveCycles, ratioNumerator, ratioDenominator, ratioRemainder := 0, 0, 1, 1, 0;
      nextSequence, queue := 0, [];
    }

    method TickHostCycles(hostCycles: nat)
      requires Ok(Model())
      modifies this
      ensures Ok(Model()) && Model() == Tick(old(Model()), hostCycles)
    {
      StepKeepsOk(Model(), Ticks(hostCycles));
      hostTicks := hostTicks + hostCycles;
      var scaled := hostCycles * ratioNumerator + ratioRemainder;
      driveCycles := driveCycles + scaled / ratioDenominator;
      ratioRemainder := scaled % ratioDenominator;
    }

    method SetRateRatio(numerator: nat, denominator: nat)
      requires Ok(Model())
      modifies this
      ensures Ok(Model()) && Model() == SetRatio(old(Model()), numerator, denominator)
    {
      ratioNumerator := if numerator == 0 then 1 else numerator;
      ratioDenominator := if denominator == 0 then 1 else denominator;
      ratioRemainder := 0;
    }

    method ScheduleAt(ts: nat, kind: Kind, payload: nat)
      requires Ok(Model())
      modifies this
      ensures Ok(Model()) && Model() == Schedule(old(Model()), ts, kind, payload)
    {
      var ev := Event(ts, kind, payload, nextSequence);
      InsertKeepsOrder(queue, ev);
      hide Inserted, Sorted, Before;
      AppendedComparable(queue, ev);
      nextSequence := nextSequence + 1;
      var sorted := StableSort(queue + [ev]);
      SortedIsUnique(sorted, Inserted(queue, ev));
      queue := sorted;
    }

    method PopDue(ts: nat) returns (out: seq<Event>)
      modifies this`queue
      ensures out == old(queue)[..Due(old(queue), TimeOf, ts)] && queue == old(queue)[Due(old(queue), TimeOf, ts)..]
    {
      ghost var all := queue;
      out := [];
      while queue != [] && queue[0].timestamp <= ts
        invariant |out| <= |all| && out == all[..|out|] && queue == all[|out|..]
        invariant Due(all, TimeOf, ts) == |out| + Due(queue, TimeOf, ts)
        decreases |queue|
      {
        out := out + [queue[0]];
        queue := queue[1..];
      }
    }

    method RunEventsUntil(ts: nat) returns (out: seq<Event>)
      requires Ok(Model())
      modifies this
      ensures Ok(Model()) && Model() == RunUntil(old(Model()), ts) && out == Output(old(Model()), ts)
    {
      StepKeepsOk(Model(), Until(ts));
      hide Sorted, NumberedBelow, Due;
      out := PopDue(ts);
      if driveCycles < ts {
        driveCycles := ts;
      }
    }
  }

  predicate Comparable(a: Event, b: Event) {
    Before(a, b) || Before(b, a)
  }

  predicate AllComparable(q: seq<Event>) {
    forall i, j :: 0 <= i < j < |q| ==> Comparable(q[i], q[j])
  }

  /** Insertion sort by time and sequence. */
  method StableSort(q: seq<Event>) returns (r: seq<Event>)
    requires AllComparable(q)
    ensures Sorted(r, Before) && multiset(r) == multiset(q)
  {
    hide Comparable, Sorted;
    r := [];
    assert Sorted(r, Before) by { EmptyIsSorted(); }
    for i := 0 to |q|
      invariant Sorted(r, Before) && multiset(r) == multiset(q[..i])
    {
      forall j | 0 <= j < |r| ensures Comparable(r[j], q[i]) {
        assert r[j] in multiset(r);
        assert r[j] in q[..i];
      }
      r := InsertInOrder(r, q[i]);
      assert q[..i + 1] == q[..i] + [q[i]];
    }
    assert q[..|q|] == q;
  }

  lemma EmptyIsSorted()
    ensures Sorted([], Before)
  {
  }

  method InsertInOrder(r: seq<Event>, ev: Event) returns (t: seq<Event>)
    requires Sorted(r, Before) && forall j :: 0 <= j < |r| ==> Comparable(r[j], ev)
    ensures Sorted(t, Before) && multiset(t) == multiset(r) + multiset{ev}
  {
    var k := |r|;
    while k > 0 && !Before(r[k - 1], ev)
      invariant 0 <= k <= |r|
      invariant forall j :: k <= j < |r| ==> Before(ev, r[j])
    {
      assert Comparable(r[k - 1], ev);
      k := k - 1;
    }
    t := r[..k] + [ev] + r[k..];
    FrontIsBefore(r, k, ev);
    hide *;
    SameEvents(r, k, ev);
    SortedAround(r, Before, k, ev);
  }

  lemma SameEvents(r: seq<Event>, k: nat, ev: Event)
    requires k <= |r|
    ensures multiset(r[..k] + [ev] + r[k..]) == multiset(r) + multiset{ev}
  {
    assert r == r[..k] + r[k..];
  }

  lemma FrontIsBefore(r: seq<Event>, k: nat, ev: Event)
    requires Sorted(r, Before) && k <= |r| && (k > 0 ==> Before(r[k - 1], ev))
    ensures forall j :: 0 <= j < k ==> Before(r[j], ev)
  {
    forall j | 0 <= j < k ensures Before(r[j], ev) {
      assert j < k - 1 ==> Before(r[j], r[k - 1]);
    }
  }
}
