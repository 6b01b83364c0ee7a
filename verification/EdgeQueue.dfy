/** The time-stamped queue of line edges: ordered insertion and removal of what is due. */
module EdgeQueue {
  import opened TimedQueue

  datatype Line = Atn | Clk | Data

  datatype Source = Host | Drive

  datatype Edge = Edge(ts: nat, line: Line, level: bool, source: Source, sequence: nat)

  function LineRank(l: Line): nat {
    match l case Atn => 0 case Clk => 1 case Data => 2
  }

  function SourceRank(s: Source): nat {
    match s case Host => 0 case Drive => 1
  }

  predicate Before(a: Edge, b: Edge) {
    if a.ts != b.ts then a.ts < b.ts
    else if a.line != b.line then LineRank(a.line) < LineRank(b.line)
    else if a.source != b.source then SourceRank(a.source) < SourceRank(b.source)
    else a.sequence < b.sequence
  }

  lemma BeforeIsStrictOrder(a: Edge, b: Edge, c: Edge)
    ensures !(Before(a, b) && Before(b, a))
    ensures Before(a, b) && Before(b, c) ==> Before(a, c)
    ensures a.sequence != b.sequence ==> Before(a, b) || Before(b, a)
  {
  }

  function TimeOf(e: Edge): nat {
    e.ts
  }

  function NumberOf(e: Edge): nat {
    e.sequence
  }

  // ---- insertion -------------------------------------------------------------------------------

  /** The number of leading edges that come before `ev`. */
  function Place(q: seq<Edge>, ev: Edge): (k: nat)
    ensures k <= |q|
  {
    if q == [] || !Before(q[0], ev) then 0 else 1 + Place(q[1..], ev)
  }

  function Inserted(q: seq<Edge>, ev: Edge): seq<Edge> {
    q[..Place(q, ev)] + [ev] + q[Place(q, ev)..]
  }

  lemma {:induction false} PlaceSplits(q: seq<Edge>, ev: Edge)
    requires Sorted(q, Before) && NumberedBelow(q, NumberOf, ev.sequence)
    ensures forall i :: 0 <= i < Place(q, ev) ==> Before(q[i], ev)
    ensures forall i :: Place(q, ev) <= i < |q| ==> Before(ev, q[i])
  {
    if q != [] {
      BeforeIsStrictOrder(q[0], ev, ev);
      if Before(q[0], ev) {
        PlaceSplits(q[1..], ev);
      } else {
        forall i | 0 <= i < |q| ensures Before(ev, q[i]) {
          BeforeIsStrictOrder(ev, q[0], q[i]);
        }
      }
      hide Before;
    }
  }

  /** Insertion keeps the strict order and loses or repeats nothing. */
  lemma InsertKeepsOrder(q: seq<Edge>, ev: Edge)
    requires Sorted(q, Before) && NumberedBelow(q, NumberOf, ev.sequence)
    ensures Sorted(Inserted(q, ev), Before) && NumberedBelow(Inserted(q, ev), NumberOf, ev.sequence + 1)
    ensures multiset(Inserted(q, ev)) == multiset(q) + multiset{ev}
  {
    PlaceSplits(q, ev);
    hide Before, Place;
    var k := Place(q, ev);
    SortedAround(q, Before, k, ev);
    AroundKeeps(q, NumberOf, k, ev);
    hide Sorted, NumberedBelow;
  }

  // ---- removal ------------------------------------------------------------------------------------

  lemma BeforeRespectsTime()
    ensures forall a: Edge, b: Edge :: Before(a, b) ==> TimeOf(a) <= TimeOf(b)
  {
  }

  /** In an ordered queue the leading due edges are all the due edges. */
  lemma DueEdgesLead(q: seq<Edge>, now: nat)
    requires Sorted(q, Before)
    ensures forall i :: 0 <= i < |q| ==> (i < Due(q, TimeOf, now) <==> q[i].ts <= now)
  {
    BeforeRespectsTime();
    DueIsExact(q, Before, TimeOf, now);
  }

  // ---- the queue as an object -----------------------------------------------------------------------

  class EdgeQueue {
    var nextSequence: nat
    var queue: seq<Edge>

    ghost predicate Valid()
      reads this
    {
      Sorted(queue, Before) && NumberedBelow(queue, NumberOf, nextSequence)
    }

    constructor ()
      ensures Valid() && queue == [] && nextSequence == 0
    {
      nextSequence, queue := 0, [];
    }

    method Reset()
      modifies this
      ensures Valid() && queue == [] && nextSequence == 0
    {
      nextSequence, queue := 0, [];
    }

    /** Halving search for the first edge not before `ev`. */
    method LowerBound(ev: Edge) returns (k: nat)
      requires Valid() && ev.sequence == nextSequence
      ensures k == Place(queue, ev)
    {
      PlaceSplits(queue, ev);
      BeforeIsStrictOrder(ev, ev, ev);
      k := 0;
      var count := |queue|;
      while count > 0
        invariant k + count <= |queue|
        invariant k <= Place(queue, ev) <= k + count
      {
        var half := count / 2;
        if Before(queue[k + half], ev) {
          BeforeIsStrictOrder(queue[k + half], ev, ev);
          k, count := k + half + 1, count - half - 1;
        } else {
          count := half;
        }
      }
    }

    method Push(ts: nat, line: Line, level: bool, source: Source)
      requires Valid()
      modifies this
      ensures Valid() && nextSequence == old(nextSequence) + 1
      ensures queue == Inserted(old(queue), Edge(ts, line, level, source, old(nextSequence)))
    {
      var ev := Edge(ts, line, level, source, nextSequence);
      var k := LowerBound(ev);
      InsertKeepsOrder(queue, ev);
      nextSequence := nextSequence + 1;
      queue := queue[..k] + [ev] + queue[k..];
    }

    method PopReady(now: nat) returns (ready: seq<Edge>)
      requires Valid()
      modifies this`queue
      ensures Valid()
      ensures ready == old(queue)[..Due(old(queue), TimeOf, now)] && queue == old(queue)[Due(old(queue), TimeOf, now)..]
    {
      ghost var all := queue;
      ready := [];
      while queue != [] && queue[0].ts <= now
        invariant |ready| <= |all| && ready == all[..|ready|] && queue == all[|ready|..]
        invariant Due(all, TimeOf, now) == |ready| + Due(queue, TimeOf, now)
        decreases |queue|
      {
        ready := ready + [queue[0]];
        queue := queue[1..];
      }
    }
  }
}
