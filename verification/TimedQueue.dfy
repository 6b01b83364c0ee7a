/** Queues in order of time: what is due, and where a new element goes. */
module TimedQueue {

  predicate Sorted<T>(q: seq<T>, before: (T, T) -> bool) {
    forall i, j :: 0 <= i < j < |q| ==> before(q[i], q[j])
  }

  predicate NumberedBelow<T>(q: seq<T>, number: T -> nat, next: nat) {
    forall i :: 0 <= i < |q| ==> number(q[i]) < next
  }

  /** How many leading elements are due. */
  function Due<T>(q: seq<T>, time: T -> nat, now: nat): (k: nat)
    ensures k <= |q|
  {
    if q == [] || time(q[0]) > now then 0 else 1 + Due(q[1..], time, now)
  }

  /** In a queue whose order respects time, the leading due elements are all the due elements. */
  lemma {:induction false} DueIsExact<T(!new)>(q: seq<T>, before: (T, T) -> bool, time: T -> nat, now: nat)
    requires Sorted(q, before) && forall a: T, b: T :: before(a, b) ==> time(a) <= time(b)
    ensures forall i :: 0 <= i < |q| ==> (i < Due(q, time, now) <==> time(q[i]) <= now)
  {
    if q != [] {
      DueIsExact(q[1..], before, time, now);
      forall i | 0 <= i < |q| ensures time(q[0]) <= time(q[i]) {
        assert i > 0 ==> before(q[0], q[i]);
      }
    }
  }

  /** Taking what is due at a and then at a later b takes the same elements in the same order as at b. */
  lemma {:induction false} DueSplits<T>(q: seq<T>, time: T -> nat, a: nat, b: nat)
    requires a <= b
    ensures var rest := q[Due(q, time, a)..];
            && Due(q, time, a) + Due(rest, time, b) == Due(q, time, b)
            && q[..Due(q, time, a)] + rest[..Due(rest, time, b)] == q[..Due(q, time, b)]
            && rest[Due(rest, time, b)..] == q[Due(q, time, b)..]
  {
    if q != [] && time(q[0]) <= a {
      DueSplits(q[1..], time, a, b);
      assert q[1..][Due(q[1..], time, a)..] == q[Due(q, time, a)..];
    } else {
      assert q[0..] == q;
    }
  }

  /** An element put behind everything before it and ahead of everything after it keeps the order. */
  lemma SortedAround<T>(q: seq<T>, before: (T, T) -> bool, k: nat, x: T)
    requires Sorted(q, before) && k <= |q|
    requires forall i :: 0 <= i < k ==> before(q[i], x)
    requires forall i :: k <= i < |q| ==> before(x, q[i])
    ensures Sorted(q[..k] + [x] + q[k..], before)
  {
    var r := q[..k] + [x] + q[k..];
    forall i, j | 0 <= i < j < |r| ensures before(r[i], r[j]) {
      if i < k { assert r[i] == q[i]; } else if i > k { assert r[i] == q[i - 1]; }
      if j < k { assert r[j] == q[j]; } else if j > k { assert r[j] == q[j - 1]; }
    }
  }

  lemma AroundKeeps<T>(q: seq<T>, number: T -> nat, k: nat, x: T)
    requires k <= |q| && NumberedBelow(q, number, number(x))
    ensures NumberedBelow(q[..k] + [x] + q[k..], number, number(x) + 1)
    ensures multiset(q[..k] + [x] + q[k..]) == multiset(q) + multiset{x}
  {
    assert multiset(q[..k] + [x] + q[k..]) == multiset(q) + multiset{x} by {
      hide NumberedBelow;
      assert q == q[..k] + q[k..];
    }
  }
}
