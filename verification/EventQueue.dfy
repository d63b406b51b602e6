/**
  The event queue: earliest timestamp first, then lowest id (core/src/engine/core/EventQueue.cpp).
 */
module EventQueues {
  import opened Common

  datatype Timed<+E> = Timed(time: real, id: nat, event: E)

  predicate Earlier<E(!new)>(x: Timed<E>, y: Timed<E>)
  {
    if x.time != y.time then x.time < y.time else x.id < y.id
  }

  predicate Sorted<E(!new)>(q: seq<Timed<E>>)
  {
    forall i, j :: 0 <= i < j < |q| ==> Earlier(q[i], q[j])
  }

  /** The priority queue as the list of its contents in the order they will be taken. */
  function Scheduled<E(!new)>(q: seq<Timed<E>>, e: Timed<E>): (r: seq<Timed<E>>)
    ensures |r| == |q| + 1
    ensures forall x :: x in r <==> x == e || x in q
  {
    if q == [] || Earlier(e, q[0]) then [e] + q
    else
      assert q == [q[0]] + q[1..];
      [q[0]] + Scheduled(q[1..], e)
  }

  lemma {:induction false} ScheduledSorted<E(!new)>(q: seq<Timed<E>>, e: Timed<E>)
    requires Sorted(q) && forall x :: x in q ==> x.id != e.id
    ensures Sorted(Scheduled(q, e))
  {
    var r := Scheduled(q, e);
    if q == [] || Earlier(e, q[0]) {
      assert forall j :: 0 < j < |r| ==> r[j] == q[j - 1];
    } else {
      var rest := Scheduled(q[1..], e);
      assert forall x :: x in q[1..] ==> x in q;
      ScheduledSorted(q[1..], e);
      assert forall j :: 0 < j < |r| ==> r[j] == rest[j - 1] && rest[j - 1] in rest;
      assert q[0] in q;
      forall j | 0 < j < |r| ensures Earlier(r[0], r[j]) {
        if r[j] != e {
          assert r[j] in q[1..];
          var k :| 0 <= k < |q[1..]| && q[1..][k] == r[j];
          assert q[k + 1] == r[j];
        }
      }
    }
  }

  lemma {:induction false} ScheduledAt<E(!new)>(q: seq<Timed<E>>, e: Timed<E>, i: nat)
    requires i <= |q| && (forall k :: 0 <= k < i ==> !Earlier(e, q[k])) && (i < |q| ==> Earlier(e, q[i]))
    ensures Scheduled(q, e) == q[..i] + [e] + q[i..]
  {
    if i > 0 {
      ScheduledAt(q[1..], e, i - 1);
      assert q[..i] == [q[0]] + q[1..][..i - 1] && q[i..] == q[1..][i - 1..];
    }
  }

  /** Nothing waiting would have been taken before the head. */
  class EventQueue<E(!new)> {
    var events: seq<Timed<E>>

    predicate Valid()
      reads this
    {
      Sorted(events)
    }

    constructor ()
      ensures Valid() && events == []
    {
      events := [];
    }

    method Schedule(e: Timed<E>)
      requires Valid() && forall x :: x in events ==> x.id != e.id
      modifies this
      ensures Valid() && events == Scheduled(old(events), e)
    {
      var i := 0;
      while i < |events| && !Earlier(e, events[i])
        invariant 0 <= i <= |events|
        invariant forall k :: 0 <= k < i ==> !Earlier(e, events[k])
      {
        i := i + 1;
      }
      ScheduledSorted(events, e);
      ScheduledAt(events, e, i);
      events := events[..i] + [e] + events[i..];
    }

    method Next() returns (r: Option<Timed<E>>)
      requires Valid()
      modifies this
      ensures Valid()
      ensures old(events) == [] ==> r == None && events == []
      ensures old(events) != [] ==> r == Some(old(events)[0]) && events == old(events)[1..]
      ensures forall x :: r.Some? && x in events ==> Earlier(r.value, x)
    {
      if events == [] { return None; }
      r := Some(events[0]);
      events := events[1..];
    }
  }
}
