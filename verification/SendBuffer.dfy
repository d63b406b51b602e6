/**
  Sent and not yet acknowledged segments, oldest first (TCPSendBuffer.cpp, TCPSendEntry.hpp),
  and the detector of duplicate acknowledgements (TCPLossDetector.cpp).
 */
module SendBuffer {
  import opened Common
  import opened Word32

  datatype Entry = Entry(seqNo: u32, ack: u32, payload: seq<byte>, sentAt: real, retransmitted: bool, count: u32)

  function End(e: Entry): u32 { Wrap(e.seqNo + |e.payload|) }

  function Marked(e: Entry, now: real): Entry
  {
    e.(sentAt := now, retransmitted := true, count := Wrap(e.count + 1))
  }

  /** Index of the first entry with the sequence number, or |entries|. */
  function Find(entries: seq<Entry>, seqNo: u32): (i: nat)
    ensures i <= |entries|
    ensures i < |entries| ==> entries[i].seqNo == seqNo
    ensures forall j :: 0 <= j < i ==> entries[j].seqNo != seqNo
  {
    if entries == [] || entries[0].seqNo == seqNo then 0 else 1 + Find(entries[1..], seqNo)
  }

  predicate Contains(entries: seq<Entry>, seqNo: u32)
  {
    Find(entries, seqNo) < |entries|
  }

  function MarkedAt(entries: seq<Entry>, seqNo: u32, now: real): (r: seq<Entry>)
    ensures |r| == |entries|
  {
    var i := Find(entries, seqNo);
    if i < |entries| then entries[i := Marked(entries[i], now)] else entries
  }

  /** How many entries at the front a cumulative acknowledgement covers completely. */
  function Covered(entries: seq<Entry>, ack: u32): (n: nat)
    ensures n <= |entries|
    ensures forall j :: 0 <= j < n ==> End(entries[j]) <= ack
    ensures n < |entries| ==> ack < End(entries[n])
  {
    if entries == [] || End(entries[0]) > ack then 0 else 1 + Covered(entries[1..], ack)
  }

  /** The round-trip sample of the first n entries: the first measurable one with a positive age. */
  function RttSample(entries: seq<Entry>, n: nat, now: real): (r: Option<real>)
    requires n <= |entries|
    ensures r.Some? ==> r.value > 0.0 && exists i :: 0 <= i < n && !entries[i].retransmitted && r.value == now - entries[i].sentAt
  {
    if n == 0 then None
    else
      var earlier := RttSample(entries, n - 1, now);
      if earlier.Some? then earlier
      else if !entries[n - 1].retransmitted && now - entries[n - 1].sentAt > 0.0 then
        Some(now - entries[n - 1].sentAt)
      else None
  }

  /** Can the round trip be measured on the entry: sent once, and some time ago? */
  predicate Measurable(e: Entry, now: real) { !e.retransmitted && now - e.sentAt > 0.0 }

  /** The first of some entries that can be measured gives the sample; if none can there is none. */
  predicate FirstSample(entries: seq<Entry>, n: nat, now: real, sample: Option<real>)
    requires n <= |entries|
  {
    match sample
    case Some(age) =>
      exists i :: 0 <= i < n && Measurable(entries[i], now) && age == now - entries[i].sentAt
                  && forall j :: 0 <= j < i ==> !Measurable(entries[j], now)
    case None => forall i :: 0 <= i < n ==> !Measurable(entries[i], now)
  }

  lemma {:induction false} SampleIsFirst(entries: seq<Entry>, n: nat, now: real)
    requires n <= |entries|
    ensures FirstSample(entries, n, now, RttSample(entries, n, now))
  {
    if n > 0 { SampleIsFirst(entries, n - 1, now); }
  }

  lemma {:induction false} FindUnique(entries: seq<Entry>, seqNo: u32, i: nat)
    requires i <= |entries| && (i < |entries| ==> entries[i].seqNo == seqNo)
    requires forall j :: 0 <= j < i ==> entries[j].seqNo != seqNo
    ensures Find(entries, seqNo) == i
  {
    if i > 0 {
      assert entries[0].seqNo != seqNo;
      FindUnique(entries[1..], seqNo, i - 1);
    }
  }

  lemma {:induction false} CoveredUnique(entries: seq<Entry>, ack: u32, n: nat)
    requires n <= |entries| && (n < |entries| ==> ack < End(entries[n]))
    requires forall j :: 0 <= j < n ==> End(entries[j]) <= ack
    ensures Covered(entries, ack) == n
  {
    if n > 0 {
      assert End(entries[0]) <= ack;
      CoveredUnique(entries[1..], ack, n - 1);
    }
  }

  /** TCPSendBuffer. */
  class TcpSendBuffer {
    var entries: seq<Entry>
    var capacity: nat

    constructor (capacity: nat)
      ensures entries == [] && this.capacity == capacity
    {
      entries, this.capacity := [], capacity;
    }

    method Push(e: Entry) returns (ok: bool)
      modifies this`entries
      ensures ok <==> capacity == 0 || |old(entries)| < capacity
      ensures entries == if ok then old(entries) + [e] else old(entries)
    {
      if capacity != 0 && |entries| >= capacity { return false; }
      entries := entries + [e];
      return true;
    }

    method IndexOf(seqNo: u32) returns (i: nat)
      ensures i == Find(entries, seqNo)
    {
      i := 0;
      while i < |entries|
        invariant 0 <= i <= |entries|
        invariant forall j :: 0 <= j < i ==> entries[j].seqNo != seqNo
      {
        if entries[i].seqNo == seqNo { break; }
        i := i + 1;
      }
      FindUnique(entries, seqNo, i);
    }

    method Acknowledge(ack: u32) returns (removed: nat)
      modifies this`entries
      ensures removed == Covered(old(entries), ack)
      ensures entries == old(entries)[removed..]
    {
      removed := 0;
      ghost var all := entries;
      while |entries| > 0 && End(entries[0]) <= ack
        invariant removed <= |all| && entries == all[removed..]
        invariant forall j :: 0 <= j < removed ==> End(all[j]) <= ack
        decreases |entries|
      {
        assert entries[0] == all[removed];
        entries := entries[1..];
        removed := removed + 1;
      }
      assert removed < |all| ==> entries[0] == all[removed];
      CoveredUnique(all, ack, removed);
    }

    method PopFront() returns (e: Option<Entry>)
      modifies this`entries
      ensures old(entries) == [] ==> e == None && entries == []
      ensures old(entries) != [] ==> e == Some(old(entries)[0]) && entries == old(entries)[1..]
    {
      if entries == [] { return None; }
      e := Some(entries[0]);
      entries := entries[1..];
    }

    method MarkRetransmitted(seqNo: u32, now: real) returns (ok: bool)
      modifies this`entries
      ensures ok <==> Contains(old(entries), seqNo)
      ensures entries == MarkedAt(old(entries), seqNo, now)
    {
      var i := IndexOf(seqNo);
      if i == |entries| { return false; }
      entries := entries[i := Marked(entries[i], now)];
      return true;
    }

    method AcknowledgeAndGetRtt(ack: u32, now: real) returns (sample: Option<real>)
      modifies this`entries
      ensures var n := Covered(old(entries), ack);
        && entries == old(entries)[n..]
        && sample == RttSample(old(entries), n, now)
    {
      sample := None;
      ghost var all, removed := entries, 0;
      while |entries| > 0 && End(entries[0]) <= ack
        invariant 0 <= removed <= |all| && entries == all[removed..]
        invariant forall j :: 0 <= j < removed ==> End(all[j]) <= ack
        invariant sample == RttSample(all, removed, now)
        decreases |entries|
      {
        var entry := entries[0];
        assert entry == all[removed];
        if sample.None? && !entry.retransmitted {
          var age := now - entry.sentAt;
          if age > 0.0 { sample := Some(age); }
        }
        entries := entries[1..];
        removed := removed + 1;
      }
      assert removed < |all| ==> entries[0] == all[removed];
      CoveredUnique(all, ack, removed);
    }

    method Clear()
      modifies this`entries
      ensures entries == []
    {
      entries := [];
    }
  }

  // ---- duplicate acknowledgements ----

  const DUPLICATE_ACK_THRESHOLD := 3

  datatype Detector = Detector(lastAck: u32, duplicates: u32, hasAck: bool)

  const FreshDetector := Detector(0, 0, false)

  function Observed(d: Detector, ack: u32): Detector
  {
    if !d.hasAck then Detector(ack, 0, true)
    else if ack == d.lastAck then d.(duplicates := Wrap(d.duplicates + 1))
    else Detector(ack, 0, true)
  }

  function ObservedAll(acks: seq<u32>): Detector
  {
    if acks == [] then FreshDetector else Observed(ObservedAll(acks[..|acks| - 1]), acks[|acks| - 1])
  }

  predicate ShouldFastRetransmit(d: Detector)
  {
    d.duplicates >= DUPLICATE_ACK_THRESHOLD
  }

  /** Length of the run of equal acknowledgements at the end of a history. */
  function Run(acks: seq<u32>): nat
  {
    if acks == [] then 0
    else if |acks| == 1 || acks[|acks| - 2] != acks[|acks| - 1] then 1
    else 1 + Run(acks[..|acks| - 1])
  }

  /** Fast retransmit is indicated exactly when the last four acknowledgements (three duplicates) are equal. */
  lemma {:induction false} ThreeDuplicates(acks: seq<u32>)
    requires |acks| <= MAX_WORD
    ensures ShouldFastRetransmit(ObservedAll(acks)) <==> Run(acks) >= 4
    ensures Run(acks) <= |acks| && (acks != [] ==> Run(acks) >= 1)
    ensures acks != [] ==> ObservedAll(acks) == Detector(acks[|acks| - 1], Run(acks) - 1, true)
  {
    if acks != [] {
      ThreeDuplicates(acks[..|acks| - 1]);
      if |acks| > 1 { assert acks[..|acks| - 1][|acks| - 2] == acks[|acks| - 2]; }
    }
  }

  /** TCPLossDetector. */
  class TcpLossDetector {
    var lastAck: u32
    var duplicates: u32
    var hasAck: bool

    function State(): Detector
      reads this
    {
      Detector(lastAck, duplicates, hasAck)
    }

    constructor ()
      ensures State() == FreshDetector
    {
      lastAck, duplicates, hasAck := 0, 0, false;
    }

    method ObserveAck(ack: u32) returns (duplicate: bool)
      modifies this
      ensures State() == Observed(old(State()), ack)
      ensures duplicate <==> old(hasAck) && old(lastAck) == ack
    {
      if !hasAck {
        lastAck, duplicates, hasAck := ack, 0, true;
        return false;
      }
      if ack == lastAck {
        duplicates := Wrap(duplicates + 1);
        return true;
      }
      lastAck := ack;
      duplicates := 0;
      return false;
    }

    method Reset()
      modifies this
      ensures State() == FreshDetector
    {
      lastAck, duplicates, hasAck := 0, 0, false;
    }
  }
}
