/**
  The out-of-order store of one endpoint (TCPReceiveBuffer.cpp): segments kept sorted by sequence
  number until the gap before them is filled.
 */
module ReceiveBuffer {
  import opened Word32

  datatype Segment = Segment(seqNo: u32, payload: seq<byte>)

  /** The sequence number just after a segment, computed on 32-bit words. */
  function End(s: Segment): u32 { Wrap(s.seqNo + |s.payload|) }

  datatype Buffer = Buffer(entries: seq<Segment>, next: u32, capacity: nat, buffered: int)

  function Bytes(entries: seq<Segment>): nat
  {
    if entries == [] then 0 else |entries[0].payload| + Bytes(entries[1..])
  }

  function Available(b: Buffer): nat
  {
    if b.capacity == 0 || b.buffered >= b.capacity then 0
    else if b.buffered < 0 then b.capacity else b.capacity - b.buffered
  }

  predicate Stores(entries: seq<Segment>, seqNo: int)
  {
    exists i :: 0 <= i < |entries| && entries[i].seqNo == seqNo
  }

  /** The admission test of push. */
  predicate Admits(b: Buffer, s: Segment)
  {
    && s.payload != []
    && s.seqNo >= b.next
    && (b.capacity == 0 || |s.payload| <= Available(b))
    && !Stores(b.entries, s.seqNo)
  }

  /** Index of the first entry whose sequence number is not below the given one. */
  function LowerBound(entries: seq<Segment>, seqNo: u32): (i: nat)
    ensures i <= |entries|
    ensures forall j :: 0 <= j < i ==> entries[j].seqNo < seqNo
    ensures i < |entries| ==> entries[i].seqNo >= seqNo
  {
    if entries == [] || entries[0].seqNo >= seqNo then 0 else 1 + LowerBound(entries[1..], seqNo)
  }

  lemma {:induction false} LowerBoundUnique(entries: seq<Segment>, seqNo: u32, i: nat)
    requires i <= |entries|
    requires forall j :: 0 <= j < i ==> entries[j].seqNo < seqNo
    requires i < |entries| ==> entries[i].seqNo >= seqNo
    ensures LowerBound(entries, seqNo) == i
  {
    if i > 0 {
      assert entries[0].seqNo < seqNo;
      LowerBoundUnique(entries[1..], seqNo, i - 1);
    }
  }

  function Inserted(entries: seq<Segment>, s: Segment): (r: seq<Segment>)
    ensures |r| == |entries| + 1
  {
    var i := LowerBound(entries, s.seqNo);
    entries[..i] + [s] + entries[i..]
  }

  function Pushed(b: Buffer, s: Segment): Buffer
  {
    if Admits(b, s) then
      b.(entries := Inserted(b.entries, s), buffered := b.buffered + |s.payload|)
    else b
  }

  /** The buffer after everything contiguous with the next expected byte has been taken out. */
  function Drained(b: Buffer): Buffer
    decreases |b.entries|
  {
    if b.entries == [] || b.entries[0].seqNo != b.next then b
    else
      Drained(b.(entries := b.entries[1..], next := End(b.entries[0]),
                 buffered := b.buffered - |b.entries[0].payload|))
  }

  /** The bytes handed over by that drain, in order. */
  function DrainedBytes(b: Buffer): seq<byte>
    decreases |b.entries|
  {
    if b.entries == [] || b.entries[0].seqNo != b.next then []
    else
      b.entries[0].payload
      + DrainedBytes(b.(entries := b.entries[1..], next := End(b.entries[0]),
                        buffered := b.buffered - |b.entries[0].payload|))
  }

  predicate Sorted(entries: seq<Segment>)
  {
    forall i, j :: 0 <= i < j < |entries| ==> entries[i].seqNo < entries[j].seqNo
  }

  predicate Valid(b: Buffer)
  {
    && Sorted(b.entries)
    && (forall i :: 0 <= i < |b.entries| ==> b.entries[i].payload != [])
    && b.buffered == Bytes(b.entries)
    && (b.capacity != 0 ==> b.buffered <= b.capacity)
  }

  lemma {:induction false} BytesAppend(xs: seq<Segment>, ys: seq<Segment>)
    ensures Bytes(xs + ys) == Bytes(xs) + Bytes(ys)
  {
    if xs == [] {
      assert xs + ys == ys;
    } else {
      assert (xs + ys)[1..] == xs[1..] + ys;
      BytesAppend(xs[1..], ys);
    }
  }

  /** Where an insertion lands relative to a smaller first entry, and before entries none of which is smaller. */
  lemma InsertedAfter(x: Segment, rest: seq<Segment>, s: Segment)
    requires x.seqNo < s.seqNo
    ensures Inserted([x] + rest, s) == [x] + Inserted(rest, s)
  {
    var all, k := [x] + rest, LowerBound(rest, s.seqNo);
    LowerBoundUnique(all, s.seqNo, k + 1);
    assert all[..k + 1] == [x] + rest[..k];
    assert all[k + 1..] == rest[k..];
    assert [x] + rest[..k] + [s] + rest[k..] == [x] + (rest[..k] + [s] + rest[k..]);
  }

  lemma InsertedFirst(entries: seq<Segment>, s: Segment)
    requires entries != [] ==> entries[0].seqNo >= s.seqNo
    ensures Inserted(entries, s) == [s] + entries
  {
    LowerBoundUnique(entries, s.seqNo, 0);
  }

  lemma BytesCons(x: Segment, rest: seq<Segment>)
    ensures Bytes([x] + rest) == |x.payload| + Bytes(rest)
  {
    assert ([x] + rest)[1..] == rest;
  }

  /** One turn of the drain loop. */
  lemma DrainTurn(x: Segment, rest: seq<Segment>, capacity: nat, buffered: int)
    ensures var b := Buffer([x] + rest, x.seqNo, capacity, buffered);
      var b' := Buffer(rest, End(x), capacity, buffered - |x.payload|);
      Drained(b) == Drained(b') && DrainedBytes(b) == x.payload + DrainedBytes(b')
  {
    assert ([x] + rest)[1..] == rest;
  }

  lemma InsertedBytes(entries: seq<Segment>, s: Segment)
    ensures Bytes(Inserted(entries, s)) == Bytes(entries) + |s.payload|
  {
    var i := LowerBound(entries, s.seqNo);
    assert entries == entries[..i] + entries[i..];
    BytesAppend(entries[..i], entries[i..]);
    BytesAppend(entries[..i] + [s], entries[i..]);
    BytesAppend(entries[..i], [s]);
    assert [s][1..] == [];
  }

  lemma InsertedSorted(entries: seq<Segment>, s: Segment)
    requires Sorted(entries) && !Stores(entries, s.seqNo)
    ensures Sorted(Inserted(entries, s))
  {
    var i := LowerBound(entries, s.seqNo);
    if i < |entries| { assert entries[i].seqNo > s.seqNo; }
  }

  /** Push keeps the store sorted, its byte count exact and within capacity, for every segment offered. */
  lemma PushKeepsValid(b: Buffer, s: Segment)
    requires Valid(b)
    ensures Valid(Pushed(b, s))
  {
    if Admits(b, s) {
      InsertedSorted(b.entries, s);
      InsertedBytes(b.entries, s);
    }
  }

  lemma {:induction false} DrainKeepsValid(b: Buffer)
    requires Valid(b)
    ensures Valid(Drained(b))
    ensures Drained(b).capacity == b.capacity
    ensures Drained(b).entries == [] || Drained(b).entries[0].seqNo != Drained(b).next
    decreases |b.entries|
  {
    if b.entries != [] && b.entries[0].seqNo == b.next {
      DrainKeepsValid(b.(entries := b.entries[1..], next := End(b.entries[0]),
                         buffered := b.buffered - |b.entries[0].payload|));
    }
  }

  /** TCPReceiveBuffer. `consumed` remembers what has been handed over; the source discards it. */
  class TcpReceiveBuffer {
    var entries: seq<Segment>
    var next: u32
    var capacity: nat
    var buffered: int
    ghost var consumed: seq<byte>

    function State(): Buffer
      reads this
    {
      Buffer(entries, next, capacity, buffered)
    }

    constructor (next: u32, capacity: nat)
      ensures State() == Buffer([], next, capacity, 0) && Valid(State()) && consumed == []
    {
      this.entries, this.next, this.capacity, this.buffered := [], next, capacity, 0;
      this.consumed := [];
    }

    method Push(s: Segment) returns (accepted: bool)
      requires Valid(State())
      modifies this
      ensures Valid(State())
      ensures accepted <==> Admits(old(State()), s)
      ensures State() == Pushed(old(State()), s)
      ensures consumed == old(consumed)
    {
      PushKeepsValid(State(), s);
      if |s.payload| == 0 { return false; }
      if s.seqNo < next { return false; }
      if capacity != 0 && |s.payload| > Available(State()) { return false; }
      var duplicate := Contains(s.seqNo);
      if duplicate { return false; }
      var position := FindPosition(s.seqNo);
      buffered := buffered + |s.payload|;
      entries := entries[..position] + [s] + entries[position..];
      return true;
    }

    /** std::find_if for an entry with the same sequence number. */
    method Contains(seqNo: u32) returns (found: bool)
      ensures found <==> Stores(entries, seqNo)
    {
      var i := 0;
      while i < |entries|
        invariant 0 <= i <= |entries|
        invariant forall j :: 0 <= j < i ==> entries[j].seqNo != seqNo
      {
        if entries[i].seqNo == seqNo { return true; }
        i := i + 1;
      }
      return false;
    }

    /** std::lower_bound over the sorted entries. */
    method FindPosition(seqNo: u32) returns (position: nat)
      requires Sorted(entries)
      ensures position == LowerBound(entries, seqNo)
    {
      var lo, hi := 0, |entries|;
      while lo < hi
        invariant 0 <= lo <= hi <= |entries|
        invariant forall j :: 0 <= j < lo ==> entries[j].seqNo < seqNo
        invariant forall j :: hi <= j < |entries| ==> entries[j].seqNo >= seqNo
      {
        var mid := lo + (hi - lo) / 2;
        if entries[mid].seqNo < seqNo { lo := mid + 1; } else { hi := mid; }
      }
      position := lo;
      LowerBoundUnique(entries, seqNo, lo);
    }

    method ConsumeContiguous() returns (count: nat)
      requires Valid(State())
      modifies this
      ensures Valid(State())
      ensures State() == Drained(old(State()))
      ensures consumed == old(consumed) + DrainedBytes(old(State()))
      ensures count == |old(entries)| - |entries|
    {
      DrainKeepsValid(State());
      count := 0;
      ghost var start := State();
      while |entries| > 0
        invariant count == |start.entries| - |entries|
        invariant Drained(State()) == Drained(start)
        invariant consumed + DrainedBytes(State()) == old(consumed) + DrainedBytes(start)
        decreases |entries|
      {
        var front := entries[0];
        if front.seqNo != next { break; }
        ghost var before := State();
        next := End(front);
        buffered := buffered - |front.payload|;
        entries := entries[1..];
        consumed := consumed + front.payload;
        count := count + 1;
        assert DrainedBytes(before) == front.payload + DrainedBytes(State());
      }
    }

    method SetNextSequence(seqNo: u32)
      modifies this`next
      ensures next == seqNo
    {
      next := seqNo;
    }

    method Clear()
      modifies this`entries, this`buffered
      ensures State() == old(State()).(entries := [], buffered := 0)
    {
      entries := [];
      buffered := 0;
    }
  }
}
