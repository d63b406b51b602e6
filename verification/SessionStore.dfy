/**
  The server's store in terms of the client's stream: how many bytes it holds, and what draining takes out of it.
 */
module SessionStore {
  import opened Word32
  import opened Connection
  import opened Session
  import opened SessionStream
  import opened Reassembly
  import RB = ReceiveBuffer

  // ---- what is stored, in bytes ----

  /** The bytes of a set of pieces, from piece lo on. */
  function SetSize(pieces: seq<seq<byte>>, a: set<nat>, lo: nat): nat
    requires lo <= |pieces|
    decreases |pieces| - lo
  {
    if lo == |pieces| then 0
    else (if lo in a then |pieces[lo]| else 0) + SetSize(pieces, a, lo + 1)
  }

  lemma {:induction false} SetSizeBound(pieces: seq<seq<byte>>, a: set<nat>, lo: nat)
    requires lo <= |pieces|
    ensures SetSize(pieces, a, lo) <= Offset(pieces, |pieces|) - Offset(pieces, lo)
    decreases |pieces| - lo
  {
    if lo < |pieces| { SetSizeBound(pieces, a, lo + 1); }
  }

  lemma {:induction false} SetSizeAdd(pieces: seq<seq<byte>>, a: set<nat>, lo: nat, i: nat)
    requires i < |pieces| && lo <= |pieces| && i !in a
    ensures SetSize(pieces, a + {i}, lo) == SetSize(pieces, a, lo) + if i >= lo then |pieces[i]| else 0
    decreases |pieces| - lo
  {
    if lo < |pieces| { SetSizeAdd(pieces, a, lo + 1, i); }
  }

  lemma {:induction false} EmptySize(pieces: seq<seq<byte>>, lo: nat)
    requires lo <= |pieces|
    ensures SetSize(pieces, {}, lo) == 0
    decreases |pieces| - lo
  {
    if lo < |pieces| { EmptySize(pieces, lo + 1); }
  }

  /** A piece that does not come before piece lo. */
  ghost predicate PieceFrom(p: Partition, seqNo: u32, payload: seq<byte>, lo: nat)
  {
    exists i: nat :: IsPiece(p, seqNo, payload, i) && i >= lo
  }

  ghost predicate StoredFrom(p: Partition, entries: seq<RB.Segment>, lo: nat)
  {
    forall s :: s in entries ==> PieceFrom(p, s.seqNo, s.payload, lo)
  }

  /** The stored bytes are those of a set of pieces, the numbers of which are the stored numbers. */
  lemma {:induction false} StoredSize(p: Partition, entries: seq<RB.Segment>, lo: nat) returns (a: set<nat>)
    requires Modest(p) && RB.Sorted(entries) && StoredFrom(p, entries, lo) && lo <= |p.pieces|
    ensures forall i :: i in a ==> lo <= i < |p.pieces| && RB.Stores(entries, Word(p, i))
    ensures RB.Bytes(entries) == SetSize(p.pieces, a, lo)
  {
    if entries == [] {
      a := {};
      EmptySize(p.pieces, lo);
    } else {
      var rest := entries[1..];
      assert entries == [entries[0]] + rest;
      var b := StoredSize(p, rest, lo);
      assert entries[0] in entries;
      var i: nat :| IsPiece(p, entries[0].seqNo, entries[0].payload, i) && i >= lo;
      NotStoredTwice(p, entries, i);
      assert i !in b;
      SetSizeAdd(p.pieces, b, lo, i);
      a := b + {i};
      forall x | x in b ensures lo <= x < |p.pieces| && RB.Stores(entries, Word(p, x)) { StoresRest(entries, Word(p, x)); }
    }
  }

  lemma StoresRest(entries: seq<RB.Segment>, n: int)
    requires entries != [] && RB.Stores(entries[1..], n)
    ensures RB.Stores(entries, n)
  {
    var m :| 0 <= m < |entries[1..]| && entries[1..][m].seqNo == n;
    assert entries[m + 1].seqNo == n;
  }

  lemma NotStoredTwice(p: Partition, entries: seq<RB.Segment>, i: nat)
    requires RB.Sorted(entries) && entries != [] && i <= |p.pieces| && entries[0].seqNo == Word(p, i)
    ensures !RB.Stores(entries[1..], Word(p, i))
  {
    forall m | 0 <= m < |entries[1..]| ensures entries[1..][m].seqNo != Word(p, i) {
      assert entries[0].seqNo < entries[m + 1].seqNo;
    }
  }

  /** A piece neither handed over nor stored. */
  predicate Missing(p: Partition, b: RB.Buffer, k: nat, i: nat)
    requires i <= |p.pieces|
  {
    k <= i < |p.pieces| && !RB.Stores(b.entries, Word(p, i))
  }

  /** A missing piece fits beside stored pieces that all lie, with it, in a window's worth of the stream. */
  lemma MissingFits(p: Partition, b: RB.Buffer, k: nat, lo: nat, i: nat)
    requires Modest(p) && RB.Valid(b) && b.capacity == DEFAULT_WINDOW && lo <= i < |p.pieces|
    requires StoredFrom(p, b.entries, lo) && Missing(p, b, k, i)
    requires Offset(p.pieces, |p.pieces|) - Offset(p.pieces, lo) <= DEFAULT_WINDOW
    ensures |p.pieces[i]| <= RB.Available(b)
  {
    var a := StoredSize(p, b.entries, lo);
    SetSizeAdd(p.pieces, a, lo, i);
    SetSizeBound(p.pieces, a + {i}, lo);
    assert |p.pieces[i]| >= 1;
  }

  // ---- draining takes what is stored, and only that ----

  /** What is drained was stored, what is left was stored too, and all of it comes after what was drained. */
  lemma {:induction false} DrainTakes(p: Partition, b: RB.Buffer, k: nat) returns (k': nat)
    requires Modest(p) && RB.Sorted(b.entries) && k <= |p.pieces| && b.next == Word(p, k) && StoredFrom(p, b.entries, k)
    ensures k <= k' <= |p.pieces| && RB.Drained(b).next == Word(p, k') && StoredFrom(p, RB.Drained(b).entries, k')
    ensures forall s :: s in RB.Drained(b).entries ==> s in b.entries
    ensures forall i: nat :: k <= i < k' ==> RB.Stores(b.entries, Word(p, i))
    decreases |b.entries|
  {
    k' := k;
    if b.entries != [] && b.entries[0].seqNo == b.next {
      TurnTakes(p, b, k);
      k' := DrainTakes(p, Turned(b), k + 1);
      forall i: nat | k <= i < k' ensures RB.Stores(b.entries, Word(p, i)) {
        if i > k { StoresRest(b.entries, Word(p, i)); }
      }
    }
  }

  lemma TurnTakes(p: Partition, b: RB.Buffer, k: nat)
    requires Modest(p) && RB.Sorted(b.entries) && k <= |p.pieces| && b.next == Word(p, k) && StoredFrom(p, b.entries, k)
    requires b.entries != [] && b.entries[0].seqNo == b.next
    ensures k < |p.pieces| && Turned(b).next == Word(p, k + 1) && StoredFrom(p, Turned(b).entries, k + 1)
    ensures RB.Sorted(Turned(b).entries) && RB.Stores(b.entries, Word(p, k))
    ensures forall s :: s in Turned(b).entries ==> s in b.entries
  {
    assert b.entries[0] in b.entries;
    var i: nat :| IsPiece(p, b.entries[0].seqNo, b.entries[0].payload, i) && i >= k;
    if i != k { WordsDiffer(p, i, k); }
    WordNext(p, k);
    forall s | s in Turned(b).entries ensures s in b.entries && PieceFrom(p, s.seqNo, s.payload, k + 1) {
      var m :| 0 <= m < |b.entries[1..]| && b.entries[1..][m] == s;
      assert s == b.entries[m + 1] && b.entries[0].seqNo < s.seqNo;
      var j: nat :| IsPiece(p, s.seqNo, s.payload, j) && j >= k;
      assert IsPiece(p, s.seqNo, s.payload, j) && j != k;
    }
  }

  lemma PushedFrom(p: Partition, b: RB.Buffer, s: RB.Segment, lo: nat)
    requires StoredFrom(p, b.entries, lo) && PieceFrom(p, s.seqNo, s.payload, lo)
    ensures StoredFrom(p, RB.Pushed(b, s).entries, lo)
    ensures forall n: u32 :: n != s.seqNo && RB.Stores(RB.Pushed(b, s).entries, n) ==> RB.Stores(b.entries, n)
  {
    var i, r := RB.LowerBound(b.entries, s.seqNo), RB.Pushed(b, s).entries;
    if RB.Admits(b, s) {
      assert forall m :: 0 <= m < |r| ==> r[m] == if m < i then b.entries[m] else if m == i then s else b.entries[m - 1];
    }
  }

  lemma {:induction false} DrainedWithin(b: RB.Buffer)
    ensures forall s :: s in RB.Drained(b).entries ==> s in b.entries
    decreases |b.entries|
  {
    if b.entries != [] && b.entries[0].seqNo == b.next {
      assert b.entries == [b.entries[0]] + b.entries[1..];
      DrainedWithin(Turned(b));
    }
  }
}
