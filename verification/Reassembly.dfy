/**
  What the receive buffer does with the segments of one stream, cut once and for all into
  consecutive pieces: its state depends only on which pieces it has accepted, so the order and
  the repeats of their arrival do not matter, as long as the capacity never turns a piece away.
 */
module Reassembly {
  import opened Word32
  import opened ReceiveBuffer

  /** A stream starting at a sequence number, cut into consecutive pieces. */
  datatype Partition = Partition(base: u32, pieces: seq<seq<byte>>)

  function Offset(pieces: seq<seq<byte>>, i: nat): nat
    requires i <= |pieces|
  {
    if i == 0 then 0 else Offset(pieces, i - 1) + |pieces[i - 1]|
  }

  function Joined(pieces: seq<seq<byte>>): seq<byte>
  {
    if pieces == [] then [] else Joined(pieces[..|pieces| - 1]) + pieces[|pieces| - 1]
  }

  /** No piece is empty and the last byte's successor still fits in 32 bits. */
  predicate WellCut(p: Partition)
  {
    && (forall i :: 0 <= i < |p.pieces| ==> p.pieces[i] != [])
    && p.base + Offset(p.pieces, |p.pieces|) <= MAX_WORD
  }

  /** First sequence number of piece i; of the stream's end for i == |pieces|. */
  function Start(p: Partition, i: nat): int
    requires i <= |p.pieces|
  {
    p.base + Offset(p.pieces, i)
  }

  lemma {:induction false} OffsetMonotone(pieces: seq<seq<byte>>, i: nat, j: nat)
    requires i <= j <= |pieces|
    ensures Offset(pieces, i) <= Offset(pieces, j)
    decreases j
  {
    if i < j { OffsetMonotone(pieces, i, j - 1); }
  }

  lemma StartOrder(p: Partition, i: nat, j: nat)
    requires WellCut(p) && i < |p.pieces| && j <= |p.pieces|
    ensures p.base <= Start(p, i) <= MAX_WORD
    ensures i < j ==> Start(p, i) + |p.pieces[i]| <= Start(p, j) && Start(p, i) < Start(p, j)
    ensures j <= i ==> Start(p, j) <= Start(p, i)
  {
    OffsetMonotone(p.pieces, i, |p.pieces|);
    OffsetMonotone(p.pieces, 0, i);
    if i < j {
      OffsetMonotone(p.pieces, i + 1, j);
      assert |p.pieces[i]| > 0;
    } else {
      OffsetMonotone(p.pieces, j, i);
    }
  }

  function Piece(p: Partition, i: nat): Segment
    requires WellCut(p) && i < |p.pieces|
  {
    StartOrder(p, i, i);
    Segment(Start(p, i), p.pieces[i])
  }

  lemma PieceEnd(p: Partition, i: nat)
    requires WellCut(p) && i < |p.pieces|
    ensures End(Piece(p, i)) == Start(p, i + 1)
  {
    StartOrder(p, i, i + 1);
    OffsetMonotone(p.pieces, i + 1, |p.pieces|);
  }

  /** The accepted pieces with index at least lo, in stream order. */
  function Listed(p: Partition, a: set<nat>, lo: nat): seq<Segment>
    requires WellCut(p) && lo <= |p.pieces|
    decreases |p.pieces| - lo
  {
    if lo == |p.pieces| then []
    else if lo in a then [Piece(p, lo)] + Listed(p, a, lo + 1)
    else Listed(p, a, lo + 1)
  }

  /** The first piece at or after lo that has not been accepted. */
  function Gap(p: Partition, a: set<nat>, lo: nat): (k: nat)
    requires lo <= |p.pieces|
    ensures lo <= k <= |p.pieces|
    ensures forall j :: lo <= j < k ==> j in a
    ensures k < |p.pieces| ==> k !in a
    decreases |p.pieces| - lo
  {
    if lo == |p.pieces| || lo !in a then lo else Gap(p, a, lo + 1)
  }

  /** The buffer that holds exactly the accepted pieces a. */
  function Holding(p: Partition, a: set<nat>, capacity: nat): Buffer
    requires WellCut(p)
  {
    Stored(p, a, Gap(p, a, 0), capacity)
  }

  lemma StartBound(p: Partition, k: nat)
    requires WellCut(p) && k <= |p.pieces|
    ensures 0 <= Start(p, k) <= MAX_WORD
  {
    OffsetMonotone(p.pieces, k, |p.pieces|);
  }

  /** One arrival: push, then drain what has become contiguous (TCPConnection::receive_data). */
  function Received(b: Buffer, s: Segment): Buffer
  {
    if Admits(b, s) then Drained(Pushed(b, s)) else b
  }

  lemma {:induction false} ListedFloor(p: Partition, a: set<nat>, lo: nat)
    requires WellCut(p) && lo <= |p.pieces|
    ensures forall j :: 0 <= j < |Listed(p, a, lo)| ==> Listed(p, a, lo)[j].seqNo >= Start(p, lo)
    decreases |p.pieces| - lo
  {
    if lo < |p.pieces| {
      ListedFloor(p, a, lo + 1);
      StartOrder(p, lo, lo + 1);
    }
  }

  lemma StoresCons(x: Segment, rest: seq<Segment>, seqNo: int)
    ensures Stores([x] + rest, seqNo) <==> x.seqNo == seqNo || Stores(rest, seqNo)
  {
    var all := [x] + rest;
    if Stores(rest, seqNo) {
      var j :| 0 <= j < |rest| && rest[j].seqNo == seqNo;
      assert all[j + 1].seqNo == seqNo;
    }
    if x.seqNo == seqNo { assert all[0].seqNo == seqNo; }
    if Stores(all, seqNo) {
      var j :| 0 <= j < |all| && all[j].seqNo == seqNo;
      assert j > 0 ==> rest[j - 1].seqNo == seqNo;
    }
  }

  lemma {:induction false} ListedMembers(p: Partition, a: set<nat>, lo: nat, i: nat)
    requires WellCut(p) && lo <= |p.pieces| && i < |p.pieces|
    ensures Stores(Listed(p, a, lo), Start(p, i)) <==> lo <= i && i in a
    decreases |p.pieces| - lo
  {
    if lo < |p.pieces| {
      ListedMembers(p, a, lo + 1, i);
      StoresCons(Piece(p, lo), Listed(p, a, lo + 1), Start(p, i));
      StartOrder(p, lo, i);
      StartOrder(p, i, lo);
    }
  }

  /** Inserting a missing piece into the list is listing it too. */
  lemma {:induction false} ListedInsert(p: Partition, a: set<nat>, lo: nat, i: nat)
    requires WellCut(p) && lo <= i < |p.pieces| && i !in a
    ensures Inserted(Listed(p, a, lo), Piece(p, i)) == Listed(p, a + {i}, lo)
    decreases |p.pieces| - lo
  {
    StartOrder(p, lo, i);
    if i == lo {
      ListedAgree(p, a, a + {i}, lo + 1);
      ListedFloor(p, a, lo);
      InsertedFirst(Listed(p, a, lo), Piece(p, i));
    } else {
      ListedInsert(p, a, lo + 1, i);
      if lo in a { InsertedAfter(Piece(p, lo), Listed(p, a, lo + 1), Piece(p, i)); }
    }
  }

  lemma {:induction false} ListedAgree(p: Partition, a: set<nat>, b: set<nat>, lo: nat)
    requires WellCut(p) && lo <= |p.pieces|
    requires forall j :: lo <= j < |p.pieces| ==> (j in a <==> j in b)
    ensures Listed(p, a, lo) == Listed(p, b, lo)
    decreases |p.pieces| - lo
  {
    if lo < |p.pieces| { ListedAgree(p, a, b, lo + 1); }
  }

  /** The buffer that has everything before piece lo consumed and the accepted pieces from lo on stored. */
  function Stored(p: Partition, a: set<nat>, lo: nat, capacity: nat): Buffer
    requires WellCut(p) && lo <= |p.pieces|
  {
    StartBound(p, lo);
    Buffer(Listed(p, a, lo), Start(p, lo), capacity, Bytes(Listed(p, a, lo)))
  }

  lemma StoredTurn(p: Partition, a: set<nat>, lo: nat, capacity: nat)
    requires WellCut(p) && lo < |p.pieces|
    ensures lo in a ==>
      && Drained(Stored(p, a, lo, capacity)) == Drained(Stored(p, a, lo + 1, capacity))
      && DrainedBytes(Stored(p, a, lo, capacity)) == p.pieces[lo] + DrainedBytes(Stored(p, a, lo + 1, capacity))
    ensures lo !in a ==>
      && Drained(Stored(p, a, lo, capacity)) == Stored(p, a, lo, capacity)
      && DrainedBytes(Stored(p, a, lo, capacity)) == []
  {
    if lo in a {
      var rest := Listed(p, a, lo + 1);
      PieceEnd(p, lo);
      BytesCons(Piece(p, lo), rest);
      DrainTurn(Piece(p, lo), rest, capacity, Bytes(Listed(p, a, lo)));
    } else {
      ListedFloor(p, a, lo + 1);
      StartOrder(p, lo, lo + 1);
      var xs := Listed(p, a, lo + 1);
      assert xs != [] ==> xs[0].seqNo >= Start(p, lo + 1);
    }
  }

  lemma JoinedNext(pieces: seq<seq<byte>>, i: nat)
    requires i < |pieces|
    ensures Joined(pieces[..i + 1]) == Joined(pieces[..i]) + pieces[i]
  {
    assert pieces[..i + 1][..i] == pieces[..i];
  }

  /** Draining from piece lo on takes out everything up to the next gap ... */
  lemma {:induction false} DrainToGap(p: Partition, a: set<nat>, lo: nat, capacity: nat)
    requires WellCut(p) && lo <= |p.pieces|
    ensures Drained(Stored(p, a, lo, capacity)) == Stored(p, a, Gap(p, a, lo), capacity)
    decreases |p.pieces| - lo
  {
    if lo < |p.pieces| {
      StoredTurn(p, a, lo, capacity);
      if lo in a { DrainToGap(p, a, lo + 1, capacity); }
    }
  }

  /** ... and hands over exactly the stream's bytes between the two. */
  lemma {:induction false} DrainHandsOver(p: Partition, a: set<nat>, lo: nat, capacity: nat)
    requires WellCut(p) && lo <= |p.pieces|
    ensures Joined(p.pieces[..lo]) + DrainedBytes(Stored(p, a, lo, capacity)) == Joined(p.pieces[..Gap(p, a, lo)])
    decreases |p.pieces| - lo
  {
    var done, bytes := Joined(p.pieces[..lo]), DrainedBytes(Stored(p, a, lo, capacity));
    if lo < |p.pieces| && lo in a {
      StoredTurn(p, a, lo, capacity);
      DrainHandsOver(p, a, lo + 1, capacity);
      JoinedNext(p.pieces, lo);
      ConcatAssociative(done, p.pieces[lo], DrainedBytes(Stored(p, a, lo + 1, capacity)));
    } else {
      if lo < |p.pieces| { StoredTurn(p, a, lo, capacity); }
      assert done + [] == done;
    }
  }

  lemma ConcatAssociative(x: seq<byte>, y: seq<byte>, z: seq<byte>)
    ensures x + (y + z) == x + y + z
  {
  }

  /** The admission test, in terms of the accepted pieces. */
  lemma AdmissionTest(p: Partition, a: set<nat>, i: nat, capacity: nat)
    requires WellCut(p) && i < |p.pieces|
    ensures var b := Holding(p, a, capacity);
      Admits(b, Piece(p, i)) <==> i !in a && (capacity == 0 || |p.pieces[i]| <= Available(b))
  {
    ListedMembers(p, a, Gap(p, a, 0), i);
    StartOrder(p, i, Gap(p, a, 0));
  }

  lemma PushStores(p: Partition, a: set<nat>, i: nat, capacity: nat)
    requires WellCut(p) && i < |p.pieces| && Admits(Holding(p, a, capacity), Piece(p, i))
    ensures Gap(p, a, 0) <= i && i !in a
    ensures Pushed(Holding(p, a, capacity), Piece(p, i)) == Stored(p, a + {i}, Gap(p, a, 0), capacity)
  {
    AdmissionTest(p, a, i, capacity);
    var k := Gap(p, a, 0);
    ListedInsert(p, a, k, i);
    InsertedBytes(Listed(p, a, k), Piece(p, i));
  }

  /** The key step: an arrival either adds its piece to the accepted set or changes nothing. */
  lemma ArrivalStep(p: Partition, a: set<nat>, i: nat, capacity: nat)
    requires WellCut(p) && i < |p.pieces|
    ensures var b := Holding(p, a, capacity); var s := Piece(p, i);
      if Admits(b, s) then
        && Gap(p, a, 0) <= i && i !in a
        && Received(b, s) == Holding(p, a + {i}, capacity)
        && Joined(p.pieces[..Gap(p, a, 0)]) + DrainedBytes(Pushed(b, s)) == Joined(p.pieces[..Gap(p, a + {i}, 0)])
      else Received(b, s) == b
  {
    if Admits(Holding(p, a, capacity), Piece(p, i)) {
      var k := Gap(p, a, 0);
      PushStores(p, a, i, capacity);
      DrainToGap(p, a + {i}, k, capacity);
      DrainHandsOver(p, a + {i}, k, capacity);
      GapFrom(p, a + {i}, 0, k);
    }
  }

  lemma {:induction false} GapFrom(p: Partition, a: set<nat>, lo: nat, k: nat)
    requires lo <= k <= |p.pieces| && forall j :: lo <= j < k ==> j in a
    ensures Gap(p, a, lo) == Gap(p, a, k)
    decreases k - lo
  {
    if lo < k { GapFrom(p, a, lo + 1, k); }
  }

  /** Has piece i been handed over or stored? */
  predicate Has(p: Partition, b: Buffer, i: nat)
    requires WellCut(p) && i < |p.pieces|
  {
    Start(p, i) < b.next || Stores(b.entries, Start(p, i))
  }

  /** The buffer's contents determine the accepted set. */
  lemma HoldingHas(p: Partition, a: set<nat>, capacity: nat, i: nat)
    requires WellCut(p) && i < |p.pieces|
    ensures Has(p, Holding(p, a, capacity), i) <==> i in a
  {
    ListedMembers(p, a, Gap(p, a, 0), i);
    StartOrder(p, i, Gap(p, a, 0));
  }

  // ---- whole arrival histories ----

  predicate Indices(p: Partition, order: seq<nat>)
  {
    forall j :: 0 <= j < |order| ==> order[j] < |p.pieces|
  }

  /** The buffer after a whole history of arrivals, starting empty. */
  function Outcome(p: Partition, capacity: nat, order: seq<nat>): Buffer
    requires WellCut(p) && Indices(p, order)
  {
    if order == [] then Buffer([], p.base, capacity, 0)
    else Received(Outcome(p, capacity, order[..|order| - 1]), Piece(p, order[|order| - 1]))
  }

  /** The pieces accepted during that history. */
  function Accepted(p: Partition, capacity: nat, order: seq<nat>): set<nat>
    requires WellCut(p) && Indices(p, order)
  {
    if order == [] then {}
    else
      var before, i := order[..|order| - 1], order[|order| - 1];
      if Admits(Outcome(p, capacity, before), Piece(p, i))
      then Accepted(p, capacity, before) + {i} else Accepted(p, capacity, before)
  }

  lemma {:induction false} OutcomeHoldsAccepted(p: Partition, capacity: nat, order: seq<nat>)
    requires WellCut(p) && Indices(p, order)
    ensures Outcome(p, capacity, order) == Holding(p, Accepted(p, capacity, order), capacity)
  {
    if order == [] {
      EmptyHolding(p, capacity);
    } else {
      var before, i := order[..|order| - 1], order[|order| - 1];
      OutcomeHoldsAccepted(p, capacity, before);
      ArrivalStep(p, Accepted(p, capacity, before), i, capacity);
    }
  }

  lemma EmptyHolding(p: Partition, capacity: nat)
    requires WellCut(p)
    ensures Holding(p, {}, capacity) == Buffer([], p.base, capacity, 0)
  {
    EmptyListed(p, 0);
  }

  lemma {:induction false} EmptyListed(p: Partition, lo: nat)
    requires WellCut(p) && lo <= |p.pieces|
    ensures Listed(p, {}, lo) == []
    decreases |p.pieces| - lo
  {
    if lo < |p.pieces| { EmptyListed(p, lo + 1); }
  }

  predicate Fits(p: Partition, capacity: nat, i: nat)
    requires i < |p.pieces|
  {
    capacity == 0 || |p.pieces[i]| <= capacity
  }

  /** Total size, from index lo, of the pieces that fit the buffer on their own. */
  function FittingBytes(p: Partition, capacity: nat, lo: nat): nat
    requires lo <= |p.pieces|
    decreases |p.pieces| - lo
  {
    if lo == |p.pieces| then 0
    else (if Fits(p, capacity, lo) then |p.pieces[lo]| else 0) + FittingBytes(p, capacity, lo + 1)
  }

  /** The guard: unlimited capacity, or room for every piece that could be stored at all. */
  predicate Roomy(p: Partition, capacity: nat)
  {
    capacity == 0 || FittingBytes(p, capacity, 0) <= capacity
  }

  ghost predicate OnlyFitting(p: Partition, capacity: nat, a: set<nat>)
  {
    forall i :: i in a ==> i < |p.pieces| && Fits(p, capacity, i)
  }

  lemma {:induction false} ListedBytesBound(p: Partition, a: set<nat>, capacity: nat, lo: nat)
    requires WellCut(p) && lo <= |p.pieces| && OnlyFitting(p, capacity, a)
    ensures Bytes(Listed(p, a, lo)) <= FittingBytes(p, capacity, lo)
    ensures forall i :: lo <= i < |p.pieces| && i !in a && Fits(p, capacity, i) ==>
      Bytes(Listed(p, a, lo)) + |p.pieces[i]| <= FittingBytes(p, capacity, lo)
    decreases |p.pieces| - lo
  {
    if lo < |p.pieces| {
      ListedBytesBound(p, a, capacity, lo + 1);
      BytesAppend(if lo in a then [Piece(p, lo)] else [], Listed(p, a, lo + 1));
      assert lo in a ==> Bytes([Piece(p, lo)]) == |p.pieces[lo]|;
    }
  }

  lemma {:induction false} FittingMonotone(p: Partition, capacity: nat, lo: nat, hi: nat)
    requires lo <= hi <= |p.pieces|
    ensures FittingBytes(p, capacity, hi) <= FittingBytes(p, capacity, lo)
    decreases hi - lo
  {
    if lo < hi { FittingMonotone(p, capacity, lo + 1, hi); }
  }

  function Arrived(p: Partition, capacity: nat, order: seq<nat>): set<nat>
    requires Indices(p, order)
  {
    set i | i in order && Fits(p, capacity, i)
  }

  /** With room for everything, exactly the pieces that fit and have arrived are accepted. */
  lemma {:induction false} RoomyAcceptsAll(p: Partition, capacity: nat, order: seq<nat>)
    requires WellCut(p) && Indices(p, order) && Roomy(p, capacity)
    ensures Accepted(p, capacity, order) == Arrived(p, capacity, order)
  {
    if order != [] {
      var before, i := order[..|order| - 1], order[|order| - 1];
      assert order == before + [i];
      RoomyAcceptsAll(p, capacity, before);
      AcceptedNext(p, capacity, before, i);
      ArrivedNext(p, capacity, before, i);
      RoomyAdmits(p, capacity, Accepted(p, capacity, before), i);
    }
  }

  lemma ArrivedNext(p: Partition, capacity: nat, before: seq<nat>, i: nat)
    requires Indices(p, before) && i < |p.pieces|
    ensures Indices(p, before + [i])
    ensures Arrived(p, capacity, before + [i])
         == Arrived(p, capacity, before) + (if Fits(p, capacity, i) then {i} else {})
  {
  }

  lemma RoomyAdmits(p: Partition, capacity: nat, a: set<nat>, i: nat)
    requires WellCut(p) && Roomy(p, capacity) && OnlyFitting(p, capacity, a) && i < |p.pieces|
    ensures Admits(Holding(p, a, capacity), Piece(p, i)) <==> i !in a && Fits(p, capacity, i)
  {
    AdmissionTest(p, a, i, capacity);
    var k := Gap(p, a, 0);
    ListedBytesBound(p, a, capacity, k);
    FittingMonotone(p, capacity, 0, k);
    assert i !in a ==> k <= i;
  }

  ghost predicate OrderIndependent(p: Partition, capacity: nat)
    requires WellCut(p)
  {
    forall order, order' :: SameArrivals(p, order, order') ==>
      Outcome(p, capacity, order) == Outcome(p, capacity, order')
  }

  ghost predicate SameArrivals(p: Partition, order: seq<nat>, order': seq<nat>)
  {
    && Indices(p, order) && Indices(p, order')
    && (forall i :: i in order <==> i in order')
  }

  lemma RoomyIsOrderIndependent(p: Partition, capacity: nat)
    requires WellCut(p) && Roomy(p, capacity)
    ensures OrderIndependent(p, capacity)
  {
    forall order, order' | SameArrivals(p, order, order')
      ensures Outcome(p, capacity, order) == Outcome(p, capacity, order')
    {
      RoomyAcceptsAll(p, capacity, order);
      RoomyAcceptsAll(p, capacity, order');
      OutcomeHoldsAccepted(p, capacity, order);
      OutcomeHoldsAccepted(p, capacity, order');
      assert Arrived(p, capacity, order) == Arrived(p, capacity, order');
    }
  }

  /** All pieces, last first, down to index lo. */
  function Backwards(p: Partition, lo: nat): (order: seq<nat>)
    requires lo <= |p.pieces|
    ensures |order| == |p.pieces| - lo
    ensures forall j :: 0 <= j < |order| ==> lo <= order[j] < |p.pieces|
    decreases |p.pieces| - lo
  {
    if lo == |p.pieces| then [] else Backwards(p, lo + 1) + [lo]
  }

  /** Some piece from lo on that fits the buffer is missing from the accepted set. */
  predicate Misses(p: Partition, capacity: nat, a: set<nat>, lo: nat)
    requires lo <= |p.pieces|
  {
    exists i :: lo <= i < |p.pieces| && Fits(p, capacity, i) && i !in a
  }

  /** Of the pieces from lo on, either every fitting one is still stored, or one was turned away. */
  ghost predicate StoredOrRejected(p: Partition, capacity: nat, a: set<nat>, lo: nat)
    requires WellCut(p) && lo <= |p.pieces|
  {
    && (forall i :: i in a ==> lo <= i < |p.pieces|)
    && (Misses(p, capacity, a, lo) || FittingBytes(p, capacity, lo) == Bytes(Listed(p, a, lo)) <= capacity)
  }

  lemma {:induction false} BackwardsStoresOrRejects(p: Partition, capacity: nat, lo: nat)
    requires WellCut(p) && lo <= |p.pieces| && capacity != 0
    ensures StoredOrRejected(p, capacity, Accepted(p, capacity, Backwards(p, lo)), lo)
    decreases |p.pieces| - lo
  {
    BackwardsNext(p, capacity, lo);
    if lo < |p.pieces| {
      BackwardsStoresOrRejects(p, capacity, lo + 1);
      BackwardsStep(p, capacity, Accepted(p, capacity, Backwards(p, lo + 1)), lo);
    }
  }

  lemma BackwardsNext(p: Partition, capacity: nat, lo: nat)
    requires WellCut(p) && lo <= |p.pieces|
    ensures var now := Accepted(p, capacity, Backwards(p, lo));
      if lo == |p.pieces| then now == {}
      else
        var a := Accepted(p, capacity, Backwards(p, lo + 1));
        now == if Admits(Holding(p, a, capacity), Piece(p, lo)) then a + {lo} else a
  {
    if lo < |p.pieces| { AcceptedNext(p, capacity, Backwards(p, lo + 1), lo); }
  }

  lemma AcceptedNext(p: Partition, capacity: nat, before: seq<nat>, i: nat)
    requires WellCut(p) && Indices(p, before) && i < |p.pieces|
    ensures Indices(p, before + [i])
    ensures var a := Accepted(p, capacity, before);
      Accepted(p, capacity, before + [i]) == if Admits(Holding(p, a, capacity), Piece(p, i)) then a + {i} else a
  {
    assert (before + [i])[..|before + [i]| - 1] == before;
    OutcomeHoldsAccepted(p, capacity, before);
  }

  lemma BackwardsStep(p: Partition, capacity: nat, before: set<nat>, lo: nat)
    requires WellCut(p) && lo < |p.pieces| && capacity != 0
    requires StoredOrRejected(p, capacity, before, lo + 1)
    ensures StoredOrRejected(p, capacity,
              if Admits(Holding(p, before, capacity), Piece(p, lo)) then before + {lo} else before, lo)
  {
    var a := if Admits(Holding(p, before, capacity), Piece(p, lo)) then before + {lo} else before;
    if i :| lo + 1 <= i < |p.pieces| && Fits(p, capacity, i) && i !in before {
      assert i !in a;
    } else {
      AdmissionTest(p, before, lo, capacity);
      assert Gap(p, before, 0) <= lo;
      ListedFromGap(p, before, Gap(p, before, 0), lo + 1);
      ListedAgree(p, before, a, lo + 1);
      BytesCons(Piece(p, lo), Listed(p, a, lo + 1));
    }
  }

  lemma {:induction false} ListedFromGap(p: Partition, a: set<nat>, lo: nat, hi: nat)
    requires WellCut(p) && lo <= hi <= |p.pieces| && forall i :: i in a ==> hi <= i
    ensures Listed(p, a, lo) == Listed(p, a, hi)
    decreases hi - lo
  {
    if lo < hi { ListedFromGap(p, a, lo + 1, hi); }
  }

  /** A piece that fits is accepted when it comes first, and nothing later removes it. */
  lemma {:induction false} FirstComerStays(p: Partition, capacity: nat, i: nat, rest: seq<nat>)
    requires WellCut(p) && i < |p.pieces| && Fits(p, capacity, i) && Indices(p, rest)
    ensures Indices(p, [i] + rest) && i in Accepted(p, capacity, [i] + rest)
  {
    var order := [i] + rest;
    if rest == [] {
      assert order[..|order| - 1] == [];
      OutcomeHoldsAccepted(p, capacity, []);
      EmptyHolding(p, capacity);
      AdmissionTest(p, {}, i, capacity);
    } else {
      var r := rest[..|rest| - 1];
      FirstComerStays(p, capacity, i, r);
      assert order[..|order| - 1] == [i] + r;
    }
  }

  /**
    Main result: the outcome is independent of arrival order and repeats exactly when the buffer has
    room for all the pieces that fit it one by one. Otherwise delivering the pieces backwards turns
    one away that an earlier arrival would have saved.
   */
  lemma OrderIndependentIff(p: Partition, capacity: nat)
    requires WellCut(p)
    ensures OrderIndependent(p, capacity) <==> Roomy(p, capacity)
  {
    if Roomy(p, capacity) {
      RoomyIsOrderIndependent(p, capacity);
    } else {
      var order, order' := OrdersThatDiffer(p, capacity);
    }
  }

  /** Without room: the pieces backwards, and the same after one that this order turns away. */
  lemma OrdersThatDiffer(p: Partition, capacity: nat) returns (order: seq<nat>, order': seq<nat>)
    requires WellCut(p) && !Roomy(p, capacity)
    ensures SameArrivals(p, order, order') && Outcome(p, capacity, order) != Outcome(p, capacity, order')
  {
    BackwardsStoresOrRejects(p, capacity, 0);
    order := Backwards(p, 0);
    var a := Accepted(p, capacity, order);
    var i :| 0 <= i < |p.pieces| && Fits(p, capacity, i) && i !in a;
    order' := [i] + order;
    FirstComerStays(p, capacity, i, order);
    BackwardsCovers(p, 0, i);
    OutcomeHoldsAccepted(p, capacity, order);
    OutcomeHoldsAccepted(p, capacity, order');
    HoldingHas(p, a, capacity, i);
    HoldingHas(p, Accepted(p, capacity, order'), capacity, i);
  }

  lemma {:induction false} BackwardsCovers(p: Partition, lo: nat, i: nat)
    requires lo <= i < |p.pieces|
    ensures i in Backwards(p, lo)
    decreases |p.pieces| - lo
  {
    if lo < i { BackwardsCovers(p, lo + 1, i); }
  }
}
