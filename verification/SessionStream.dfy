/**
  The stream of one session on 32-bit numbers. A session queues at most twenty segments, each within the send
  window, so its numbers never meet again even when they run past the top of the sequence space.
 */
module SessionStream {
  import opened Word32
  import opened Connection
  import opened Session
  import opened Reassembly
  import RB = ReceiveBuffer
  import SB = SendBuffer

  /** No more segments, and no larger ones, than a session ever queues. */
  predicate Modest(p: Partition)
  {
    && |p.pieces| <= PACKETS_PER_ROUTE
    && forall i :: 0 <= i < |p.pieces| ==> 1 <= |p.pieces[i]| <= DEFAULT_WINDOW
  }

  /** The sequence number of piece i, or of the end of the stream. */
  function Word(p: Partition, i: nat): u32
    requires i <= |p.pieces|
  {
    Wrap(p.base + Offset(p.pieces, i))
  }

  /** The stream has not yet run past the top of the sequence space before piece i. */
  predicate Plain(p: Partition, i: nat)
    requires i <= |p.pieces|
  {
    p.base + Offset(p.pieces, i) <= MAX_WORD
  }

  function Grown(p: Partition, piece: seq<byte>): Partition { p.(pieces := p.pieces + [piece]) }

  lemma {:induction false} OffsetGrown(pieces: seq<seq<byte>>, piece: seq<byte>, i: nat)
    requires i <= |pieces|
    ensures Offset(pieces + [piece], i) == Offset(pieces, i)
  {
    if i > 0 { OffsetGrown(pieces, piece, i - 1); }
  }

  lemma WordGrown(p: Partition, piece: seq<byte>, i: nat)
    requires i <= |p.pieces|
    ensures Word(Grown(p, piece), i) == Word(p, i) && (Plain(Grown(p, piece), i) <==> Plain(p, i))
  {
    OffsetGrown(p.pieces, piece, i);
  }

  lemma {:induction false} ModestOffset(p: Partition, i: nat)
    requires Modest(p) && i <= |p.pieces|
    ensures i <= Offset(p.pieces, i) <= i * DEFAULT_WINDOW
  {
    if i > 0 { ModestOffset(p, i - 1); }
  }

  lemma {:induction false} OffsetsApart(p: Partition, i: nat, j: nat)
    requires Modest(p) && i < j <= |p.pieces|
    ensures Offset(p.pieces, i) < Offset(p.pieces, j) <= PACKETS_PER_ROUTE * DEFAULT_WINDOW
  {
    ModestOffset(p, j);
    OffsetMonotone(p.pieces, i + 1, j);
  }

  /** Two numbers less than 2^32 apart are different words. */
  lemma WrapApart(x: int, y: int)
    requires x < y < x + MODULUS
    ensures Wrap(x) != Wrap(y)
  {
    var k, l := x / MODULUS, y / MODULUS;
    assert x == Wrap(x) + k * MODULUS && y == Wrap(y) + l * MODULUS;
    assert Wrap(x) == Wrap(y) ==> y - x == (l - k) * MODULUS;
    assert l > k ==> (l - k) * MODULUS >= MODULUS;
  }

  lemma WordsDiffer(p: Partition, i: nat, j: nat)
    requires Modest(p) && i <= |p.pieces| && j <= |p.pieces| && i != j
    ensures Word(p, i) != Word(p, j)
  {
    var lo, hi := if i < j then i else j, if i < j then j else i;
    OffsetsApart(p, lo, hi);
    WrapApart(p.base + Offset(p.pieces, lo), p.base + Offset(p.pieces, hi));
  }

  /** The number after a piece is the number of the next. */
  lemma WordNext(p: Partition, i: nat)
    requires i < |p.pieces|
    ensures Word(p, i + 1) == Wrap(Word(p, i) + |p.pieces[i]|)
  {
    WrapSum(p.base + Offset(p.pieces, i), |p.pieces[i]|);
  }

  lemma WrapSum(x: int, y: int)
    ensures Wrap(Wrap(x) + y) == Wrap(x + y)
  {
    var k := x / MODULUS;
    assert x + y == (Wrap(x) + y) + k * MODULUS;
    WrapShift(Wrap(x) + y, k);
  }

  lemma WrapShift(x: int, k: int)
    ensures Wrap(x + k * MODULUS) == Wrap(x)
  {
    assert (x + k * MODULUS) % MODULUS == x % MODULUS;
  }

  /** Before the top of the sequence space words are plain integers, past it they are small ones. */
  lemma WordValue(p: Partition, i: nat)
    requires Modest(p) && i <= |p.pieces|
    ensures Plain(p, i) ==> Word(p, i) == p.base + Offset(p.pieces, i)
    ensures !Plain(p, i) ==> Word(p, i) == p.base + Offset(p.pieces, i) - MODULUS < p.base
  {
    ModestOffset(p, i);
    if !Plain(p, i) { WrapShift(p.base + Offset(p.pieces, i) - MODULUS, 1); }
  }

  // ---- pieces on the wire and in the buffers ----

  predicate IsPiece(p: Partition, seqNo: u32, payload: seq<byte>, i: nat)
  {
    i < |p.pieces| && seqNo == Word(p, i) && payload == p.pieces[i]
  }

  /** The entries are the last pieces of the stream, in order. */
  predicate Tail(p: Partition, entries: seq<SB.Entry>)
  {
    && |entries| <= |p.pieces|
    && forall m: nat :: m < |entries| ==>
         IsPiece(p, entries[m].seqNo, entries[m].payload, |p.pieces| - |entries| + m)
  }

  /** A stored segment is a piece, and as long as k is plain, one that is not before k. */
  ghost predicate StoredPiece(p: Partition, s: RB.Segment, k: nat)
    requires k <= |p.pieces|
  {
    exists i: nat :: IsPiece(p, s.seqNo, s.payload, i) && (Plain(p, k) ==> i >= k)
  }

  ghost predicate AllStored(p: Partition, entries: seq<RB.Segment>, k: nat)
  {
    k <= |p.pieces| && forall m :: 0 <= m < |entries| ==> StoredPiece(p, entries[m], k)
  }

  lemma PieceGrown(p: Partition, piece: seq<byte>, seqNo: u32, payload: seq<byte>, i: nat)
    requires IsPiece(p, seqNo, payload, i)
    ensures IsPiece(Grown(p, piece), seqNo, payload, i)
  {
    WordGrown(p, piece, i);
  }

  lemma TailGrown(p: Partition, piece: seq<byte>, entries: seq<SB.Entry>, e: SB.Entry)
    requires Tail(p, entries) && e.seqNo == Word(p, |p.pieces|) && e.payload == piece
    ensures Tail(Grown(p, piece), entries + [e])
  {
    var p', more := Grown(p, piece), entries + [e];
    WordGrown(p, piece, |p.pieces|);
    forall m: nat | m < |more| ensures IsPiece(p', more[m].seqNo, more[m].payload, |p'.pieces| - |more| + m) {
      if m < |entries| {
        PieceGrown(p, piece, entries[m].seqNo, entries[m].payload, |p.pieces| - |entries| + m);
      }
    }
  }

  lemma StoredGrown(p: Partition, piece: seq<byte>, entries: seq<RB.Segment>, k: nat)
    requires AllStored(p, entries, k)
    ensures AllStored(Grown(p, piece), entries, k)
  {
    WordGrown(p, piece, k);
    forall m | 0 <= m < |entries| ensures StoredPiece(Grown(p, piece), entries[m], k) {
      assert StoredPiece(p, entries[m], k);
      var i: nat :| IsPiece(p, entries[m].seqNo, entries[m].payload, i) && (Plain(p, k) ==> i >= k);
      PieceGrown(p, piece, entries[m].seqNo, entries[m].payload, i);
    }
  }

  /** Different entries of a tail have different numbers, and none has the number of the stream's end. */
  lemma TailDistinct(p: Partition, entries: seq<SB.Entry>, i: nat, j: nat)
    requires Modest(p) && Tail(p, entries) && i < |entries| && j < |entries| && i != j
    ensures entries[i].seqNo != entries[j].seqNo
  {
    var d := |p.pieces| - |entries|;
    WordsDiffer(p, d + i, d + j);
  }

  // ---- the receiver ----

  /** The buffer after one turn of the drain loop. */
  function Turned(b: RB.Buffer): RB.Buffer
    requires b.entries != []
  {
    b.(entries := b.entries[1..], next := RB.End(b.entries[0]), buffered := b.buffered - |b.entries[0].payload|)
  }

  lemma TurnKeepsValid(b: RB.Buffer)
    requires RB.Valid(b) && b.entries != []
    ensures RB.Valid(Turned(b))
  {
    assert forall i :: 0 <= i < |b.entries[1..]| ==> b.entries[1..][i] == b.entries[i + 1];
  }

  /** A turn of the drain loop hands over exactly the piece expected. */
  lemma DrainTurns(p: Partition, b: RB.Buffer, k: nat)
    requires Modest(p) && RB.Valid(b) && AllStored(p, b.entries, k) && b.next == Word(p, k)
    requires b.entries != [] && b.entries[0].seqNo == b.next
    ensures k < |p.pieces| && b.entries[0].payload == p.pieces[k]
    ensures AllStored(p, Turned(b).entries, k + 1) && Turned(b).next == Word(p, k + 1)
  {
    assert StoredPiece(p, b.entries[0], k);
    var i: nat :| IsPiece(p, b.entries[0].seqNo, b.entries[0].payload, i);
    if i != k { WordsDiffer(p, i, k); }
    WordNext(p, k);
    RestStored(p, b, k);
  }

  /** Draining hands over consecutive pieces and stops at the number of a piece not stored. */
  lemma {:induction false} DrainRuns(p: Partition, b: RB.Buffer, k: nat) returns (k': nat)
    requires Modest(p) && RB.Valid(b) && AllStored(p, b.entries, k) && b.next == Word(p, k)
    ensures k <= k' <= |p.pieces| && RB.Drained(b).next == Word(p, k')
    ensures AllStored(p, RB.Drained(b).entries, k')
    ensures Joined(p.pieces[..k]) + RB.DrainedBytes(b) == Joined(p.pieces[..k'])
    decreases |b.entries|
  {
    k' := k;
    if b.entries != [] && b.entries[0].seqNo == b.next {
      DrainTurns(p, b, k);
      TurnKeepsValid(b);
      k' := DrainRuns(p, Turned(b), k + 1);
      JoinedNext(p.pieces, k);
      ConcatAssociative(Joined(p.pieces[..k]), p.pieces[k], RB.DrainedBytes(Turned(b)));
    }
  }

  /** Taking the next piece off the front leaves pieces after it. */
  lemma RestStored(p: Partition, b: RB.Buffer, k: nat)
    requires Modest(p) && RB.Valid(b) && AllStored(p, b.entries, k) && b.entries != [] && k < |p.pieces|
    requires b.entries[0].seqNo == Word(p, k)
    ensures AllStored(p, b.entries[1..], k + 1)
  {
    OffsetsApart(p, k, k + 1);
    forall m | 0 <= m < |b.entries[1..]| ensures StoredPiece(p, b.entries[1..][m], k + 1) {
      var s := b.entries[m + 1];
      assert b.entries[0].seqNo < s.seqNo && StoredPiece(p, s, k);
      var i: nat :| IsPiece(p, s.seqNo, s.payload, i) && (Plain(p, k) ==> i >= k);
      assert IsPiece(p, s.seqNo, s.payload, i) && i != k;
    }
  }

  /** What a data arrival does to a receiver that has handed over the first k pieces. */
  lemma ReceiverTakes(p: Partition, server: Endpoint, k: nat, i: nat) returns (k': nat)
    requires Modest(p) && i < |p.pieces|
    requires RB.Valid(server.receiveBuffer) && AllStored(p, server.receiveBuffer.entries, k)
    requires server.receiveBuffer.next == Word(p, k)
    ensures k <= k' <= |p.pieces|
    ensures var out := ReceiveData(server, Word(p, i), p.pieces[i]);
      var rb := out.ep.receiveBuffer;
      out.ok ==>
        && RB.Valid(rb) && rb.capacity == server.receiveBuffer.capacity
        && AllStored(p, rb.entries, k') && rb.next == Word(p, k') == out.ep.expectedAck
        && Joined(p.pieces[..k]) + RB.DrainedBytes(RB.Pushed(server.receiveBuffer, RB.Segment(Word(p, i), p.pieces[i])))
           == Joined(p.pieces[..k'])
  {
    var s, b := RB.Segment(Word(p, i), p.pieces[i]), server.receiveBuffer;
    k' := k;
    if RB.Admits(b, s) {
      NotBefore(p, k, i);
      var pushed := RB.Pushed(b, s);
      RB.PushKeepsValid(b, s);
      forall m | 0 <= m < |pushed.entries| ensures StoredPiece(p, pushed.entries[m], k) {
        var at := RB.LowerBound(b.entries, s.seqNo);
        assert m < at ==> pushed.entries[m] == b.entries[m];
        assert m > at ==> pushed.entries[m] == b.entries[m - 1];
        assert IsPiece(p, s.seqNo, s.payload, i);
      }
      k' := DrainRuns(p, pushed, k);
      RB.DrainKeepsValid(pushed);
    }
  }

  /** A number not below that of a plain piece k belongs to no earlier piece. */
  lemma NotBefore(p: Partition, k: nat, i: nat)
    requires Modest(p) && k <= |p.pieces| && i <= |p.pieces|
    ensures Plain(p, k) && Word(p, i) >= Word(p, k) ==> i >= k
    ensures Plain(p, k) && i >= k ==> (Word(p, i) >= Word(p, k) <==> Plain(p, i))
    ensures !Plain(p, k) && i >= k ==> !Plain(p, i) && Word(p, i) >= Word(p, k)
  {
    WordValue(p, k);
    WordValue(p, i);
    if i < k { OffsetsApart(p, i, k); }
    if k < i { OffsetsApart(p, k, i); }
  }
}
