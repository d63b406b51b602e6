/**
  What the session invariant says to a reader: in every run, for every initial sequence number, the server has
  read a prefix of the client's stream, the client stores exactly what is not acknowledged, and the ends agree after
  the handshake.
 */
module SessionResults {
  import opened Word32
  import opened Connection
  import opened Session
  import opened SessionStream
  import opened SessionSafety
  import opened Reassembly
  import TS = TcpState
  import SB = SendBuffer

  ghost predicate Fresh(serverState: TS.State) { serverState.CLOSED? || serverState.LISTEN? }

  /** An established client's session is open at some piece. */
  lemma EstablishedIsOpen(site: Site, serverState: TS.State, choices: seq<Choice>) returns (k: nat)
    requires Fresh(serverState)
    ensures var w := Run(Session.Start(site, serverState), choices); w.client.state.ESTABLISHED? ==> OpenAt(w, k)
  {
    RunKeepsInv(site, serverState, choices);
    var w := Run(Session.Start(site, serverState), choices);
    k := 0;
    if w.client.state.ESTABLISHED? {
      var i: nat :| OpenAt(w, i);
      k := i;
    }
  }

  // ---- the prefix ----

  /** The client stands at piece j, the server at piece k, and the bytes handed over are those before k. */
  ghost predicate ReadUpTo(w: World, j: int, k: nat)
  {
    var p := w.stream;
    && 0 <= j <= k <= |p.pieces|
    && w.client.unacknowledged == Word(p, j) && w.server.expectedAck == Word(p, k)
    && w.client.seqNum == Word(p, |p.pieces|)
    && w.delivered == Joined(p.pieces[..k])
  }

  lemma OpenReads(w: World, k: nat)
    requires OpenAt(w, k)
    ensures ReadUpTo(w, Una(w), k)
  {
    WordValue(w.stream, Una(w));
  }

  /**
    Safety of every run, for every initial number: while the client is established, SND.UNA, RCV.NXT and SND.NXT
    are the numbers of pieces j <= k <= n of the client's stream, and what the server has handed over is exactly
    its first k pieces, whatever was lost, delayed, reordered or sent again.
   */
  lemma {:induction false} ServerReadsPrefix(site: Site, serverState: TS.State, choices: seq<Choice>)
    requires Fresh(serverState)
    ensures var w := Run(Session.Start(site, serverState), choices);
      w.client.state.ESTABLISHED? ==> exists j: int, k: nat :: ReadUpTo(w, j, k)
  {
    var k := EstablishedIsOpen(site, serverState, choices);
    var w := Run(Session.Start(site, serverState), choices);
    if w.client.state.ESTABLISHED? { OpenReads(w, k); }
  }

  /** The client's whole stream fits below 2^32. */
  predicate NoWrap(w: World)
  {
    Plain(w.stream, |w.stream.pieces|)
  }

  lemma {:induction false} JoinedLength(pieces: seq<seq<byte>>, k: nat)
    requires k <= |pieces|
    ensures |Joined(pieces[..k])| == Offset(pieces, k)
  {
    if k > 0 {
      JoinedLength(pieces, k - 1);
      JoinedNext(pieces, k - 1);
    }
  }

  lemma {:induction false} JoinedPrefix(pieces: seq<seq<byte>>, k: nat, n: nat)
    requires k <= n <= |pieces|
    ensures Joined(pieces[..k]) <= Joined(pieces[..n])
    decreases n - k
  {
    if k < n {
      JoinedPrefix(pieces, k, n - 1);
      JoinedNext(pieces, n - 1);
    }
  }

  lemma PrefixBytes(pieces: seq<seq<byte>>, k: nat)
    requires k <= |pieces|
    ensures Offset(pieces, k) <= |Joined(pieces)| == Offset(pieces, |pieces|)
    ensures Joined(pieces[..k]) == Joined(pieces)[..Offset(pieces, k)]
  {
    JoinedLength(pieces, k);
    JoinedLength(pieces, |pieces|);
    JoinedPrefix(pieces, k, |pieces|);
    assert pieces[..|pieces|] == pieces;
    OffsetMonotone(pieces, k, |pieces|);
  }

  /** The same in plain integers, for a stream that fits below 2^32. */
  lemma {:induction false} ServerReadsPlainPrefix(site: Site, serverState: TS.State, choices: seq<Choice>)
    requires Fresh(serverState)
    ensures var w := Run(Session.Start(site, serverState), choices);
      w.client.state.ESTABLISHED? && NoWrap(w) ==>
        && w.stream.base <= w.client.unacknowledged <= w.server.expectedAck <= w.client.seqNum
        && w.client.seqNum == w.stream.base + |Joined(w.stream.pieces)|
        && w.delivered == Joined(w.stream.pieces)[..w.server.expectedAck - w.stream.base]
  {
    var k := EstablishedIsOpen(site, serverState, choices);
    var w := Run(Session.Start(site, serverState), choices);
    if w.client.state.ESTABLISHED? && NoWrap(w) {
      var p := w.stream;
      OpenReads(w, k);
      PlainBelow(p, Una(w));
      PlainBelow(p, k);
      PlainBelow(p, |p.pieces|);
      PrefixBytes(p.pieces, k);
      OffsetMonotone(p.pieces, Una(w), k);
    }
  }

  // ---- the sender ----

  /** The stored segments are the pieces from j on, and SND.UNA stands at piece j as a plain integer. */
  ghost predicate StoresFrom(w: World, j: nat)
  {
    var p := w.stream;
    && j <= |p.pieces| && |w.client.sendBuffer| == |p.pieces| - j && Tail(p, w.client.sendBuffer)
    && w.client.unacknowledged == p.base + Offset(p.pieces, j) && w.client.seqNum == Word(p, |p.pieces|)
    && Offset(p.pieces, |p.pieces|) - Offset(p.pieces, j) <= DEFAULT_WINDOW
  }

  lemma PlainEntry(p: Partition, entries: seq<SB.Entry>, m: nat)
    requires Modest(p) && Tail(p, entries) && Plain(p, |p.pieces|) && m < |entries|
    ensures var d := |p.pieces| - |entries|;
      && entries[m].payload != [] && entries[m].seqNo == p.base + Offset(p.pieces, d + m)
      && entries[m].seqNo + |entries[m].payload| == p.base + Offset(p.pieces, d + m + 1) <= MAX_WORD
  {
    var at := |p.pieces| - |entries| + m;
    assert IsPiece(p, entries[m].seqNo, entries[m].payload, at);
    PlainBelow(p, at);
    PlainBelow(p, at + 1);
  }

  /** A plain tail is a chain of plain integers. */
  lemma PlainChain(p: Partition, entries: seq<SB.Entry>)
    requires Modest(p) && Tail(p, entries) && Plain(p, |p.pieces|)
    ensures Chained(entries)
  {
    forall m: nat | m < |entries|
      ensures entries[m].payload != [] && entries[m].seqNo + |entries[m].payload| <= MAX_WORD
    {
      PlainEntry(p, entries, m);
    }
    forall m: nat | m < |entries| - 1 ensures entries[m].seqNo + |entries[m].payload| == entries[m + 1].seqNo {
      PlainEntry(p, entries, m);
      PlainEntry(p, entries, m + 1);
    }
  }

  lemma PlainTailSpans(p: Partition, entries: seq<SB.Entry>)
    requires Modest(p) && Tail(p, entries) && Plain(p, |p.pieces|) && |entries| <= |p.pieces|
    ensures Spans(entries, p.base + Offset(p.pieces, |p.pieces| - |entries|), p.base + Offset(p.pieces, |p.pieces|))
  {
    var d, n := |p.pieces| - |entries|, |p.pieces|;
    PlainChain(p, entries);
    PlainBelow(p, n);
    if entries != [] { PlainEnds(p, entries); }
  }

  lemma PlainEnds(p: Partition, entries: seq<SB.Entry>)
    requires Modest(p) && Tail(p, entries) && Plain(p, |p.pieces|) && 0 < |entries| <= |p.pieces|
    ensures var d, n, last := |p.pieces| - |entries|, |p.pieces|, entries[|entries| - 1];
      && entries[0].seqNo == p.base + Offset(p.pieces, d) < p.base + Offset(p.pieces, n) && entries[0].payload != []
      && last.seqNo + |last.payload| == p.base + Offset(p.pieces, n)
  {
    PlainEntry(p, entries, 0);
    PlainEntry(p, entries, |entries| - 1);
    OffsetsApart(p, |p.pieces| - |entries|, |p.pieces|);
  }

  /** A plain tail covers the flight in the sense of the connection's own contract. */
  lemma PlainTailCovers(w: World, k: nat)
    requires OpenAt(w, k) && NoWrap(w)
    ensures CoversFlight(w.client)
  {
    PlainTailSpans(w.stream, w.client.sendBuffer);
    PlainBelow(w.stream, |w.stream.pieces|);
  }

  /**
    In every run the client's send buffer is exactly the part of the stream from SND.UNA to SND.NXT, within the
    send window, and SND.UNA never passes the top of the sequence space; below it the chain is one of plain integers.
   */
  lemma {:induction false} ClientCoversFlight(site: Site, serverState: TS.State, choices: seq<Choice>)
    requires Fresh(serverState)
    ensures var w := Run(Session.Start(site, serverState), choices);
      w.client.state.ESTABLISHED? ==> (exists j: nat :: StoresFrom(w, j)) && (NoWrap(w) ==> CoversFlight(w.client))
  {
    var k := EstablishedIsOpen(site, serverState, choices);
    var w := Run(Session.Start(site, serverState), choices);
    if w.client.state.ESTABLISHED? {
      assert StoresFrom(w, Una(w));
      if NoWrap(w) { PlainTailCovers(w, k); }
    }
  }

  // ---- the handshake ----

  /**
    Handshake agreement: whenever both ends are established and no data has been sent, each end
    expects exactly the number the other will send next (on 32-bit words, so for every initial number).
   */
  lemma {:induction false} HandshakeAgreement(site: Site, serverState: TS.State, choices: seq<Choice>)
    requires Fresh(serverState)
    ensures var w := Run(Session.Start(site, serverState), choices);
      BothEstablished(w) && w.stream.pieces == [] ==>
        && w.client.expectedAck == w.server.seqNum && w.server.expectedAck == w.client.seqNum
        && w.client.unacknowledged == w.client.seqNum && w.server.unacknowledged == w.server.seqNum
  {
    var k := EstablishedIsOpen(site, serverState, choices);
  }
}
