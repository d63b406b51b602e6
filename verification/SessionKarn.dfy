/**
  Retransmission discipline over whole runs (RFC 6298 section 3): no segment is sent more than six times in all,
  and every sample the round-trip estimator sees is the age of an acknowledged segment that is sent only once,
  now and for ever.
 */
module SessionKarn {
  import opened Common
  import opened Word32
  import opened Connection
  import opened Session
  import opened SessionStream
  import opened SessionSafety
  import opened SessionResults
  import opened Reassembly
  import TS = TcpState
  import SB = SendBuffer
  import RT = RetransmissionTimer
  import CC = CongestionControl
  import SH = SessionHistory

  /** The times at which a segment was put on the wire, in order. */
  function Times(log: seq<Transmission>, seqNo: u32): seq<real>
  {
    if log == [] then []
    else
      var t := log[|log| - 1];
      Times(log[..|log| - 1], seqNo) + if t.seqNo == seqNo then [t.at] else []
  }

  lemma TimesNext(log: seq<Transmission>, t: Transmission, seqNo: u32)
    ensures Times(log + [t], seqNo) == Times(log, seqNo) + if t.seqNo == seqNo then [t.at] else []
  {
    assert (log + [t])[..|log|] == log;
  }

  const MAX_TRANSMISSIONS: nat := MAX_DATA_RETRANSMISSIONS + 1

  // ---- what a step does to the log and the send buffer ----

  /** Nothing is sent, and at most the first n stored segments go. */
  ghost predicate Quiet(w: World, w': World, n: nat)
  {
    && w'.log == w.log && w'.stream == w.stream
    && (w'.client.state.ESTABLISHED? ==>
          && w.client.state.ESTABLISHED? && n <= |w.client.sendBuffer|
          && w'.client.sendBuffer == w.client.sendBuffer[n..])
  }

  /** A new segment is stored at the end and logged. */
  ghost predicate Queues(w: World, w': World)
  {
    && w'.client.sendBuffer != []
    && var e := w'.client.sendBuffer[|w'.client.sendBuffer| - 1];
       && w'.client.sendBuffer == w.client.sendBuffer + [e] && w'.stream == Grown(w.stream, e.payload)
       && e == SB.Entry(w.client.seqNum, e.ack, e.payload, w.now, false, 0)
       && w'.log == w.log + [Transmission(e.seqNo, w.now)]
  }

  /** Stored segment i, below the cap, is marked and logged. */
  ghost predicate Resends(w: World, w': World, i: nat)
  {
    && i < |w.client.sendBuffer| && w.client.sendBuffer[i].count < MAX_DATA_RETRANSMISSIONS
    && w'.stream == w.stream
    && w'.client.sendBuffer == w.client.sendBuffer[i := SB.Marked(w.client.sendBuffer[i], w.now)]
    && w'.log == w.log + [Transmission(w.client.sendBuffer[i].seqNo, w.now)]
  }

  ghost predicate Disciplines(w: World, w': World)
  {
    (exists n: nat :: Quiet(w, w', n)) || Queues(w, w') || exists i: nat :: Resends(w, w', i)
  }

  lemma QuietThen(w: World, w1: World, w2: World, n: nat)
    requires Quiet(w, w1, n) && SameSending(w1, w2)
    ensures Quiet(w, w2, n) && Disciplines(w, w2)
  {
    assert Quiet(w, w2, n);
  }

  ghost predicate SameSending(w: World, w': World)
  {
    w'.log == w.log && w'.stream == w.stream && w'.client.sendBuffer == w.client.sendBuffer
    && (w'.client.state.ESTABLISHED? ==> w.client.state.ESTABLISHED?)
  }

  lemma SameIsQuiet(w: World, w': World)
    requires SameSending(w, w')
    ensures Quiet(w, w', 0) && Disciplines(w, w')
  {
    assert w.client.sendBuffer == w.client.sendBuffer[0..];
    assert Quiet(w, w', 0);
  }

  /** Beyond what is stored, the timer and the clock. */
  ghost predicate SameBooks(w: World, w': World)
  {
    w'.log == w.log && w'.now == w.now && w'.stream == w.stream && w'.client.timer == w.client.timer
  }

  lemma AckReactionsSame(w: World, toServer: bool, advanced: bool)
    ensures SameSending(w, AckReactions(w, toServer, advanced)) && SameBooks(w, AckReactions(w, toServer, advanced))
  {
  }

  lemma AdvancedSame(w: World)
    ensures SameSending(w, Advanced(w)) && SameBooks(w, Advanced(w))
  {
  }

  lemma ReactionsSame(w: World, toServer: bool, advanced: bool)
    ensures var w' := Advanced(AckReactions(w, toServer, advanced)); SameSending(w, w') && SameBooks(w, w')
  {
    AckReactionsSame(w, toServer, advanced);
    AdvancedSame(AckReactions(w, toServer, advanced));
  }

  lemma AckQuiet(w: World, p: Packet) returns (n: nat)
    requires w.client.state.ESTABLISHED?
    ensures Quiet(w, OnAck(w, p), n)
    ensures p.toServer ==> n == 0
  {
    var out := Acknowledging(Session.End(w, p.toServer), p.ack, w.now);
    var w1 := WithEnd(w, p.toServer, out.ep);
    assert w.client.sendBuffer == w.client.sendBuffer[0..];
    n := if !p.toServer && ReceiveAck(w.client, p.ack, w.now).ok then SB.Covered(w.client.sendBuffer, p.ack) else 0;
    assert Quiet(w, w1, n);
    ReactionsSame(w1, p.toServer, out.ok);
    QuietThen(w, w1, OnAck(w, p), n);
  }

  lemma DataSame(w: World, p: Packet, c: Choice)
    requires p.toServer
    ensures SameSending(w, OnData(w, p, c))
  {
    assert SameSending(w, DataTaken(w, p));
  }

  lemma ArrivalDisciplines(w: World, k: nat, p: Packet, c: Choice)
    requires OpenAt(w, k) && OpenEvent(Arrival(p))
    ensures Disciplines(w, OnArrival(w, p, c))
  {
    var w' := OnArrival(w, p, c);
    if p.at != Home(w.site, p.toServer) {
      SameIsQuiet(w, w');
    } else {
      OpenIdleEvents(w, k, p, c);
      match p.kind {
        case ACK => var n := AckQuiet(w, p);
        case DATA => DataSame(w, p, c); SameIsQuiet(w, w');
        case _ => SameIsQuiet(w, w');
      }
    }
  }

  lemma GenerateDisciplines(w: World, c: Choice)
    ensures Disciplines(w, OnGenerate(w, c))
  {
    var packet := DataPacket(w.site, w.client.seqNum, w.client.expectedAck, c.payload);
    if CanSend(w.client, |c.payload|) && c.payload != [] && OnGenerate(w, c) != w {
      assert Queues(w, OnGenerate(w, c));
    } else {
      SameIsQuiet(w, OnGenerate(w, c));
    }
  }

  lemma ResentDisciplines(w: World, seqNo: u32, c: Choice)
    requires CanRetransmit(w.client, seqNo)
    ensures Disciplines(w, Resent(w, seqNo, c))
  {
    var i := SB.Find(w.client.sendBuffer, seqNo);
    if i < |w.client.sendBuffer| { assert Resends(w, Resent(w, seqNo, c), i); }
    else { SameIsQuiet(w, Resent(w, seqNo, c)); }
  }

  lemma FailureQuiet(w: World)
    ensures Disciplines(w, w.(client := FailRetransmission(w.client)))
  {
    if w.client.state.CLOSED? { SameIsQuiet(w, w.(client := FailRetransmission(w.client))); }
    else { assert Quiet(w, w.(client := FailRetransmission(w.client)), 0); }
  }

  lemma RetransmissionDisciplines(w: World, seqNo: u32, c: Choice)
    ensures Disciplines(w, OnRetransmission(w, seqNo, c))
  {
    if !SB.Contains(w.client.sendBuffer, seqNo) || !w.client.state.ESTABLISHED? { SameIsQuiet(w, w); }
    else if CanRetransmit(w.client, seqNo) { ResentDisciplines(w, seqNo, c); }
    else { FailureQuiet(w); }
  }

  lemma FastRetransmissionDisciplines(w: World, c: Choice)
    ensures Disciplines(w, OnFastRetransmission(w, c))
  {
    if !w.client.state.ESTABLISHED? || w.client.sendBuffer == [] { SameIsQuiet(w, w); }
    else if CanRetransmit(w.client, w.client.sendBuffer[0].seqNo) {
      var seqNo := w.client.sendBuffer[0].seqNo;
      ResentDisciplines(Cut(w), seqNo, c);
      assert Resends(Cut(w), Resent(Cut(w), seqNo, c), 0);
      assert Resends(w, Resent(Cut(w), seqNo, c), 0);
    } else { FailureQuiet(w); }
  }

  lemma TimeoutDisciplines(w: World, seqNo: u32)
    ensures Disciplines(w, OnTimeout(w, seqNo))
  {
    if !SB.Contains(w.client.sendBuffer, seqNo) || Oldest(w.client) != Some(seqNo) { SameIsQuiet(w, w); }
    else if CanRetransmit(w.client, seqNo) { SameIsQuiet(w, OnTimeout(w, seqNo)); }
    else { FailureQuiet(w); }
  }

  /** Every step of an open session sends one new segment, one stored segment again, or nothing. */
  lemma OpenDisciplines(w: World, k: nat, c: Choice)
    requires OpenAt(w, k) && Enabled(w, c)
    ensures Disciplines(Popped(w), Step(w, c))
  {
    PoppedOpen(w, k);
    ExecuteDisciplines(Popped(w), k, w.pending[0].event, c);
  }

  lemma ExecuteDisciplines(w: World, k: nat, e: Event, c: Choice)
    requires OpenAt(w, k) && OpenEvent(e)
    ensures Disciplines(w, Execute(w, e, c))
  {
    match e
    case Arrival(p) => ArrivalDisciplines(w, k, p, c);
    case Handshake =>
    case Generate => GenerateDisciplines(w, c);
    case Timeout(seqNo) => TimeoutDisciplines(w, seqNo);
    case Retransmission(seqNo) => RetransmissionDisciplines(w, seqNo, c);
    case FastRetransmission => FastRetransmissionDisciplines(w, c);
    case DelayedAck(atServer, number) => DelayedAckSame(w, atServer, number, c); SameIsQuiet(w, Execute(w, e, c));
    case _ => SameIsQuiet(w, Execute(w, e, c));
  }

  lemma DelayedAckSame(w: World, atServer: bool, number: u32, c: Choice)
    ensures SameSending(w, OnDelayedAck(w, atServer, number, c))
  {
  }

  // ---- bookkeeping against the log ----

  /** The entry's own bookkeeping agrees with the log. */
  ghost predicate Tracked(log: seq<Transmission>, e: SB.Entry)
  {
    var times := Times(log, e.seqNo);
    && |times| == e.count + 1 <= MAX_TRANSMISSIONS
    && e.sentAt == times[|times| - 1]
    && (e.retransmitted <==> e.count > 0)
  }

  ghost predicate AllTracked(log: seq<Transmission>, entries: seq<SB.Entry>)
  {
    forall i :: 0 <= i < |entries| ==> Tracked(log, entries[i])
  }

  ghost predicate Capped(log: seq<Transmission>)
  {
    forall seqNo: u32 :: |Times(log, seqNo)| <= MAX_TRANSMISSIONS
  }

  /** Only pieces of the stream have been sent. */
  ghost predicate Logged(p: Partition, log: seq<Transmission>)
  {
    forall m :: 0 <= m < |log| ==> IsNumber(p, log[m].seqNo)
  }

  ghost predicate IsNumber(p: Partition, seqNo: u32) { exists i: nat :: i < |p.pieces| && seqNo == Word(p, i) }

  /** The number of the stream's end has not been used. */
  lemma {:induction false} UnsentHasNoTimes(p: Partition, log: seq<Transmission>)
    requires Modest(p) && Logged(p, log)
    ensures Times(log, Word(p, |p.pieces|)) == []
  {
    if log != [] {
      UnsentHasNoTimes(p, log[..|log| - 1]);
      assert IsNumber(p, log[|log| - 1].seqNo);
      var i: nat :| i < |p.pieces| && log[|log| - 1].seqNo == Word(p, i);
      WordsDiffer(p, i, |p.pieces|);
    }
  }

  ghost predicate KarnInv(w: World)
  {
    && Capped(w.log)
    && (w.client.state.ESTABLISHED? ==> AllTracked(w.log, w.client.sendBuffer) && Logged(w.stream, w.log))
  }

  lemma QuietKeepsKarn(w: World, w': World, n: nat)
    requires KarnInv(w) && Quiet(w, w', n)
    ensures KarnInv(w')
  {
    if w'.client.state.ESTABLISHED? {
      forall i | 0 <= i < |w'.client.sendBuffer| ensures Tracked(w'.log, w'.client.sendBuffer[i]) {
        assert w'.client.sendBuffer[i] == w.client.sendBuffer[n + i];
      }
    }
  }

  lemma LoggedGrown(p: Partition, piece: seq<byte>, log: seq<Transmission>)
    requires Logged(p, log)
    ensures Logged(Grown(p, piece), log)
  {
    forall m | 0 <= m < |log| ensures IsNumber(Grown(p, piece), log[m].seqNo) {
      assert IsNumber(p, log[m].seqNo);
      var i: nat :| i < |p.pieces| && log[m].seqNo == Word(p, i);
      WordGrown(p, piece, i);
    }
  }

  lemma LoggedNext(p: Partition, log: seq<Transmission>, t: Transmission)
    requires Logged(p, log) && IsNumber(p, t.seqNo)
    ensures Logged(p, log + [t])
  {
  }

  lemma CappedNext(log: seq<Transmission>, t: Transmission)
    requires Capped(log) && |Times(log, t.seqNo)| < MAX_TRANSMISSIONS
    ensures Capped(log + [t])
  {
    forall s: u32 ensures |Times(log + [t], s)| <= MAX_TRANSMISSIONS { TimesNext(log, t, s); }
  }

  lemma QueuesKeepsKarn(w: World, k: nat, w': World)
    requires KarnInv(w) && OpenAt(w, k) && Queues(w, w')
    ensures KarnInv(w')
  {
    var p, entries := w.stream, w.client.sendBuffer;
    var e := w'.client.sendBuffer[|w'.client.sendBuffer| - 1];
    var t := Transmission(e.seqNo, w.now);
    UnsentHasNoTimes(p, w.log);
    CappedNext(w.log, t);
    LoggedGrown(p, e.payload, w.log);
    WordGrown(p, e.payload, |p.pieces|);
    LoggedNext(w'.stream, w.log, t);
    forall i: nat | i < |w'.client.sendBuffer| ensures Tracked(w'.log, w'.client.sendBuffer[i]) {
      TimesNext(w.log, t, w'.client.sendBuffer[i].seqNo);
      if i < |entries| {
        assert Tracked(w.log, entries[i]);
        StoredIsPiece(w, k, i);
        WordsDiffer(p, Una(w) + i, |p.pieces|);
      }
    }
  }

  /** Logging one more transmission of a segment that may still be sent again, and marking its entry. */
  lemma MarkTracked(log: seq<Transmission>, e: SB.Entry, t: Transmission)
    requires Tracked(log, e) && (t.seqNo == e.seqNo ==> e.count < MAX_DATA_RETRANSMISSIONS)
    ensures Tracked(log + [t], if t.seqNo == e.seqNo then SB.Marked(e, t.at) else e)
  {
    TimesNext(log, t, e.seqNo);
  }

  lemma ResendsKeepsKarn(w: World, k: nat, w': World, i: nat)
    requires KarnInv(w) && OpenAt(w, k) && Resends(w, w', i)
    ensures KarnInv(w')
  {
    var entries := w.client.sendBuffer;
    var t := Transmission(entries[i].seqNo, w.now);
    assert Tracked(w.log, entries[i]);
    CappedNext(w.log, t);
    StoredIsPiece(w, k, i);
    LoggedNext(w.stream, w.log, t);
    forall j: nat | j < |entries| ensures Tracked(w'.log, w'.client.sendBuffer[j]) {
      assert Tracked(w.log, entries[j]);
      if j != i { TailDistinct(w.stream, entries, i, j); }
      MarkTracked(w.log, entries[j], t);
    }
  }

  lemma OpenStepKeepsKarn(w: World, k: nat, c: Choice)
    requires KarnInv(w) && OpenAt(w, k)
    ensures KarnInv(Step(w, c))
  {
    if Enabled(w, c) {
      OpenDisciplines(w, k, c);
      PoppedOpen(w, k);
      var w1, w' := Popped(w), Step(w, c);
      assert KarnInv(w1);
      if n: nat :| Quiet(w1, w', n) { QuietKeepsKarn(w1, w', n); }
      else if Queues(w1, w') { QueuesKeepsKarn(w1, k, w'); }
      else {
        var i: nat :| Resends(w1, w', i);
        ResendsKeepsKarn(w1, k, w', i);
      }
    }
  }

  // ---- outside the data phase nothing is sent ----

  lemma OverSendsNothing(w: World, c: Choice)
    requires Over(w)
    ensures Step(w, c).log == w.log
  {
    if Enabled(w, c) {
      PoppedOver(w);
      var w1, e := Popped(w), w.pending[0].event;
      match e
      case Arrival(p) => ArrivalBooks(w1, p, c);
      case _ =>
    }
  }

  lemma DataReactionsBooks(w: World, toServer: bool, inOrder: bool, c: Choice)
    ensures SameBooks(w, DataReactions(w, toServer, inOrder, c))
  {
  }

  lemma DataBooks(w: World, p: Packet, c: Choice)
    ensures SameBooks(w, OnData(w, p, c))
  {
    assert SameBooks(w, DataTaken(w, p));
    DataReactionsBooks(DataTaken(w, p), p.toServer, p.seqNo == Session.End(w, p.toServer).expectedAck, c);
  }

  lemma FinAnsweredBooks(w: World, toServer: bool, c: Choice)
    ensures SameBooks(w, FinAnswered(w, toServer, c))
  {
  }

  lemma FinBooks(w: World, p: Packet, c: Choice)
    ensures SameBooks(w, OnFin(w, p, c))
  {
    var out := ReceiveFin(Session.End(w, p.toServer), p.seqNo);
    var w1 := WithEnd(w, p.toServer, out.ep);
    assert SameBooks(w, w1);
    var w2 := if w1.client.state.TIME_WAIT? then Scheduled(w1, TimeWaitTimeout, TIME_WAIT_DELAY) else w1;
    assert SameBooks(w1, w2);
    var w3 := Sent(w2, PlainPacket(w.site, ACK, !p.toServer, out.ep), c.offer);
    assert SameBooks(w2, w3);
    FinAnsweredBooks(w3, p.toServer, c);
  }

  /** No arrival is logged, and only a client's acknowledgement touches the timer. */
  lemma ArrivalBooks(w: World, p: Packet, c: Choice)
    ensures OnArrival(w, p, c).log == w.log && OnArrival(w, p, c).now == w.now
    ensures !p.kind.ACK? || p.toServer || p.at != Home(w.site, p.toServer) ==>
      OnArrival(w, p, c).client.timer == w.client.timer
  {
    if p.at == Home(w.site, p.toServer) {
      match p.kind {
        case SYN =>
        case SYN_ACK =>
        case ACK =>
          var out := Acknowledging(Session.End(w, p.toServer), p.ack, w.now);
          ReactionsSame(WithEnd(w, p.toServer, out.ep), p.toServer, out.ok);
        case DATA => DataBooks(w, p, c);
        case FIN => FinBooks(w, p, c);
        case RST =>
      }
    }
  }

  lemma OpeningSendsNothing(w: World, c: Choice)
    requires Idle(w) || Opening(w)
    ensures Step(w, c).log == [] && Step(w, c).client.sendBuffer == []
  {
    if Opening(w) && Enabled(w, c) { PoppedOpening(w); }
  }

  lemma StepKeepsKarn(w: World, c: Choice)
    requires Inv(w) && KarnInv(w)
    ensures KarnInv(Step(w, c))
  {
    if Open(w) {
      var k: nat :| OpenAt(w, k);
      OpenStepKeepsKarn(w, k, c);
    } else if Idle(w) || Opening(w) {
      OpeningSendsNothing(w, c);
    } else {
      OverSendsNothing(w, c);
      OverStep(w, c);
    }
  }

  lemma {:induction false} RunKeepsKarn(site: Site, serverState: TS.State, choices: seq<Choice>)
    requires Fresh(serverState)
    ensures KarnInv(Run(Session.Start(site, serverState), choices))
  {
    if choices != [] {
      var before := choices[..|choices| - 1];
      RunKeepsInv(site, serverState, before);
      RunKeepsKarn(site, serverState, before);
      StepKeepsKarn(Run(Session.Start(site, serverState), before), choices[|choices| - 1]);
    }
  }

  // ---- main results ----

  /** Cap: in every run no segment is put on the wire more than 1 + 5 times, by timeout and fast retransmit together. */
  lemma {:induction false} AtMostFiveResends(site: Site, serverState: TS.State, choices: seq<Choice>, seqNo: u32)
    requires Fresh(serverState)
    ensures |Times(Run(Session.Start(site, serverState), choices).log, seqNo)| <= 1 + 5
  {
    RunKeepsKarn(site, serverState, choices);
  }

  // ---- Karn's rule ----

  /** The number of a piece the client no longer stores. */
  ghost predicate Retired(w: World, seqNo: u32)
  {
    && Inv(w) && !Idle(w) && !Opening(w)
    && (Open(w) ==> exists i: nat :: i < Una(w) && seqNo == Word(w.stream, i))
  }

  lemma RetiredByDiscipline(w: World, k: nat, w': World, i: nat)
    requires OpenAt(w, k) && Disciplines(w, w') && i < Una(w)
    ensures Times(w'.log, Word(w.stream, i)) == Times(w.log, Word(w.stream, i))
    ensures w'.client.state.ESTABLISHED? ==>
      i < Una(w') && i <= |w'.stream.pieces| && Word(w'.stream, i) == Word(w.stream, i)
  {
    var s := Word(w.stream, i);
    if n: nat :| Quiet(w, w', n) {
    } else if Queues(w, w') {
      var e := w'.client.sendBuffer[|w'.client.sendBuffer| - 1];
      WordGrown(w.stream, e.payload, i);
      WordsDiffer(w.stream, i, |w.stream.pieces|);
      TimesNext(w.log, Transmission(e.seqNo, w.now), s);
    } else {
      var m: nat :| Resends(w, w', m);
      StoredIsPiece(w, k, m);
      WordsDiffer(w.stream, i, Una(w) + m);
      TimesNext(w.log, Transmission(w.client.sendBuffer[m].seqNo, w.now), s);
    }
  }

  lemma OpenStepRetires(w: World, k: nat, c: Choice, i: nat)
    requires OpenAt(w, k) && i < Una(w)
    ensures Retired(Step(w, c), Word(w.stream, i))
    ensures Times(Step(w, c).log, Word(w.stream, i)) == Times(w.log, Word(w.stream, i))
  {
    var w' := Step(w, c);
    if Enabled(w, c) {
      OpenStep(w, k, c);
      PoppedOpen(w, k);
      OpenDisciplines(w, k, c);
      RetiredByDiscipline(Popped(w), k, w', i);
    }
  }

  /** Once retired, never sent again. */
  lemma StepKeepsRetired(w: World, seqNo: u32, c: Choice)
    requires Retired(w, seqNo)
    ensures Retired(Step(w, c), seqNo) && Times(Step(w, c).log, seqNo) == Times(w.log, seqNo)
  {
    if Open(w) {
      var k: nat :| OpenAt(w, k);
      var i: nat :| i < Una(w) && seqNo == Word(w.stream, i);
      OpenStepRetires(w, k, c, i);
    } else {
      OverStep(w, c);
      OverSendsNothing(w, c);
    }
  }

  lemma {:induction false} RunKeepsRetired(w: World, seqNo: u32, rest: seq<Choice>)
    requires Retired(w, seqNo)
    ensures Retired(Run(w, rest), seqNo) && Times(Run(w, rest).log, seqNo) == Times(w.log, seqNo)
  {
    if rest != [] {
      RunKeepsRetired(w, seqNo, rest[..|rest| - 1]);
      StepKeepsRetired(Run(w, rest[..|rest| - 1]), seqNo, rest[|rest| - 1]);
    }
  }

  /**
    The sample x is the age of stored segment i, which this acknowledgement covers and which is sent only once,
    in the log so far and in a later one.
   */
  ghost predicate Clean(w: World, now: real, i: nat, x: real, later: seq<Transmission>)
  {
    && SH.AckReaches(w, false)
    && var entries := w.client.sendBuffer;
       && i < SB.Covered(entries, w.pending[0].event.packet.ack)
       && x == now - entries[i].sentAt > 0.0
       && Times(w.log, entries[i].seqNo) == [entries[i].sentAt] == Times(later, entries[i].seqNo)
  }

  /** What one step may do to the client's timer. */
  ghost predicate TimerFed(w: World, w': World, later: seq<Transmission>)
  {
    || NotFed(w.client.timer, w'.client.timer)
    || exists i: nat, x: real ::
         Clean(w, w'.now, i, x, later) && w'.client.timer == RT.Apply(w.client.timer, RT.Sample(x))
  }

  /** A step that times out, gives up, or leaves the timer alone. */
  predicate NotFed(before: RT.Timer, after: RT.Timer)
  {
    after == before || after == RT.Apply(before, RT.Timeout) || after == RT.Apply(before, RT.Reset)
  }

  lemma ResentTimer(w: World, seqNo: u32, c: Choice)
    ensures Resent(w, seqNo, c).client.timer == w.client.timer
  {
  }

  lemma GenerateTimer(w: World, c: Choice)
    ensures OnGenerate(w, c).client.timer == w.client.timer
  {
  }

  lemma TimersFeedNothing(w: World, e: Event, c: Choice)
    requires !e.Arrival?
    ensures NotFed(w.client.timer, Execute(w, e, c).client.timer)
  {
    match e
    case Handshake =>
    case HandshakeTimeout =>
    case Generate => GenerateTimer(w, c);
    case DelayedAck(_, _) =>
    case Timeout(_) =>
    case Retransmission(seqNo) => ResentTimer(w, seqNo, c);
    case FastRetransmission => if w.client.sendBuffer != [] { ResentTimer(Cut(w), w.client.sendBuffer[0].seqNo, c); }
    case Close =>
    case TimeWaitTimeout =>
  }

  /** A sample comes from the first covered segment never resent whose age is positive. */
  lemma SampleIsCovered(w: World, ack: u32, now: real) returns (i: nat)
    requires KarnInv(w) && w.client.state.ESTABLISHED? && AckSample(w.client, ack, now).Some?
    ensures var entries := w.client.sendBuffer;
      && i < SB.Covered(entries, ack) && AckSample(w.client, ack, now).value == now - entries[i].sentAt > 0.0
      && Times(w.log, entries[i].seqNo) == [entries[i].sentAt]
  {
    var entries, n := w.client.sendBuffer, SB.Covered(w.client.sendBuffer, ack);
    var x := AckSample(w.client, ack, now).value;
    i :| 0 <= i < n && !entries[i].retransmitted && x == now - entries[i].sentAt;
    assert Tracked(w.log, entries[i]);
  }

  lemma AckTimer(ep: Endpoint, ack: u32, now: real)
    ensures var after := Acknowledging(ep, ack, now).ep.timer; var sample := AckSample(ep, ack, now);
      after == ep.timer
      || (ep.state.ESTABLISHED? && ReceiveAck(ep, ack, now).ok && sample.Some?
          && after == RT.Apply(ep.timer, RT.Sample(sample.value)))
  {
  }

  /** A segment covered by an acknowledgement the client accepts is stored no longer. */
  lemma CoveredRetires(w: World, k: nat, p: Packet, i: nat)
    requires OpenAt(w, k) && FlowEvent(w.stream, k, Arrival(p)) && p.kind.ACK? && !p.toServer
    requires ReceiveAck(w.client, p.ack, w.now).ok && i < SB.Covered(w.client.sendBuffer, p.ack)
    ensures Open(OnAck(w, p)) && OnAck(w, p).stream == w.stream
    ensures w.client.sendBuffer[i].seqNo == Word(w.stream, Una(w) + i)
    ensures Una(w) + i < Una(OnAck(w, p)) <= |w.stream.pieces|
  {
    OpenAcknowledgement(w, k, p);
    StoredIsPiece(w, k, i);
    AckRemoves(w, p);
  }

  /** An acknowledgement the client accepts takes the covered segments out of the send buffer. */
  lemma AckRemoves(w: World, p: Packet)
    requires w.client.state.ESTABLISHED? && ReceiveAck(w.client, p.ack, w.now).ok && !p.toServer
    ensures OnAck(w, p).stream == w.stream
    ensures OnAck(w, p).client.sendBuffer == w.client.sendBuffer[SB.Covered(w.client.sendBuffer, p.ack)..]
  {
    var out := Acknowledging(w.client, p.ack, w.now);
    AckAdvances(w.client, p.ack, w.now);
    ReactionsSame(WithEnd(w, false, out.ep), false, out.ok);
  }

  /**
    Karn's rule over every run and all its continuations: whenever a step feeds the client's estimator a sample,
    the sample is the time since the transmission of a segment that the arriving acknowledgement covers, that was
    sent exactly once, and that is never sent again.
   */
  lemma {:induction false} KarnsRule(site: Site, serverState: TS.State, choices: seq<Choice>, c: Choice, rest: seq<Choice>)
    requires Fresh(serverState)
    ensures var w := Run(Session.Start(site, serverState), choices); var w' := Step(w, c);
      TimerFed(w, w', Run(w', rest).log)
  {
    RunKeepsKarn(site, serverState, choices);
    var w := Run(Session.Start(site, serverState), choices);
    if Enabled(w, c) {
      var w1, e := Popped(w), w.pending[0].event;
      if e.Arrival? {
        ArrivalBooks(w1, e.packet, c);
        if SH.AckReaches(w, false) {
          var k := EstablishedIsOpen(site, serverState, choices);
          AckFeedsCleanly(w, k, c, rest);
        }
      } else {
        TimersFeedNothing(w1, e, c);
      }
    }
  }

  lemma AckFeedsCleanly(w: World, k: nat, c: Choice, rest: seq<Choice>)
    requires KarnInv(w) && (w.client.state.ESTABLISHED? ==> OpenAt(w, k)) && Enabled(w, c) && SH.AckReaches(w, false)
    ensures TimerFed(w, Step(w, c), Run(Step(w, c), rest).log)
  {
    var w1, p, w' := Popped(w), w.pending[0].event.packet, Step(w, c);
    var out := Acknowledging(w.client, p.ack, w1.now);
    ReactionsSame(WithEnd(w1, false, out.ep), false, out.ok);
    AckTimer(w.client, p.ack, w1.now);
    if out.ep.timer != w.client.timer {
      var i := SampleIsClean(w, k, c, rest);
      assert Clean(w, w'.now, i, AckSample(w.client, p.ack, w1.now).value, Run(w', rest).log);
    }
  }

  /** The segment the sample is taken from is retired by this very step, so it is never sent again. */
  lemma SampleIsClean(w: World, k: nat, c: Choice, rest: seq<Choice>) returns (i: nat)
    requires KarnInv(w) && OpenAt(w, k) && Enabled(w, c) && SH.AckReaches(w, false)
    requires var p := w.pending[0].event.packet;
      ReceiveAck(w.client, p.ack, w.pending[0].time).ok && AckSample(w.client, p.ack, w.pending[0].time).Some?
    ensures var now := w.pending[0].time;
      Clean(w, now, i, AckSample(w.client, w.pending[0].event.packet.ack, now).value, Run(Step(w, c), rest).log)
  {
    var p, now := w.pending[0].event.packet, w.pending[0].time;
    i := SampleIsCovered(w, p.ack, now);
    AckRetires(w, k, c, i);
    RunKeepsRetired(Step(w, c), w.client.sendBuffer[i].seqNo, rest);
  }

  lemma AckRetires(w: World, k: nat, c: Choice, i: nat)
    requires OpenAt(w, k) && Enabled(w, c) && SH.AckReaches(w, false)
    requires var p := w.pending[0].event.packet;
      ReceiveAck(w.client, p.ack, w.pending[0].time).ok && i < SB.Covered(w.client.sendBuffer, p.ack)
    ensures Retired(Step(w, c), w.client.sendBuffer[i].seqNo) && Step(w, c).log == w.log
  {
    var w1, p := Popped(w), w.pending[0].event.packet;
    ArrivalBooks(w1, p, c);
    PoppedOpen(w, k);
    CoveredRetires(w1, k, p, i);
    RetiredFrom(OnAck(w1, p), Una(w1) + i);
  }

  lemma RetiredFrom(w: World, i: nat)
    requires Open(w) && i < Una(w) <= |w.stream.pieces|
    ensures Retired(w, Word(w.stream, i))
  {
  }
}
