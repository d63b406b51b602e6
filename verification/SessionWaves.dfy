/**
  Packets under way at one instant. Generation, acknowledgement and forwarding all take their turn in the queue, so
  between two generations every packet makes one hop, and no two of them have the same number of hops left: at most
  one acknowledgement reaches the client between two segments.
 */
module SessionWaves {
  import opened Common
  import opened Word32
  import opened Session
  import opened Forwarding
  import EventQueues

  type Due = EventQueues.Timed<Event>

  // ---- how far a packet has to go ----

  ghost predicate Arrives(tables: Tables, u: int, d: int) { exists k: nat :: Follow(tables, u, d, k) == d }

  /** The hops from u to d by everybody's tables, if they lead there. */
  ghost function Away(tables: Tables, u: int, d: int): Option<nat>
  {
    if Arrives(tables, u, d) then var k: nat :| Follow(tables, u, d, k) == d; Some(Hops(tables, u, d, k)) else None
  }

  lemma AwayIs(tables: Tables, u: int, d: int, k: nat)
    requires Follow(tables, u, d, k) == d
    ensures Away(tables, u, d) == Some(Hops(tables, u, d, k))
  {
    var l: nat :| Follow(tables, u, d, l) == d && Away(tables, u, d) == Some(Hops(tables, u, d, l));
    HopsOfArrival(tables, u, d, l, Max(k, l));
    HopsOfArrival(tables, u, d, k, Max(k, l));
  }

  lemma AwayNext(tables: Tables, u: int, d: int)
    requires u != d && GetNextHop(tables, u, d) != -1
    ensures var next := Away(tables, GetNextHop(tables, u, d), d);
      Away(tables, u, d) == if next.Some? then Some(next.value + 1) else None
  {
    var v := GetNextHop(tables, u, d);
    if Arrives(tables, v, d) {
      var k: nat :| Follow(tables, v, d, k) == d;
      assert Follow(tables, u, d, k + 1) == d;
      AwayIs(tables, v, d, k);
      AwayIs(tables, u, d, k + 1);
    } else {
      forall k: nat ensures Follow(tables, u, d, k) != d {
        if k > 0 { assert Follow(tables, u, d, k) == Follow(tables, v, d, k - 1); }
      }
    }
  }

  predicate IsData(e: Event) { e.Arrival? && e.packet.kind.DATA? && e.packet.toServer }

  /** An acknowledgement on its way to the client. */
  predicate IsReply(e: Event) { e.Arrival? && e.packet.kind.ACK? && !e.packet.toServer }

  /** One more than the hops an acknowledgement at a node makes, if it arrives at all. */
  ghost function ReplyRank(site: Site, at: int): nat
  {
    var h := Away(site.tables, at, site.client);
    if h.Some? then h.value + 1 else 0
  }

  /** The rank of a segment that has arrived: its acknowledgement, one hop on, has one less. */
  ghost function ArrivedRank(site: Site): nat
  {
    var r := ReplyRank(site, GetNextHop(site.tables, site.server, site.client));
    if r == 0 then 0 else r + 1
  }

  ghost function DataRank(site: Site, at: int): nat
  {
    var h := Away(site.tables, at, site.server);
    if h.Some? && ArrivedRank(site) != 0 then h.value + ArrivedRank(site) else 0
  }

  /** The steps until a packet, or the acknowledgement it will cause, has reached the client; 0 if it never does. */
  ghost function Rank(site: Site, e: Event): nat
  {
    if IsData(e) then DataRank(site, e.packet.at) else if IsReply(e) then ReplyRank(site, e.packet.at) else 0
  }

  /** The rank of a segment after its first hop. */
  ghost function TopRank(site: Site): nat { DataRank(site, GetNextHop(site.tables, site.client, site.server)) }

  lemma ForwardRank(site: Site, p: Packet)
    requires p.at != Home(site, p.toServer) && NextNode(site, p) != -1
    ensures var next := Rank(site, Arrival(p.(at := NextNode(site, p)))); next > 0 ==> Rank(site, Arrival(p)) == next + 1
  {
    AwayNext(site.tables, p.at, Home(site, p.toServer));
  }

  lemma HomeRank(site: Site, p: Packet)
    requires p.at == Home(site, p.toServer)
    ensures IsReply(Arrival(p)) ==> Rank(site, Arrival(p)) == 1
    ensures IsData(Arrival(p)) ==> Rank(site, Arrival(p)) == ArrivedRank(site)
  {
    AwayIs(site.tables, p.at, p.at, 0);
  }

  // ---- the queue ----

  ghost predicate Live(site: Site, now: real, x: Due) { x.time == now && Rank(site, x.event) > 0 }

  /** The rank a packet will have once the generation `gid` has had its turn. */
  ghost function Turn(site: Site, gid: nat, x: Due): int
  {
    if x.id < gid then Rank(site, x.event) - 1 else Rank(site, x.event)
  }

  ghost predicate Apart(site: Site, now: real, gid: nat, x: Due, y: Due)
  {
    && (IsData(x.event) && IsData(y.event) ==> x.event.packet.seqNo != y.event.packet.seqNo)
    && (Live(site, now, x) && Live(site, now, y) ==> Turn(site, gid, x) != Turn(site, gid, y))
  }

  ghost predicate AllApart(site: Site, now: real, gid: nat, q: seq<Due>)
  {
    forall x, y :: x in q && y in q && x != y ==> Apart(site, now, gid, x, y)
  }

  /** No two segments are the same, and no two live packets will have the same rank. */
  ghost predicate Waves(site: Site, now: real, gid: nat, q: seq<Due>)
  {
    AllApart(site, now, gid, q) && forall x :: x in q && Live(site, now, x) ==> Turn(site, gid, x) < TopRank(site)
  }

  /** What a packet leaves behind: itself or its acknowledgement one hop on, or a timer. */
  ghost predicate Heir(site: Site, now: real, x: Due, e: Due)
  {
    && (IsData(e.event) ==> IsData(x.event) && x.event.packet.seqNo == e.event.packet.seqNo)
    && (Live(site, now, e) ==> Live(site, now, x) && Rank(site, x.event) == Rank(site, e.event) + 1)
  }

  lemma HeadOnce(q: seq<Due>)
    requires EventQueues.Sorted(q) && q != []
    ensures q[0] !in q[1..] && forall x :: x in q <==> x == q[0] || x in q[1..]
    ensures forall x :: x in q[1..] ==> EventQueues.Earlier(q[0], x)
  {
    assert q == [q[0]] + q[1..];
    forall x | x in q[1..] ensures EventQueues.Earlier(q[0], x) {
      var i :| 0 <= i < |q[1..]| && q[1..][i] == x;
      assert q[i + 1] == x;
    }
  }

  lemma WavesPopped(site: Site, now: real, gid: nat, q: seq<Due>)
    requires Waves(site, now, gid, q) && q != []
    ensures Waves(site, now, gid, q[1..])
  {
    assert forall x :: x in q[1..] ==> x in q;
  }

  lemma ApartSymmetric(site: Site, now: real, gid: nat, x: Due, y: Due)
    requires Apart(site, now, gid, x, y)
    ensures Apart(site, now, gid, y, x)
  {
  }

  lemma WavesJoined(site: Site, now: real, gid: nat, q: seq<Due>, e: Due)
    requires Waves(site, now, gid, q) && forall y :: y in q && y != e ==> Apart(site, now, gid, e, y)
    requires Live(site, now, e) ==> Turn(site, gid, e) < TopRank(site)
    ensures Waves(site, now, gid, EventQueues.Scheduled(q, e))
  {
    var r := EventQueues.Scheduled(q, e);
    forall x, y | x in r && y in r && x != y ensures Apart(site, now, gid, x, y) {
      if y == e { ApartSymmetric(site, now, gid, e, x); }
    }
  }

  /** A packet's heir takes its place among the others. */
  lemma WavesHeir(site: Site, now: real, gid: nat, q: seq<Due>, e: Due)
    requires q != [] && Waves(site, now, gid, q) && q[0] !in q[1..]
    requires q[0].id < gid < e.id && Heir(site, now, q[0], e)
    ensures Waves(site, now, gid, EventQueues.Scheduled(q[1..], e))
  {
    WavesPopped(site, now, gid, q);
    forall y | y in q[1..] && y != e ensures Apart(site, now, gid, e, y) {
      assert y in q && q[0] in q;
      assert Apart(site, now, gid, q[0], y);
    }
  }

  lemma WavesTimer(site: Site, now: real, gid: nat, q: seq<Due>, e: Due)
    requires Waves(site, now, gid, q) && !IsData(e.event) && !Live(site, now, e)
    ensures Waves(site, now, gid, EventQueues.Scheduled(q, e))
  {
    WavesJoined(site, now, gid, q, e);
  }

  /** After a generation all that is left is before the next one. */
  lemma WavesTurn(site: Site, now: real, gid: nat, next: nat, q: seq<Due>)
    requires Waves(site, now, gid, q) && forall x :: x in q && Live(site, now, x) ==> gid < x.id < next
    ensures Waves(site, now, next, q)
    ensures forall x :: x in q && Live(site, now, x) ==> Turn(site, next, x) < TopRank(site) - 1
  {
    forall x, y | x in q && y in q && x != y ensures Apart(site, now, next, x, y) {
      assert Apart(site, now, gid, x, y);
    }
  }

  /** A fresh segment is farther away than everything else. */
  lemma WavesFresh(site: Site, now: real, gid: nat, q: seq<Due>, e: Due)
    requires Waves(site, now, gid, q)
    requires forall x :: x in q && Live(site, now, x) ==> Turn(site, gid, x) < TopRank(site) - 1
    requires IsData(e.event) && e.id < gid && (Live(site, now, e) ==> Rank(site, e.event) == TopRank(site))
    requires forall x :: x in q && IsData(x.event) ==> x.event.packet.seqNo != e.event.packet.seqNo
    ensures Waves(site, now, gid, EventQueues.Scheduled(q, e))
  {
    WavesJoined(site, now, gid, q, e);
  }

  /** At most one acknowledgement is at the client before the next generation. */
  lemma OneReply(site: Site, now: real, gid: nat, q: seq<Due>, x: Due, y: Due)
    requires Waves(site, now, gid, q) && x in q && y in q && x != y
    requires x.time == y.time == now && x.id < gid && y.id < gid && IsReply(x.event) && IsReply(y.event)
    ensures !(x.event.packet.at == y.event.packet.at == site.client)
  {
    assert Apart(site, now, gid, x, y);
    if x.event.packet.at == site.client { HomeRank(site, x.event.packet); }
    if y.event.packet.at == site.client { HomeRank(site, y.event.packet); }
  }
}
