/**
  What holds of whole simulations: the engine makes one of its runs and every session one of Session's, the queue
  drains within a bound, and packets of a session keep their order on a link.
 */
module SimulationResults {
  import opened Common
  import opened EventQueues
  import opened Session
  import opened SessionDeeds
  import opened Simulations
  import opened SimulationRuns
  import E = Engine
  import EngineRuns
  import EngineSafety
  import SessionDrain
  import SessionResults
  import Forwarding
  import TS = TcpState

  // ---- opening connections ----

  /** Between whom a connection is started. */
  datatype Route = Route(client: nat, server: nat)

  const HANDSHAKE_SPACING := 0.05

  function SiteOf(ew: E.World, routes: seq<Route>, i: nat): Site
    requires i < |routes|
  {
    Site(ew.tables, routes[i].client, routes[i].server, ew.now + HANDSHAKE_SPACING * i as real)
  }

  /** One more session, its handshake scheduled a little after the one before. */
  function Opened(j: Joint, site: Site): Joint
  {
    Joint(Clocked(j.engine, site.begin, |j.sessions|), j.sessions + [Start(site, TS.CLOSED)],
          j.ledger[j.engine.nextEvent := Note(|j.sessions|, 0, Handshake)])
  }

  function Opening(ew: E.World, routes: seq<Route>): (j: Joint)
    ensures |j.sessions| == |routes|
  {
    if routes == [] then Joint(ew, [], map[])
    else Opened(Opening(ew, routes[..|routes| - 1]), SiteOf(ew, routes, |routes| - 1))
  }

  /** The engine's part of it: each handshake event built and scheduled. */
  function OpeningInputs(ew: E.World, routes: seq<Route>): seq<E.Input>
  {
    if routes == [] then []
    else
      var k := |routes| - 1;
      OpeningInputs(ew, routes[..k]) + [E.Outside(E.Build(SiteOf(ew, routes, k).begin, k)), E.Outside(E.Schedule(0))]
  }

  lemma {:induction false} NobodysEvents(q: seq<Timed<E.Event>>, ledger: map<nat, Note>, i: nat)
    requires forall x :: x in q && x.id in ledger ==> ledger[x.id].session != i
    ensures Project(q, ledger, i) == []
  {
    if q != [] {
      assert q[0] in q && forall x :: x in q[1..] ==> x in q;
      NobodysEvents(q[1..], ledger, i);
    }
  }

  /** A session with nothing to do. */
  function Idle(site: Site): World { Start(site, TS.CLOSED).(pending := [], nextId := 0) }

  lemma IdleTied(j: Joint, site: Site)
    requires Tied(j) && site.tables == j.engine.tables
    ensures Tied(j.(sessions := j.sessions + [Idle(site)]))
  {
    var j' := j.(sessions := j.sessions + [Idle(site)]);
    forall x | x in j.engine.pending ensures Known(j', x) && j.ledger[x.id].session < |j.sessions| { assert Known(j, x); }
    forall k | 0 <= k < |j'.sessions| ensures Linked(j', k) {
      if k < |j.sessions| { assert Linked(j, k); } else { NobodysEvents(j.engine.pending, j.ledger, k); }
    }
  }

  lemma OpenedTied(j: Joint, site: Site)
    requires Tied(j) && site.tables == j.engine.tables
    ensures Tied(Opened(j, site))
    ensures Opened(j, site).engine.tables == j.engine.tables
  {
    var j1, i := j.(sessions := j.sessions + [Idle(site)]), |j.sessions|;
    IdleTied(j, site);
    ClockedEffect(j.engine, site.begin, i);
    TiedEnters(j1, Clocked(j.engine, site.begin, i), i, Start(site, TS.CLOSED),
               Timed(site.begin, j.engine.nextEvent, E.Reaction(i)), Note(i, 0, Handshake));
    assert j1.sessions[i := Start(site, TS.CLOSED)] == j.sessions + [Start(site, TS.CLOSED)];
  }

  lemma SettingRuns(ew: E.World, at: real, tag: nat)
    ensures E.Run(ew, [E.Outside(E.Build(at, tag)), E.Outside(E.Schedule(0))]) == Clocked(ew, at, tag)
  {
    var a, b := E.Outside(E.Build(at, tag)), E.Outside(E.Schedule(0));
    assert [a, b][..1] == [a] && [a][..0] == [];
    assert E.Run(ew, [a]) == E.Act(ew, E.Build(at, tag));
    ActsTwo(ew, E.Build(at, tag), E.Schedule(0));
  }

  /** The sessions are tied to an engine that has only scheduled their handshakes. */
  ghost predicate Opens(ew: E.World, routes: seq<Route>, j: Joint)
  {
    && Tied(j) && j.engine.tables == ew.tables && |j.sessions| == |routes|
    && forall i :: 0 <= i < |routes| ==>
         && j.sessions[i] == Start(SiteOf(ew, routes, i), TS.CLOSED)
         && j.sessions[i].pending == [Timed(ew.now + 0.05 * i as real, 0, Handshake)]
  }

  lemma OpensOneMore(ew: E.World, routes: seq<Route>, j: Joint)
    requires routes != [] && Opens(ew, routes[..|routes| - 1], j)
    ensures Opens(ew, routes, Opened(j, SiteOf(ew, routes, |routes| - 1)))
  {
    var k := |routes| - 1;
    OpenedTied(j, SiteOf(ew, routes, k));
    assert forall i :: 0 <= i < k ==> SiteOf(ew, routes[..k], i) == SiteOf(ew, routes, i);
  }

  lemma {:induction false} OpeningTied(ew: E.World, routes: seq<Route>)
    requires E.Initial(ew)
    ensures Opens(ew, routes, Opening(ew, routes))
  {
    if routes != [] {
      OpeningTied(ew, routes[..|routes| - 1]);
      OpensOneMore(ew, routes, Opening(ew, routes[..|routes| - 1]));
    }
  }

  lemma {:induction false} OpeningRuns(ew: E.World, routes: seq<Route>)
    ensures Opening(ew, routes).engine == E.Run(ew, OpeningInputs(ew, routes))
  {
    if routes != [] {
      var k := |routes| - 1;
      var before, at := routes[..k], SiteOf(ew, routes, k).begin;
      OpeningRuns(ew, before);
      SettingRuns(Opening(ew, before).engine, at, k);
      EngineRuns.RunsJoin(ew, OpeningInputs(ew, before), [E.Outside(E.Build(at, k)), E.Outside(E.Schedule(0))]);
    }
  }

  // ---- runs ----

  function Run(j: Joint, turns: seq<Turn>): (r: Joint)
    ensures |r.sessions| == |j.sessions|
  {
    if turns == [] then j else Turned(Run(j, turns[..|turns| - 1]), turns[|turns| - 1])
  }

  /** The engine's inputs over a run. */
  function Inputs(j: Joint, turns: seq<Turn>): seq<E.Input>
  {
    if turns == [] then []
    else
      var before, t := turns[..|turns| - 1], turns[|turns| - 1];
      var w := Run(j, before);
      Inputs(j, before) + if Ready(w, t) then [InputOf(w, t)] else []
  }

  /** Is it the turn of this session? */
  predicate Serves(j: Joint, t: Turn, i: nat) { Ready(j, t) && Next(j, t).session == i }

  /** The choices one session is run with. */
  function Choices(j: Joint, turns: seq<Turn>, i: nat): seq<Choice>
  {
    if turns == [] then []
    else
      var before, t := turns[..|turns| - 1], turns[|turns| - 1];
      var w := Run(j, before);
      Choices(j, before, i) + if Serves(w, t, i) then [ChoiceOf(w, t)] else []
  }

  /** Events run by the first m sessions. */
  function Share(j: Joint, turns: seq<Turn>, m: nat): nat
  {
    if m == 0 then 0 else Share(j, turns, m - 1) + |Choices(j, turns, m - 1)|
  }

  /** The run as the engine sees it and as session i sees it. */
  ghost predicate Splits(j: Joint, turns: seq<Turn>)
  {
    var r := Run(j, turns);
    && Tied(r) && |r.sessions| == |j.sessions| && r.engine == E.Run(j.engine, Inputs(j, turns))
    && forall i :: 0 <= i < |j.sessions| ==>
         && r.sessions[i] == Session.Run(j.sessions[i], Choices(j, turns, i))
         && SessionDrain.AllFire(j.sessions[i], Choices(j, turns, i))
  }

  lemma {:induction false} RunSplits(j: Joint, turns: seq<Turn>)
    requires Tied(j)
    ensures Splits(j, turns)
  {
    if turns != [] {
      var before, t := turns[..|turns| - 1], turns[|turns| - 1];
      RunSplits(j, before);
      var w := Run(j, before);
      TurnKeepsTied(w, t);
      if Ready(w, t) { RunGoesOn(j, turns); }
      else {
        assert Inputs(j, turns) == Inputs(j, before);
        assert forall i :: 0 <= i < |j.sessions| ==> Choices(j, turns, i) == Choices(j, before, i);
      }
    }
  }

  lemma LastOf<T>(a: seq<T>, x: T)
    ensures (a + [x])[..|a + [x]| - 1] == a && (a + [x])[|a + [x]| - 1] == x
  {
  }

  lemma RunGoesOn(j: Joint, turns: seq<Turn>)
    requires turns != [] && Splits(j, turns[..|turns| - 1])
    requires Ready(Run(j, turns[..|turns| - 1]), turns[|turns| - 1]) && Tied(Run(j, turns))
    ensures Splits(j, turns)
  {
    var before, t := turns[..|turns| - 1], turns[|turns| - 1];
    var w := Run(j, before);
    LastOf(Inputs(j, before), InputOf(w, t));
    TurnEnabled(w, t);
    forall i | 0 <= i < |j.sessions|
      ensures Run(j, turns).sessions[i] == Session.Run(j.sessions[i], Choices(j, turns, i))
      ensures SessionDrain.AllFire(j.sessions[i], Choices(j, turns, i))
    {
      if Serves(w, t, i) { LastOf(Choices(j, before, i), ChoiceOf(w, t)); }
      else { assert Choices(j, turns, i) == Choices(j, before, i); }
    }
  }

  /**
    Main result: a simulation started on any network, with connections between any nodes, is a run of the engine from
    its first state in which every session makes a run of its own. So every promise about engine runs and every
    promise about session runs holds in it.
   */
  lemma {:induction false} SimulationsSplit(ew: E.World, routes: seq<Route>, turns: seq<Turn>)
    requires E.Initial(ew)
    ensures var j := Opening(ew, routes); var r := Run(j, turns);
      && r.engine == E.Run(ew, OpeningInputs(ew, routes) + Inputs(j, turns))
      && |r.sessions| == |routes|
      && forall i :: 0 <= i < |routes| ==>
           && r.sessions[i] == Session.Run(Start(SiteOf(ew, routes, i), TS.CLOSED), Choices(j, turns, i))
           && r.sessions[i].pending == Project(r.engine.pending, r.ledger, i)
  {
    var j := Opening(ew, routes);
    OpeningTied(ew, routes);
    OpeningRuns(ew, routes);
    RunSplits(j, turns);
    EngineRuns.RunsJoin(ew, OpeningInputs(ew, routes), Inputs(j, turns));
    var r := Run(j, turns);
    forall i | 0 <= i < |routes|
      ensures r.sessions[i] == Session.Run(Start(SiteOf(ew, routes, i), TS.CLOSED), Choices(j, turns, i))
      ensures r.sessions[i].pending == Project(r.engine.pending, r.ledger, i)
    {
      assert j.sessions[i] == Start(SiteOf(ew, routes, i), TS.CLOSED);
      assert Linked(r, i);
    }
  }

  /**
    So in every simulation, while a client is established, its server has handed over exactly the first pieces of the
    client's stream, whatever the links dropped and however the sessions share them.
   */
  lemma {:induction false} ServersReadPrefixes(ew: E.World, routes: seq<Route>, turns: seq<Turn>, i: nat)
    requires E.Initial(ew) && i < |routes|
    ensures var w := Run(Opening(ew, routes), turns).sessions[i];
      w.client.state.ESTABLISHED? ==> exists lo: int, k: nat :: SessionResults.ReadUpTo(w, lo, k)
  {
    SimulationsSplit(ew, routes, turns);
    SessionResults.ServerReadsPrefix(SiteOf(ew, routes, i), TS.CLOSED, Choices(Opening(ew, routes), turns, i));
  }

  // ---- the end ----

  /** Every turn runs an event. */
  predicate AllRun(j: Joint, turns: seq<Turn>)
  {
    turns == [] || (AllRun(j, turns[..|turns| - 1]) && Ready(Run(j, turns[..|turns| - 1]), turns[|turns| - 1]))
  }

  lemma ChoicesGrow(j: Joint, turns: seq<Turn>, i: nat)
    requires turns != []
    ensures var before, t := turns[..|turns| - 1], turns[|turns| - 1];
      |Choices(j, turns, i)| == |Choices(j, before, i)| + if Serves(Run(j, before), t, i) then 1 else 0
  {
  }

  lemma {:induction false} ShareGrows(j: Joint, turns: seq<Turn>, m: nat)
    requires turns != []
    ensures var before, t := turns[..|turns| - 1], turns[|turns| - 1]; var w := Run(j, before);
      Share(j, turns, m) == Share(j, before, m) + if Ready(w, t) && Next(w, t).session < m then 1 else 0
  {
    if m > 0 {
      ShareGrows(j, turns, m - 1);
      ChoicesGrow(j, turns, m - 1);
    }
  }

  lemma {:induction false} NoShareYet(j: Joint, m: nat)
    ensures Share(j, [], m) == 0
  {
    if m > 0 { NoShareYet(j, m - 1); }
  }

  /** Every event is some session's. */
  lemma {:induction false} SharesAdd(j: Joint, turns: seq<Turn>)
    requires Tied(j) && AllRun(j, turns)
    ensures Share(j, turns, |j.sessions|) == |turns|
  {
    if turns == [] {
      NoShareYet(j, |j.sessions|);
    } else {
      SharesAdd(j, turns[..|turns| - 1]);
      RunSplits(j, turns[..|turns| - 1]);
      ShareGrows(j, turns, |j.sessions|);
    }
  }

  lemma {:induction false} ShareBound(j: Joint, turns: seq<Turn>, m: nat, bound: nat)
    requires m <= |j.sessions| && forall i :: 0 <= i < m ==> |Choices(j, turns, i)| <= bound
    ensures Share(j, turns, m) <= m * bound
  {
    if m > 0 {
      ShareBound(j, turns, m - 1, bound);
      assert m * bound == (m - 1) * bound + bound;
    }
  }

  /** The most events a session runs on a network of n nodes. */
  function MostEvents(n: nat): nat { 1196 + 315 * Max(n - 2, 0) }

  /** A session runs no more events here than on its own. */
  lemma ShareOfOne(ew: E.World, routes: seq<Route>, turns: seq<Turn>, i: nat)
    requires E.Initial(ew) && i < |routes|
    ensures |Choices(Opening(ew, routes), turns, i)| <= MostEvents(ew.nodes)
  {
    var j, site := Opening(ew, routes), SiteOf(ew, routes, i);
    OpeningTied(ew, routes);
    RunSplits(j, turns);
    assert j.sessions[i] == Start(site, TS.CLOSED);
    SessionDrain.SessionsAreBounded(E.NetworkOf(ew.links, ew.nodes), ew.metric, site, TS.CLOSED, Choices(j, turns, i));
  }

  lemma TurnsBound(j: Joint, turns: seq<Turn>, bound: nat)
    requires Tied(j) && AllRun(j, turns) && forall i :: 0 <= i < |j.sessions| ==> |Choices(j, turns, i)| <= bound
    ensures |turns| <= |j.sessions| * bound
  {
    SharesAdd(j, turns);
    ShareBound(j, turns, |j.sessions|, bound);
  }

  lemma StopsWhenEmpty(r: Joint)
    requires Tied(r)
    ensures (forall t :: !Ready(r, t)) <==> r.engine.pending == []
  {
    ReadyIff(r, Turn(false, [], 0, 0, [0]));
  }

  /**
    Main result: on a network of n nodes that does not change, a simulation of m connections runs at most
    m (1196 + 315 (n - 2)) events, whatever is dropped; it can run no further exactly when the engine's queue is empty.
   */
  lemma {:induction false} SimulationsDrain(ew: E.World, routes: seq<Route>, turns: seq<Turn>)
    requires E.Initial(ew) && AllRun(Opening(ew, routes), turns)
    ensures |turns| <= |routes| * MostEvents(ew.nodes)
    ensures var r := Run(Opening(ew, routes), turns);
      (forall t :: !Ready(r, t)) <==> r.engine.pending == []
  {
    var j := Opening(ew, routes);
    OpeningTied(ew, routes);
    RunSplits(j, turns);
    StopsWhenEmpty(Run(j, turns));
    forall i | 0 <= i < |j.sessions| ensures |Choices(j, turns, i)| <= MostEvents(ew.nodes) {
      ShareOfOne(ew, routes, turns, i);
    }
    TurnsBound(j, turns, MostEvents(ew.nodes));
  }

  // ---- the order on a link ----

  lemma {:induction false} OnesOwn(q: seq<Timed<E.Event>>, ledger: map<nat, Note>, i: nat, x: Timed<E.Event>)
    requires x in q && x.id in ledger && ledger[x.id].session == i
    ensures Noted(x, ledger[x.id]) in Project(q, ledger, i)
  {
    if q[0] != x {
      assert x in q[1..];
      OnesOwn(q[1..], ledger, i, x);
    }
  }

  lemma SortedApart(q: seq<Timed<E.Event>>, x: Timed<E.Event>, y: Timed<E.Event>)
    requires Sorted(q) && x in q && y in q && x != y
    ensures Earlier(x, y) || Earlier(y, x)
  {
    var a :| 0 <= a < |q| && q[a] == x;
    var b :| 0 <= b < |q| && q[b] == y;
    assert if a < b then Earlier(q[a], q[b]) else Earlier(q[b], q[a]);
  }

  /** Two packets of one session that wait to arrive over the same link in the same direction. */
  predicate OneLink(r: Joint, x: Timed<E.Event>, y: Timed<E.Event>)
  {
    && x in r.engine.pending && y in r.engine.pending && x.id != y.id && EngineRuns.SameWay(x, y)
    && x.id in r.ledger && y.id in r.ledger && r.ledger[x.id].session == r.ledger[y.id].session < |r.sessions|
  }

  /** In their session's queue the one with the smaller identifier, which was sent first, comes first. */
  predicate ArriveAsSent(r: Joint, x: Timed<E.Event>, y: Timed<E.Event>)
    requires OneLink(r, x, y)
  {
    var w, a, b := r.sessions[r.ledger[x.id].session], Noted(x, r.ledger[x.id]), Noted(y, r.ledger[y.id]);
    a in w.pending && b in w.pending && (a.id < b.id <==> Earlier(a, b))
  }

  lemma TiedKeepsOrder(r: Joint, x: Timed<E.Event>, y: Timed<E.Event>)
    requires Tied(r) && EngineRuns.KeepsOrder(r.engine.pending) && OneLink(r, x, y)
    ensures ArriveAsSent(r, x, y)
  {
    var i := r.ledger[x.id].session;
    assert Linked(r, i);
    OnesOwn(r.engine.pending, r.ledger, i, x);
    OnesOwn(r.engine.pending, r.ledger, i, y);
    assert InStep(r.ledger, x, y) && InStep(r.ledger, y, x);
    assert !EngineRuns.Overtakes(y, x) && !EngineRuns.Overtakes(x, y);
    SortedApart(r.engine.pending, x, y);
  }

  /**
    Main result: of two packets of a session that are on one link in one direction, the one sent first arrives first.
   */
  lemma {:induction false} PacketsKeepOrder(ew: E.World, routes: seq<Route>, turns: seq<Turn>, x: Timed<E.Event>, y: Timed<E.Event>)
    requires E.Initial(ew) && OneLink(Run(Opening(ew, routes), turns), x, y)
    ensures ArriveAsSent(Run(Opening(ew, routes), turns), x, y)
  {
    var j := Opening(ew, routes);
    OpeningTied(ew, routes);
    OpeningRuns(ew, routes);
    RunSplits(j, turns);
    EngineRuns.RunsJoin(ew, OpeningInputs(ew, routes), Inputs(j, turns));
    EngineRuns.NothingOvertakes(ew, OpeningInputs(ew, routes) + Inputs(j, turns));
    TiedKeepsOrder(Run(j, turns), x, y);
  }
}
