/** What the membership protocol guarantees over whole runs. */
module MembershipTheorems {
  import opened Common
  import opened Validator
  import opened GroupStore
  import opened AgentState
  import opened Membership
  import opened MembershipSteps
  import opened MembershipOperations

  lemma CheckPasses(cfg: Cfg, s: Sys, g: Ideal)
    requires OpOk(cfg, s, g) && WellKept(cfg, s, g.view) && Enabled(cfg, s, Check)
    ensures FullyWired(s, g) && Next(cfg, s, Check) == DoInstall(cfg, s)
  {
    NeverInconsistent(cfg, s, g);
    assert s.phase.wired == g.view.Keys;
    assert s.phase.replies.Keys == g.view.Keys;
  }

  lemma CheckStep(cfg: Cfg, s: Sys, g: Ideal)
    requires Inv(cfg, s, g) && Enabled(cfg, s, Check)
    ensures Next(cfg, s, Check) == DoInstall(cfg, s)
    ensures Inv(cfg, DoInstall(cfg, s), g)
  {
    CheckPasses(cfg, s, g);
    InstallStep(cfg, s, g);
  }

  predicate Contacts(e: Step) {
    e.Subscribe? || e.AllReplied? || e.Wire? || e.Check?
  }

  lemma InvStepContact(cfg: Cfg, s: Sys, g: Ideal, e: Step)
    requires Inv(cfg, s, g) && Enabled(cfg, s, e) && Contacts(e)
    ensures Inv(cfg, Next(cfg, s, e), IdealNext(cfg, g, s, e))
  {
    match e
    case Subscribe(m) => SubscribeStep(cfg, s, g, m);
    case AllReplied => AllRepliedStep(cfg, s, g);
    case Wire(m) => WireStep(cfg, s, g, m);
    case Check => CheckStep(cfg, s, g);
  }

  predicate Connects(e: Step) {
    e.TailConnect? || e.TailAdd?
  }

  lemma InvStepTailConnect(cfg: Cfg, s: Sys, g: Ideal, e: Step)
    requires Inv(cfg, s, g) && Enabled(cfg, s, e) && e.TailConnect?
    ensures Inv(cfg, Next(cfg, s, e), IdealNext(cfg, g, s, e))
  {
    TailConnectStep(cfg, s, g, e.m);
  }

  lemma InvStepTailAdd(cfg: Cfg, s: Sys, g: Ideal, e: Step)
    requires Inv(cfg, s, g) && Enabled(cfg, s, e) && e.TailAdd?
    ensures Inv(cfg, Next(cfg, s, e), IdealNext(cfg, g, s, e))
  {
    TailAddStep(cfg, s, g, e.m);
  }

  predicate Greets(e: Step) {
    e.Establish? || e.HelloArrives? || e.AckArrives?
  }

  lemma InvStepGreet(cfg: Cfg, s: Sys, g: Ideal, e: Step)
    requires Inv(cfg, s, g) && Enabled(cfg, s, e) && Greets(e)
    ensures Inv(cfg, Next(cfg, s, e), IdealNext(cfg, g, s, e))
  {
    match e
    case Establish(sub, pub) => EstablishStep(cfg, s, g, sub, pub);
    case HelloArrives(m) => HelloStep(cfg, s, g, m);
    case AckArrives(m) => AckStep(cfg, s, g, m);
  }

  lemma InvStepStatus(cfg: Cfg, s: Sys, g: Ideal, e: Step)
    requires Inv(cfg, s, g) && Enabled(cfg, s, e) && (e.Announce? || e.Deliver?)
    ensures Inv(cfg, Next(cfg, s, e), IdealNext(cfg, g, s, e))
  {
    match e
    case Announce => AnnounceStep(cfg, s, g);
    case Deliver(m) => DeliverStep(cfg, s, g, m);
  }

  lemma InvStepStart(cfg: Cfg, s: Sys, g: Ideal, e: Step)
    requires Inv(cfg, s, g) && Enabled(cfg, s, e) && FreshAcks(s, e) && (e.Create? || e.JoinStart? || e.Leave?)
    ensures Inv(cfg, Next(cfg, s, e), IdealNext(cfg, g, s, e))
  {
    match e
    case Create(a, publisher, inv, params) => CreateStep(cfg, s, g, Record(cfg, a, publisher, inv), params);
    case JoinStart(a, acceptor, publisher, inv) => JoinStartStep(cfg, s, g, Record(cfg, a, publisher, inv), acceptor);
    case Leave(a) => LeaveStep(cfg, s, g, a);
  }

  /** Every step keeps the invariant, against the ideal group that moves with it. */
  lemma InvStep(cfg: Cfg, s: Sys, g: Ideal, e: Step)
    requires Inv(cfg, s, g) && Enabled(cfg, s, e) && FreshAcks(s, e)
    ensures Inv(cfg, Next(cfg, s, e), IdealNext(cfg, g, s, e))
  {
    if Contacts(e) {
      InvStepContact(cfg, s, g, e);
    } else if e.TailConnect? {
      InvStepTailConnect(cfg, s, g, e);
    } else if e.TailAdd? {
      InvStepTailAdd(cfg, s, g, e);
    } else if Greets(e) {
      InvStepGreet(cfg, s, g, e);
    } else if e.Announce? || e.Deliver? {
      InvStepStatus(cfg, s, g, e);
    } else {
      InvStepStart(cfg, s, g, e);
    }
  }

  lemma RunStep(cfg: Cfg, states: seq<Sys>, steps: seq<Step>, i: nat)
    requires Run(cfg, states, steps) && 0 < i <= |steps|
    ensures Enabled(cfg, states[i - 1], steps[i - 1]) && states[i] == Next(cfg, states[i - 1], steps[i - 1])
  {
    assert StepAt(cfg, states, steps, i - 1);
  }

  ghost predicate FreshRun(cfg: Cfg, states: seq<Sys>, steps: seq<Step>)
    requires Run(cfg, states, steps)
  {
    forall i :: 0 <= i < |steps| ==> FreshAcks(states[i], steps[i])
  }

  lemma InitInv(cfg: Cfg, s: Sys)
    requires Init(cfg, s)
    ensures Inv(cfg, s, NOBODY)
  {
    forall a | a in s.agents ensures Fine(cfg, s, NOBODY, a) {
      assert s.agents[a] == BLANK;
    }
  }

  lemma {:induction false} InvAlways(cfg: Cfg, states: seq<Sys>, steps: seq<Step>, i: nat)
    requires Run(cfg, states, steps) && FreshRun(cfg, states, steps) && i <= |steps|
    ensures Inv(cfg, states[i], IdealAt(cfg, states, steps, i))
  {
    if i == 0 {
      InitInv(cfg, states[0]);
    } else {
      InvAlways(cfg, states, steps, i - 1);
      RunStep(cfg, states, steps, i);
      InvStep(cfg, states[i - 1], IdealAt(cfg, states, steps, i - 1), steps[i - 1]);
    }
  }

  /** Convergence. However the messages of the operations were interleaved, once nothing is outstanding the
      agents hold exactly the ideal group: members the same label-to-member map, parameters and checksum,
      others nothing; and that map has every member under its own label, active, at its own endpoint. */
  lemma {:induction false} Convergence(cfg: Cfg, states: seq<Sys>, steps: seq<Step>, i: nat, a: string)
    requires Run(cfg, states, steps) && FreshRun(cfg, states, steps) && i <= |steps|
    requires Quiet(states[i]) && a in states[i].agents
    ensures var g := IdealAt(cfg, states, steps, i);
            && states[i].agents[a].group == (if a in g.view then GroupOf(cfg, g.view, g.params) else None)
            && WellKept(cfg, states[i], g.view)
  {
    InvAlways(cfg, states, steps, i);
    QuietAgent(cfg, states[i], IdealAt(cfg, states, steps, i), a);
  }

  /** No join is ever turned away by the consistency check, at any moment of any such run. */
  lemma JoinsNeverAbort(cfg: Cfg, states: seq<Sys>, steps: seq<Step>, i: nat)
    requires Run(cfg, states, steps) && FreshRun(cfg, states, steps) && i <= |steps|
    ensures !states[i].phase.Aborted?
    ensures i < |steps| && steps[i].Check? ==>
              && states[i].phase.Wiring? && ConsistentReplies(cfg, states[i].phase.op, states[i].phase.replies)
              && states[i + 1].phase.Greeting?
  {
    InvAlways(cfg, states, steps, i);
    if i < |steps| && steps[i].Check? {
      RunStep(cfg, states, steps, i + 1);
      CheckStep(cfg, states[i], IdealAt(cfg, states, steps, i));
      NeverInconsistent(cfg, states[i], IdealAt(cfg, states, steps, i));
    }
  }

  /** What a member should hold between operations. */
  lemma QuietExpect(cfg: Cfg, s: Sys, g: Ideal, a: string)
    requires Quiet(s) && a in g.view
    ensures !IsJoiner(s, a)
    ensures var x, others := MemberExpect(cfg, s, g, a), g.view.Keys - {a};
            && x.pubs == Publishers(g.view) - {a} && x.conns == others && x.known == others
            && x.exact == g.view[a].publisher
  {}

  lemma {:induction false} QuietFilters(cfg: Cfg, s: Sys, g: Ideal, a: string)
    requires AgentsOk(cfg, s, g) && Quiet(s) && a in s.agents
    ensures s.agents[a].filters ==
              if a in g.view then Bag(cfg.b, g.params.mode, Publishers(g.view) - {a}, a) else multiset{}
  {
    assert Fine(cfg, s, g, a);
    if a in g.view {
      QuietExpect(cfg, s, g, a);
      MemberFits(cfg, s, g, a);
    }
  }

  /** Data subscriptions are conserved: between operations an agent has one data filter per other publisher
      of its view, and none when it is in no group. */
  lemma {:induction false} FilterConservation(cfg: Cfg, states: seq<Sys>, steps: seq<Step>, i: nat, a: string)
    requires Run(cfg, states, steps) && FreshRun(cfg, states, steps) && i <= |steps|
    requires Quiet(states[i]) && a in states[i].agents
    ensures var g := IdealAt(cfg, states, steps, i);
            states[i].agents[a].filters ==
              if a in g.view then Bag(cfg.b, g.params.mode, Publishers(g.view) - {a}, a) else multiset{}
  {
    InvAlways(cfg, states, steps, i);
    QuietFilters(cfg, states[i], IdealAt(cfg, states, steps, i), a);
  }

  // ---- connections ----

  lemma MemberConns(cfg: Cfg, s: Sys, g: Ideal, x: string, y: string)
    requires Context(cfg, s, g) && x in g.view && !IsJoiner(s, x)
    ensures ShouldConn(s, g, x, y) <==> y in MemberExpect(cfg, s, g, x).conns
  {}

  lemma ConnsAreAgents(cfg: Cfg, s: Sys, g: Ideal, x: string, y: string)
    requires Context(cfg, s, g) && ShouldConn(s, g, x, y)
    ensures y in s.agents
  {}

  lemma OutsiderConns(cfg: Cfg, s: Sys, g: Ideal, x: string, y: string)
    requires Context(cfg, s, g) && x !in g.view
    ensures ShouldConn(s, g, x, y) <==> IsJoiner(s, x) && y in JoinerExpect(cfg, s, g).conns
  {}

  /** The socket connections of the protocol are the ones the agents' state calls for. */
  lemma ConnsExpected(cfg: Cfg, s: Sys, g: Ideal, x: string, y: string)
    requires Context(cfg, s, g)
    ensures ShouldConn(s, g, x, y) <==> y in Expected(cfg, s, g, x).conns
    ensures ShouldConn(s, g, x, y) ==> y in s.agents
  {
    if x in g.view {
      assert !IsJoiner(s, x);
      MemberConns(cfg, s, g, x, y);
    } else {
      OutsiderConns(cfg, s, g, x, y);
    }
    if ShouldConn(s, g, x, y) {
      ConnsAreAgents(cfg, s, g, x, y);
    }
  }

  /** At every moment the endpoints an agent's state socket is connected to are exactly those of its
      connections, dialled or established. */
  lemma ConnectionsHeld(cfg: Cfg, states: seq<Sys>, steps: seq<Step>, i: nat, a: string)
    requires Run(cfg, states, steps) && FreshRun(cfg, states, steps) && i <= |steps| && a in states[i].agents
    ensures states[i].agents[a].stateEnds == set y | y in states[i].agents && Conn(states[i], a, y) :: cfg.endpoint(y)
  {
    InvAlways(cfg, states, steps, i);
    HeldConnections(cfg, states[i], IdealAt(cfg, states, steps, i), a);
  }

  /** At every moment an agent whose state socket is connected to anybody is subscribed to the group's status
      topic, and its data socket is connected only to publishers it has been authenticated for. */
  lemma ConnectedAgentsListen(cfg: Cfg, states: seq<Sys>, steps: seq<Step>, i: nat, a: string)
    requires Run(cfg, states, steps) && FreshRun(cfg, states, steps) && i <= |steps| && a in states[i].agents
    ensures states[i].agents[a].stateEnds != {} ==> states[i].agents[a].stateSubs > 0
    ensures forall p :: p in states[i].agents && cfg.endpoint(p) in states[i].agents[a].dataEnds ==>
              p in states[i].agents[a].authed
  {
    var s, g := states[i], IdealAt(cfg, states, steps, i);
    InvAlways(cfg, states, steps, i);
    assert Fine(cfg, s, g, a);
    forall p | p in s.agents && cfg.endpoint(p) in s.agents[a].dataEnds ensures p in s.agents[a].authed {
      PublisherAuthenticated(cfg, s, g, a, p);
    }
  }

  lemma PubsAmongConns(cfg: Cfg, s: Sys, g: Ideal, a: string)
    requires StatusOk(s, g)
    ensures Expected(cfg, s, g, a).pubs <= Expected(cfg, s, g, a).conns
  {}

  lemma PublisherAuthenticated(cfg: Cfg, s: Sys, g: Ideal, a: string, p: string)
    requires Context(cfg, s, g) && a in s.agents && Fine(cfg, s, g, a)
    requires p in s.agents && cfg.endpoint(p) in s.agents[a].dataEnds
    ensures p in s.agents[a].authed
  {
    var x := Expected(cfg, s, g, a);
    var q :| q in x.pubs && cfg.endpoint(q) == cfg.endpoint(p);
    PubsAmongConns(cfg, s, g, a);
    ConnsExpected(cfg, s, g, a, q);
  }

  lemma HeldConnections(cfg: Cfg, s: Sys, g: Ideal, a: string)
    requires Inv(cfg, s, g) && a in s.agents
    ensures s.agents[a].stateEnds == set y | y in s.agents && Conn(s, a, y) :: cfg.endpoint(y)
  {
    assert Fine(cfg, s, g, a);
    var conns := set y | y in s.agents && Conn(s, a, y);
    forall y ensures y in conns <==> y in Expected(cfg, s, g, a).conns {
      ConnsExpected(cfg, s, g, a, y);
    }
    assert conns == Expected(cfg, s, g, a).conns;
    assert Ends(cfg, conns) == set y | y in s.agents && Conn(s, a, y) :: cfg.endpoint(y);
  }

  /** Connections are conserved like filters: between operations every member's SUB socket is established
      with exactly the other members, its state socket is connected to their endpoints and its data socket
      to those of the publishers; outside the group nothing is connected. */
  lemma {:induction false} ConnectionConservation(cfg: Cfg, states: seq<Sys>, steps: seq<Step>, i: nat, a: string)
    requires Run(cfg, states, steps) && FreshRun(cfg, states, steps) && i <= |steps|
    requires Quiet(states[i]) && a in states[i].agents
    ensures var s, view := states[i], IdealAt(cfg, states, steps, i).view;
            && (forall y :: (a, y) in s.links <==> a in view && y in view && a != y)
            && s.agents[a].stateEnds == (if a in view then Ends(cfg, view.Keys - {a}) else {})
            && s.agents[a].dataEnds == (if a in view then Ends(cfg, Publishers(view) - {a}) else {})
  {
    InvAlways(cfg, states, steps, i);
    QuietConnections(cfg, states[i], IdealAt(cfg, states, steps, i), a);
  }

  lemma QuietConnections(cfg: Cfg, s: Sys, g: Ideal, a: string)
    requires ConnsOk(s, g) && AgentsOk(cfg, s, g) && Quiet(s) && a in s.agents
    ensures forall y :: (a, y) in s.links <==> a in g.view && y in g.view && a != y
    ensures s.agents[a].stateEnds == (if a in g.view then Ends(cfg, g.view.Keys - {a}) else {})
    ensures s.agents[a].dataEnds == (if a in g.view then Ends(cfg, Publishers(g.view) - {a}) else {})
  {
    assert Fine(cfg, s, g, a);
    forall y ensures (a, y) in s.links <==> a in g.view && y in g.view && a != y {
      assert Conn(s, a, y) <==> ShouldConn(s, g, a, y);
    }
    if a in g.view {
      QuietExpect(cfg, s, g, a);
      MemberFits(cfg, s, g, a);
    }
  }

  /** Connected to none but the named agents, an agent is not connected to another one's endpoint. */
  lemma NotAmongEnds(cfg: Cfg, s: Sys, names: set<string>, n: string)
    requires DistinctEndpoints(cfg, s) && names <= s.agents.Keys && n in s.agents && n !in names
    ensures cfg.endpoint(n) !in Ends(cfg, names)
  {}

  lemma WireIsNew(cfg: Cfg, s: Sys, g: Ideal, m: string)
    requires s.phase.Wiring? && m in s.phase.op.snapshot && m !in s.phase.wired && s.phase.op.me.name in s.agents
    requires Inv(cfg, s, g)
    ensures var l, end := s.agents[s.phase.op.me.name], s.phase.op.snapshot[m].pubEndpoint;
            end !in l.stateEnds && end !in l.dataEnds
  {
    var x := JoinerExpect(cfg, s, g);
    assert Fine(cfg, s, g, s.phase.op.me.name);
    JoinerFits(cfg, s, g);
    NotAmongEnds(cfg, s, x.conns, m);
    NotAmongEnds(cfg, s, x.pubs, m);
  }

  lemma TailConnectIsNew(cfg: Cfg, s: Sys, g: Ideal, m: string)
    requires m in s.tails && !s.tails[m].connected && m in s.agents && Inv(cfg, s, g)
    ensures var l, end := s.agents[m], s.tails[m].sub.pubEndpoint; end !in l.stateEnds && end !in l.dataEnds
  {
    var x, j := MemberExpect(cfg, s, g, m), s.tails[m].sub.name;
    assert Fine(cfg, s, g, m);
    assert m in g.view && !IsJoiner(s, m) && j == s.phase.op.me.name;
    MemberFits(cfg, s, g, m);
    assert x.pubs <= x.conns <= g.view.Keys;
    NotAmongEnds(cfg, s, x.conns, j);
    NotAmongEnds(cfg, s, x.pubs, j);
  }

  /** No socket is ever connected twice to one endpoint. */
  lemma ConnectsAreNew(cfg: Cfg, states: seq<Sys>, steps: seq<Step>, i: nat)
    requires Run(cfg, states, steps) && FreshRun(cfg, states, steps) && i < |steps|
    ensures Enabled(cfg, states[i], steps[i])
    ensures steps[i].Wire? ==>
              var l, peer := states[i].agents[states[i].phase.op.me.name], states[i].phase.op.snapshot[steps[i].m];
              peer.pubEndpoint !in l.stateEnds && peer.pubEndpoint !in l.dataEnds
    ensures steps[i].TailConnect? ==>
              var l, peer := states[i].agents[steps[i].m], states[i].tails[steps[i].m].sub;
              peer.pubEndpoint !in l.stateEnds && peer.pubEndpoint !in l.dataEnds
  {
    InvAlways(cfg, states, steps, i);
    RunStep(cfg, states, steps, i + 1);
    if steps[i].Wire? {
      WireIsNew(cfg, states[i], IdealAt(cfg, states, steps, i), steps[i].m);
    } else if steps[i].TailConnect? {
      TailConnectIsNew(cfg, states[i], IdealAt(cfg, states, steps, i), steps[i].m);
    }
  }

  lemma FarewellWasConnected(cfg: Cfg, s: Sys, g: Ideal, m: string)
    requires m in s.status && m in s.agents && !s.status[m].active && Inv(cfg, s, g)
    ensures var l, r := s.agents[m], s.status[m];
            r.pubEndpoint in l.stateEnds && (r.publisher ==> r.pubEndpoint in l.dataEnds)
  {
    var x, r := MemberExpect(cfg, s, g, m), s.status[m];
    assert Fine(cfg, s, g, m);
    StatusPending(cfg, s, g, m);
    MemberFits(cfg, s, g, m);
    assert r.name in x.conns && (r.publisher ==> r.name in x.pubs);
  }

  /** No socket is ever disconnected from an endpoint it is not connected to. */
  lemma DisconnectsArePresent(cfg: Cfg, states: seq<Sys>, steps: seq<Step>, i: nat)
    requires Run(cfg, states, steps) && FreshRun(cfg, states, steps) && i < |steps|
    ensures Enabled(cfg, states[i], steps[i])
    ensures steps[i].Deliver? && !states[i].status[steps[i].m].active ==>
              var l, r := states[i].agents[steps[i].m], states[i].status[steps[i].m];
              r.pubEndpoint in l.stateEnds && (r.publisher ==> r.pubEndpoint in l.dataEnds)
    ensures steps[i].Leave? ==>
              var l := states[i].agents[steps[i].a];
              && Others(MembersOf(l), steps[i].a) <= l.stateEnds
              && Others(PublishersOf(MembersOf(l)), steps[i].a) <= l.dataEnds
  {
    var s, g, e := states[i], IdealAt(cfg, states, steps, i), steps[i];
    InvAlways(cfg, states, steps, i);
    RunStep(cfg, states, steps, i + 1);
    if e.Deliver? && !s.status[e.m].active {
      FarewellWasConnected(cfg, s, g, e.m);
    } else if e.Leave? {
      LeaverWasConnected(cfg, s, g, e.a);
    }
  }

  lemma LeaverWasConnected(cfg: Cfg, s: Sys, g: Ideal, a: string)
    requires Quiet(s) && a in s.agents && MembersOf(s.agents[a]) != map[] && Inv(cfg, s, g)
    ensures Others(MembersOf(s.agents[a]), a) == s.agents[a].stateEnds
    ensures Others(PublishersOf(MembersOf(s.agents[a])), a) == s.agents[a].dataEnds
  {
    QuietAgent(cfg, s, g, a);
    QuietConnections(cfg, s, g, a);
    ListedEnds(cfg, s, g.view, a);
  }

  // ---- subscribers ----

  /** A store that fits exactly is determined by whose keys it should hold. */
  lemma KnownStore(cfg: Cfg, a: string, mode: string, l: Local, x: Expect)
    requires Fits(cfg, a, mode, l, x) && x.exact
    ensures l.subs == map k | k in x.known :: cfg.key(k, a)
  {}

  lemma QuietSubscribers(cfg: Cfg, s: Sys, g: Ideal, a: string)
    requires AgentsOk(cfg, s, g) && Quiet(s) && a in s.agents
    ensures a in g.view && g.view[a].publisher ==> s.agents[a].subs == map x | x in g.view.Keys - {a} :: cfg.key(x, a)
    ensures a !in g.view ==> s.agents[a].subs == map[]
  {
    assert Fine(cfg, s, g, a);
    if a in g.view {
      QuietExpect(cfg, s, g, a);
      MemberFits(cfg, s, g, a);
      if g.view[a].publisher {
        KnownStore(cfg, a, g.params.mode, s.agents[a], MemberExpect(cfg, s, g, a));
      }
    }
  }

  /** A publisher's subscriber store is exactly the other members, each with its key towards this publisher. */
  lemma {:induction false} SubscribersComplete(cfg: Cfg, states: seq<Sys>, steps: seq<Step>, i: nat, a: string)
    requires Run(cfg, states, steps) && FreshRun(cfg, states, steps) && i <= |steps|
    requires Quiet(states[i]) && a in states[i].agents
    ensures var g := IdealAt(cfg, states, steps, i);
            && (a in g.view && g.view[a].publisher ==>
                  states[i].agents[a].subs == map x | x in g.view.Keys - {a} :: cfg.key(x, a))
            && (a !in g.view ==> states[i].agents[a].subs == map[])
  {
    InvAlways(cfg, states, steps, i);
    QuietSubscribers(cfg, states[i], IdealAt(cfg, states, steps, i), a);
  }

  // ---- hello ----

  /** Acks the joiner holds beyond those it started with come from members that have heard its hello. */
  ghost predicate AcksExplained(cfg: Cfg, s: Sys) {
    Joining(s) && s.phase.op.me.name in s.agents ==>
      && (s.phase.Greeting? ==> s.phase.ackFlight <= s.phase.heard)
      && forall ep :: ep in s.agents[s.phase.op.me.name].acks && ep !in s.phase.op.acks0 ==>
           s.phase.Greeting? && exists n :: n in s.phase.heard && cfg.endpoint(n) == ep
  }

  lemma AcksExplainedStep(cfg: Cfg, s: Sys, e: Step)
    requires AcksExplained(cfg, s) && Enabled(cfg, s, e)
    ensures AcksExplained(cfg, Next(cfg, s, e))
  {
    var s' := Next(cfg, s, e);
    if e.HelloArrives? && s.phase.op.me.name in s.agents {
      forall ep | ep in s.agents[s.phase.op.me.name].acks && ep !in s.phase.op.acks0
        ensures exists n :: n in s'.phase.heard && cfg.endpoint(n) == ep {
        var n :| n in s.phase.heard && cfg.endpoint(n) == ep;
        assert n in s'.phase.heard;
      }
    } else if e.AckArrives? {
      assert e.m in s'.phase.heard;
    }
  }

  lemma {:induction false} AcksAlwaysExplained(cfg: Cfg, states: seq<Sys>, steps: seq<Step>, i: nat)
    requires Run(cfg, states, steps) && i <= |steps|
    ensures AcksExplained(cfg, states[i])
  {
    if i > 0 {
      AcksAlwaysExplained(cfg, states, steps, i - 1);
      RunStep(cfg, states, steps, i);
      AcksExplainedStep(cfg, states[i - 1], steps[i - 1]);
    }
  }

  /** From state lo to state hi one and the same join is under way. */
  ghost predicate Throughout(states: seq<Sys>, lo: nat, hi: nat, op: Join)
    requires hi < |states|
  {
    forall k :: lo <= k <= hi ==> Joining(states[k]) && states[k].phase.op == op
  }

  lemma OneLonger(states: seq<Sys>, lo: nat, hi: nat, op: Join)
    requires 0 < hi < |states| && Throughout(states, lo, hi - 1, op) && Joining(states[hi]) && states[hi].phase.op == op
    ensures Throughout(states, lo, hi, op)
  {}

  /** The step by which an agent enters a group under this record: active, under its own label, with the flag
      and invitation it chose, at its own endpoint. */
  ghost predicate Declares(cfg: Cfg, e: Step, r: Member) {
    match e
    case Create(a, publisher, inv, _) => r == Member(true, publisher, a, inv, cfg.endpoint(a))
    case JoinStart(a, _, publisher, inv) => r == Member(true, publisher, a, inv, cfg.endpoint(a))
    case _ => false
  }

  lemma JoiningStep(cfg: Cfg, s: Sys, e: Step)
    requires Enabled(cfg, s, e) && Joining(Next(cfg, s, e))
    ensures if e.JoinStart? then s.phase.Idle? && Declares(cfg, e, Next(cfg, s, e).phase.op.me)
            else Joining(s) && s.phase.op == Next(cfg, s, e).phase.op
  {}

  /** A join under way was started by its joiner, and has been under way ever since. */
  lemma {:induction false} JoinBegan(cfg: Cfg, states: seq<Sys>, steps: seq<Step>, i: nat) returns (b: nat)
    requires Run(cfg, states, steps) && i <= |steps| && Joining(states[i])
    ensures b < i && steps[b].JoinStart? && Declares(cfg, steps[b], states[i].phase.op.me) && states[b].phase.Idle?
    ensures Throughout(states, b + 1, i, states[i].phase.op)
  {
    RunStep(cfg, states, steps, i);
    JoiningStep(cfg, states[i - 1], steps[i - 1]);
    if steps[i - 1].JoinStart? {
      b := i - 1;
    } else {
      b := JoinBegan(cfg, states, steps, i - 1);
    }
  }

  ghost predicate NoLeave(steps: seq<Step>, lo: nat, hi: nat, m: string) {
    forall l :: lo <= l < hi <= |steps| ==> steps[l] != Leave(m)
  }

  lemma NobodyLeavesMeanwhile(cfg: Cfg, states: seq<Sys>, steps: seq<Step>, lo: nat, hi: nat, op: Join, m: string)
    requires Run(cfg, states, steps) && lo < hi <= |steps| && Throughout(states, lo + 1, hi, op) && steps[lo].JoinStart?
    ensures NoLeave(steps, lo, hi, m)
  {
    forall l | lo <= l < hi ensures steps[l] != Leave(m) {
      if l > lo {
        RunStep(cfg, states, steps, l + 1);
        assert Joining(states[l]);
      }
    }
  }

  /** The group lists every member under the record it declared when it last entered: in every run, each record
      of the ideal group was declared by that member's own Create or Join, and the member has not left since. */
  lemma {:induction false} RecordsAsDeclared(cfg: Cfg, states: seq<Sys>, steps: seq<Step>, i: nat, m: string)
    returns (k: nat)
    requires Run(cfg, states, steps) && i <= |steps| && m in IdealAt(cfg, states, steps, i).view
    ensures k < i && Declares(cfg, steps[k], IdealAt(cfg, states, steps, i).view[m]) && NoLeave(steps, k, i, m)
    ensures IdealAt(cfg, states, steps, i).view[m].name == m
  {
    RunStep(cfg, states, steps, i);
    var s, e := states[i - 1], steps[i - 1];
    if e.Create? {
      k := i - 1;
    } else if e.Announce? && m == s.phase.op.me.name {
      k := JoinBegan(cfg, states, steps, i - 1);
      NobodyLeavesMeanwhile(cfg, states, steps, k, i - 1, s.phase.op, m);
    } else {
      k := RecordsAsDeclared(cfg, states, steps, i - 1, m);
    }
  }

  /** Step h of the run brings op's joiner's hello to n, over an established connection. */
  ghost predicate HelloDelivered(states: seq<Sys>, steps: seq<Step>, h: nat, n: string, op: Join)
    requires h < |steps| < |states|
  {
    && steps[h] == HelloArrives(n) && states[h].phase.Greeting? && states[h].phase.op == op
    && (n, op.me.name) in states[h].links
  }

  lemma HeardStep(cfg: Cfg, s: Sys, e: Step, n: string)
    requires Enabled(cfg, s, e)
    requires Next(cfg, s, e).phase.Greeting? && n in Next(cfg, s, e).phase.heard
    ensures s.phase.Greeting? && s.phase.op == Next(cfg, s, e).phase.op
    ensures n in s.phase.heard || (e == HelloArrives(n) && (n, s.phase.op.me.name) in s.links)
  {}

  lemma HeardBack(cfg: Cfg, states: seq<Sys>, steps: seq<Step>, i: nat, n: string)
    requires Run(cfg, states, steps) && i <= |steps| && states[i].phase.Greeting? && n in states[i].phase.heard
    ensures i > 0 && states[i - 1].phase.Greeting? && states[i - 1].phase.op == states[i].phase.op
    ensures n in states[i - 1].phase.heard || HelloDelivered(states, steps, i - 1, n, states[i].phase.op)
  {
    RunStep(cfg, states, steps, i);
    HeardStep(cfg, states[i - 1], steps[i - 1], n);
  }

  lemma {:induction false} HeardWasDelivered(cfg: Cfg, states: seq<Sys>, steps: seq<Step>, i: nat, n: string)
    returns (h: nat)
    requires Run(cfg, states, steps) && i <= |steps| && states[i].phase.Greeting? && n in states[i].phase.heard
    ensures h < i && HelloDelivered(states, steps, h, n, states[i].phase.op)
    ensures Throughout(states, h, i, states[i].phase.op)
  {
    HeardBack(cfg, states, steps, i, n);
    if n in states[i - 1].phase.heard {
      h := HeardWasDelivered(cfg, states, steps, i - 1, n);
    } else {
      h := i - 1;
    }
    OneLonger(states, h, i, states[i].phase.op);
  }

  /** Step k of the run stores n's ack for op's joiner. */
  ghost predicate AckStored(states: seq<Sys>, steps: seq<Step>, k: nat, n: string, op: Join)
    requires k < |steps| < |states|
  {
    steps[k] == AckArrives(n) && states[k].phase.Greeting? && states[k].phase.op == op && n in states[k].phase.ackFlight
  }

  /** The joiner of op holds an ack it did not start with. */
  ghost predicate NewAck(s: Sys, ep: string, op: Join) {
    && Joining(s) && s.phase.op == op && op.me.name in s.agents
    && ep in s.agents[op.me.name].acks && ep !in op.acks0
  }

  lemma NewAckStep(cfg: Cfg, s: Sys, e: Step, ep: string, op: Join)
    requires Enabled(cfg, s, e) && NewAck(Next(cfg, s, e), ep, op)
    ensures Joining(s) && s.phase.op == op
    ensures NewAck(s, ep, op) ||
            (e.AckArrives? && s.phase.Greeting? && e.m in s.phase.ackFlight && cfg.endpoint(e.m) == ep)
  {}

  lemma NoNewAckAtFirst(cfg: Cfg, s: Sys, ep: string, op: Join)
    requires Init(cfg, s)
    ensures !NewAck(s, ep, op)
  {}

  lemma NewAckBack(cfg: Cfg, states: seq<Sys>, steps: seq<Step>, i: nat, ep: string, op: Join)
    requires Run(cfg, states, steps) && i <= |steps| && NewAck(states[i], ep, op)
    ensures i > 0 && Joining(states[i - 1]) && states[i - 1].phase.op == op
    ensures || NewAck(states[i - 1], ep, op)
            || (steps[i - 1].AckArrives? && AckStored(states, steps, i - 1, steps[i - 1].m, op) &&
                cfg.endpoint(steps[i - 1].m) == ep)
  {
    if i == 0 {
      NoNewAckAtFirst(cfg, states[0], ep, op);
    } else {
      RunStep(cfg, states, steps, i);
      NewAckStep(cfg, states[i - 1], steps[i - 1], ep, op);
    }
  }

  lemma {:induction false} AckWasStored(cfg: Cfg, states: seq<Sys>, steps: seq<Step>, i: nat, ep: string, op: Join)
    returns (k: nat, n: string)
    requires Run(cfg, states, steps) && i <= |steps| && NewAck(states[i], ep, op)
    ensures k < i && AckStored(states, steps, k, n, op) && cfg.endpoint(n) == ep && Throughout(states, k, i, op)
  {
    NewAckBack(cfg, states, steps, i, ep, op);
    if NewAck(states[i - 1], ep, op) {
      k, n := AckWasStored(cfg, states, steps, i - 1, ep, op);
    } else {
      k, n := i - 1, steps[i - 1].m;
    }
    OneLonger(states, k, i, op);
  }

  /** In this join, which step b started: n was reached by the joiner's hello, and its ack stored, in that
      order, before step i. */
  ghost predicate Greeted(states: seq<Sys>, steps: seq<Step>, i: nat, n: string, op: Join, b: nat, h: nat, k: nat)
    requires i <= |steps| < |states|
  {
    && b < h < k < i && steps[b].JoinStart? && steps[b].a == op.me.name && Throughout(states, b + 1, i, op)
    && HelloDelivered(states, steps, h, n, op) && AckStored(states, steps, k, n, op)
  }

  /** The ack that a joiner got during this join came after its hello. */
  lemma GreetedInOrder(cfg: Cfg, states: seq<Sys>, steps: seq<Step>, i: nat, ep: string, op: Join)
    returns (n: string, b: nat, h: nat, k: nat)
    requires Run(cfg, states, steps) && i <= |steps| && NewAck(states[i], ep, op)
    ensures cfg.endpoint(n) == ep && Greeted(states, steps, i, n, op, b, h, k)
  {
    b := JoinBegan(cfg, states, steps, i);
    k, n := AckWasStored(cfg, states, steps, i, ep, op);
    AcksAlwaysExplained(cfg, states, steps, k);
    JoinerPresent(cfg, states, steps, k);
    h := HeardWasDelivered(cfg, states, steps, k, n);
    assert !Joining(states[b]);
  }

  /** In every run, stale acks or not: when a joiner announces itself, each member it was told about has its
      publish endpoint acked, either left over from before this join began, or during this join by an agent
      at that endpoint, after a hello from this joiner had reached it over an established connection. */
  lemma HelloSafety(cfg: Cfg, states: seq<Sys>, steps: seq<Step>, i: nat, m: string)
    requires Run(cfg, states, steps) && i < |steps| && steps[i].Announce?
    requires states[i].phase.Greeting? && m in states[i].phase.op.snapshot
    ensures var op := states[i].phase.op;
            op.snapshot[m].pubEndpoint in op.acks0 ||
            exists n, b, h, k ::
              cfg.endpoint(n) == op.snapshot[m].pubEndpoint && Greeted(states, steps, i, n, op, b, h, k)
  {
    RunStep(cfg, states, steps, i + 1);
    var op := states[i].phase.op;
    var ep := op.snapshot[m].pubEndpoint;
    if ep !in op.acks0 {
      var n, b, h, k := GreetedInOrder(cfg, states, steps, i, ep, op);
    }
  }

  lemma {:induction false} JoinerPresent(cfg: Cfg, states: seq<Sys>, steps: seq<Step>, i: nat)
    requires Run(cfg, states, steps) && i <= |steps| && Joining(states[i])
    ensures states[i].phase.op.me.name in states[i].agents
  {
    RunStep(cfg, states, steps, i);
    JoiningStep(cfg, states[i - 1], steps[i - 1]);
    AgentsStay(cfg, states[i - 1], steps[i - 1]);
    if !steps[i - 1].JoinStart? {
      JoinerPresent(cfg, states, steps, i - 1);
    }
  }

  // ---- ordering ----

  ghost predicate OrderOk(s: Sys, g: Ideal) {
    forall a :: a in s.agents && (a in g.view || IsJoiner(s, a)) ==>
      (s.agents[a].ordered <==> g.params.orderEnabled || a in s.stale)
  }

  lemma OrderedKeptByContacts(cfg: Cfg, s: Sys, e: Step, a: string)
    requires Enabled(cfg, s, e) && Contacts(e) && a in s.agents
    ensures a in Next(cfg, s, e).agents && Next(cfg, s, e).agents[a].ordered == s.agents[a].ordered
    ensures Next(cfg, s, e).stale == s.stale
  {}

  lemma OrderedKeptByConnects(cfg: Cfg, s: Sys, e: Step, a: string)
    requires Enabled(cfg, s, e) && (Connects(e) || e.Deliver?) && a in s.agents
    ensures a in Next(cfg, s, e).agents && Next(cfg, s, e).agents[a].ordered == s.agents[a].ordered
    ensures Next(cfg, s, e).stale == s.stale
  {}

  lemma OrderedKeptByRest(cfg: Cfg, s: Sys, e: Step, a: string)
    requires Enabled(cfg, s, e) && (Greets(e) || e.Announce? || e.Leave?) && a in s.agents
    ensures a in Next(cfg, s, e).agents && Next(cfg, s, e).agents[a].ordered == s.agents[a].ordered
    ensures Next(cfg, s, e).stale == s.stale
  {}

  /** Handlers other than Create and Join never touch the syncer's topic. */
  lemma OrderedKept(cfg: Cfg, s: Sys, e: Step, a: string)
    requires Enabled(cfg, s, e) && !e.Create? && !e.JoinStart? && a in s.agents
    ensures a in Next(cfg, s, e).agents && Next(cfg, s, e).agents[a].ordered == s.agents[a].ordered
    ensures Next(cfg, s, e).stale == s.stale
  {
    if Contacts(e) {
      OrderedKeptByContacts(cfg, s, e, a);
    } else if Connects(e) || e.Deliver? {
      OrderedKeptByConnects(cfg, s, e, a);
    } else {
      OrderedKeptByRest(cfg, s, e, a);
    }
  }

  lemma OrderCreate(cfg: Cfg, s: Sys, g: Ideal, me: Member, params: Params)
    requires OrderOk(s, g) && Quiet(s) && g.view == map[] && me.name in s.agents
    ensures var v := map[me.name := me]; OrderOk(DoCreate(cfg, s, me, params), Ideal(v, v, params))
  {}

  lemma OrderJoinStart(s: Sys, g: Ideal, me: Member, acceptor: string)
    requires OrderOk(s, g) && Quiet(s) && me.name in s.agents && me.name !in g.view
    ensures OrderOk(DoJoinStart(s, me, acceptor, g.params, g.view), g)
  {}

  lemma SameCompany(cfg: Cfg, s: Sys, g: Ideal, e: Step, a: string)
    requires Enabled(cfg, s, e) && !e.Create? && !e.JoinStart?
    requires a in IdealNext(cfg, g, s, e).view || IsJoiner(Next(cfg, s, e), a)
    ensures a in g.view || IsJoiner(s, a)
    ensures IdealNext(cfg, g, s, e).params == g.params
  {}

  lemma OrderCreateStep(cfg: Cfg, s: Sys, g: Ideal, e: Step)
    requires Inv(cfg, s, g) && OrderOk(s, g) && Enabled(cfg, s, e) && e.Create?
    ensures OrderOk(Next(cfg, s, e), IdealNext(cfg, g, s, e))
  {
    NobodyLeft(cfg, s, g);
    OrderCreate(cfg, s, g, Record(cfg, e.a, e.publisher, e.inv), e.params);
  }

  lemma OrderJoinStep(cfg: Cfg, s: Sys, g: Ideal, e: Step)
    requires Inv(cfg, s, g) && OrderOk(s, g) && Enabled(cfg, s, e) && FreshAcks(s, e) && e.JoinStart?
    ensures OrderOk(Next(cfg, s, e), IdealNext(cfg, g, s, e))
  {
    JoinStartStep(cfg, s, g, Record(cfg, e.a, e.publisher, e.inv), e.acceptor);
    QuietAgent(cfg, s, g, e.a);
    OrderJoinStart(s, g, Record(cfg, e.a, e.publisher, e.inv), e.acceptor);
  }

  lemma OrderStep(cfg: Cfg, s: Sys, g: Ideal, e: Step)
    requires Inv(cfg, s, g) && OrderOk(s, g) && Enabled(cfg, s, e) && FreshAcks(s, e)
    ensures OrderOk(Next(cfg, s, e), IdealNext(cfg, g, s, e))
  {
    if e.Create? {
      OrderCreateStep(cfg, s, g, e);
    } else if e.JoinStart? {
      OrderJoinStep(cfg, s, g, e);
    } else {
      ParamsKept(cfg, s, g, e);
      OrderOther(cfg, s, g, e);
    }
  }

  lemma ParamsKept(cfg: Cfg, s: Sys, g: Ideal, e: Step)
    requires !e.Create?
    ensures IdealNext(cfg, g, s, e).params == g.params
  {}

  lemma OrderOther(cfg: Cfg, s: Sys, g: Ideal, e: Step)
    requires OrderOk(s, g) && Enabled(cfg, s, e) && !e.Create? && !e.JoinStart?
    requires IdealNext(cfg, g, s, e).params == g.params
    ensures OrderOk(Next(cfg, s, e), IdealNext(cfg, g, s, e))
  {
    var s', g' := Next(cfg, s, e), IdealNext(cfg, g, s, e);
    forall a | a in s'.agents && (a in g'.view || IsJoiner(s', a))
      ensures s'.agents[a].ordered <==> g'.params.orderEnabled || a in s'.stale {
      SameCompany(cfg, s, g, e, a);
      AgentsStay(cfg, s, e);
      OrderedKept(cfg, s, e, a);
    }
  }

  lemma AgentsStay(cfg: Cfg, s: Sys, e: Step)
    requires Enabled(cfg, s, e)
    ensures Next(cfg, s, e).agents.Keys == s.agents.Keys
  {}

  ghost predicate InvOrder(cfg: Cfg, s: Sys, g: Ideal) {
    Inv(cfg, s, g) && OrderOk(s, g)
  }

  lemma InvOrderInit(cfg: Cfg, s: Sys)
    requires Init(cfg, s)
    ensures InvOrder(cfg, s, NOBODY)
  {
    InitInv(cfg, s);
  }

  lemma InvOrderStep(cfg: Cfg, s: Sys, g: Ideal, e: Step)
    requires InvOrder(cfg, s, g) && Enabled(cfg, s, e) && FreshAcks(s, e)
    ensures InvOrder(cfg, Next(cfg, s, e), IdealNext(cfg, g, s, e))
  {
    InvStep(cfg, s, g, e);
    OrderStep(cfg, s, g, e);
  }

  lemma InvOrderNext(cfg: Cfg, states: seq<Sys>, steps: seq<Step>, i: nat, g: Ideal)
    requires Run(cfg, states, steps) && FreshRun(cfg, states, steps) && 0 < i <= |steps|
    requires InvOrder(cfg, states[i - 1], g)
    ensures InvOrder(cfg, states[i], IdealNext(cfg, g, states[i - 1], steps[i - 1]))
  {
    RunStep(cfg, states, steps, i);
    assert FreshAcks(states[i - 1], steps[i - 1]);
    InvOrderStep(cfg, states[i - 1], g, steps[i - 1]);
  }

  lemma {:induction false} OrderAlways(cfg: Cfg, states: seq<Sys>, steps: seq<Step>, i: nat)
    requires Run(cfg, states, steps) && FreshRun(cfg, states, steps) && i <= |steps|
    ensures InvOrder(cfg, states[i], IdealAt(cfg, states, steps, i))
  {
    if i == 0 {
      InvOrderInit(cfg, states[0]);
    } else {
      OrderAlways(cfg, states, steps, i - 1);
      InvOrderNext(cfg, states, steps, i, IdealAt(cfg, states, steps, i - 1));
    }
  }

  /** Two members treat the ordering envelope alike exactly when the group is ordered, or both or neither
      of them began this membership with a leftover timestamp for the topic. */
  lemma {:induction false} OrderingAgreement(cfg: Cfg, states: seq<Sys>, steps: seq<Step>, i: nat, a: string, b: string)
    requires Run(cfg, states, steps) && FreshRun(cfg, states, steps) && i <= |steps|
    requires a in states[i].agents && b in states[i].agents
    requires a in IdealAt(cfg, states, steps, i).view && b in IdealAt(cfg, states, steps, i).view
    ensures (states[i].agents[a].ordered <==> states[i].agents[b].ordered) <==>
            (IdealAt(cfg, states, steps, i).params.orderEnabled || (a in states[i].stale <==> b in states[i].stale))
  {
    OrderAlways(cfg, states, steps, i);
  }

  // ---- groups whose agents join for the first time ----

  function Begins(e: Step): Option<string> {
    match e
    case Create(a, _, _, _) => Some(a)
    case JoinStart(a, _, _, _) => Some(a)
    case _ => None
  }

  ghost predicate Began(steps: seq<Step>, i: nat, a: string)
    requires i <= |steps|
  {
    exists k :: 0 <= k < i && Begins(steps[k]) == Some(a)
  }

  /** No agent creates or joins a second time. */
  ghost predicate FirstTimers(steps: seq<Step>) {
    forall i, j :: 0 <= i < j < |steps| && Begins(steps[i]).Some? ==> Begins(steps[i]) != Begins(steps[j])
  }

  /** Of a newcomer: no timestamp, no acks, not marked stale, not joining. */
  ghost predicate Untouched(s: Sys, a: string) {
    a in s.agents ==> !s.agents[a].ordered && s.agents[a].acks == {} && a !in s.stale && !IsJoiner(s, a)
  }

  lemma UntouchedStep(cfg: Cfg, s: Sys, e: Step, a: string)
    requires Enabled(cfg, s, e) && Untouched(s, a) && Begins(e) != Some(a)
    ensures Untouched(Next(cfg, s, e), a)
  {}

  lemma {:induction false} NewcomersUntouched(cfg: Cfg, states: seq<Sys>, steps: seq<Step>, i: nat, a: string)
    requires Run(cfg, states, steps) && i <= |steps| && !Began(steps, i, a)
    ensures Untouched(states[i], a)
  {
    if i > 0 {
      assert !Began(steps, i - 1, a);
      NewcomersUntouched(cfg, states, steps, i - 1, a);
      RunStep(cfg, states, steps, i);
      UntouchedStep(cfg, states[i - 1], steps[i - 1], a);
    }
  }

  lemma StaleStep(cfg: Cfg, s: Sys, e: Step)
    requires Enabled(cfg, s, e) && s.stale == {} && (Begins(e).Some? ==> Untouched(s, Begins(e).value))
    ensures Next(cfg, s, e).stale == {} && FreshAcks(s, e)
  {}

  lemma NotYet(steps: seq<Step>, i: nat)
    requires FirstTimers(steps) && i < |steps| && Begins(steps[i]).Some?
    ensures !Began(steps, i, Begins(steps[i]).value)
  {}

  lemma {:induction false} NeverStale(cfg: Cfg, states: seq<Sys>, steps: seq<Step>, i: nat)
    requires Run(cfg, states, steps) && FirstTimers(steps) && i <= |steps|
    ensures states[i].stale == {} && (i < |steps| ==> FreshAcks(states[i], steps[i]))
  {
    if i > 0 {
      NeverStale(cfg, states, steps, i - 1);
      BeginnerUntouched(cfg, states, steps, i - 1);
      RunStep(cfg, states, steps, i);
      StaleStep(cfg, states[i - 1], steps[i - 1]);
    }
    if i < |steps| {
      BeginnerUntouched(cfg, states, steps, i);
      RunStep(cfg, states, steps, i + 1);
      StaleStep(cfg, states[i], steps[i]);
    }
  }

  lemma BeginnerUntouched(cfg: Cfg, states: seq<Sys>, steps: seq<Step>, i: nat)
    requires Run(cfg, states, steps) && FirstTimers(steps) && i < |steps|
    ensures Begins(steps[i]).Some? ==> Untouched(states[i], Begins(steps[i]).value)
  {
    if Begins(steps[i]).Some? {
      NotYet(steps, i);
      NewcomersUntouched(cfg, states, steps, i, Begins(steps[i]).value);
    }
  }

  /** When every agent joins for the first time, no ack is left over, and every member treats the ordering
      envelope as the group's parameters say. */
  lemma {:induction false} FirstTimersAgree(cfg: Cfg, states: seq<Sys>, steps: seq<Step>, i: nat)
    requires Run(cfg, states, steps) && FirstTimers(steps) && i <= |steps|
    ensures FreshRun(cfg, states, steps)
    ensures var g := IdealAt(cfg, states, steps, i);
            forall a :: a in states[i].agents && a in g.view ==>
              (states[i].agents[a].ordered <==> g.params.orderEnabled)
  {
    forall k | 0 <= k < |steps| ensures FreshAcks(states[k], steps[k]) {
      NeverStale(cfg, states, steps, k);
    }
    NeverStale(cfg, states, steps, i);
    OrderAlways(cfg, states, steps, i);
  }
}
