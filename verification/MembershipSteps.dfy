/** Every step of the membership protocol keeps its invariant, one short proof per step. */
module MembershipSteps {
  import opened Common
  import opened Validator
  import opened GroupStore
  import opened AgentState
  import opened Membership

  lemma Moved(cfg: Cfg, s: Sys, s': Sys, g: Ideal)
    requires ConnsOk(s, g) && AgentsOk(cfg, s, g)
    requires s'.tails == s.tails && s'.status == s.status && SameSides(s.phase, s'.phase)
    requires s'.agents == s.agents && forall x, y :: Conn(s', x, y) == Conn(s, x, y)
    ensures ConnsOk(s', g) && AgentsOk(cfg, s', g)
  {
    SameExpectations(cfg, s, s', g);
  }

  lemma EstablishContext(cfg: Cfg, s: Sys, g: Ideal, sub: string, pub: string)
    requires OpContext(cfg, s, g) && TailsOk(s, g)
    ensures OpContext(cfg, DoEstablish(s, sub, pub), g) && TailsOk(DoEstablish(s, sub, pub), g)
  {}

  lemma EstablishHello(cfg: Cfg, s: Sys, g: Ideal, sub: string, pub: string)
    requires HelloOk(cfg, s, g)
    ensures HelloOk(cfg, DoEstablish(s, sub, pub), g)
  {}

  lemma EstablishStep(cfg: Cfg, s: Sys, g: Ideal, sub: string, pub: string)
    requires Inv(cfg, s, g) && (sub, pub) in s.dialing
    ensures Inv(cfg, DoEstablish(s, sub, pub), g)
  {
    EstablishContext(cfg, s, g, sub, pub);
    EstablishHello(cfg, s, g, sub, pub);
    Moved(cfg, s, DoEstablish(s, sub, pub), g);
  }

  lemma HelloOp(cfg: Cfg, s: Sys, g: Ideal, m: string)
    requires OpContext(cfg, s, g) && s.phase.Greeting? && m in s.phase.op.snapshot
    ensures OpContext(cfg, DoHello(s, m), g)
  {}

  lemma HelloTails(cfg: Cfg, s: Sys, g: Ideal, m: string)
    requires TailsOk(s, g) && s.phase.Greeting?
    ensures TailsOk(DoHello(s, m), g)
  {}

  lemma HelloHello(cfg: Cfg, s: Sys, g: Ideal, m: string)
    requires HelloOk(cfg, s, g) && s.phase.Greeting? && (m, s.phase.op.me.name) in s.links
    ensures HelloOk(cfg, DoHello(s, m), g)
  {}

  lemma HelloRest(cfg: Cfg, s: Sys, g: Ideal, m: string)
    requires ConnsOk(s, g) && AgentsOk(cfg, s, g) && s.phase.Greeting?
    ensures ConnsOk(DoHello(s, m), g) && AgentsOk(cfg, DoHello(s, m), g)
  {
    Moved(cfg, s, DoHello(s, m), g);
  }

  lemma HelloStep(cfg: Cfg, s: Sys, g: Ideal, m: string)
    requires Inv(cfg, s, g) && s.phase.Greeting? && m in s.phase.op.snapshot && (m, s.phase.op.me.name) in s.links
    ensures Inv(cfg, DoHello(s, m), g)
  {
    HelloOp(cfg, s, g, m);
    HelloTails(cfg, s, g, m);
    HelloHello(cfg, s, g, m);
    HelloRest(cfg, s, g, m);
  }

  lemma AckOp(cfg: Cfg, s: Sys, g: Ideal, m: string)
    requires OpContext(cfg, s, g) && s.phase.Greeting? && s.phase.op.me.name in s.agents
    ensures OpContext(cfg, DoAck(cfg, s, m), g)
  {}

  lemma AckTails(cfg: Cfg, s: Sys, g: Ideal, m: string)
    requires TailsOk(s, g) && s.phase.Greeting? && s.phase.op.me.name in s.agents
    ensures TailsOk(DoAck(cfg, s, m), g)
  {}

  lemma AckHello(cfg: Cfg, s: Sys, g: Ideal, m: string)
    requires OpContext(cfg, s, g) && HelloOk(cfg, s, g)
    requires s.phase.Greeting? && s.phase.op.me.name in s.agents && m in s.phase.ackFlight
    ensures HelloOk(cfg, DoAck(cfg, s, m), g)
  {}

  lemma AckRest(cfg: Cfg, s: Sys, g: Ideal, m: string)
    requires ConnsOk(s, g) && AgentsOk(cfg, s, g) && s.phase.Greeting? && s.phase.op.me.name in s.agents
    ensures ConnsOk(DoAck(cfg, s, m), g) && AgentsOk(cfg, DoAck(cfg, s, m), g)
  {
    var s', j := DoAck(cfg, s, m), s.phase.op.me.name;
    SameExpectations(cfg, s, s', g);
    assert Fine(cfg, s, g, j);
    assert Fine(cfg, s', g, j);
    OneAgent(cfg, s, s', g, g, j);
    forall x, y ensures Conn(s', x, y) == Conn(s, x, y) {}
  }

  lemma AckStep(cfg: Cfg, s: Sys, g: Ideal, m: string)
    requires Inv(cfg, s, g) && s.phase.Greeting? && s.phase.op.me.name in s.agents && m in s.phase.ackFlight
    ensures Inv(cfg, DoAck(cfg, s, m), g)
  {
    AckOp(cfg, s, g, m);
    AckTails(cfg, s, g, m);
    AckHello(cfg, s, g, m);
    AckRest(cfg, s, g, m);
  }

  lemma AllRepliedContext(cfg: Cfg, s: Sys, g: Ideal)
    requires OpContext(cfg, s, g) && s.phase.Contacting?
    requires forall m :: m in s.phase.op.snapshot && s.phase.op.snapshot[m].active ==> m in s.phase.replies
    ensures OpContext(cfg, DoAllReplied(s), g)
  {}

  lemma AllRepliedTails(cfg: Cfg, s: Sys, g: Ideal)
    requires TailsOk(s, g) && HelloOk(cfg, s, g) && s.phase.Contacting?
    ensures TailsOk(DoAllReplied(s), g) && HelloOk(cfg, DoAllReplied(s), g)
  {}

  lemma AllRepliedRest(cfg: Cfg, s: Sys, g: Ideal)
    requires ConnsOk(s, g) && AgentsOk(cfg, s, g) && s.phase.Contacting?
    ensures ConnsOk(DoAllReplied(s), g) && AgentsOk(cfg, DoAllReplied(s), g)
  {
    Moved(cfg, s, DoAllReplied(s), g);
  }

  lemma AllRepliedStep(cfg: Cfg, s: Sys, g: Ideal)
    requires Inv(cfg, s, g) && s.phase.Contacting?
    requires forall m :: m in s.phase.op.snapshot && s.phase.op.snapshot[m].active ==> m in s.phase.replies
    ensures Inv(cfg, DoAllReplied(s), g)
  {
    AllRepliedContext(cfg, s, g);
    AllRepliedTails(cfg, s, g);
    AllRepliedRest(cfg, s, g);
  }

  // ---- Subscribe ----

  lemma MemberHolds(cfg: Cfg, s: Sys, g: Ideal, m: string)
    requires Inv(cfg, s, g) && m in g.view && m in s.agents
    ensures s.agents[m].group == GroupOf(cfg, ViewOf(s, g, m), g.params)
    ensures Fits(cfg, m, g.params.mode, s.agents[m], MemberExpect(cfg, s, g, m))
  {
    assert Fine(cfg, s, g, m);
  }

  ghost function Replied(s: Sys, m: string, reply: (bool, Bytes)): Sys
    requires s.phase.Contacting?
  {
    s.(phase := Contacting(s.phase.op, s.phase.replies[m := reply]), tails := s.tails[m := Tail(false, s.phase.op.me)])
  }

  /** What a member answers a subscribe request with. */
  ghost function Answer(cfg: Cfg, g: Ideal, m: string): (bool, Bytes) {
    (m in Publishers(g.view), cfg.b.checksum(g.view))
  }

  lemma SubscribeOp(cfg: Cfg, s: Sys, g: Ideal, m: string)
    requires OpContext(cfg, s, g) && s.phase.Contacting? && m in g.view
    ensures OpContext(cfg, Replied(s, m, Answer(cfg, g, m)), g)
  {}

  lemma SubscribeTails(cfg: Cfg, s: Sys, g: Ideal, m: string)
    requires OpOk(cfg, s, g) && WellKept(cfg, s, g.view) && TailsOk(s, g) && s.phase.Contacting? && m in g.view
    ensures TailsOk(Replied(s, m, Answer(cfg, g, m)), g)
  {}

  lemma SubscribeHello(cfg: Cfg, s: Sys, g: Ideal, m: string)
    requires OpOk(cfg, s, g) && HelloOk(cfg, s, g) && s.phase.Contacting? && m in g.view
    ensures HelloOk(cfg, Replied(s, m, Answer(cfg, g, m)), g)
  {}

  lemma SubscribeContext(cfg: Cfg, s: Sys, g: Ideal, m: string)
    requires Context(cfg, s, g) && s.phase.Contacting? && m in g.view
    ensures Context(cfg, Replied(s, m, Answer(cfg, g, m)), g)
  {
    SubscribeOp(cfg, s, g, m);
    SubscribeTails(cfg, s, g, m);
    SubscribeHello(cfg, s, g, m);
  }

  lemma SubscribeMember(cfg: Cfg, s: Sys, g: Ideal, m: string, c: (bool, Bytes))
    requires s.phase.Contacting? && m !in s.tails && m !in s.phase.replies
    requires m !in s.status && s.phase.op.me.name !in g.view
    ensures MemberExpect(cfg, Replied(s, m, c), g, m) == MemberExpect(cfg, s, g, m)
  {
    var x, x' := MemberExpect(cfg, s, g, m), MemberExpect(cfg, Replied(s, m, c), g, m);
    assert x'.known == x.known;
    assert x'.pubs == x.pubs;
    assert x'.conns == x.conns;
  }

  lemma SubscribeExpected(cfg: Cfg, s: Sys, g: Ideal, m: string, c: (bool, Bytes), a: string)
    requires s.phase.Contacting? && TailsOk(s, g) && OpOk(cfg, s, g)
    requires m in g.view && m !in s.phase.replies
    ensures Expected(cfg, Replied(s, m, c), g, a) == Expected(cfg, s, g, a)
  {
    assert m !in s.tails;
    if a == m {
      SubscribeMember(cfg, s, g, m, c);
    }
  }

  lemma SubscribeConns(cfg: Cfg, s: Sys, g: Ideal, m: string, c: (bool, Bytes))
    requires s.phase.Contacting? && ConnsOk(s, g) && m !in s.phase.replies
    ensures ConnsOk(Replied(s, m, c), g)
  {
    var s' := Replied(s, m, c);
    forall x ensures Reached(s', x) == Reached(s, x) {}
    forall x, y ensures Conn(s', x, y) == Conn(s, x, y) && ShouldConn(s', g, x, y) == ShouldConn(s, g, x, y) {}
  }

  /** Under the invariant every member answers a subscribe request with the flag under which the group lists
      it and the checksum of the group. */
  lemma SubscribeAnswers(cfg: Cfg, s: Sys, g: Ideal, m: string)
    requires Inv(cfg, s, g) && Joining(s) && m in g.view && m in s.agents
    ensures SubscribeReply(s.agents[m], m) == Some(Answer(cfg, g, m))
  {
    MemberHolds(cfg, s, g, m);
  }

  lemma SubscribeReplies(cfg: Cfg, s: Sys, g: Ideal, m: string)
    requires s.phase.Contacting? && OpOk(cfg, s, g) && WellKept(cfg, s, g.view) && m in g.view && m in s.agents
    requires s.agents[m].group == GroupOf(cfg, ViewOf(s, g, m), g.params)
    ensures DoSubscribe(s, m) == Replied(s, m, Answer(cfg, g, m))
  {}

  lemma SubscribeStep(cfg: Cfg, s: Sys, g: Ideal, m: string)
    requires Inv(cfg, s, g) && s.phase.Contacting? && m in s.phase.op.snapshot && m !in s.phase.replies && m in s.agents
    ensures Inv(cfg, DoSubscribe(s, m), g)
  {
    var c := Answer(cfg, g, m);
    MemberHolds(cfg, s, g, m);
    SubscribeReplies(cfg, s, g, m);
    SubscribeContext(cfg, s, g, m);
    SubscribeConns(cfg, s, g, m, c);
    forall a ensures Expected(cfg, Replied(s, m, c), g, a) == Expected(cfg, s, g, a) {
      SubscribeExpected(cfg, s, g, m, c, a);
    }
    AllAgents(cfg, s, Replied(s, m, c), g, g);
  }

  /** Nobody changed and nobody is expected to. */
  lemma AllAgents(cfg: Cfg, s: Sys, s': Sys, g: Ideal, g': Ideal)
    requires AgentsOk(cfg, s, g) && s'.agents == s.agents && g'.params.mode == g.params.mode
    requires forall a :: Expected(cfg, s', g', a) == Expected(cfg, s, g, a)
    ensures AgentsOk(cfg, s', g')
  {
    forall a | a in s'.agents ensures Fine(cfg, s', g', a) {
      assert Fine(cfg, s, g, a);
    }
  }

  // ---- Wire ----

  lemma WireOp(cfg: Cfg, s: Sys, g: Ideal, m: string)
    requires OpContext(cfg, s, g) && s.phase.Wiring? && s.phase.op.me.name in s.agents && m in s.phase.op.snapshot
    ensures OpContext(cfg, DoWire(cfg, s, m), g)
  {}

  lemma WireTails(cfg: Cfg, s: Sys, g: Ideal, m: string)
    requires OpOk(cfg, s, g) && WellKept(cfg, s, g.view) && TailsOk(s, g) && s.phase.Wiring?
    requires s.phase.op.me.name in s.agents && m in s.phase.op.snapshot
    ensures TailsOk(DoWire(cfg, s, m), g)
  {}

  lemma WireHello(cfg: Cfg, s: Sys, g: Ideal, m: string)
    requires OpOk(cfg, s, g) && HelloOk(cfg, s, g) && s.phase.Wiring? && s.phase.op.me.name in s.agents
    requires m in s.phase.op.snapshot
    ensures HelloOk(cfg, DoWire(cfg, s, m), g)
  {}

  lemma WireContext(cfg: Cfg, s: Sys, g: Ideal, m: string)
    requires Context(cfg, s, g) && s.phase.Wiring? && s.phase.op.me.name in s.agents && m in s.phase.op.snapshot
    ensures Context(cfg, DoWire(cfg, s, m), g)
  {
    WireOp(cfg, s, g, m);
    WireTails(cfg, s, g, m);
    WireHello(cfg, s, g, m);
  }

  lemma WireConns(cfg: Cfg, s: Sys, g: Ideal, m: string)
    requires ConnsOk(s, g) && s.phase.Wiring? && s.phase.op.me.name in s.agents && m in s.phase.op.snapshot
    ensures ConnsOk(DoWire(cfg, s, m), g)
  {
    var s' := DoWire(cfg, s, m);
    var j := s.phase.op.me.name;
    forall x, y ensures ShouldConn(s', g, x, y) <==> (ShouldConn(s, g, x, y) || (x == j && y == m)) {}
    forall x, y ensures Conn(s', x, y) <==> (Conn(s, x, y) || (x == j && y == m)) {}
  }

  lemma WireExpect(cfg: Cfg, s: Sys, g: Ideal, m: string)
    requires OpOk(cfg, s, g) && WellKept(cfg, s, g.view)
    requires s.phase.Wiring? && s.phase.op.me.name in s.agents && m in s.phase.op.snapshot && m !in s.phase.wired
    ensures var x, peer := JoinerExpect(cfg, s, g), s.phase.op.snapshot[m];
            && peer.name == m && m !in x.pubs
            && JoinerExpect(cfg, DoWire(cfg, s, m), g) ==
               x.(pubs := if peer.publisher then x.pubs + {m} else x.pubs, conns := x.conns + {m},
                  known := if s.phase.op.me.publisher then x.known + {m} else x.known)
  {
    var x, x' := JoinerExpect(cfg, s, g), JoinerExpect(cfg, DoWire(cfg, s, m), g);
    assert x'.pubs == if s.phase.op.snapshot[m].publisher then x.pubs + {m} else x.pubs;
    assert x'.conns == x.conns + {m};
    assert x'.known == if s.phase.op.me.publisher then x.known + {m} else x.known;
  }

  lemma WireFits(cfg: Cfg, s: Sys, j: string, mode: string, x: Expect, m: string)
    requires s.phase.Wiring? && s.phase.op.me.name == j && j in s.agents && m in s.phase.op.snapshot
    requires Fits(cfg, j, mode, s.agents[j], x) && ModeOf(s.agents[j]) == mode && MembersOf(s.agents[j]) == map[]
    requires var peer := s.phase.op.snapshot[m];
             && peer.name == m && m !in x.pubs && peer.pubEndpoint == cfg.endpoint(m)
             && m in s.phase.replies && s.phase.replies[m].0 == peer.publisher
    ensures var op, peer := s.phase.op, s.phase.op.snapshot[m];
            Fits(cfg, j, mode, DoWire(cfg, s, m).agents[j],
                 x.(pubs := if peer.publisher then x.pubs + {m} else x.pubs, conns := x.conns + {m},
                    known := if op.me.publisher then x.known + {m} else x.known))
  {
    var l, peer, publishes := s.agents[j], s.phase.op.snapshot[m], s.phase.replies[m].0;
    FitsMeet(cfg, j, mode, l, x, peer, publishes);
    var y := x.(pubs := if peer.publisher then x.pubs + {peer.name} else x.pubs, conns := x.conns + {peer.name});
    FitsAddSub(cfg, j, mode, Meet(cfg.b, l, j, peer, publishes), y, m);
  }

  lemma WireJoiner(cfg: Cfg, s: Sys, g: Ideal, m: string)
    requires OpOk(cfg, s, g) && WellKept(cfg, s, g.view)
    requires s.phase.Wiring? && s.phase.op.me.name in s.agents && m in s.phase.op.snapshot && m !in s.phase.wired
    requires Fits(cfg, s.phase.op.me.name, g.params.mode, s.agents[s.phase.op.me.name], JoinerExpect(cfg, s, g))
    ensures var s' := DoWire(cfg, s, m);
            Fits(cfg, s.phase.op.me.name, g.params.mode, s'.agents[s.phase.op.me.name], JoinerExpect(cfg, s', g))
  {
    var j, mode, x := s.phase.op.me.name, g.params.mode, JoinerExpect(cfg, s, g);
    WireExpect(cfg, s, g, m);
    WireFits(cfg, s, j, mode, x, m);
  }

  lemma WireOther(cfg: Cfg, s: Sys, g: Ideal, m: string, a: string)
    requires s.phase.Wiring? && s.phase.op.me.name in s.agents && m in s.phase.op.snapshot && a != s.phase.op.me.name
    ensures Expected(cfg, DoWire(cfg, s, m), g, a) == Expected(cfg, s, g, a)
  {}

  lemma WireOthers(cfg: Cfg, s: Sys, g: Ideal, m: string)
    requires s.phase.Wiring? && s.phase.op.me.name in s.agents && m in s.phase.op.snapshot
    ensures OnlyAgent(cfg, s, DoWire(cfg, s, m), g, g, s.phase.op.me.name)
  {
    var s' := DoWire(cfg, s, m);
    forall a | a in s.agents && a != s.phase.op.me.name
      ensures s'.agents[a] == s.agents[a] && Expected(cfg, s', g, a) == Expected(cfg, s, g, a) {
      WireOther(cfg, s, g, m, a);
    }
  }

  lemma WireAgents(cfg: Cfg, s: Sys, g: Ideal, m: string)
    requires OpOk(cfg, s, g) && WellKept(cfg, s, g.view) && AgentsOk(cfg, s, g)
    requires s.phase.Wiring? && s.phase.op.me.name in s.agents && m in s.phase.op.snapshot && m !in s.phase.wired
    ensures AgentsOk(cfg, DoWire(cfg, s, m), g)
  {
    var s', j := DoWire(cfg, s, m), s.phase.op.me.name;
    assert Fine(cfg, s, g, j);
    JoinerFits(cfg, s, g);
    WireJoiner(cfg, s, g, m);
    JoinerFits(cfg, s', g);
    WireOthers(cfg, s, g, m);
    OneAgent(cfg, s, s', g, g, j);
  }

  lemma WireStep(cfg: Cfg, s: Sys, g: Ideal, m: string)
    requires Inv(cfg, s, g) && s.phase.Wiring? && s.phase.op.me.name in s.agents
    requires m in s.phase.op.snapshot && m !in s.phase.wired
    ensures Inv(cfg, DoWire(cfg, s, m), g)
  {
    WireContext(cfg, s, g, m);
    WireConns(cfg, s, g, m);
    WireAgents(cfg, s, g, m);
  }

  /** ... and authenticates the joiner's data socket for that member exactly when the group lists it as a
      publisher, whatever it said in its reply being just that. */
  lemma WireAuthenticates(cfg: Cfg, s: Sys, g: Ideal, m: string)
    requires OpOk(cfg, s, g) && WellKept(cfg, s, g.view)
    requires s.phase.Wiring? && s.phase.op.me.name in s.agents && m in s.phase.op.snapshot
    ensures var j := s.phase.op.me.name;
            DoWire(cfg, s, m).agents[j].authed ==
              s.agents[j].authed + (if m in Publishers(g.view) then {m} else {})
  {
    assert m in s.phase.replies && s.phase.replies[m] == Answer(cfg, g, m);
  }

  // ---- Check ----

  lemma NeverInconsistent(cfg: Cfg, s: Sys, g: Ideal)
    requires OpOk(cfg, s, g) && s.phase.Wiring?
    ensures ConsistentReplies(cfg, s.phase.op, s.phase.replies)
  {}

  ghost predicate FullyWired(s: Sys, g: Ideal) {
    && s.phase.Wiring? && s.phase.op.me.name in s.agents
    && s.phase.replies.Keys == g.view.Keys && s.phase.wired == g.view.Keys
  }

  lemma InstallOp(cfg: Cfg, s: Sys, g: Ideal)
    requires OpContext(cfg, s, g) && FullyWired(s, g)
    ensures OpContext(cfg, DoInstall(cfg, s), g)
  {}

  lemma InstallTails(cfg: Cfg, s: Sys, g: Ideal)
    requires OpOk(cfg, s, g) && WellKept(cfg, s, g.view) && TailsOk(s, g) && FullyWired(s, g)
    ensures TailsOk(DoInstall(cfg, s), g)
  {}

  lemma InstallHello(cfg: Cfg, s: Sys, g: Ideal)
    requires OpOk(cfg, s, g) && HelloOk(cfg, s, g) && FullyWired(s, g)
    ensures HelloOk(cfg, DoInstall(cfg, s), g)
  {}

  lemma InstallContext(cfg: Cfg, s: Sys, g: Ideal)
    requires Context(cfg, s, g) && FullyWired(s, g)
    ensures Context(cfg, DoInstall(cfg, s), g)
  {
    InstallOp(cfg, s, g);
    InstallTails(cfg, s, g);
    InstallHello(cfg, s, g);
  }

  lemma InstallExpected(cfg: Cfg, s: Sys, g: Ideal)
    requires OpOk(cfg, s, g) && FullyWired(s, g)
    ensures OnlyAgent(cfg, s, DoInstall(cfg, s), g, g, s.phase.op.me.name)
  {
    var s' := DoInstall(cfg, s);
    forall a | a in s.agents && a != s.phase.op.me.name
      ensures s'.agents[a] == s.agents[a] && Expected(cfg, s', g, a) == Expected(cfg, s, g, a) {
      InstallOther(cfg, s, g, a);
    }
  }

  lemma InstallOther(cfg: Cfg, s: Sys, g: Ideal, a: string)
    requires OpOk(cfg, s, g) && FullyWired(s, g) && a != s.phase.op.me.name
    ensures Expected(cfg, DoInstall(cfg, s), g, a) == Expected(cfg, s, g, a)
  {}

  lemma InstallConns(cfg: Cfg, s: Sys, g: Ideal)
    requires OpOk(cfg, s, g) && FullyWired(s, g) && ConnsOk(s, g)
    ensures ConnsOk(DoInstall(cfg, s), g)
  {
    var s' := DoInstall(cfg, s);
    forall x, y ensures Conn(s', x, y) == Conn(s, x, y) && ShouldConn(s', g, x, y) == ShouldConn(s, g, x, y) {}
  }

  lemma InstallJoiner(cfg: Cfg, s: Sys, g: Ideal)
    requires OpOk(cfg, s, g) && FullyWired(s, g)
    requires Fits(cfg, s.phase.op.me.name, g.params.mode, s.agents[s.phase.op.me.name], JoinerExpect(cfg, s, g))
    ensures var s' := DoInstall(cfg, s);
            Fits(cfg, s.phase.op.me.name, g.params.mode, s'.agents[s.phase.op.me.name], JoinerExpect(cfg, s', g))
  {
    var op := s.phase.op;
    assert map[] + op.snapshot[op.me.name := op.me] == op.snapshot[op.me.name := op.me];
  }

  lemma InstallRest(cfg: Cfg, s: Sys, g: Ideal)
    requires OpOk(cfg, s, g) && ConnsOk(s, g) && AgentsOk(cfg, s, g) && FullyWired(s, g)
    ensures ConnsOk(DoInstall(cfg, s), g) && AgentsOk(cfg, DoInstall(cfg, s), g)
  {
    var s', j := DoInstall(cfg, s), s.phase.op.me.name;
    assert Fine(cfg, s, g, j);
    InstallExpected(cfg, s, g);
    JoinerFits(cfg, s, g);
    InstallJoiner(cfg, s, g);
    JoinerFits(cfg, s', g);
    OneAgent(cfg, s, s', g, g, j);
    InstallConns(cfg, s, g);
  }

  lemma InstallStep(cfg: Cfg, s: Sys, g: Ideal)
    requires Inv(cfg, s, g) && FullyWired(s, g)
    ensures Inv(cfg, DoInstall(cfg, s), g)
  {
    InstallContext(cfg, s, g);
    InstallRest(cfg, s, g);
  }

  // ---- subscribe handler, second half ----

  lemma TailConnectOp(cfg: Cfg, s: Sys, g: Ideal, m: string)
    requires OpContext(cfg, s, g) && m in s.tails && !s.tails[m].connected && m in s.agents
    ensures OpContext(cfg, DoTailConnect(cfg, s, m), g)
  {}

  lemma TailConnectTails(cfg: Cfg, s: Sys, g: Ideal, m: string)
    requires OpOk(cfg, s, g) && WellKept(cfg, s, g.view) && TailsOk(s, g) && m in s.tails && !s.tails[m].connected
    requires m in s.agents
    ensures TailsOk(DoTailConnect(cfg, s, m), g)
  {}

  lemma TailConnectHello(cfg: Cfg, s: Sys, g: Ideal, m: string)
    requires OpOk(cfg, s, g) && HelloOk(cfg, s, g) && m in s.tails && !s.tails[m].connected && m in s.agents
    ensures HelloOk(cfg, DoTailConnect(cfg, s, m), g)
  {}

  lemma TailConnectContext(cfg: Cfg, s: Sys, g: Ideal, m: string)
    requires Context(cfg, s, g) && m in s.tails && !s.tails[m].connected && m in s.agents
    ensures Context(cfg, DoTailConnect(cfg, s, m), g)
  {
    TailConnectOp(cfg, s, g, m);
    TailConnectTails(cfg, s, g, m);
    TailConnectHello(cfg, s, g, m);
  }

  lemma TailConnectConns(cfg: Cfg, s: Sys, g: Ideal, m: string)
    requires ConnsOk(s, g) && TailsOk(s, g) && m in s.tails && !s.tails[m].connected && m in s.agents
    ensures ConnsOk(DoTailConnect(cfg, s, m), g)
  {
    var s' := DoTailConnect(cfg, s, m);
    var j := s.tails[m].sub.name;
    forall x ensures Reached(s', x) <==> (Reached(s, x) || x == m) {}
    forall x, y ensures ShouldConn(s', g, x, y) <==> (ShouldConn(s, g, x, y) || (x == m && y == j)) {}
    forall x, y ensures Conn(s', x, y) <==> (Conn(s, x, y) || (x == m && y == j)) {}
  }

  lemma TailConnectExpect(cfg: Cfg, s: Sys, g: Ideal, m: string)
    requires OpOk(cfg, s, g) && TailsOk(s, g) && m in s.tails && !s.tails[m].connected && m in s.agents
    ensures var x, sub := MemberExpect(cfg, s, g, m), s.tails[m].sub;
            MemberExpect(cfg, DoTailConnect(cfg, s, m), g, m) ==
            x.(pubs := if sub.publisher then x.pubs + {sub.name} else x.pubs, conns := x.conns + {sub.name})
  {
    var x, x' := MemberExpect(cfg, s, g, m), MemberExpect(cfg, DoTailConnect(cfg, s, m), g, m);
    var sub := s.tails[m].sub;
    assert x'.pubs == if sub.publisher then x.pubs + {sub.name} else x.pubs;
    assert x'.conns == x.conns + {sub.name};
    assert x'.known == x.known;
  }

  lemma AloneOrConnected(view: map<string, Member>, m: string)
    requires m in view && view.Keys - {m} == {}
    ensures |view| == 1
  {
    assert view.Keys == {m};
    assert |view| == |view.Keys|;
  }

  /** A member that is connected to nobody is alone in its view, so its next connect subscribes it. */
  lemma NobodyYet(cfg: Cfg, s: Sys, g: Ideal, m: string)
    requires StatusOk(s, g) && m in g.view
    ensures MemberExpect(cfg, s, g, m).conns == {} ==> |ViewOf(s, g, m)| == 1
  {
    var view := ViewOf(s, g, m);
    if MemberExpect(cfg, s, g, m).conns == {} {
      assert view.Keys - {m} <= MemberExpect(cfg, s, g, m).conns;
      assert m in view;
      AloneOrConnected(view, m);
    }
  }

  lemma TailSubject(cfg: Cfg, s: Sys, g: Ideal, m: string)
    requires OpOk(cfg, s, g) && TailsOk(s, g) && m in s.tails && !s.tails[m].connected
    ensures s.tails[m].sub.pubEndpoint == cfg.endpoint(s.tails[m].sub.name)
    ensures s.tails[m].sub.name !in MemberExpect(cfg, s, g, m).pubs
  {}

  lemma TailFits(cfg: Cfg, s: Sys, g: Ideal, m: string, x: Expect)
    requires m in s.tails && m in s.agents && Fits(cfg, m, g.params.mode, s.agents[m], x)
    requires x.group == GroupOf(cfg, ViewOf(s, g, m), g.params)
    requires s.tails[m].sub.pubEndpoint == cfg.endpoint(s.tails[m].sub.name) && s.tails[m].sub.name !in x.pubs
    requires x.conns == {} ==> |ViewOf(s, g, m)| == 1
    ensures var sub := s.tails[m].sub;
            Fits(cfg, m, g.params.mode, DoTailConnect(cfg, s, m).agents[m],
                 x.(pubs := if sub.publisher then x.pubs + {sub.name} else x.pubs, conns := x.conns + {sub.name}))
  {
    FitsMeet(cfg, m, g.params.mode, s.agents[m], x, s.tails[m].sub, s.tails[m].sub.publisher);
  }

  lemma TailConnectMember(cfg: Cfg, s: Sys, g: Ideal, m: string)
    requires OpOk(cfg, s, g) && TailsOk(s, g) && StatusOk(s, g)
    requires m in s.tails && !s.tails[m].connected && m in s.agents
    requires Fits(cfg, m, g.params.mode, s.agents[m], MemberExpect(cfg, s, g, m))
    ensures var s' := DoTailConnect(cfg, s, m);
            Fits(cfg, m, g.params.mode, s'.agents[m], MemberExpect(cfg, s', g, m))
  {
    TailConnectExpect(cfg, s, g, m);
    NobodyYet(cfg, s, g, m);
    TailSubject(cfg, s, g, m);
    TailFits(cfg, s, g, m, MemberExpect(cfg, s, g, m));
  }

  lemma TailConnectOthers(cfg: Cfg, s: Sys, g: Ideal, m: string)
    requires m in s.tails && m in s.agents
    ensures OnlyAgent(cfg, s, DoTailConnect(cfg, s, m), g, g, m)
  {}

  lemma TailConnectAgents(cfg: Cfg, s: Sys, g: Ideal, m: string)
    requires OpOk(cfg, s, g) && TailsOk(s, g) && StatusOk(s, g) && AgentsOk(cfg, s, g)
    requires m in s.tails && !s.tails[m].connected && m in s.agents
    ensures AgentsOk(cfg, DoTailConnect(cfg, s, m), g)
  {
    assert Fine(cfg, s, g, m);
    assert m in g.view && !IsJoiner(s, m);
    MemberFits(cfg, s, g, m);
    TailConnectMember(cfg, s, g, m);
    MemberFits(cfg, DoTailConnect(cfg, s, m), g, m);
    TailConnectOthers(cfg, s, g, m);
    OneAgent(cfg, s, DoTailConnect(cfg, s, m), g, g, m);
  }

  lemma TailConnectStep(cfg: Cfg, s: Sys, g: Ideal, m: string)
    requires Inv(cfg, s, g) && m in s.tails && !s.tails[m].connected && m in s.agents
    ensures Inv(cfg, DoTailConnect(cfg, s, m), g)
  {
    TailConnectContext(cfg, s, g, m);
    TailConnectConns(cfg, s, g, m);
    TailConnectAgents(cfg, s, g, m);
  }

  lemma TailAddOp(cfg: Cfg, s: Sys, g: Ideal, m: string)
    requires OpContext(cfg, s, g) && m in s.tails && s.tails[m].connected && m in s.agents
    ensures OpContext(cfg, DoTailAdd(cfg, s, m), g)
  {}

  lemma TailAddTails(cfg: Cfg, s: Sys, g: Ideal, m: string)
    requires OpOk(cfg, s, g) && WellKept(cfg, s, g.view) && TailsOk(s, g) && m in s.tails && s.tails[m].connected
    requires m in s.agents
    ensures TailsOk(DoTailAdd(cfg, s, m), g)
  {}

  lemma TailAddHello(cfg: Cfg, s: Sys, g: Ideal, m: string)
    requires OpOk(cfg, s, g) && HelloOk(cfg, s, g) && m in s.tails && s.tails[m].connected && m in s.agents
    ensures HelloOk(cfg, DoTailAdd(cfg, s, m), g)
  {}

  lemma TailAddContext(cfg: Cfg, s: Sys, g: Ideal, m: string)
    requires Context(cfg, s, g) && m in s.tails && s.tails[m].connected && m in s.agents
    ensures Context(cfg, DoTailAdd(cfg, s, m), g)
  {
    TailAddOp(cfg, s, g, m);
    TailAddTails(cfg, s, g, m);
    TailAddHello(cfg, s, g, m);
  }

  lemma TailAddConns(cfg: Cfg, s: Sys, g: Ideal, m: string)
    requires ConnsOk(s, g) && m in s.tails && s.tails[m].connected && m in s.agents
    ensures ConnsOk(DoTailAdd(cfg, s, m), g)
  {
    var s' := DoTailAdd(cfg, s, m);
    forall x ensures Reached(s', x) == Reached(s, x) {}
    forall x, y ensures Conn(s', x, y) == Conn(s, x, y) && ShouldConn(s', g, x, y) == ShouldConn(s, g, x, y) {}
  }

  lemma TailAddKnown(cfg: Cfg, s: Sys, g: Ideal, m: string)
    requires OpOk(cfg, s, g) && TailsOk(s, g) && StatusOk(s, g)
    requires m in s.tails && s.tails[m].connected && m in s.agents
    ensures var x, x' := MemberExpect(cfg, s, g, m), MemberExpect(cfg, DoTailAdd(cfg, s, m), g, m);
            x'.known == x.known + {s.tails[m].sub.name}
  {}

  lemma TailAddExpect(cfg: Cfg, s: Sys, g: Ideal, m: string)
    requires OpOk(cfg, s, g) && TailsOk(s, g) && StatusOk(s, g)
    requires m in s.tails && s.tails[m].connected && m in s.agents
    ensures var x := MemberExpect(cfg, s, g, m);
            MemberExpect(cfg, DoTailAdd(cfg, s, m), g, m) == x.(known := x.known + {s.tails[m].sub.name})
  {
    TailAddKnown(cfg, s, g, m);
    assert Reached(DoTailAdd(cfg, s, m), m) == Reached(s, m);
  }

  lemma TailAddMember(cfg: Cfg, s: Sys, g: Ideal, m: string)
    requires OpOk(cfg, s, g) && TailsOk(s, g) && StatusOk(s, g)
    requires m in s.tails && s.tails[m].connected && m in s.agents
    requires Fits(cfg, m, g.params.mode, s.agents[m], MemberExpect(cfg, s, g, m))
    ensures var s' := DoTailAdd(cfg, s, m);
            Fits(cfg, m, g.params.mode, s'.agents[m], MemberExpect(cfg, s', g, m))
  {
    TailAddExpect(cfg, s, g, m);
    FitsAddSub(cfg, m, g.params.mode, s.agents[m], MemberExpect(cfg, s, g, m), s.tails[m].sub.name);
  }

  lemma TailAddOthers(cfg: Cfg, s: Sys, g: Ideal, m: string)
    requires m in s.tails && m in s.agents
    ensures OnlyAgent(cfg, s, DoTailAdd(cfg, s, m), g, g, m)
  {}

  lemma TailAddAgents(cfg: Cfg, s: Sys, g: Ideal, m: string)
    requires OpOk(cfg, s, g) && TailsOk(s, g) && StatusOk(s, g) && AgentsOk(cfg, s, g)
    requires m in s.tails && s.tails[m].connected && m in s.agents
    ensures AgentsOk(cfg, DoTailAdd(cfg, s, m), g)
  {
    assert Fine(cfg, s, g, m);
    assert m in g.view && !IsJoiner(s, m);
    MemberFits(cfg, s, g, m);
    TailAddMember(cfg, s, g, m);
    MemberFits(cfg, DoTailAdd(cfg, s, m), g, m);
    TailAddOthers(cfg, s, g, m);
    OneAgent(cfg, s, DoTailAdd(cfg, s, m), g, g, m);
  }

  lemma TailAddStep(cfg: Cfg, s: Sys, g: Ideal, m: string)
    requires Inv(cfg, s, g) && m in s.tails && s.tails[m].connected && m in s.agents
    ensures Inv(cfg, DoTailAdd(cfg, s, m), g)
  {
    TailAddContext(cfg, s, g, m);
    TailAddConns(cfg, s, g, m);
    TailAddAgents(cfg, s, g, m);
  }
}
