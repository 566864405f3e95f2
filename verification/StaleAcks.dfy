/** When a join can go wrong. Hello acks are never forgotten, so an agent that comes back may find that a
    member has already acked it, and announce itself to a member that is not listening yet. */
module StaleAcks {
  import opened Common
  import opened Validator
  import opened GroupStore
  import opened AgentState
  import opened Membership
  import opened MembershipSteps
  import opened MembershipOperations
  import opened MembershipTheorems

  ghost predicate StartsOperation(e: Step) {
    e.Create? || e.JoinStart? || e.Leave?
  }

  /** steps leads from s to t without starting another operation. */
  ghost predicate Path(cfg: Cfg, s: Sys, steps: seq<Step>, t: Sys)
    decreases |steps|
  {
    if |steps| == 0 then s == t
    else Enabled(cfg, s, steps[0]) && !StartsOperation(steps[0]) && Path(cfg, Next(cfg, s, steps[0]), steps[1..], t)
  }

  ghost predicate Reaches(cfg: Cfg, s: Sys, t: Sys) {
    exists steps :: Path(cfg, s, steps, t)
  }

  lemma {:induction false} PathMore(cfg: Cfg, s: Sys, steps: seq<Step>, t: Sys, e: Step)
    requires Path(cfg, s, steps, t) && Enabled(cfg, t, e) && !StartsOperation(e)
    ensures Path(cfg, s, steps + [e], Next(cfg, t, e))
    decreases |steps|
  {
    if |steps| > 0 {
      PathMore(cfg, Next(cfg, s, steps[0]), steps[1..], t, e);
      assert (steps + [e])[1..] == steps[1..] + [e];
    } else {
      assert Path(cfg, Next(cfg, t, e), [], Next(cfg, t, e));
      assert (steps + [e])[1..] == [];
    }
  }

  lemma OneMore(cfg: Cfg, s: Sys, t: Sys, e: Step)
    requires Reaches(cfg, s, t) && Enabled(cfg, t, e) && !StartsOperation(e)
    ensures Reaches(cfg, s, Next(cfg, t, e))
  {
    var steps :| Path(cfg, s, steps, t);
    PathMore(cfg, s, steps, t, e);
  }

  /** Both hold the group and have no status left to handle, but m does not know of j. */
  ghost predicate Diverged(s: Sys, m: string, j: string) {
    && s.phase.Idle? && m in s.agents && j in s.agents && m !in s.status && j !in s.status
    && j in MembersOf(s.agents[j]) && s.agents[m].group.Some? && j !in MembersOf(s.agents[m])
  }

  /** Nothing short of another operation repairs that. */
  lemma DivergenceStays(cfg: Cfg, s: Sys, e: Step, m: string, j: string)
    requires Diverged(s, m, j) && Enabled(cfg, s, e) && !StartsOperation(e)
    ensures Diverged(Next(cfg, s, e), m, j)
  {}

  // ---- with fresh acks ----

  lemma Holds(cfg: Cfg, s: Sys, g: Ideal, a: string)
    requires AgentsOk(cfg, s, g) && s.phase.Idle? && a in s.agents && a !in s.status
    ensures s.agents[a].group == if a in g.view then GroupOf(cfg, g.view, g.params) else None
  {
    assert Fine(cfg, s, g, a);
  }

  lemma NotDiverged(cfg: Cfg, s: Sys, g: Ideal, m: string, j: string)
    requires AgentsOk(cfg, s, g)
    ensures !Diverged(s, m, j)
  {
    if s.phase.Idle? && m in s.agents && j in s.agents && m !in s.status && j !in s.status {
      Holds(cfg, s, g, m);
      Holds(cfg, s, g, j);
      SameGroups(s, GroupOf(cfg, g.view, g.params), g.view, m, j);
    }
  }

  lemma SameGroups(s: Sys, group: Option<Group>, view: map<string, Member>, m: string, j: string)
    requires m in s.agents && j in s.agents && group.Some? && group.value.members == view
    requires s.agents[m].group == (if m in view then group else None)
    requires s.agents[j].group == (if j in view then group else None)
    ensures !Diverged(s, m, j)
  {}

  lemma {:induction false} PathKeepsInv(cfg: Cfg, s: Sys, g: Ideal, steps: seq<Step>, t: Sys) returns (g': Ideal)
    requires Inv(cfg, s, g) && Path(cfg, s, steps, t)
    ensures Inv(cfg, t, g')
    decreases |steps|
  {
    if |steps| == 0 {
      g' := g;
    } else {
      InvStep(cfg, s, g, steps[0]);
      g' := PathKeepsInv(cfg, Next(cfg, s, steps[0]), IdealNext(cfg, g, s, steps[0]), steps[1..], t);
    }
  }

  // ---- without: the schedule that goes wrong for m ----

  /** The group as a join finds it: every listed member holds exactly the list. */
  ghost predicate Settled(cfg: Cfg, s: Sys, op: Join) {
    && op.me.name in s.agents && op.me.name !in op.snapshot && op.snapshot.Keys <= s.agents.Keys && s.status == map[]
    && (forall x :: x in op.snapshot ==>
        op.snapshot[x].active && op.snapshot[x].name == x && op.snapshot[x].pubEndpoint == cfg.endpoint(x))
    && (forall x :: x in op.snapshot ==> s.agents[x].group == GroupOf(cfg, op.snapshot, op.params))
    && (forall x :: x in s.tails ==> s.tails[x].sub == op.me)
    && (|op.snapshot| >= 2 ==> forall x :: x in op.snapshot ==> s.agents[x].stateSubs > 0)
  }

  /** m's subscribe handler has not connected to the joiner. */
  ghost predicate Late(s: Sys, op: Join, m: string) {
    && m in op.snapshot && (m in s.tails ==> !s.tails[m].connected)
    && (m, op.me.name) !in s.links && (m, op.me.name) !in s.dialing
  }

  /** What x answers a subscribe request with. */
  ghost function Listed(cfg: Cfg, op: Join, x: string): (bool, Bytes) {
    (x in op.snapshot && op.snapshot[x].publisher, cfg.b.checksum(op.snapshot))
  }

  lemma Missing(all: set<string>, some: set<string>) returns (x: string)
    requires some <= all && some != all
    ensures x in all && x !in some
  {
    assert exists x :: x in all && x !in some;
    x :| x in all && x !in some;
  }

  ghost predicate Contact(cfg: Cfg, s: Sys, op: Join, m: string) {
    && s.phase.Contacting? && s.phase.op == op && Settled(cfg, s, op) && Late(s, op, m)
    && s.phase.replies.Keys <= op.snapshot.Keys && s.tails.Keys == s.phase.replies.Keys
    && (forall x :: x in s.tails ==> !s.tails[x].connected)
    && (forall x :: x in s.phase.replies ==> s.phase.replies[x] == Listed(cfg, op, x))
    && s.agents[op.me.name].group == Some(EMPTY_GROUP.(params := Some(op.params)))
  }

  lemma ContactOne(cfg: Cfg, s: Sys, op: Join, m: string, x: string)
    requires Contact(cfg, s, op, m) && x in op.snapshot && x !in s.phase.replies
    ensures Enabled(cfg, s, Subscribe(x)) && Contact(cfg, Next(cfg, s, Subscribe(x)), op, m)
    ensures Next(cfg, s, Subscribe(x)).phase.replies.Keys == s.phase.replies.Keys + {x}
    ensures Next(cfg, s, Subscribe(x)).agents == s.agents
  {
    ContactReplies(cfg, s, op, m, x);
    ContactKept(cfg, s, op, m, x);
  }

  lemma ContactReplies(cfg: Cfg, s: Sys, op: Join, m: string, x: string)
    requires Contact(cfg, s, op, m) && x in op.snapshot && x !in s.phase.replies
    ensures Enabled(cfg, s, Subscribe(x)) && Next(cfg, s, Subscribe(x)) == Replied(s, x, Listed(cfg, op, x))
  {}

  lemma ContactKept(cfg: Cfg, s: Sys, op: Join, m: string, x: string)
    requires Contact(cfg, s, op, m) && x in op.snapshot
    ensures Contact(cfg, Replied(s, x, Listed(cfg, op, x)), op, m)
  {
    ContactSettled(cfg, s, op, x, Listed(cfg, op, x));
  }

  lemma ContactSettled(cfg: Cfg, s: Sys, op: Join, x: string, c: (bool, Bytes))
    requires Settled(cfg, s, op) && s.phase.Contacting? && s.phase.op == op
    ensures Settled(cfg, Replied(s, x, c), op)
  {}

  lemma {:induction false} ContactAll(cfg: Cfg, s0: Sys, s: Sys, op: Join, m: string) returns (t: Sys)
    requires Reaches(cfg, s0, s) && Contact(cfg, s, op, m)
    ensures Reaches(cfg, s0, t) && Contact(cfg, t, op, m) && t.phase.replies.Keys == op.snapshot.Keys
    ensures t.agents == s.agents
    decreases op.snapshot.Keys - s.phase.replies.Keys
  {
    t := s;
    if s.phase.replies.Keys != op.snapshot.Keys {
      var x := Missing(op.snapshot.Keys, s.phase.replies.Keys);
      ContactOne(cfg, s, op, m, x);
      OneMore(cfg, s0, s, Subscribe(x));
      t := ContactAll(cfg, s0, Next(cfg, s, Subscribe(x)), op, m);
    }
  }

  ghost predicate Wired(cfg: Cfg, s: Sys, op: Join, m: string) {
    && s.phase.Wiring? && s.phase.op == op && Settled(cfg, s, op) && Late(s, op, m)
    && s.phase.replies.Keys == op.snapshot.Keys && s.tails.Keys == op.snapshot.Keys
    && (forall x :: x in s.tails ==> !s.tails[x].connected)
    && (forall x :: x in s.phase.replies ==> s.phase.replies[x] == Listed(cfg, op, x))
    && s.phase.wired <= op.snapshot.Keys
    && s.agents[op.me.name].group == Some(EMPTY_GROUP.(params := Some(op.params)))
  }

  lemma WireOne(cfg: Cfg, s: Sys, op: Join, m: string, x: string)
    requires Wired(cfg, s, op, m) && x in op.snapshot && x !in s.phase.wired
    ensures Enabled(cfg, s, Wire(x)) && Wired(cfg, Next(cfg, s, Wire(x)), op, m)
    ensures Next(cfg, s, Wire(x)).phase.wired == s.phase.wired + {x}
    ensures Next(cfg, s, Wire(x)).agents[op.me.name].acks == s.agents[op.me.name].acks
  {
    WireSettled(cfg, s, op, x);
  }

  lemma WireSettled(cfg: Cfg, s: Sys, op: Join, x: string)
    requires Settled(cfg, s, op) && s.phase.Wiring? && s.phase.op == op && x in op.snapshot
    ensures Settled(cfg, DoWire(cfg, s, x), op)
    ensures DoWire(cfg, s, x).agents[op.me.name].group == s.agents[op.me.name].group
    ensures DoWire(cfg, s, x).agents[op.me.name].acks == s.agents[op.me.name].acks
  {}

  lemma {:induction false} WireAll(cfg: Cfg, s0: Sys, s: Sys, op: Join, m: string) returns (t: Sys)
    requires Reaches(cfg, s0, s) && Wired(cfg, s, op, m)
    ensures Reaches(cfg, s0, t) && Wired(cfg, t, op, m) && t.phase.wired == op.snapshot.Keys
    ensures t.agents[op.me.name].acks == s.agents[op.me.name].acks
    decreases op.snapshot.Keys - s.phase.wired
  {
    t := s;
    if s.phase.wired != op.snapshot.Keys {
      var x := Missing(op.snapshot.Keys, s.phase.wired);
      WireOne(cfg, s, op, m, x);
      OneMore(cfg, s0, s, Wire(x));
      t := WireAll(cfg, s0, Next(cfg, s, Wire(x)), op, m);
    }
  }

  /** The members in `done`, and m, have acked the joiner; only the handlers in `moved` have connected. */
  ghost predicate Welcomed(cfg: Cfg, s: Sys, op: Join, m: string, moved: set<string>, done: set<string>) {
    && s.phase.Greeting? && s.phase.op == op && Settled(cfg, s, op) && Late(s, op, m)
    && done <= moved <= op.snapshot.Keys && m !in moved && s.tails.Keys == op.snapshot.Keys
    && (forall x :: x in s.tails && x !in moved ==> !s.tails[x].connected)
    && (forall x :: x in done + {m} ==> cfg.endpoint(x) in s.agents[op.me.name].acks)
    && op.me.name in MembersOf(s.agents[op.me.name])
    && (forall x :: x in moved ==> s.agents[x].stateSubs > 0)
  }

  lemma CheckInstalls(cfg: Cfg, s: Sys, op: Join, m: string)
    requires Wired(cfg, s, op, m) && s.phase.wired == op.snapshot.Keys
    ensures Enabled(cfg, s, Check) && Next(cfg, s, Check) == DoInstall(cfg, s)
  {}

  lemma InstallSettled(cfg: Cfg, s: Sys, op: Join)
    requires Settled(cfg, s, op) && s.phase.Wiring? && s.phase.op == op
    ensures Settled(cfg, DoInstall(cfg, s), op)
    ensures op.me.name in MembersOf(DoInstall(cfg, s).agents[op.me.name])
    ensures DoInstall(cfg, s).agents[op.me.name].acks == s.agents[op.me.name].acks
  {}

  lemma CheckGoesOn(cfg: Cfg, s: Sys, op: Join, m: string)
    requires Wired(cfg, s, op, m) && s.phase.wired == op.snapshot.Keys && cfg.endpoint(m) in s.agents[op.me.name].acks
    ensures Enabled(cfg, s, Check) && Welcomed(cfg, Next(cfg, s, Check), op, m, {}, {})
  {
    CheckInstalls(cfg, s, op, m);
    InstallSettled(cfg, s, op);
  }

  lemma ConnectSettled(cfg: Cfg, s: Sys, op: Join, x: string)
    requires Settled(cfg, s, op) && x in s.tails && x in op.snapshot
    ensures Settled(cfg, DoTailConnect(cfg, s, x), op)
  {}

  /** Once connected, x is subscribed: it was already, or it is the only one listed. */
  lemma ConnectSubscribes(cfg: Cfg, s: Sys, op: Join, x: string)
    requires Settled(cfg, s, op) && x in s.tails && x in op.snapshot
    ensures DoTailConnect(cfg, s, x).agents[x].stateSubs > 0
    ensures forall y :: y in s.agents ==> DoTailConnect(cfg, s, x).agents[y].stateSubs >= s.agents[y].stateSubs
  {}

  lemma GreetConnect(cfg: Cfg, s: Sys, op: Join, m: string, done: set<string>, x: string)
    requires Welcomed(cfg, s, op, m, done, done) && x in op.snapshot && x !in done && x != m
    ensures Enabled(cfg, s, TailConnect(x))
    ensures var t := Next(cfg, s, TailConnect(x));
            Welcomed(cfg, t, op, m, done + {x}, done) && (x, op.me.name) in t.dialing
  {
    ConnectSettled(cfg, s, op, x);
    ConnectSubscribes(cfg, s, op, x);
  }

  lemma GreetEstablish(cfg: Cfg, s: Sys, op: Join, m: string, moved: set<string>, done: set<string>, x: string)
    requires Welcomed(cfg, s, op, m, moved, done) && (x, op.me.name) in s.dialing && x != m
    ensures Enabled(cfg, s, Establish(x, op.me.name))
    ensures var t := Next(cfg, s, Establish(x, op.me.name));
            Welcomed(cfg, t, op, m, moved, done) && (x, op.me.name) in t.links
  {}

  lemma GreetHello(cfg: Cfg, s: Sys, op: Join, m: string, moved: set<string>, done: set<string>, x: string)
    requires Welcomed(cfg, s, op, m, moved, done) && (x, op.me.name) in s.links && x in op.snapshot && x in moved
    ensures Enabled(cfg, s, HelloArrives(x))
    ensures var t := Next(cfg, s, HelloArrives(x)); Welcomed(cfg, t, op, m, moved, done) && x in t.phase.ackFlight
  {}

  lemma GreetAck(cfg: Cfg, s: Sys, op: Join, m: string, moved: set<string>, done: set<string>, x: string)
    requires Welcomed(cfg, s, op, m, moved, done) && x in s.phase.ackFlight && x in moved
    ensures Enabled(cfg, s, AckArrives(x))
    ensures Welcomed(cfg, Next(cfg, s, AckArrives(x)), op, m, moved, done + {x})
  {
    AckSettled(cfg, s, op, x);
  }

  lemma AckSettled(cfg: Cfg, s: Sys, op: Join, x: string)
    requires Settled(cfg, s, op) && s.phase.Greeting? && s.phase.op == op
    ensures Settled(cfg, DoAck(cfg, s, x), op)
    ensures forall y :: y in s.agents ==>
              DoAck(cfg, s, x).agents[y] ==
              if y == op.me.name then s.agents[y].(acks := s.agents[y].acks + {cfg.endpoint(x)}) else s.agents[y]
  {}

  lemma GreetOne(cfg: Cfg, s0: Sys, s: Sys, op: Join, m: string, done: set<string>, x: string) returns (t: Sys)
    requires Reaches(cfg, s0, s) && Welcomed(cfg, s, op, m, done, done) && x in op.snapshot && x !in done && x != m
    ensures Reaches(cfg, s0, t) && Welcomed(cfg, t, op, m, done + {x}, done + {x})
  {
    var j, moved := op.me.name, done + {x};
    GreetConnect(cfg, s, op, m, done, x);
    OneMore(cfg, s0, s, TailConnect(x));
    var s1 := Next(cfg, s, TailConnect(x));
    GreetEstablish(cfg, s1, op, m, moved, done, x);
    OneMore(cfg, s0, s1, Establish(x, j));
    var s2 := Next(cfg, s1, Establish(x, j));
    GreetHello(cfg, s2, op, m, moved, done, x);
    OneMore(cfg, s0, s2, HelloArrives(x));
    var s3 := Next(cfg, s2, HelloArrives(x));
    GreetAck(cfg, s3, op, m, moved, done, x);
    OneMore(cfg, s0, s3, AckArrives(x));
    t := Next(cfg, s3, AckArrives(x));
  }

  lemma {:induction false} GreetAll(cfg: Cfg, s0: Sys, s: Sys, op: Join, m: string, done: set<string>) returns (t: Sys)
    requires Reaches(cfg, s0, s) && Welcomed(cfg, s, op, m, done, done)
    ensures Reaches(cfg, s0, t) && AllButOne(cfg, t, op, m)
    decreases op.snapshot.Keys - done
  {
    t := s;
    if done != op.snapshot.Keys - {m} {
      var x := Missing(op.snapshot.Keys - {m}, done);
      t := GreetOne(cfg, s0, s, op, m, done, x);
      t := GreetAll(cfg, s0, t, op, m, done + {x});
    }
  }

  ghost predicate AllButOne(cfg: Cfg, s: Sys, op: Join, m: string) {
    Welcomed(cfg, s, op, m, op.snapshot.Keys - {m}, op.snapshot.Keys - {m})
  }

  lemma AnnounceMisses(cfg: Cfg, s: Sys, op: Join, m: string)
    requires AllButOne(cfg, s, op, m)
    ensures Enabled(cfg, s, Announce) && Diverged(Next(cfg, s, Announce), m, op.me.name)
  {}

  lemma GoesWrong(cfg: Cfg, s: Sys, op: Join, m: string)
    requires Contact(cfg, s, op, m) && cfg.endpoint(m) in s.agents[op.me.name].acks
    ensures exists t :: Reaches(cfg, s, t) && Diverged(t, m, op.me.name)
  {
    var t := ContactWires(cfg, s, op, m);
    CheckGoesOn(cfg, t, op, m);
    OneMore(cfg, s, t, Check);
    WelcomeGoesWrong(cfg, s, Next(cfg, t, Check), op, m);
  }

  lemma ContactWires(cfg: Cfg, s: Sys, op: Join, m: string) returns (t: Sys)
    requires Contact(cfg, s, op, m)
    ensures Reaches(cfg, s, t) && Wired(cfg, t, op, m) && t.phase.wired == op.snapshot.Keys
    ensures t.agents[op.me.name].acks == s.agents[op.me.name].acks
  {
    assert Path(cfg, s, [], s);
    t := ContactAll(cfg, s, s, op, m);
    OneMore(cfg, s, t, AllReplied);
    t := WireAll(cfg, s, Next(cfg, t, AllReplied), op, m);
  }

  lemma WelcomeGoesWrong(cfg: Cfg, s0: Sys, s: Sys, op: Join, m: string)
    requires Reaches(cfg, s0, s) && Welcomed(cfg, s, op, m, {}, {})
    ensures exists t :: Reaches(cfg, s0, t) && Diverged(t, m, op.me.name)
  {
    var t := GreetAll(cfg, s0, s, op, m, {});
    AnnounceMisses(cfg, t, op, m);
    OneMore(cfg, s0, t, Announce);
  }

  lemma JoinerSeesGroup(cfg: Cfg, s: Sys, g: Ideal, e: Step)
    requires Inv(cfg, s, g) && e.JoinStart? && Enabled(cfg, s, e)
    ensures e.a !in g.view && MembersOf(s.agents[e.acceptor]) == g.view
    ensures Next(cfg, s, e) == DoJoinStart(s, Record(cfg, e.a, e.publisher, e.inv), e.acceptor, g.params, g.view)
    ensures forall x :: x in g.view ==> x in s.agents && s.agents[x].group == GroupOf(cfg, g.view, g.params)
  {
    QuietAgent(cfg, s, g, e.acceptor);
    QuietAgent(cfg, s, g, e.a);
    forall x | x in g.view ensures x in s.agents && s.agents[x].group == GroupOf(cfg, g.view, g.params) {
      QuietAgent(cfg, s, g, x);
    }
  }

  lemma GroupSubscribed(cfg: Cfg, s: Sys, g: Ideal, x: string)
    requires Quiet(s) && AgentsOk(cfg, s, g) && WellKept(cfg, s, g.view) && |g.view| >= 2 && x in g.view
    ensures x in s.agents && s.agents[x].stateSubs > 0
  {
    assert |g.view.Keys| == |g.view|;
    var y := Missing(g.view.Keys, {x});
    assert y in MemberExpect(cfg, s, g, x).conns;
    assert Fine(cfg, s, g, x);
    MemberFits(cfg, s, g, x);
  }

  lemma JoinStartContacts(cfg: Cfg, s: Sys, g: Ideal, me: Member, acceptor: string, m: string)
    requires Quiet(s) && ConnsOk(s, g) && WellKept(cfg, s, g.view) && m in g.view
    requires |g.view| >= 2 ==> forall x :: x in g.view ==> s.agents[x].stateSubs > 0
    requires me.name in s.agents && me.name !in g.view && s.agents[me.name].group.None?
    requires forall x :: x in g.view ==> s.agents[x].group == GroupOf(cfg, g.view, g.params)
    ensures var t := DoJoinStart(s, me, acceptor, g.params, g.view); Contact(cfg, t, t.phase.op, m)
  {
    assert Conn(s, m, me.name) <==> ShouldConn(s, g, m, me.name);
  }

  lemma StaleContact(cfg: Cfg, s: Sys, g: Ideal, e: Step, m: string)
    requires Inv(cfg, s, g) && e.JoinStart? && Enabled(cfg, s, e) && m in g.view
    ensures e.acceptor in s.agents && MembersOf(s.agents[e.acceptor]) == g.view
    ensures Next(cfg, s, e).phase.Contacting?
    ensures var t := Next(cfg, s, e);
            Contact(cfg, t, t.phase.op, m) && t.agents[e.a].acks == s.agents[e.a].acks && t.phase.op.me.name == e.a
  {
    JoinerSeesGroup(cfg, s, g, e);
    if |g.view| >= 2 {
      forall x | x in g.view ensures s.agents[x].stateSubs > 0 {
        GroupSubscribed(cfg, s, g, x);
      }
    }
    JoinStartContacts(cfg, s, g, Record(cfg, e.a, e.publisher, e.inv), e.acceptor, m);
  }

  lemma FreshIsSafe(cfg: Cfg, s: Sys, g: Ideal, e: Step, t: Sys, m: string)
    requires Inv(cfg, s, g) && e.JoinStart? && Enabled(cfg, s, e) && FreshAcks(s, e) && Reaches(cfg, Next(cfg, s, e), t)
    ensures !Diverged(t, m, e.a)
  {
    InvStep(cfg, s, g, e);
    var steps :| Path(cfg, Next(cfg, s, e), steps, t);
    var g' := PathKeepsInv(cfg, Next(cfg, s, e), IdealNext(cfg, g, s, e), steps, t);
    NotDiverged(cfg, t, g', m, e.a);
  }

  lemma StaleIsNot(cfg: Cfg, s: Sys, g: Ideal, e: Step)
    requires Inv(cfg, s, g) && e.JoinStart? && Enabled(cfg, s, e) && !FreshAcks(s, e)
    ensures exists t, m :: Reaches(cfg, Next(cfg, s, e), t) && Diverged(t, m, e.a)
  {
    JoinerSeesGroup(cfg, s, g, e);
    var m :| m in g.view && g.view[m].pubEndpoint in s.agents[e.a].acks;
    StaleContact(cfg, s, g, e, m);
    GoesWrong(cfg, Next(cfg, s, e), Next(cfg, s, e).phase.op, m);
  }

  /** Exactly when a join is safe: in a group that is in order, no interleaving of this join's messages ends
      with a member that does not know the joiner, if and only if no member the acceptor lists has acked
      this agent before. */
  lemma SafeExactlyWhenFresh(cfg: Cfg, s: Sys, g: Ideal, e: Step)
    requires Inv(cfg, s, g) && e.JoinStart? && Enabled(cfg, s, e)
    ensures FreshAcks(s, e) <==>
            forall t, m :: Reaches(cfg, Next(cfg, s, e), t) ==> !Diverged(t, m, e.a)
  {
    if FreshAcks(s, e) {
      forall t, m | Reaches(cfg, Next(cfg, s, e), t) ensures !Diverged(t, m, e.a) {
        FreshIsSafe(cfg, s, g, e, t, m);
      }
    } else {
      StaleIsNot(cfg, s, g, e);
    }
  }

  // ---- coming back ----

  lemma AcksKept(cfg: Cfg, s: Sys, e: Step, a: string)
    requires Enabled(cfg, s, e) && a in s.agents
    ensures a in Next(cfg, s, e).agents && s.agents[a].acks <= Next(cfg, s, e).agents[a].acks
  {}

  lemma {:induction false} AcksNeverForgotten(cfg: Cfg, states: seq<Sys>, steps: seq<Step>, k: nat, i: nat, a: string)
    requires Run(cfg, states, steps) && k <= i <= |steps| && a in states[k].agents
    ensures a in states[i].agents && states[k].agents[a].acks <= states[i].agents[a].acks
  {
    if k < i {
      AcksNeverForgotten(cfg, states, steps, k, i - 1, a);
      RunStep(cfg, states, steps, i);
      AcksKept(cfg, states[i - 1], steps[i - 1], a);
    }
  }

  /** An agent that has announced itself to m once can never again join safely while the acceptor lists m at
      the same endpoint. */
  lemma RejoinIsStale(cfg: Cfg, states: seq<Sys>, steps: seq<Step>, k: nat, i: nat, m: string)
    requires Run(cfg, states, steps) && k < i < |steps| && steps[k].Announce? && steps[i].JoinStart?
    requires states[k].phase.Greeting? && m in states[k].phase.op.snapshot && states[k].phase.op.me.name == steps[i].a
    requires steps[i].acceptor in states[i].agents
    requires var listed := MembersOf(states[i].agents[steps[i].acceptor]);
             m in listed && listed[m].pubEndpoint == states[k].phase.op.snapshot[m].pubEndpoint
    ensures !FreshAcks(states[i], steps[i])
  {
    RunStep(cfg, states, steps, k + 1);
    AcksNeverForgotten(cfg, states, steps, k, i, steps[i].a);
  }
}
