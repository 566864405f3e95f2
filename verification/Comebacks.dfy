/** Runs that show the two weak points of coming back: acks and timestamps left over from an earlier
    membership. They exist for any two agents and any surroundings. */
module Comebacks {
  import opened Common
  import opened Validator
  import opened GroupStore
  import opened AgentState
  import opened Membership
  import opened MembershipOperations
  import opened MembershipTheorems
  import opened MembershipProgress
  import opened StaleAcks

  /** s ends a run in which every join found fresh acks. */
  ghost predicate Reachable(cfg: Cfg, s: Sys) {
    exists states, steps :: Run(cfg, states, steps) && FreshRun(cfg, states, steps) && states[|steps|] == s
  }

  lemma ReachableAtFirst(cfg: Cfg, s: Sys)
    requires Init(cfg, s)
    ensures Reachable(cfg, s)
  {
    assert Run(cfg, [s], []) && FreshRun(cfg, [s], []);
  }

  lemma LongerRun(cfg: Cfg, states: seq<Sys>, steps: seq<Step>, e: Step)
    requires Run(cfg, states, steps) && FreshRun(cfg, states, steps)
    requires Enabled(cfg, states[|steps|], e) && FreshAcks(states[|steps|], e)
    ensures var states', steps' := states + [Next(cfg, states[|steps|], e)], steps + [e];
            Run(cfg, states', steps') && FreshRun(cfg, states', steps')
  {
    var states', steps' := states + [Next(cfg, states[|steps|], e)], steps + [e];
    forall i | 0 <= i < |steps'| ensures StepAt(cfg, states', steps', i) && FreshAcks(states'[i], steps'[i]) {
      if i < |steps| {
        StepThere(cfg, states, steps, e, i);
      }
    }
  }

  lemma StepThere(cfg: Cfg, states: seq<Sys>, steps: seq<Step>, e: Step, i: nat)
    requires Run(cfg, states, steps) && FreshRun(cfg, states, steps) && i < |steps|
    requires Enabled(cfg, states[|steps|], e)
    ensures StepAt(cfg, states + [Next(cfg, states[|steps|], e)], steps + [e], i) && FreshAcks(states[i], steps[i])
  {
    assert StepAt(cfg, states, steps, i);
  }

  lemma ReachableNext(cfg: Cfg, s: Sys, e: Step)
    requires Reachable(cfg, s) && Enabled(cfg, s, e) && FreshAcks(s, e)
    ensures Reachable(cfg, Next(cfg, s, e))
  {
    var states, steps :| Run(cfg, states, steps) && FreshRun(cfg, states, steps) && states[|steps|] == s;
    LongerRun(cfg, states, steps, e);
    assert (states + [Next(cfg, s, e)])[|steps + [e]|] == Next(cfg, s, e);
  }

  lemma {:induction false} ReachablePath(cfg: Cfg, s: Sys, steps: seq<Step>, t: Sys)
    requires Reachable(cfg, s) && Path(cfg, s, steps, t)
    ensures Reachable(cfg, t)
    decreases |steps|
  {
    if |steps| > 0 {
      ReachableNext(cfg, s, steps[0]);
      ReachablePath(cfg, Next(cfg, s, steps[0]), steps[1..], t);
    }
  }

  /** b has a's ack, or is joining a group that lists a and will not announce itself without it. */
  ghost predicate Acquainted(s: Sys, a: string, b: string, ep: string) {
    && b in s.agents
    && (ep in s.agents[b].acks
        || (Joining(s) && s.phase.op.me.name == b && a in s.phase.op.snapshot
            && s.phase.op.snapshot[a].pubEndpoint == ep))
  }

  lemma AcquaintedStep(cfg: Cfg, s: Sys, g: Ideal, e: Step, a: string, b: string, ep: string)
    requires Inv(cfg, s, g) && Enabled(cfg, s, e) && !StartsOperation(e) && Acquainted(s, a, b, ep)
    ensures Acquainted(Next(cfg, s, e), a, b, ep)
  {
    AcksKept(cfg, s, e, b);
    if e.Check? {
      OpChecked(cfg, s, g);
    } else if !e.Announce? {
      OpKept(cfg, s, e);
    }
  }

  lemma {:induction false} AcquaintedPath(cfg: Cfg, s: Sys, g: Ideal, steps: seq<Step>, t: Sys, a: string, b: string,
                                          ep: string)
    requires Inv(cfg, s, g) && Path(cfg, s, steps, t) && Acquainted(s, a, b, ep)
    ensures Acquainted(t, a, b, ep)
    decreases |steps|
  {
    if |steps| > 0 {
      InvStep(cfg, s, g, steps[0]);
      AcquaintedStep(cfg, s, g, steps[0], a, b, ep);
      AcquaintedPath(cfg, Next(cfg, s, steps[0]), IdealNext(cfg, g, s, steps[0]), steps[1..], t, a, b, ep);
    }
  }

  /** What the runs below keep track of: where they are, and that everything is in order there. */
  ghost predicate At(cfg: Cfg, s: Sys, g: Ideal) {
    Reachable(cfg, s) && Inv(cfg, s, g) && AcksComing(cfg, s)
  }

  lemma Go(cfg: Cfg, s: Sys, g: Ideal, e: Step)
    requires At(cfg, s, g) && Enabled(cfg, s, e) && FreshAcks(s, e)
    ensures At(cfg, Next(cfg, s, e), IdealNext(cfg, g, s, e))
  {
    ReachableNext(cfg, s, e);
    InvStep(cfg, s, g, e);
    AcksComingStep(cfg, s, e);
  }

  lemma GoTo(cfg: Cfg, s: Sys, g: Ideal, e: Step, t: Sys, g': Ideal)
    requires At(cfg, s, g) && Enabled(cfg, s, e) && FreshAcks(s, e)
    requires t == Next(cfg, s, e) && g' == IdealNext(cfg, g, s, e)
    ensures At(cfg, t, g')
  {
    Go(cfg, s, g, e);
  }

  lemma Finish(cfg: Cfg, s: Sys, g: Ideal) returns (t: Sys, g': Ideal)
    requires At(cfg, s, g)
    ensures At(cfg, t, g') && Quiet(t) && g'.view == EndView(s, g) && g'.params == g.params && Reaches(cfg, s, t)
  {
    assert Path(cfg, s, [], s);
    t, g' := Finishes(cfg, s, s, g);
    var steps :| Path(cfg, s, steps, t);
    ReachablePath(cfg, s, steps, t);
  }

  lemma {:induction false} AgentsKept(cfg: Cfg, s: Sys, steps: seq<Step>, t: Sys)
    requires Path(cfg, s, steps, t)
    ensures t.agents.Keys == s.agents.Keys
    decreases |steps|
  {
    if |steps| > 0 {
      AgentsStay(cfg, s, steps[0]);
      AgentsKept(cfg, Next(cfg, s, steps[0]), steps[1..], t);
    }
  }

  lemma CanCreate(cfg: Cfg, s: Sys, g: Ideal, a: string, p: Params)
    requires Inv(cfg, s, g) && Quiet(s) && g.view == map[] && a in s.agents && ValidMode(p.mode)
    ensures var e := Create(a, true, "", p);
            && Enabled(cfg, s, e) && FreshAcks(s, e)
            && Next(cfg, s, e) == DoCreate(cfg, s, Record(cfg, a, true, ""), p)
            && IdealNext(cfg, g, s, e).view == map[a := Record(cfg, a, true, "")] && IdealNext(cfg, g, s, e).params == p
  {
    forall b | b in s.agents ensures s.agents[b].group.None? {
      QuietAgent(cfg, s, g, b);
    }
  }

  lemma CreateEffect(cfg: Cfg, s: Sys, me: Member, p: Params)
    requires Quiet(s) && me.name in s.agents
    ensures var t := DoCreate(cfg, s, me, p);
            && Quiet(t) && t.agents.Keys == s.agents.Keys
            && t.agents[me.name].ordered == (s.agents[me.name].ordered || p.orderEnabled)
            && forall b :: b in s.agents && b != me.name ==> t.agents[b] == s.agents[b]
  {}

  /** An agent alone in a new group. */
  lemma AfterCreate(cfg: Cfg, s: Sys, g: Ideal, a: string, p: Params) returns (t: Sys, g': Ideal)
    requires At(cfg, s, g) && Quiet(s) && g.view == map[] && a in s.agents && ValidMode(p.mode)
    ensures At(cfg, t, g') && Quiet(t) && g'.view.Keys == {a} && g'.params == p
    ensures t.agents.Keys == s.agents.Keys
    ensures t.agents[a].ordered == (s.agents[a].ordered || p.orderEnabled)
    ensures forall b :: b in s.agents && b != a ==> t.agents[b] == s.agents[b]
  {
    t, g' := CreateAt(cfg, s, g, a, p);
    CreateEffect(cfg, s, Record(cfg, a, true, ""), p);
  }

  lemma CreateAt(cfg: Cfg, s: Sys, g: Ideal, a: string, p: Params) returns (t: Sys, g': Ideal)
    requires At(cfg, s, g) && Quiet(s) && g.view == map[] && a in s.agents && ValidMode(p.mode)
    ensures t == DoCreate(cfg, s, Record(cfg, a, true, ""), p) && At(cfg, t, g') && g'.view.Keys == {a}
    ensures g'.params == p
  {
    var e := Create(a, true, "", p);
    CanCreate(cfg, s, g, a, p);
    t, g' := DoCreate(cfg, s, Record(cfg, a, true, ""), p), IdealNext(cfg, g, s, e);
    GoTo(cfg, s, g, e, t, g');
  }

  lemma JoinStartEffect(s: Sys, me: Member, acceptor: string, g: Ideal)
    requires Quiet(s) && me.name in s.agents && me.name !in g.view
    ensures var t := DoJoinStart(s, me, acceptor, g.params, g.view);
            && EndView(t, g) == g.view[me.name := me]
            && forall m :: m in g.view ==> Acquainted(t, m, me.name, g.view[m].pubEndpoint)
  {}

  lemma JoinStartKeeps(s: Sys, me: Member, acceptor: string, g: Ideal)
    requires me.name in s.agents
    ensures var t := DoJoinStart(s, me, acceptor, g.params, g.view);
            && t.agents.Keys == s.agents.Keys
            && (forall a :: a in s.agents && a != me.name ==> t.agents[a] == s.agents[a])
            && t.agents[me.name].ordered == (s.agents[me.name].ordered || g.params.orderEnabled)
  {}

  /** ... is contacted by another that has not met it, ... */
  lemma JoinOpens(cfg: Cfg, s: Sys, g: Ideal, a: string, b: string) returns (t: Sys)
    requires At(cfg, s, g) && Quiet(s) && g.view.Keys == {a} && b in s.agents && b != a
    requires s.agents[b].acks == {}
    ensures At(cfg, t, g) && EndView(t, g).Keys == {a, b} && Acquainted(t, a, b, cfg.endpoint(a))
    ensures t.agents.Keys == s.agents.Keys && a in t.agents
    ensures t.agents[a].ordered == s.agents[a].ordered
    ensures t.agents[b].ordered == (s.agents[b].ordered || g.params.orderEnabled)
  {
    assert a in g.view;
    t := DoJoinStart(s, Record(cfg, b, true, ""), a, g.params, g.view);
    JoinStartAt(cfg, s, g, a, b);
    JoinStartEffect(s, Record(cfg, b, true, ""), a, g);
    JoinStartKeeps(s, Record(cfg, b, true, ""), a, g);
  }

  lemma JoinStartAt(cfg: Cfg, s: Sys, g: Ideal, a: string, b: string)
    requires At(cfg, s, g) && Quiet(s) && a in g.view && b !in g.view && b in s.agents && s.agents[b].acks == {}
    ensures a in s.agents && g.view[a].pubEndpoint == cfg.endpoint(a)
    ensures At(cfg, DoJoinStart(s, Record(cfg, b, true, ""), a, g.params, g.view), g)
  {
    CanJoin(cfg, s, g, a, b);
    GoTo(cfg, s, g, JoinStart(b, a, true, ""), DoJoinStart(s, Record(cfg, b, true, ""), a, g.params, g.view), g);
  }

  lemma CanJoin(cfg: Cfg, s: Sys, g: Ideal, a: string, b: string)
    requires Inv(cfg, s, g) && Quiet(s) && a in g.view && b !in g.view && b in s.agents
    ensures var e := JoinStart(b, a, true, "");
            && a in s.agents && Enabled(cfg, s, e) && IdealNext(cfg, g, s, e) == g
            && Next(cfg, s, e) == DoJoinStart(s, Record(cfg, b, true, ""), a, g.params, g.view)
            && (s.agents[b].acks == {} ==> FreshAcks(s, e))
    ensures g.view[a].pubEndpoint == cfg.endpoint(a)
  {
    QuietAgent(cfg, s, g, a);
    QuietAgent(cfg, s, g, b);
  }

  /** ... which then joins. */
  lemma AfterJoin(cfg: Cfg, s: Sys, g: Ideal, a: string, b: string) returns (t: Sys, g': Ideal)
    requires At(cfg, s, g) && Quiet(s) && g.view.Keys == {a} && b in s.agents && b != a
    requires s.agents[b].acks == {}
    ensures At(cfg, t, g') && Quiet(t) && g'.view.Keys == {a, b} && g'.params == g.params
    ensures t.agents.Keys == s.agents.Keys && a in t.agents && cfg.endpoint(a) in t.agents[b].acks
    ensures t.agents[a].ordered == s.agents[a].ordered
    ensures t.agents[b].ordered == (s.agents[b].ordered || g.params.orderEnabled)
  {
    var s1 := JoinOpens(cfg, s, g, a, b);
    t, g' := Finish(cfg, s1, g);
    Kept(cfg, s1, t);
    KeptAcquaintance(cfg, s1, g, t, a, b, cfg.endpoint(a));
  }

  lemma KeptAcquaintance(cfg: Cfg, s: Sys, g: Ideal, t: Sys, a: string, b: string, ep: string)
    requires Inv(cfg, s, g) && Reaches(cfg, s, t) && Acquainted(s, a, b, ep)
    ensures Acquainted(t, a, b, ep)
  {
    var steps :| Path(cfg, s, steps, t);
    AcquaintedPath(cfg, s, g, steps, t, a, b, ep);
  }

  /** Finishing an operation starts no membership: agents and their timestamps stay, and so do acks outside
      joins. */
  lemma Kept(cfg: Cfg, s: Sys, t: Sys)
    requires Reaches(cfg, s, t)
    ensures t.agents.Keys == s.agents.Keys
    ensures forall a :: a in s.agents ==> t.agents[a].ordered == s.agents[a].ordered
    ensures s.phase.Idle? ==> forall a :: a in s.agents ==> t.agents[a].acks == s.agents[a].acks
  {
    var steps :| Path(cfg, s, steps, t);
    AgentsKept(cfg, s, steps, t);
    forall a | a in s.agents
      ensures t.agents[a].ordered == s.agents[a].ordered
      ensures s.phase.Idle? ==> t.agents[a].acks == s.agents[a].acks {
      OrderedPath(cfg, s, steps, t, a);
      if s.phase.Idle? {
        IdlePath(cfg, s, steps, t, a);
      }
    }
  }

  lemma {:induction false} OrderedPath(cfg: Cfg, s: Sys, steps: seq<Step>, t: Sys, a: string)
    requires Path(cfg, s, steps, t) && a in s.agents
    ensures a in t.agents && t.agents[a].ordered == s.agents[a].ordered && t.stale == s.stale
    decreases |steps|
  {
    if |steps| > 0 {
      OrderedKept(cfg, s, steps[0], a);
      OrderedPath(cfg, Next(cfg, s, steps[0]), steps[1..], t, a);
    }
  }

  /** A member leaves, ... */
  lemma Leaving(cfg: Cfg, s: Sys, g: Ideal, b: string) returns (t: Sys, g': Ideal)
    requires At(cfg, s, g) && Quiet(s) && b in g.view
    ensures b in s.agents && At(cfg, t, g') && t.phase.Idle? && g'.view == g.view - {b} && g'.params == g.params
    ensures t.agents.Keys == s.agents.Keys
    ensures forall a :: a in s.agents ==>
              t.agents[a].ordered == s.agents[a].ordered && t.agents[a].acks == s.agents[a].acks
  {
    t, g' := DoLeave(cfg, s, b), Gone(g, b);
    CanLeave(cfg, s, g, b);
    GoTo(cfg, s, g, Leave(b), t, g');
    LeaveKeeps(cfg, s, b);
  }

  lemma CanLeave(cfg: Cfg, s: Sys, g: Ideal, b: string)
    requires Inv(cfg, s, g) && Quiet(s) && b in g.view
    ensures b in s.agents && Enabled(cfg, s, Leave(b)) && FreshAcks(s, Leave(b))
    ensures Next(cfg, s, Leave(b)) == DoLeave(cfg, s, b) && IdealNext(cfg, g, s, Leave(b)) == Gone(g, b)
  {
    QuietAgent(cfg, s, g, b);
  }

  lemma LeaveKeeps(cfg: Cfg, s: Sys, b: string)
    requires Quiet(s) && b in s.agents
    ensures var t := DoLeave(cfg, s, b);
            && t.phase.Idle? && t.agents.Keys == s.agents.Keys
            && forall a :: a in s.agents ==>
               t.agents[a].ordered == s.agents[a].ordered && t.agents[a].acks == s.agents[a].acks
  {}

  /** ... and everybody learns of it. */
  lemma AfterLeave(cfg: Cfg, s: Sys, g: Ideal, b: string) returns (t: Sys, g': Ideal)
    requires At(cfg, s, g) && Quiet(s) && b in g.view
    ensures b in s.agents && At(cfg, t, g') && Quiet(t) && g'.view == g.view - {b} && g'.params == g.params
    ensures t.agents.Keys == s.agents.Keys
    ensures forall a :: a in s.agents ==>
              t.agents[a].ordered == s.agents[a].ordered && t.agents[a].acks == s.agents[a].acks
  {
    var s1, g1 := Leaving(cfg, s, g, b);
    t, g' := Finish(cfg, s1, g1);
    Kept(cfg, s1, t);
  }

  /** Between joins nobody's acks change. */
  lemma IdleStep(cfg: Cfg, s: Sys, e: Step, a: string)
    requires s.phase.Idle? && a in s.agents && Enabled(cfg, s, e) && !StartsOperation(e)
    ensures Next(cfg, s, e).phase.Idle? && a in Next(cfg, s, e).agents
    ensures Next(cfg, s, e).agents[a].acks == s.agents[a].acks
  {}

  lemma {:induction false} IdlePath(cfg: Cfg, s: Sys, steps: seq<Step>, t: Sys, a: string)
    requires s.phase.Idle? && a in s.agents && Path(cfg, s, steps, t)
    ensures a in t.agents && t.agents[a].acks == s.agents[a].acks
    decreases |steps|
  {
    if |steps| > 0 {
      IdleStep(cfg, s, steps[0], a);
      IdlePath(cfg, Next(cfg, s, steps[0]), steps[1..], t, a);
    }
  }

  lemma Start(cfg: Cfg, s: Sys)
    requires Init(cfg, s)
    ensures At(cfg, s, NOBODY) && Quiet(s)
  {
    ReachableAtFirst(cfg, s);
    InitInv(cfg, s);
  }

  /** Two agents that have been in a group together, which one of them has left. */
  lemma Parted(cfg: Cfg, s0: Sys, a: string, b: string) returns (s: Sys, g: Ideal)
    requires Init(cfg, s0) && a in s0.agents && b in s0.agents && a != b
    ensures At(cfg, s, g) && Quiet(s) && a in g.view && b !in g.view && b in s.agents
    ensures cfg.endpoint(a) in s.agents[b].acks
  {
    var s2, g2 := Together(cfg, s0, a, b);
    s, g := AfterLeave(cfg, s2, g2, b);
  }

  lemma Together(cfg: Cfg, s0: Sys, a: string, b: string) returns (s: Sys, g: Ideal)
    requires Init(cfg, s0) && a in s0.agents && b in s0.agents && a != b
    ensures At(cfg, s, g) && Quiet(s) && g.view.Keys == {a, b} && b in s.agents && cfg.endpoint(a) in s.agents[b].acks
  {
    Start(cfg, s0);
    var s1, g1 := AfterCreate(cfg, s0, NOBODY, a, Params(false, true, SINGLE_QUEUE));
    s, g := AfterJoin(cfg, s1, g1, a, b);
  }

  /** A join that goes wrong. Any two agents a and b: a creates a group, b joins it, leaves it and joins it
      again. Nothing before the second join is out of order, yet it does not find fresh acks, and one
      interleaving of its messages leaves a without b for good. */
  lemma ReturnCanGoWrong(cfg: Cfg, s0: Sys, a: string, b: string)
    requires Init(cfg, s0) && a in s0.agents && b in s0.agents && a != b
    ensures exists s, t :: Reachable(cfg, s) && Quiet(s) && Enabled(cfg, s, JoinStart(b, a, true, "")) &&
                           !FreshAcks(s, JoinStart(b, a, true, "")) &&
                           Reaches(cfg, Next(cfg, s, JoinStart(b, a, true, "")), t) && Diverged(t, a, b)
  {
    var s, g := Parted(cfg, s0, a, b);
    SecondJoin(cfg, s, g, a, b);
  }

  lemma SecondJoin(cfg: Cfg, s: Sys, g: Ideal, a: string, b: string)
    requires At(cfg, s, g) && Quiet(s) && a in g.view && b !in g.view && b in s.agents
    requires cfg.endpoint(a) in s.agents[b].acks
    ensures Enabled(cfg, s, JoinStart(b, a, true, "")) && !FreshAcks(s, JoinStart(b, a, true, ""))
    ensures exists t :: Reaches(cfg, Next(cfg, s, JoinStart(b, a, true, "")), t) && Diverged(t, a, b)
  {
    var e := JoinStart(b, a, true, "");
    QuietAgent(cfg, s, g, a);
    QuietAgent(cfg, s, g, b);
    StaleContact(cfg, s, g, e, a);
    GoesWrong(cfg, Next(cfg, s, e), Next(cfg, s, e).phase.op, a);
  }

  lemma OrderedAlone(cfg: Cfg, s0: Sys, a: string, b: string) returns (s: Sys, g: Ideal)
    requires Init(cfg, s0) && a in s0.agents && b in s0.agents && a != b
    ensures At(cfg, s, g) && Quiet(s) && g.view.Keys == {a} && a in s.agents && b in s.agents
    ensures s.agents[a].ordered && s.agents[b] == BLANK
  {
    Start(cfg, s0);
    s, g := AfterCreate(cfg, s0, NOBODY, a, Params(true, true, SINGLE_QUEUE));
  }

  /** An agent that has created an ordered group and left it keeps its timestamp. */
  lemma Leftover(cfg: Cfg, s0: Sys, a: string, b: string) returns (s: Sys, g: Ideal)
    requires Init(cfg, s0) && a in s0.agents && b in s0.agents && a != b
    ensures At(cfg, s, g) && Quiet(s) && g.view == map[] && a in s.agents && b in s.agents
    ensures s.agents[a].ordered && !s.agents[b].ordered && s.agents[b].acks == {}
  {
    var s1, g1 := OrderedAlone(cfg, s0, a, b);
    assert a in g1.view;
    s, g := AfterLeave(cfg, s1, g1, a);
    assert g.view.Keys == {};
  }

  lemma Mixed(cfg: Cfg, s0: Sys, a: string, b: string) returns (t: Sys, g: Ideal)
    requires Init(cfg, s0) && a in s0.agents && b in s0.agents && a != b
    ensures At(cfg, t, g) && Quiet(t) && g.view.Keys == {a, b} && a in t.agents && b in t.agents
    ensures t.agents[a].ordered && !t.agents[b].ordered
  {
    var s2, g2 := Leftover(cfg, s0, a, b);
    var s3, g3 := AfterCreate(cfg, s2, g2, a, Params(false, true, SINGLE_QUEUE));
    t, g := AfterJoin(cfg, s3, g3, a, b);
  }

  /** Members that disagree about the ordering envelope: a creates an ordered group and leaves it, then
      creates an unordered one, which b joins. */
  lemma OrderingCanDiffer(cfg: Cfg, s0: Sys, a: string, b: string)
    requires Init(cfg, s0) && a in s0.agents && b in s0.agents && a != b
    ensures exists t :: Reachable(cfg, t) && Quiet(t) && a in t.agents && b in t.agents &&
                        t.agents[a].group.Some? && t.agents[b].group == t.agents[a].group &&
                        t.agents[a].ordered && !t.agents[b].ordered
  {
    var t, g := Mixed(cfg, s0, a, b);
    QuietAgent(cfg, t, g, a);
    QuietAgent(cfg, t, g, b);
  }
}
