/** Operations finish: nothing a join or leave has started can get stuck, and, hellos repeated to the same
    member aside, nothing goes on for ever. */
module MembershipProgress {
  import opened Common
  import opened Validator
  import opened GroupStore
  import opened AgentState
  import opened Membership
  import opened MembershipTheorems
  import opened MembershipOperations
  import opened StaleAcks

  /** A step that brings the running operation forward. */
  ghost predicate Useful(s: Sys, e: Step) {
    !StartsOperation(e) && !(e.HelloArrives? && s.phase.Greeting? && e.m in s.phase.heard)
  }

  /** Whoever has heard a hello has its ack on the way, or already stored. */
  ghost predicate AcksComing(cfg: Cfg, s: Sys) {
    s.phase.Greeting? && s.phase.op.me.name in s.agents ==>
      forall m :: m in s.phase.heard ==> m in s.phase.ackFlight || cfg.endpoint(m) in s.agents[s.phase.op.me.name].acks
  }

  lemma AcksComingStep(cfg: Cfg, s: Sys, e: Step)
    requires AcksComing(cfg, s) && Enabled(cfg, s, e)
    ensures AcksComing(cfg, Next(cfg, s, e))
  {}

  // ---- something can always move ----

  lemma ContactingMoves(cfg: Cfg, s: Sys, g: Ideal) returns (e: Step)
    requires Context(cfg, s, g) && s.phase.Contacting?
    ensures Enabled(cfg, s, e) && Useful(s, e)
  {
    if forall m :: m in s.phase.op.snapshot && s.phase.op.snapshot[m].active ==> m in s.phase.replies {
      e := AllReplied;
    } else {
      var m :| m in s.phase.op.snapshot && s.phase.op.snapshot[m].active && m !in s.phase.replies;
      e := Subscribe(m);
    }
  }

  lemma WiringMoves(cfg: Cfg, s: Sys, g: Ideal) returns (e: Step)
    requires Context(cfg, s, g) && s.phase.Wiring?
    ensures Enabled(cfg, s, e) && Useful(s, e)
  {
    if forall m :: m in s.phase.op.snapshot && s.phase.op.snapshot[m].active ==> m in s.phase.wired {
      e := Check;
    } else {
      var m :| m in s.phase.op.snapshot && s.phase.op.snapshot[m].active && m !in s.phase.wired;
      e := Wire(m);
    }
  }

  lemma GreetingMoves(cfg: Cfg, s: Sys, g: Ideal) returns (e: Step)
    requires Context(cfg, s, g) && ConnsOk(s, g) && AgentsOk(cfg, s, g) && AcksComing(cfg, s) && s.phase.Greeting?
    ensures Enabled(cfg, s, e) && Useful(s, e)
  {
    var j := s.phase.op.me.name;
    if forall m :: m in s.phase.op.snapshot ==> s.phase.op.snapshot[m].pubEndpoint in s.agents[j].acks {
      e := Announce;
    } else {
      var m :| m in s.phase.op.snapshot && s.phase.op.snapshot[m].pubEndpoint !in s.agents[j].acks;
      assert Conn(s, m, j) <==> ShouldConn(s, g, m, j);
      if m in s.phase.heard {
        e := AckArrives(m);
      } else if m in s.tails && !s.tails[m].connected {
        e := TailConnect(m);
      } else if (m, j) in s.dialing {
        e := Establish(m, j);
      } else {
        MemberHearsJoiner(cfg, s, g, m);
        e := HelloArrives(m);
      }
    }
  }

  lemma IdleMoves(cfg: Cfg, s: Sys, g: Ideal) returns (e: Step)
    requires Context(cfg, s, g) && AgentsOk(cfg, s, g) && s.phase.Idle? && !Quiet(s)
    ensures Enabled(cfg, s, e) && Useful(s, e)
  {
    if s.tails != map[] {
      var m :| m in s.tails;
      e := if s.tails[m].connected then TailAdd(m) else TailConnect(m);
    } else if s.status != map[] {
      var m :| m in s.status;
      StatusHeard(cfg, s, g, m);
      e := Deliver(m);
    } else {
      var c :| c in s.dialing;
      e := Establish(c.0, c.1);
    }
  }

  /** No operation is ever stuck. */
  lemma Progress(cfg: Cfg, s: Sys, g: Ideal) returns (e: Step)
    requires Inv(cfg, s, g) && AcksComing(cfg, s) && !Quiet(s)
    ensures Enabled(cfg, s, e) && Useful(s, e)
  {
    match s.phase
    case Idle => e := IdleMoves(cfg, s, g);
    case Contacting(_, _) => e := ContactingMoves(cfg, s, g);
    case Wiring(_, _, _) => e := WiringMoves(cfg, s, g);
    case Greeting(_, _, _) => e := GreetingMoves(cfg, s, g);
    case Aborted(_) => assert false;
  }

  // ---- and not for ever ----

  /** What is left to do, most significant first. */
  datatype Work = Work(stage: nat, members: nat, unconnected: nat, tails: nat, acks: nat, statuses: nat, dials: nat) {
    predicate LessThan(w: Work) {
      || stage < w.stage
      || (stage == w.stage && members < w.members)
      || (stage == w.stage && members == w.members && unconnected < w.unconnected)
      || (stage == w.stage && members == w.members && unconnected == w.unconnected && tails < w.tails)
      || (stage == w.stage && members == w.members && unconnected == w.unconnected && tails == w.tails && acks < w.acks)
      || (stage == w.stage && members == w.members && unconnected == w.unconnected && tails == w.tails && acks == w.acks
          && statuses < w.statuses)
      || (stage == w.stage && members == w.members && unconnected == w.unconnected && tails == w.tails && acks == w.acks
          && statuses == w.statuses && dials < w.dials)
    }
  }

  function Stage(ph: Phase): nat {
    match ph
    case Contacting(_, _) => 3
    case Wiring(_, _, _) => 2
    case Greeting(_, _, _) => 1
    case _ => 0
  }

  /** The members the running stage still has to deal with. */
  function Remaining(ph: Phase): set<string> {
    match ph
    case Contacting(op, replies) => op.snapshot.Keys - replies.Keys
    case Wiring(op, _, wired) => op.snapshot.Keys - wired
    case Greeting(op, heard, _) => op.snapshot.Keys - heard
    case _ => {}
  }

  function Unconnected(s: Sys): set<string> {
    set m | m in s.tails && !s.tails[m].connected
  }

  function InFlight(ph: Phase): set<string> {
    if ph.Greeting? then ph.ackFlight else {}
  }

  function WorkLeft(s: Sys): Work {
    Work(Stage(s.phase), |Remaining(s.phase)|, |Unconnected(s)|, |s.tails.Keys|, |InFlight(s.phase)|,
         |s.status.Keys|, |s.dialing|)
  }

  lemma {:induction false} Fewer<T>(a: set<T>, b: set<T>, x: T)
    requires x in b && a == b - {x}
    ensures |a| < |b|
  {
    assert b == a + {x};
  }

  lemma SubscribeRemaining(s: Sys, m: string)
    requires s.phase.Contacting? && m in s.agents
    ensures DoSubscribe(s, m).phase.Contacting?
    ensures Remaining(DoSubscribe(s, m).phase) == Remaining(s.phase) - {m}
  {}

  /** A later stage, or the same stage with fewer members left, decides. */
  lemma StageDecides(s: Sys, t: Sys)
    requires Stage(t.phase) < Stage(s.phase) ||
             (Stage(t.phase) == Stage(s.phase) && |Remaining(t.phase)| < |Remaining(s.phase)|)
    ensures WorkLeft(t).LessThan(WorkLeft(s))
  {}

  lemma ContactRunsOut(cfg: Cfg, s: Sys, e: Step)
    requires Enabled(cfg, s, e) && (e.Subscribe? || e.AllReplied?)
    ensures WorkLeft(Next(cfg, s, e)).LessThan(WorkLeft(s))
  {
    if e.Subscribe? {
      SubscribeRemaining(s, e.m);
      Fewer(Remaining(DoSubscribe(s, e.m).phase), Remaining(s.phase), e.m);
    }
    StageDecides(s, Next(cfg, s, e));
  }

  lemma WiringRunsOut(cfg: Cfg, s: Sys, e: Step)
    requires Enabled(cfg, s, e) && (e.Wire? || e.Check?)
    ensures WorkLeft(Next(cfg, s, e)).LessThan(WorkLeft(s))
  {
    if e.Wire? {
      Fewer(Remaining(DoWire(cfg, s, e.m).phase), Remaining(s.phase), e.m);
    }
    StageDecides(s, Next(cfg, s, e));
  }

  lemma GreetingRunsOut(cfg: Cfg, s: Sys, e: Step)
    requires Enabled(cfg, s, e) && Useful(s, e) && (e.HelloArrives? || e.AckArrives? || e.Announce?)
    ensures WorkLeft(Next(cfg, s, e)).LessThan(WorkLeft(s))
  {
    if e.HelloArrives? {
      Fewer(Remaining(Next(cfg, s, e).phase), Remaining(s.phase), e.m);
    } else if e.AckArrives? {
      Fewer(InFlight(DoAck(cfg, s, e.m).phase), InFlight(s.phase), e.m);
    }
  }

  lemma TailsRunOut(cfg: Cfg, s: Sys, e: Step)
    requires Enabled(cfg, s, e) && (e.TailConnect? || e.TailAdd?)
    ensures WorkLeft(Next(cfg, s, e)).LessThan(WorkLeft(s))
  {
    if e.TailConnect? {
      Fewer(Unconnected(DoTailConnect(cfg, s, e.m)), Unconnected(s), e.m);
    } else {
      assert Unconnected(DoTailAdd(cfg, s, e.m)) == Unconnected(s);
      Fewer(DoTailAdd(cfg, s, e.m).tails.Keys, s.tails.Keys, e.m);
    }
  }

  lemma DeliveriesRunOut(cfg: Cfg, s: Sys, e: Step)
    requires Enabled(cfg, s, e) && (e.Deliver? || e.Establish?)
    ensures WorkLeft(Next(cfg, s, e)).LessThan(WorkLeft(s))
  {
    if e.Deliver? {
      Fewer(DoDeliver(cfg, s, e.m).status.Keys, s.status.Keys, e.m);
    } else {
      Fewer(Next(cfg, s, e).dialing, s.dialing, (e.sub, e.pub));
    }
  }

  /** Every useful step leaves less to do, whichever it is. */
  lemma UsefulStepsRunOut(cfg: Cfg, s: Sys, e: Step)
    requires Enabled(cfg, s, e) && Useful(s, e)
    ensures WorkLeft(Next(cfg, s, e)).LessThan(WorkLeft(s))
  {
    if e.Subscribe? || e.AllReplied? {
      ContactRunsOut(cfg, s, e);
    } else if e.Wire? || e.Check? {
      WiringRunsOut(cfg, s, e);
    } else if e.HelloArrives? || e.AckArrives? || e.Announce? {
      GreetingRunsOut(cfg, s, e);
    } else if e.TailConnect? || e.TailAdd? {
      TailsRunOut(cfg, s, e);
    } else {
      DeliveriesRunOut(cfg, s, e);
    }
  }

  // ---- and ends where it should ----

  /** The members once the operation under way has finished: a joiner will be one, a leaver is none already. */
  ghost function EndView(s: Sys, g: Ideal): map<string, Member> {
    if Joining(s) then g.view[s.phase.op.me.name := s.phase.op.me] else g.view
  }

  /** Only the consistency check and the announcement can end a join. */
  lemma OpKept(cfg: Cfg, s: Sys, e: Step)
    requires Enabled(cfg, s, e) && !StartsOperation(e) && !e.Check? && !e.Announce?
    ensures Joining(Next(cfg, s, e)) <==> Joining(s)
    ensures Joining(s) ==> Next(cfg, s, e).phase.op == s.phase.op
  {}

  lemma OpChecked(cfg: Cfg, s: Sys, g: Ideal)
    requires Inv(cfg, s, g) && Enabled(cfg, s, Check)
    ensures Joining(s) && Joining(Next(cfg, s, Check)) && Next(cfg, s, Check).phase.op == s.phase.op
  {
    CheckStep(cfg, s, g);
  }

  lemma EndViewKept(cfg: Cfg, s: Sys, g: Ideal, e: Step)
    requires Inv(cfg, s, g) && Enabled(cfg, s, e) && !StartsOperation(e)
    ensures EndView(Next(cfg, s, e), IdealNext(cfg, g, s, e)) == EndView(s, g)
    ensures IdealNext(cfg, g, s, e).params == g.params
  {
    SameIdeal(cfg, s, g, e);
    if !e.Announce? {
      SameEnd(cfg, s, g, e);
    }
  }

  lemma SameEnd(cfg: Cfg, s: Sys, g: Ideal, e: Step)
    requires Inv(cfg, s, g) && Enabled(cfg, s, e) && !StartsOperation(e) && !e.Announce?
    ensures EndView(Next(cfg, s, e), g) == EndView(s, g)
  {
    if e.Check? {
      OpChecked(cfg, s, g);
    } else {
      OpKept(cfg, s, e);
    }
  }

  lemma SameIdeal(cfg: Cfg, s: Sys, g: Ideal, e: Step)
    requires Enabled(cfg, s, e) && !StartsOperation(e)
    ensures if e.Announce?
            then IdealNext(cfg, g, s, e) == g.(view := EndView(s, g), before := g.view) && Next(cfg, s, e).phase.Idle?
            else IdealNext(cfg, g, s, e) == g
  {}

  /** One more useful step: everything stays in order, and less is left to do. */
  lemma StepOn(cfg: Cfg, s0: Sys, s: Sys, g: Ideal) returns (t: Sys, g': Ideal)
    requires Inv(cfg, s, g) && AcksComing(cfg, s) && Reaches(cfg, s0, s) && !Quiet(s)
    ensures Inv(cfg, t, g') && AcksComing(cfg, t) && Reaches(cfg, s0, t) && WorkLeft(t).LessThan(WorkLeft(s))
    ensures EndView(t, g') == EndView(s, g) && g'.params == g.params
  {
    var e := Progress(cfg, s, g);
    InvStep(cfg, s, g, e);
    AcksComingStep(cfg, s, e);
    UsefulStepsRunOut(cfg, s, e);
    EndViewKept(cfg, s, g, e);
    OneMore(cfg, s0, s, e);
    t, g' := Next(cfg, s, e), IdealNext(cfg, g, s, e);
  }

  lemma {:induction false} Finishes(cfg: Cfg, s0: Sys, s: Sys, g: Ideal) returns (t: Sys, g': Ideal)
    requires Inv(cfg, s, g) && AcksComing(cfg, s) && Reaches(cfg, s0, s)
    ensures Reaches(cfg, s0, t) && Quiet(t) && Inv(cfg, t, g') && AcksComing(cfg, t)
    ensures g'.view == EndView(s, g) && g'.params == g.params
    decreases WorkLeft(s).stage, WorkLeft(s).members, WorkLeft(s).unconnected, WorkLeft(s).tails, WorkLeft(s).acks,
              WorkLeft(s).statuses, WorkLeft(s).dials
  {
    t, g' := s, g;
    if !Quiet(s) {
      t, g' := StepOn(cfg, s0, s, g);
      t, g' := Finishes(cfg, s0, t, g');
    }
  }

  lemma {:induction false} AcksAlwaysComing(cfg: Cfg, states: seq<Sys>, steps: seq<Step>, i: nat)
    requires Run(cfg, states, steps) && i <= |steps|
    ensures AcksComing(cfg, states[i])
  {
    if i > 0 {
      AcksAlwaysComing(cfg, states, steps, i - 1);
      RunStep(cfg, states, steps, i);
      AcksComingStep(cfg, states[i - 1], steps[i - 1]);
    }
  }

  /** Members hold exactly the given view and parameters, everybody else nothing. */
  ghost predicate Agreed(cfg: Cfg, s: Sys, view: map<string, Member>, params: Params) {
    forall a :: a in s.agents ==> s.agents[a].group == if a in view then GroupOf(cfg, view, params) else None
  }

  /** From every moment of a run whose joins find fresh acks, the operation under way can be finished, and
      then it has taken effect: the agents hold exactly the ideal group, with the joiner if one was joining.
      With UsefulStepsRunOut: it cannot fail to be finished, hellos repeated for ever aside. */
  lemma {:induction false} OperationsFinish(cfg: Cfg, states: seq<Sys>, steps: seq<Step>, i: nat)
    requires Run(cfg, states, steps) && FreshRun(cfg, states, steps) && i <= |steps|
    ensures var g := IdealAt(cfg, states, steps, i);
            exists t :: Reaches(cfg, states[i], t) && Quiet(t) && Agreed(cfg, t, EndView(states[i], g), g.params)
  {
    InvAlways(cfg, states, steps, i);
    AcksAlwaysComing(cfg, states, steps, i);
    assert Path(cfg, states[i], [], states[i]);
    var t, g := Finishes(cfg, states[i], states[i], IdealAt(cfg, states, steps, i));
    forall a | a in t.agents
      ensures t.agents[a].group == if a in g.view then GroupOf(cfg, g.view, g.params) else None {
      QuietAgent(cfg, t, g, a);
    }
    assert Agreed(cfg, t, g.view, g.params);
  }
}
