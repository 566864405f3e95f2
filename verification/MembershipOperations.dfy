/** The steps at the ends of an operation - starting it, announcing it, handling its status messages -
    keep the invariant, and the ideal group moves exactly with Create, Announce and Leave. */
module MembershipOperations {
  import opened Common
  import opened Validator
  import opened GroupStore
  import opened AgentState
  import opened Membership
  import opened MembershipSteps

  // ---- Announce ----

  ghost predicate AllAcked(s: Sys) {
    && s.phase.Greeting? && s.phase.op.me.name in s.agents
    && forall m :: m in s.phase.op.snapshot ==> s.phase.op.snapshot[m].pubEndpoint in s.agents[s.phase.op.me.name].acks
  }

  /** The hello exchange has done its work: every member's SUB socket is connected to the joiner, so the
      announcement cannot be missed, and every handler has got past connecting. */
  lemma EveryoneListens(cfg: Cfg, s: Sys, g: Ideal, m: string)
    requires Context(cfg, s, g) && ConnsOk(s, g) && AllAcked(s) && m in g.view
    ensures m in s.phase.heard && (m, s.phase.op.me.name) in s.links && Reached(s, m)
  {
    var j := s.phase.op.me.name;
    assert cfg.endpoint(m) in s.agents[j].acks;
    assert Conn(s, m, j) <==> ShouldConn(s, g, m, j);
  }

  /** ... nor filtered out: whoever is connected to anybody is subscribed to the status topic. */
  lemma MemberHears(cfg: Cfg, s: Sys, g: Ideal, m: string, x: string)
    requires AgentsOk(cfg, s, g) && m in s.agents && m in g.view && !IsJoiner(s, m)
    requires (m, x) in s.links && MemberExpect(cfg, s, g, m).conns != {}
    ensures Hears(s, m, x)
  {
    assert Fine(cfg, s, g, m);
    MemberFits(cfg, s, g, m);
  }

  lemma MemberHearsJoiner(cfg: Cfg, s: Sys, g: Ideal, m: string)
    requires OpOk(cfg, s, g) && WellKept(cfg, s, g.view) && AgentsOk(cfg, s, g) && s.phase.Greeting?
    requires m in g.view && Reached(s, m) && (m, s.phase.op.me.name) in s.links
    ensures Hears(s, m, s.phase.op.me.name)
  {
    assert s.phase.op.me.name in MemberExpect(cfg, s, g, m).conns;
    MemberHears(cfg, s, g, m, s.phase.op.me.name);
  }

  lemma EveryoneHears(cfg: Cfg, s: Sys, g: Ideal, m: string)
    requires Inv(cfg, s, g) && AllAcked(s) && m in g.view
    ensures Hears(s, m, s.phase.op.me.name)
  {
    EveryoneListens(cfg, s, g, m);
    MemberHearsJoiner(cfg, s, g, m);
  }

  /** Whoever still has a status to handle is subscribed to the status topic. */
  lemma StatusHeard(cfg: Cfg, s: Sys, g: Ideal, m: string)
    requires OpContext(cfg, s, g) && AgentsOk(cfg, s, g) && m in s.status
    ensures m in s.agents && s.agents[m].stateSubs > 0
  {
    assert s.status[m].name in MemberExpect(cfg, s, g, m).conns;
    assert Fine(cfg, s, g, m);
    MemberFits(cfg, s, g, m);
  }

  ghost predicate AllReached(s: Sys, g: Ideal) {
    forall m :: m in g.view ==> Reached(s, m)
  }

  ghost function Announced(s: Sys, g: Ideal): Sys
    requires s.phase.Greeting?
  {
    s.(status := map m | m in g.view :: s.phase.op.me, phase := Idle)
  }

  ghost function Joined(s: Sys, g: Ideal): Ideal
    requires s.phase.Greeting?
  {
    g.(view := g.view[s.phase.op.me.name := s.phase.op.me], before := g.view)
  }

  lemma PublishedToAll(view: map<string, Member>, s: Sys, r: Member)
    requires r.name !in view && forall m :: m in view ==> Hears(s, m, r.name)
    ensures Published(view[r.name := r], s, r) == map m | m in view :: r
  {}

  lemma AnnounceReaches(cfg: Cfg, s: Sys, g: Ideal)
    requires Inv(cfg, s, g) && AllAcked(s)
    requires MembersOf(s.agents[s.phase.op.me.name]) == g.view[s.phase.op.me.name := s.phase.op.me]
    ensures s.(status := Published(MembersOf(s.agents[s.phase.op.me.name]), s, s.phase.op.me), phase := Idle)
         == Announced(s, g)
  {
    forall m | m in g.view ensures Hears(s, m, s.phase.op.me.name) {
      EveryoneHears(cfg, s, g, m);
    }
    PublishedToAll(g.view, s, s.phase.op.me);
  }

  lemma AnnounceContext(cfg: Cfg, s: Sys, g: Ideal)
    requires Context(cfg, s, g) && s.phase.Greeting? && AllReached(s, g)
    ensures Context(cfg, Announced(s, g), Joined(s, g))
  {
    AnnounceOp(cfg, s, g);
    AnnounceTails(cfg, s, g);
  }

  lemma AnnounceOp(cfg: Cfg, s: Sys, g: Ideal)
    requires WellKept(cfg, s, g.view) && OpOk(cfg, s, g) && s.phase.Greeting?
    ensures var s', g' := Announced(s, g), Joined(s, g);
            WellKept(cfg, s', g'.view) && OpOk(cfg, s', g') && StatusOk(s', g') && HelloOk(cfg, s', g')
  {}

  lemma AnnounceTails(cfg: Cfg, s: Sys, g: Ideal)
    requires OpOk(cfg, s, g) && TailsOk(s, g) && s.phase.Greeting? && AllReached(s, g)
    ensures TailsOk(Announced(s, g), Joined(s, g))
  {
    forall m | m in s.tails ensures s.tails[m].connected && m in g.view {
      assert Reached(s, m);
    }
  }

  lemma AnnounceConns(cfg: Cfg, s: Sys, g: Ideal)
    requires ConnsOk(s, g) && OpOk(cfg, s, g) && s.phase.Greeting? && AllReached(s, g)
    ensures ConnsOk(Announced(s, g), Joined(s, g))
  {
    var s', g' := Announced(s, g), Joined(s, g);
    forall x, y ensures Conn(s', x, y) == Conn(s, x, y) && ShouldConn(s', g', x, y) == ShouldConn(s, g, x, y) {}
  }

  lemma AnnounceMember(cfg: Cfg, s: Sys, g: Ideal, m: string)
    requires OpOk(cfg, s, g) && TailsOk(s, g) && s.phase.Greeting? && m in g.view && Reached(s, m)
    requires WellKept(cfg, s, g.view)
    ensures MemberExpect(cfg, Announced(s, g), Joined(s, g), m) == MemberExpect(cfg, s, g, m)
  {
    var x, x' := MemberExpect(cfg, s, g, m), MemberExpect(cfg, Announced(s, g), Joined(s, g), m);
    assert ViewOf(Announced(s, g), Joined(s, g), m) == ViewOf(s, g, m) == g.view;
    assert x'.conns == x.conns;
    assert x'.known == x.known;
    assert x'.pubs == x.pubs;
  }

  lemma AnnounceJoiner(cfg: Cfg, s: Sys, g: Ideal)
    requires OpOk(cfg, s, g) && TailsOk(s, g) && s.phase.Greeting?
    requires Fits(cfg, s.phase.op.me.name, g.params.mode, s.agents[s.phase.op.me.name], JoinerExpect(cfg, s, g))
    ensures Fits(cfg, s.phase.op.me.name, g.params.mode, s.agents[s.phase.op.me.name],
                 MemberExpect(cfg, Announced(s, g), Joined(s, g), s.phase.op.me.name))
  {
    var x := JoinerExpect(cfg, s, g);
    var x' := MemberExpect(cfg, Announced(s, g), Joined(s, g), s.phase.op.me.name);
    assert x'.pubs == x.pubs;
    assert x'.known == g.view.Keys;
  }

  lemma AnnounceOther(cfg: Cfg, s: Sys, g: Ideal, a: string)
    requires OpOk(cfg, s, g) && TailsOk(s, g) && WellKept(cfg, s, g.view) && s.phase.Greeting?
    requires a != s.phase.op.me.name && (a in g.view ==> Reached(s, a))
    ensures Expected(cfg, Announced(s, g), Joined(s, g), a) == Expected(cfg, s, g, a)
  {
    if a in g.view {
      AnnounceMember(cfg, s, g, a);
    } else {
      assert Expected(cfg, s, g, a) == Expect(None, {}, {}, {}, false);
    }
  }

  lemma AnnounceOthers(cfg: Cfg, s: Sys, g: Ideal)
    requires OpOk(cfg, s, g) && TailsOk(s, g) && WellKept(cfg, s, g.view)
    requires s.phase.Greeting? && AllReached(s, g)
    ensures OnlyAgent(cfg, s, Announced(s, g), g, Joined(s, g), s.phase.op.me.name)
  {
    var s', g' := Announced(s, g), Joined(s, g);
    forall a | a in s.agents && a != s.phase.op.me.name
      ensures s'.agents[a] == s.agents[a] && Expected(cfg, s', g', a) == Expected(cfg, s, g, a) {
      AnnounceOther(cfg, s, g, a);
    }
  }

  lemma AnnounceSelf(cfg: Cfg, s: Sys, g: Ideal)
    requires OpOk(cfg, s, g) && TailsOk(s, g) && s.phase.Greeting? && Fine(cfg, s, g, s.phase.op.me.name)
    ensures Fine(cfg, Announced(s, g), Joined(s, g), s.phase.op.me.name)
  {
    JoinerFits(cfg, s, g);
    AnnounceJoiner(cfg, s, g);
    MemberFits(cfg, Announced(s, g), Joined(s, g), s.phase.op.me.name);
  }

  lemma AnnounceAgents(cfg: Cfg, s: Sys, g: Ideal)
    requires OpOk(cfg, s, g) && TailsOk(s, g) && WellKept(cfg, s, g.view) && AgentsOk(cfg, s, g)
    requires s.phase.Greeting? && AllReached(s, g)
    ensures AgentsOk(cfg, Announced(s, g), Joined(s, g))
  {
    assert Fine(cfg, s, g, s.phase.op.me.name);
    AnnounceSelf(cfg, s, g);
    AnnounceOthers(cfg, s, g);
    OneAgent(cfg, s, Announced(s, g), g, Joined(s, g), s.phase.op.me.name);
  }

  lemma AnnounceStep(cfg: Cfg, s: Sys, g: Ideal)
    requires Inv(cfg, s, g) && AllAcked(s)
    ensures s.(status := Published(MembersOf(s.agents[s.phase.op.me.name]), s, s.phase.op.me), phase := Idle)
         == Announced(s, g)
    ensures Inv(cfg, Announced(s, g), Joined(s, g))
  {
    assert Fine(cfg, s, g, s.phase.op.me.name);
    AnnounceReaches(cfg, s, g);
    forall m | m in g.view ensures Reached(s, m) {
      EveryoneListens(cfg, s, g, m);
    }
    AnnounceContext(cfg, s, g);
    AnnounceConns(cfg, s, g);
    AnnounceAgents(cfg, s, g);
  }

  // ---- Deliver ----

  lemma DeliverOp(cfg: Cfg, s: Sys, g: Ideal, m: string)
    requires OpContext(cfg, s, g) && m in s.status && m in s.agents
    ensures OpContext(cfg, DoDeliver(cfg, s, m), g)
  {}

  lemma DeliverTails(cfg: Cfg, s: Sys, g: Ideal, m: string)
    requires OpOk(cfg, s, g) && TailsOk(s, g) && m in s.status && m in s.agents
    ensures TailsOk(DoDeliver(cfg, s, m), g)
  {}

  lemma DeliverContext(cfg: Cfg, s: Sys, g: Ideal, m: string)
    requires Context(cfg, s, g) && m in s.status && m in s.agents
    ensures Context(cfg, DoDeliver(cfg, s, m), g)
  {
    DeliverOp(cfg, s, g, m);
    DeliverTails(cfg, s, g, m);
    assert !Joining(s);
  }

  lemma DeliverConns(cfg: Cfg, s: Sys, g: Ideal, m: string)
    requires Context(cfg, s, g) && ConnsOk(s, g) && m in s.status && m in s.agents
    ensures ConnsOk(DoDeliver(cfg, s, m), g)
  {
    var s', r := DoDeliver(cfg, s, m), s.status[m];
    forall x, y ensures Conn(s', x, y) <==> (Conn(s, x, y) && (r.active || x != m || y != r.name)) {}
    forall x, y ensures ShouldConn(s', g, x, y) <==> (ShouldConn(s, g, x, y) && (r.active || x != m || y != r.name)) {}
  }

  /** A status under way means no join is running and m's own handler has connected. */
  lemma StatusPending(cfg: Cfg, s: Sys, g: Ideal, m: string)
    requires OpOk(cfg, s, g) && StatusOk(s, g) && TailsOk(s, g) && m in s.status
    ensures !Joining(s) && m in g.view && m != s.status[m].name
    ensures m in s.tails ==> s.status[m].active && s.tails[m].sub == s.status[m]
  {}

  lemma DeliverActiveExpect(cfg: Cfg, s: Sys, g: Ideal, m: string)
    requires StatusOk(s, g) && !Joining(s) && m in s.status && m in s.agents && s.status[m].active
    ensures var r, x, x' := s.status[m], MemberExpect(cfg, s, g, m), MemberExpect(cfg, DoDeliver(cfg, s, m), g, m);
            && x'.pubs == x.pubs && x'.conns == x.conns && x'.known == x.known && x'.exact == x.exact
            && x.group == GroupOf(cfg, g.before, g.params) && x'.group == GroupOf(cfg, g.before[r.name := r], g.params)
  {
    DeliverActiveSets(cfg, s, g, m);
    var s' := DoDeliver(cfg, s, m);
    assert ViewOf(s, g, m) == g.before && ViewOf(s', g, m) == g.view;
  }

  lemma DeliverActiveView(cfg: Cfg, s: Sys, g: Ideal, m: string)
    requires StatusOk(s, g) && m in s.status && m in s.agents && s.status[m].active
    ensures var r, s' := s.status[m], DoDeliver(cfg, s, m);
            && ViewOf(s, g, m) == g.before && ViewOf(s', g, m) == g.view == g.before[r.name := r]
            && Publishers(g.view) == Publishers(g.before) + (if r.publisher then {r.name} else {})
            && Newcomer(s, m) == {r.name} && Newcomer(s', m) == {}
  {}

  lemma DeliverActiveSets(cfg: Cfg, s: Sys, g: Ideal, m: string)
    requires StatusOk(s, g) && !Joining(s) && m in s.status && m in s.agents && s.status[m].active
    ensures var x, x' := MemberExpect(cfg, s, g, m), MemberExpect(cfg, DoDeliver(cfg, s, m), g, m);
            x'.pubs == x.pubs && x'.conns == x.conns && x'.known == x.known
  {
    DeliverActiveView(cfg, s, g, m);
  }

  lemma DeliverActive(cfg: Cfg, s: Sys, g: Ideal, m: string)
    requires OpOk(cfg, s, g) && StatusOk(s, g) && TailsOk(s, g)
    requires m in s.status && m in s.agents && s.status[m].active
    requires Fits(cfg, m, g.params.mode, s.agents[m], MemberExpect(cfg, s, g, m))
    ensures var s' := DoDeliver(cfg, s, m);
            Fits(cfg, m, g.params.mode, s'.agents[m], MemberExpect(cfg, s', g, m))
  {
    StatusPending(cfg, s, g, m);
    DeliverActiveExpect(cfg, s, g, m);
    FitsActive(cfg, m, g.params.mode, s.agents[m], MemberExpect(cfg, s, g, m), s.status[m]);
  }

  lemma DeliverInactiveExpect(cfg: Cfg, s: Sys, g: Ideal, m: string)
    requires StatusOk(s, g) && !Joining(s) && m !in s.tails
    requires m in s.status && m in s.agents && !s.status[m].active
    ensures var r, x, x' := s.status[m], MemberExpect(cfg, s, g, m), MemberExpect(cfg, DoDeliver(cfg, s, m), g, m);
            && x'.pubs == x.pubs - {r.name} && x'.conns == x.conns - {r.name}
            && x'.known == x.known - {r.name} && x'.exact == x.exact
            && x.group == GroupOf(cfg, g.before, g.params) && x'.group == GroupOf(cfg, g.before - {r.name}, g.params)
            && (r.publisher <==> r.name in x.pubs)
  {}

  /** Nobody m is connected to shares the leaver's endpoint. */
  lemma LeaverStandsAlone(cfg: Cfg, s: Sys, g: Ideal, m: string)
    requires OpContext(cfg, s, g) && !Joining(s) && m in s.status && !s.status[m].active
    ensures var r, x := s.status[m], MemberExpect(cfg, s, g, m);
            forall p :: p in x.conns + x.pubs && cfg.endpoint(p) == cfg.endpoint(r.name) ==> p == r.name
  {
    var r, x := s.status[m], MemberExpect(cfg, s, g, m);
    forall p | p in x.conns + x.pubs ensures p in s.agents {
      assert p in g.before;
      assert p in g.view || p == r.name;
    }
  }

  lemma DeliverInactiveFits(cfg: Cfg, s: Sys, g: Ideal, m: string, x: Expect, x': Expect)
    requires m in s.status && m in s.agents && !s.status[m].active
    requires Fits(cfg, m, g.params.mode, s.agents[m], x) && x.group == GroupOf(cfg, g.before, g.params)
    requires var r := s.status[m];
             && r.pubEndpoint == cfg.endpoint(r.name) && (r.publisher <==> r.name in x.pubs)
             && (forall p :: p in x.conns + x.pubs && cfg.endpoint(p) == cfg.endpoint(r.name) ==> p == r.name)
             && x' == Expect(GroupOf(cfg, g.before - {r.name}, g.params), x.pubs - {r.name}, x.conns - {r.name},
                             x.known - {r.name}, x.exact)
    ensures Fits(cfg, m, g.params.mode, DoDeliver(cfg, s, m).agents[m], x')
  {
    FitsInactive(cfg, m, g.params.mode, s.agents[m], x, s.status[m]);
  }

  lemma DeliverInactive(cfg: Cfg, s: Sys, g: Ideal, m: string)
    requires OpContext(cfg, s, g) && TailsOk(s, g)
    requires m in s.status && m in s.agents && !s.status[m].active
    requires Fits(cfg, m, g.params.mode, s.agents[m], MemberExpect(cfg, s, g, m))
    ensures var s' := DoDeliver(cfg, s, m);
            Fits(cfg, m, g.params.mode, s'.agents[m], MemberExpect(cfg, s', g, m))
  {
    StatusPending(cfg, s, g, m);
    DeliverInactiveExpect(cfg, s, g, m);
    LeaverStandsAlone(cfg, s, g, m);
    DeliverInactiveFits(cfg, s, g, m, MemberExpect(cfg, s, g, m), MemberExpect(cfg, DoDeliver(cfg, s, m), g, m));
  }

  lemma DeliverOthers(cfg: Cfg, s: Sys, g: Ideal, m: string)
    requires m in s.status && m in s.agents
    ensures OnlyAgent(cfg, s, DoDeliver(cfg, s, m), g, g, m)
  {
    var s' := DoDeliver(cfg, s, m);
    forall a | a in s.agents && a != m
      ensures s'.agents[a] == s.agents[a] && Expected(cfg, s', g, a) == Expected(cfg, s, g, a) {
      DeliverOther(cfg, s, g, m, a);
    }
  }

  lemma DeliverOther(cfg: Cfg, s: Sys, g: Ideal, m: string, a: string)
    requires m in s.status && m in s.agents && a != m
    ensures Expected(cfg, DoDeliver(cfg, s, m), g, a) == Expected(cfg, s, g, a)
  {}

  lemma DeliverMember(cfg: Cfg, s: Sys, g: Ideal, m: string)
    requires OpContext(cfg, s, g) && TailsOk(s, g) && m in s.status && m in s.agents
    requires Fits(cfg, m, g.params.mode, s.agents[m], MemberExpect(cfg, s, g, m))
    ensures var s' := DoDeliver(cfg, s, m);
            Fits(cfg, m, g.params.mode, s'.agents[m], MemberExpect(cfg, s', g, m))
  {
    if s.status[m].active {
      DeliverActive(cfg, s, g, m);
    } else {
      DeliverInactive(cfg, s, g, m);
    }
  }

  lemma DeliverAgents(cfg: Cfg, s: Sys, g: Ideal, m: string)
    requires OpContext(cfg, s, g) && TailsOk(s, g) && AgentsOk(cfg, s, g)
    requires m in s.status && m in s.agents
    ensures AgentsOk(cfg, DoDeliver(cfg, s, m), g)
  {
    assert Fine(cfg, s, g, m);
    assert m in g.view && !IsJoiner(s, m);
    MemberFits(cfg, s, g, m);
    DeliverMember(cfg, s, g, m);
    MemberFits(cfg, DoDeliver(cfg, s, m), g, m);
    DeliverOthers(cfg, s, g, m);
    OneAgent(cfg, s, DoDeliver(cfg, s, m), g, g, m);
  }

  lemma DeliverStep(cfg: Cfg, s: Sys, g: Ideal, m: string)
    requires Inv(cfg, s, g) && m in s.status && m in s.agents
    ensures Inv(cfg, DoDeliver(cfg, s, m), g)
  {
    DeliverContext(cfg, s, g, m);
    DeliverConns(cfg, s, g, m);
    DeliverAgents(cfg, s, g, m);
  }

  // ---- Create ----

  lemma MemberHasGroup(cfg: Cfg, s: Sys, g: Ideal, m: string)
    requires AgentsOk(cfg, s, g) && WellKept(cfg, s, g.view) && Quiet(s) && m in g.view
    ensures m in s.agents && s.agents[m].group == GroupOf(cfg, g.view, g.params)
  {
    assert Fine(cfg, s, g, m);
  }

  lemma NobodyLeft(cfg: Cfg, s: Sys, g: Ideal)
    requires AgentsOk(cfg, s, g) && WellKept(cfg, s, g.view) && Quiet(s)
    requires forall b :: b in s.agents ==> s.agents[b].group.None?
    ensures g.view == map[]
  {
    forall m | m in g.view ensures m in s.agents && s.agents[m].group.Some? {
      MemberHasGroup(cfg, s, g, m);
    }
    assert g.view.Keys == {};
  }

  lemma CreateStep(cfg: Cfg, s: Sys, g: Ideal, me: Member, params: Params)
    requires Inv(cfg, s, g) && Quiet(s) && me.name in s.agents
    requires forall b :: b in s.agents ==> s.agents[b].group.None?
    requires me.active && me.pubEndpoint == cfg.endpoint(me.name)
    ensures var v := map[me.name := me]; Inv(cfg, DoCreate(cfg, s, me, params), Ideal(v, v, params))
  {
    NobodyLeft(cfg, s, g);
    var v := map[me.name := me];
    CreateConns(cfg, s, g, me, params);
    CreateAgents(cfg, s, g, me, params);
  }

  lemma CreateConns(cfg: Cfg, s: Sys, g: Ideal, me: Member, params: Params)
    requires ConnsOk(s, g) && Quiet(s) && me.name in s.agents && g.view == map[]
    ensures var v := map[me.name := me]; ConnsOk(DoCreate(cfg, s, me, params), Ideal(v, v, params))
  {
    var v := map[me.name := me];
    var s' := DoCreate(cfg, s, me, params);
    forall x, y ensures !Conn(s', x, y) && !ShouldConn(s', Ideal(v, v, params), x, y) {
      assert Conn(s, x, y) <==> ShouldConn(s, g, x, y);
    }
  }

  lemma CreateAgents(cfg: Cfg, s: Sys, g: Ideal, me: Member, params: Params)
    requires AgentsOk(cfg, s, g) && Quiet(s) && me.name in s.agents && g.view == map[]
    ensures var v := map[me.name := me]; AgentsOk(cfg, DoCreate(cfg, s, me, params), Ideal(v, v, params))
  {
    var v := map[me.name := me];
    var g', s' := Ideal(v, v, params), DoCreate(cfg, s, me, params);
    forall a | a in s'.agents ensures Fine(cfg, s', g', a) {
      assert Fine(cfg, s, g, a);
      assert s.agents[a].group == None;
      if a == me.name {
        assert [me][..0] == [];
        assert Put(map[], [me]) == v;
        var x := MemberExpect(cfg, s', g', a);
        assert x.pubs == {} && x.known == {};
      }
    }
  }

  // ---- JoinStart ----

  lemma JoinStartContext(cfg: Cfg, s: Sys, g: Ideal, me: Member, acceptor: string)
    requires Context(cfg, s, g) && Quiet(s) && me.name in s.agents && me.name !in g.view && acceptor in g.view
    requires me.active && me.pubEndpoint == cfg.endpoint(me.name)
    requires forall m :: m in g.view ==> g.view[m].pubEndpoint !in s.agents[me.name].acks
    ensures Context(cfg, DoJoinStart(s, me, acceptor, g.params, g.view), g)
  {}

  lemma JoinStartExpected(cfg: Cfg, s: Sys, g: Ideal, me: Member, acceptor: string)
    requires Quiet(s) && me.name in s.agents
    ensures var s' := DoJoinStart(s, me, acceptor, g.params, g.view);
            && OnlyAgent(cfg, s, s', g, g, me.name)
            && (forall x, y :: ShouldConn(s', g, x, y) == ShouldConn(s, g, x, y))
  {
    var s' := DoJoinStart(s, me, acceptor, g.params, g.view);
    forall m ensures !Reached(s', m) {}
  }

  lemma JoinStartJoiner(cfg: Cfg, s: Sys, g: Ideal, me: Member, acceptor: string)
    requires Quiet(s) && me.name in s.agents && me.name !in g.view && s.agents[me.name].group.None?
    requires Fine(cfg, s, g, me.name)
    ensures Fine(cfg, DoJoinStart(s, me, acceptor, g.params, g.view), g, me.name)
  {
    var x := JoinerExpect(cfg, DoJoinStart(s, me, acceptor, g.params, g.view), g);
    assert x.pubs == {} && x.known == {};
  }

  lemma JoinStartRest(cfg: Cfg, s: Sys, g: Ideal, me: Member, acceptor: string)
    requires ConnsOk(s, g) && AgentsOk(cfg, s, g) && Quiet(s)
    requires me.name in s.agents && me.name !in g.view && s.agents[me.name].group.None?
    ensures ConnsOk(DoJoinStart(s, me, acceptor, g.params, g.view), g)
    ensures AgentsOk(cfg, DoJoinStart(s, me, acceptor, g.params, g.view), g)
  {
    var s' := DoJoinStart(s, me, acceptor, g.params, g.view);
    JoinStartExpected(cfg, s, g, me, acceptor);
    JoinStartJoiner(cfg, s, g, me, acceptor);
    OneAgent(cfg, s, s', g, g, me.name);
    forall x, y ensures Conn(s', x, y) == Conn(s, x, y) {}
  }

  /** Between operations an agent either holds the whole group, or nothing of it. */
  lemma QuietAgent(cfg: Cfg, s: Sys, g: Ideal, a: string)
    requires AgentsOk(cfg, s, g) && Quiet(s) && a in s.agents
    ensures s.agents[a].group == if a in g.view then GroupOf(cfg, g.view, g.params) else None
  {
    assert Fine(cfg, s, g, a);
  }

  lemma JoinStartStep(cfg: Cfg, s: Sys, g: Ideal, me: Member, acceptor: string)
    requires Inv(cfg, s, g) && Quiet(s) && me.name in s.agents && s.agents[me.name].group.None?
    requires acceptor in s.agents && MembersOf(s.agents[acceptor]) != map[]
    requires me.active && me.pubEndpoint == cfg.endpoint(me.name)
    requires forall m :: m in MembersOf(s.agents[acceptor]) ==>
               MembersOf(s.agents[acceptor])[m].pubEndpoint !in s.agents[me.name].acks
    ensures s.agents[acceptor].group == GroupOf(cfg, g.view, g.params)
    ensures Inv(cfg, DoJoinStart(s, me, acceptor, g.params, g.view), g)
  {
    QuietAgent(cfg, s, g, acceptor);
    QuietAgent(cfg, s, g, me.name);
    JoinStartContext(cfg, s, g, me, acceptor);
    JoinStartRest(cfg, s, g, me, acceptor);
  }

  // ---- Leave ----

  ghost function Gone(g: Ideal, a: string): Ideal {
    g.(view := g.view - {a}, before := g.view)
  }

  lemma FarewellHeard(cfg: Cfg, s: Sys, g: Ideal, a: string, m: string)
    requires ConnsOk(s, g) && AgentsOk(cfg, s, g) && WellKept(cfg, s, g.view) && Quiet(s)
    requires a in g.view && m in g.view && m != a
    ensures Hears(s, m, a)
  {
    assert Conn(s, m, a) <==> ShouldConn(s, g, m, a);
    assert a in MemberExpect(cfg, s, g, m).conns;
    MemberHears(cfg, s, g, m, a);
  }

  lemma PublishedToOthers(view: map<string, Member>, s: Sys, r: Member)
    requires forall m :: m in view && m != r.name ==> Hears(s, m, r.name)
    ensures Published(view, s, r) == map m | m in view - {r.name} :: r
  {}

  lemma FarewellReaches(cfg: Cfg, s: Sys, g: Ideal, a: string)
    requires ConnsOk(s, g) && AgentsOk(cfg, s, g) && WellKept(cfg, s, g.view) && Quiet(s)
    requires a in s.agents && a in g.view && MembersOf(s.agents[a]) == g.view
    ensures Farewell(cfg, s.agents[a], a) == g.view[a].(active := false)
    ensures DoLeave(cfg, s, a).status == map m | m in g.view - {a} :: g.view[a].(active := false)
  {
    forall m | m in g.view && m != a ensures Hears(s, m, a) {
      FarewellHeard(cfg, s, g, a, m);
    }
    PublishedToOthers(g.view, s, g.view[a].(active := false));
  }

  lemma LeaveContext(cfg: Cfg, s: Sys, g: Ideal, a: string)
    requires Context(cfg, s, g) && Quiet(s) && a in s.agents && a in g.view
    requires DoLeave(cfg, s, a).status == map m | m in g.view - {a} :: g.view[a].(active := false)
    ensures Context(cfg, DoLeave(cfg, s, a), Gone(g, a))
  {}

  lemma LeaveConns(cfg: Cfg, s: Sys, g: Ideal, a: string)
    requires ConnsOk(s, g) && Quiet(s) && a in s.agents && a in g.view && g.view[a].name == a
    requires DoLeave(cfg, s, a).status == map m | m in g.view - {a} :: g.view[a].(active := false)
    ensures ConnsOk(DoLeave(cfg, s, a), Gone(g, a))
  {
    var s', g' := DoLeave(cfg, s, a), Gone(g, a);
    forall x, y ensures Conn(s', x, y) <==> (Conn(s, x, y) && x != a) {}
    forall x, y ensures ShouldConn(s', g', x, y) <==> (ShouldConn(s, g, x, y) && x != a) {}
  }

  lemma LeaveMember(cfg: Cfg, s: Sys, g: Ideal, a: string, m: string)
    requires Quiet(s) && a in s.agents && a in g.view && m != a
    requires DoLeave(cfg, s, a).status == map m | m in g.view - {a} :: g.view[a].(active := false)
    ensures Expected(cfg, DoLeave(cfg, s, a), Gone(g, a), m) == Expected(cfg, s, g, m)
  {
    if m in g.view {
      var x, x' := MemberExpect(cfg, s, g, m), MemberExpect(cfg, DoLeave(cfg, s, a), Gone(g, a), m);
      assert x'.pubs == x.pubs && x'.known == x.known;
    }
  }

  /** Closing the listed endpoints closes the members' own. */
  lemma ListedEnds(cfg: Cfg, s: Sys, view: map<string, Member>, a: string)
    requires WellKept(cfg, s, view)
    ensures Others(view, a) == Ends(cfg, view.Keys - {a})
    ensures Others(PublishersOf(view), a) == Ends(cfg, Publishers(view) - {a})
  {}

  lemma LeaverKeepsNothing(cfg: Cfg, s: Sys, g: Ideal, a: string)
    requires Quiet(s) && a in s.agents && a in g.view && WellKept(cfg, s, g.view)
    requires Fits(cfg, a, g.params.mode, s.agents[a], MemberExpect(cfg, s, g, a))
    ensures Fine(cfg, DoLeave(cfg, s, a), Gone(g, a), a)
  {
    var x, l := MemberExpect(cfg, s, g, a), s.agents[a];
    assert x.pubs == Publishers(g.view) - {a} && x.conns == g.view.Keys - {a};
    ListedEnds(cfg, s, g.view, a);
    assert MembersOf(l) == g.view && ModeOf(l) == g.params.mode;
    assert Left(cfg.b, l, a) ==
           l.(filters := multiset{}, stateEnds := {}, dataEnds := {}, subs := map[], group := None,
              stateSubs := Left(cfg.b, l, a).stateSubs);
    assert Expected(cfg, DoLeave(cfg, s, a), Gone(g, a), a) == Expect(None, {}, {}, {}, false);
  }

  lemma LeaveOthers(cfg: Cfg, s: Sys, g: Ideal, a: string)
    requires Quiet(s) && a in s.agents && a in g.view
    requires DoLeave(cfg, s, a).status == map m | m in g.view - {a} :: g.view[a].(active := false)
    ensures OnlyAgent(cfg, s, DoLeave(cfg, s, a), g, Gone(g, a), a)
  {
    forall m | m != a ensures Expected(cfg, DoLeave(cfg, s, a), Gone(g, a), m) == Expected(cfg, s, g, m) {
      LeaveMember(cfg, s, g, a, m);
    }
  }

  lemma LeaveAgents(cfg: Cfg, s: Sys, g: Ideal, a: string)
    requires AgentsOk(cfg, s, g) && WellKept(cfg, s, g.view) && Quiet(s) && a in s.agents && a in g.view
    requires DoLeave(cfg, s, a).status == map m | m in g.view - {a} :: g.view[a].(active := false)
    ensures AgentsOk(cfg, DoLeave(cfg, s, a), Gone(g, a))
  {
    assert Fine(cfg, s, g, a);
    MemberFits(cfg, s, g, a);
    LeaverKeepsNothing(cfg, s, g, a);
    LeaveOthers(cfg, s, g, a);
    OneAgent(cfg, s, DoLeave(cfg, s, a), g, Gone(g, a), a);
  }

  lemma LeaveStep(cfg: Cfg, s: Sys, g: Ideal, a: string)
    requires Inv(cfg, s, g) && Quiet(s) && a in s.agents && MembersOf(s.agents[a]) != map[]
    ensures a in g.view && Inv(cfg, DoLeave(cfg, s, a), Gone(g, a))
  {
    assert Fine(cfg, s, g, a);
    FarewellReaches(cfg, s, g, a);
    LeaveContext(cfg, s, g, a);
    LeaveConns(cfg, s, g, a);
    LeaveAgents(cfg, s, g, a);
  }
}
