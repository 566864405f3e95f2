/** The Join method and the protocol's interleaved joins agree. */
module JoinOutcome {
  import opened Common
  import opened Validator
  import opened GroupStore
  import opened AgentState
  import opened GroupAgent
  import opened Membership
  import opened MembershipSteps

  lemma Keyring(cfg: Cfg, subs: map<string, Bytes>, a: string, snapshot: map<string, Member>, keys: map<string, Bytes>)
    requires subs.Keys == snapshot.Keys && forall k :: k in subs ==> subs[k] == cfg.key(k, a)
    requires forall k :: k in snapshot ==> k in keys && keys[k] == cfg.key(k, a)
    ensures subs == map[] + KeysFor(snapshot, keys)
  {}

  lemma AllActive(cfg: Cfg, s: Sys, view: map<string, Member>)
    requires WellKept(cfg, s, view)
    ensures Active(view) == view
    ensures Endpoints(view) == Ends(cfg, view.Keys)
    ensures Endpoints(PublishersOf(view)) == Ends(cfg, Publishers(view))
  {}

  lemma GreetingExpect(cfg: Cfg, s: Sys, g: Ideal)
    requires OpOk(cfg, s, g) && s.phase.Greeting?
    ensures var op, x := s.phase.op, JoinerExpect(cfg, s, g);
            && x.group == GroupOf(cfg, op.snapshot[op.me.name := op.me], op.params) && x.exact
            && x.pubs == Publishers(op.snapshot) && x.conns == op.snapshot.Keys
            && x.known == (if op.me.publisher then op.snapshot.Keys else {})
  {}

  /** Same members, checksum and parameters, same data filters, subscriber keys and connections. */
  ghost predicate SameOutcome(now: Local, made: Local) {
    && now.group == made.group && now.filters == made.filters && now.subs == made.subs
    && now.stateEnds == made.stateEnds && now.dataEnds == made.dataEnds
  }

  /** In no group: what a joiner starts from. */
  ghost predicate Outside(l: Local) {
    l.group.None? && l.filters == multiset{} && l.subs == map[] && l.stateEnds == {} && l.dataEnds == {}
  }

  /** What the members of the group answer a joiner: flag and checksum, and the key of the connection. */
  ghost predicate HeardFrom(cfg: Cfg, g: Ideal, joiner: string, heard: Heard) {
    && (forall k :: k in g.view ==> k in heard.replies && heard.replies[k] == Answer(cfg, g, k))
    && (forall k :: k in g.view ==> k in heard.keys && heard.keys[k] == cfg.key(k, joiner))
  }

  /** However the connects of a join were interleaved with other agents' steps, the joiner that is about to
      greet holds what Join computes from the snapshot in one go, in whatever order it is listed, and Join
      has authenticated its data socket for exactly the listed publishers. `l` is the state before the join. */
  lemma JoinerHoldsJoinedView(cfg: Cfg, s: Sys, g: Ideal, l: Local, heard: Heard, mems: seq<Member>)
    requires Inv(cfg, s, g) && s.phase.Greeting? && Outside(l) && Enumerates(mems, s.phase.op.snapshot)
    requires HeardFrom(cfg, g, s.phase.op.me.name, heard)
    ensures s.phase.op.me.name in s.agents
    ensures var op := s.phase.op;
            var made := JoinedFrom(cfg.b, l, op.params, op.me, mems, heard);
            SameOutcome(s.agents[op.me.name], made) && made.authed == l.authed + Publishers(op.snapshot)
  {
    var op := s.phase.op;
    assert Fine(cfg, s, g, op.me.name);
    JoinerMatches(cfg, s, g, l, heard);
    JoinMeans(cfg.b, l, op.params, op.me, mems, op.snapshot, heard);
    ListedAuthenticated(cfg, s, g, l, heard);
  }

  lemma ListedAuthenticated(cfg: Cfg, s: Sys, g: Ideal, l: Local, heard: Heard)
    requires OpOk(cfg, s, g) && WellKept(cfg, s, g.view) && s.phase.Greeting?
    requires HeardFrom(cfg, g, s.phase.op.me.name, heard)
    ensures var op := s.phase.op;
            JoinedView(cfg.b, l, op.params, op.me, op.snapshot, heard).authed == l.authed + Publishers(op.snapshot)
  {
    AllActive(cfg, s, g.view);
    forall k | k in g.view ensures ReplyOf(heard.replies, k).0 <==> k in Publishers(g.view) {}
    assert Publishing(g.view, heard.replies) == Publishers(g.view);
  }

  lemma JoinerMatches(cfg: Cfg, s: Sys, g: Ideal, l: Local, heard: Heard)
    requires OpOk(cfg, s, g) && WellKept(cfg, s, g.view) && s.phase.Greeting? && s.phase.op.me.name in s.agents
    requires Fits(cfg, s.phase.op.me.name, g.params.mode, s.agents[s.phase.op.me.name], JoinerExpect(cfg, s, g))
    requires Outside(l) && HeardFrom(cfg, g, s.phase.op.me.name, heard)
    ensures var op := s.phase.op;
            SameOutcome(s.agents[op.me.name], JoinedView(cfg.b, l, op.params, op.me, op.snapshot, heard))
  {
    var op := s.phase.op;
    AllActive(cfg, s, op.snapshot);
    GreetingExpect(cfg, s, g);
    JoinedGroup(cfg.b, l, op.params, op.me, op.snapshot, heard);
    JoinedSockets(cfg.b, l, op.params, op.me, op.snapshot, heard);
    JoinerKeys(cfg, s, g, heard);
  }

  lemma JoinerKeys(cfg: Cfg, s: Sys, g: Ideal, heard: Heard)
    requires OpOk(cfg, s, g) && s.phase.Greeting? && s.phase.op.me.name in s.agents
    requires Fits(cfg, s.phase.op.me.name, g.params.mode, s.agents[s.phase.op.me.name], JoinerExpect(cfg, s, g))
    requires HeardFrom(cfg, g, s.phase.op.me.name, heard)
    ensures var op, subs := s.phase.op, s.agents[s.phase.op.me.name].subs;
            subs == if op.me.publisher then map[] + KeysFor(op.snapshot, heard.keys) else map[]
  {
    GreetingExpect(cfg, s, g);
    if s.phase.op.me.publisher {
      Keyring(cfg, s.agents[s.phase.op.me.name].subs, s.phase.op.me.name, g.view, heard.keys);
    }
  }

  /** The parts of a joiner's state when everybody listed is active. */
  lemma {:induction false} JoinedParts(b: Base, l: Local, p: Params, joiner: Member, snapshot: map<string, Member>,
                                       heard: Heard)
    requires Active(snapshot) == snapshot
    ensures var made := JoinedView(b, l, p, joiner, snapshot, heard);
            && made.filters == l.filters + Bag(b, p.mode, Publishers(snapshot), joiner.name)
            && made.stateEnds == l.stateEnds + Endpoints(snapshot)
            && made.dataEnds == l.dataEnds + Endpoints(PublishersOf(snapshot))
            && made.subs == (if joiner.publisher then l.subs + KeysFor(snapshot, heard.keys) else l.subs)
            && made.authed == l.authed + Publishing(snapshot, heard.replies) && made.acks == l.acks
            && made.ordered == (l.ordered || p.orderEnabled) && made.stateSubs == Subscribed(l, |snapshot|)
  {}

  lemma FromNothing(f: multiset<string>, x: set<string>)
    ensures multiset{} + f == f && {} + x == x
  {}

  /** From outside, connections and filters are just those of the snapshot. */
  lemma {:induction false} JoinedSockets(b: Base, l: Local, p: Params, joiner: Member, snapshot: map<string, Member>,
                                         heard: Heard)
    requires Outside(l) && Active(snapshot) == snapshot
    ensures var made := JoinedView(b, l, p, joiner, snapshot, heard);
            && made.filters == Bag(b, p.mode, Publishers(snapshot), joiner.name)
            && made.stateEnds == Endpoints(snapshot) && made.dataEnds == Endpoints(PublishersOf(snapshot))
            && made.subs == (if joiner.publisher then map[] + KeysFor(snapshot, heard.keys) else map[])
  {
    JoinedParts(b, l, p, joiner, snapshot, heard);
    FromNothing(Bag(b, p.mode, Publishers(snapshot), joiner.name), Endpoints(snapshot));
    FromNothing(multiset{}, Endpoints(PublishersOf(snapshot)));
  }

  /** The protocol's check turns a joiner away exactly when the method does. */
  lemma CheckDecides(cfg: Cfg, s: Sys, h: Hasher, topic: string, mems: seq<Member>)
    requires h.Valid() && cfg.b == Concrete(h, topic)
    requires s.phase.Wiring? && Enabled(cfg, s, Check) && WellKept(cfg, s, s.phase.op.snapshot)
    requires Enumerates(mems, s.phase.op.snapshot) && s.phase.replies.Keys == s.phase.op.snapshot.Keys
    ensures Next(cfg, s, Check).phase.Aborted? <==>
            !MayJoin(h, s.phase.op.acceptor, s.phase.op.params, mems, s.phase.replies)
  {
    var op, replies := s.phase.op, s.phase.replies;
    MayJoinExactly(h, op.acceptor, op.params, mems, op.snapshot, replies);
    forall k | k in op.snapshot ensures ReplyOf(replies, k) == replies[k] {}
    assert ConsistentReplies(cfg, op, replies) <==> AllAgree(h, op.acceptor, op.snapshot, replies);
  }

  // ---- and leaving again ----

  lemma ViewWithout(snapshot: map<string, Member>, joiner: Member)
    requires joiner.name !in snapshot
    ensures var view := snapshot[joiner.name := joiner];
            && Publishers(view) - {joiner.name} == Publishers(snapshot)
            && Others(view, joiner.name) == Endpoints(snapshot)
            && Others(PublishersOf(view), joiner.name) == Endpoints(PublishersOf(snapshot))
  {
    var view := snapshot[joiner.name := joiner];
    assert forall k :: k in snapshot ==> view[k] == snapshot[k];
    forall k | k in PublishersOf(snapshot) ensures k in PublishersOf(view) && PublishersOf(view)[k] == snapshot[k] {}
    forall k | k in PublishersOf(view) && k != joiner.name
      ensures k in PublishersOf(snapshot) && PublishersOf(snapshot)[k] == view[k] {}
  }

  /** Leaving never touches acks, authentications and the timestamp. */
  lemma LeftParts(b: Base, l: Local, me: string)
    requires l.stateSubs > 0
    ensures var back := Left(b, l, me);
            && back.group.None? && back.subs == map[] && back.stateSubs == l.stateSubs - 1
            && back.authed == l.authed && back.acks == l.acks && back.ordered == l.ordered
  {}

  lemma SocketsClosed(b: Base, l: Local, p: Params, joiner: Member, snapshot: map<string, Member>, heard: Heard)
    requires Outside(l) && Active(snapshot) == snapshot && joiner.name !in snapshot
    ensures var back := Left(b, JoinedView(b, l, p, joiner, snapshot, heard), joiner.name);
            back.filters == multiset{} && back.stateEnds == {} && back.dataEnds == {}
  {
    JoinedGroup(b, l, p, joiner, snapshot, heard);
    JoinedSockets(b, l, p, joiner, snapshot, heard);
    ViewWithout(snapshot, joiner);
  }

  lemma StatusLeft(b: Base, l: Local, p: Params, joiner: Member, snapshot: map<string, Member>, heard: Heard)
    requires Outside(l) && Active(snapshot) == snapshot && |snapshot| > 0
    ensures JoinedView(b, l, p, joiner, snapshot, heard).stateSubs == l.stateSubs + |snapshot|
  {
    JoinedParts(b, l, p, joiner, snapshot, heard);
  }

  /** In no group, with these authentications, ordering flag, acks and status subscriptions. */
  ghost predicate OutsideWith(l: Local, ordered: bool, acks: set<string>, stateSubs: nat, authed: set<string>) {
    Outside(l) && l.ordered == ordered && l.acks == acks && l.stateSubs == stateSubs && l.authed == authed
  }

  lemma LeftOutside(b: Base, made: Local, me: string)
    requires made.stateSubs > 0
    requires var back := Left(b, made, me); back.filters == multiset{} && back.stateEnds == {} && back.dataEnds == {}
    ensures OutsideWith(Left(b, made, me), made.ordered, made.acks, made.stateSubs - 1, made.authed)
  {
    LeftParts(b, made, me);
  }

  /** A leave undoes a join: the agent is outside again, without filter, connection, key or member. What
      stays is the timestamp of an ordered group, the authentications, and one status subscription for each
      listed member but one, since connecting subscribes once per member and leaving unsubscribes once. */
  lemma JoinThenLeave(b: Base, l: Local, p: Params, joiner: Member, mems: seq<Member>, snapshot: map<string, Member>,
                      heard: Heard)
    requires Outside(l) && Enumerates(mems, snapshot) && Keyed(snapshot)
    requires joiner.name !in snapshot && |snapshot| > 0 && Active(snapshot) == snapshot
    ensures OutsideWith(Left(b, JoinedFrom(b, l, p, joiner, mems, heard), joiner.name), l.ordered || p.orderEnabled,
                        l.acks, l.stateSubs + |snapshot| - 1, l.authed + Publishing(snapshot, heard.replies))
  {
    JoinMeans(b, l, p, joiner, mems, snapshot, heard);
    SocketsClosed(b, l, p, joiner, snapshot, heard);
    StatusLeft(b, l, p, joiner, snapshot, heard);
    JoinedParts(b, l, p, joiner, snapshot, heard);
    LeftOutside(b, JoinedView(b, l, p, joiner, snapshot, heard), joiner.name);
  }
}
