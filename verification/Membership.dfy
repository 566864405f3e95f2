/** The group membership protocol over any number of agents: Create, Join and Leave that do not overlap,
    with every message inside one operation delivered in any order. One group topic. */
module Membership {
  import opened Common
  import opened Validator
  import opened GroupStore
  import opened AgentState

  /** Fixed surroundings: checksums and data topics, each agent's publish endpoint, and the public key that
      one agent uses on its connection with another. */
  datatype Cfg = Cfg(b: Base, endpoint: string -> string, key: (string, string) -> Bytes)

  function Record(cfg: Cfg, a: string, publisher: bool, inv: string): Member {
    Member(true, publisher, a, inv, cfg.endpoint(a))
  }

  /** acks0 remembers which endpoints had acked the joiner before this join began. */
  datatype Join = Join(me: Member, acceptor: string, params: Params, snapshot: map<string, Member>, acks0: set<string>)

  datatype Phase =
    | Idle
    | Contacting(op: Join, replies: map<string, (bool, Bytes)>)
    | Wiring(op: Join, replies: map<string, (bool, Bytes)>, wired: set<string>)
    | Greeting(op: Join, heard: set<string>, ackFlight: set<string>)
    | Aborted(op: Join)

  /** A subscribe handler that has sent its reply: it still has to connect, then to record the subscriber. */
  datatype Tail = Tail(connected: bool, sub: Member)

  /** status holds the published status copies not yet handled; dialing and links are the SUB-to-PUB
      connections (subscriber, publisher) requested and established; stale names the agents that began
      their membership with a timestamp left over although the group is unordered. */
  datatype Sys = Sys(agents: map<string, Local>, phase: Phase, tails: map<string, Tail>,
                     status: map<string, Member>, dialing: set<(string, string)>, links: set<(string, string)>,
                     stale: set<string>)

  datatype Step =
    | Create(a: string, publisher: bool, inv: string, params: Params)
    | JoinStart(a: string, acceptor: string, publisher: bool, inv: string)
    | Subscribe(m: string)
    | AllReplied
    | Wire(m: string)
    | Check
    | HelloArrives(m: string)
    | AckArrives(m: string)
    | Announce
    | TailConnect(m: string)
    | TailAdd(m: string)
    | Establish(sub: string, pub: string)
    | Deliver(m: string)
    | Leave(a: string)

  /** What x publishes on the status topic reaches m: its state socket is connected to x, and subscribed. */
  ghost predicate Hears(s: Sys, m: string, x: string) {
    (m, x) in s.links && m in s.agents && s.agents[m].stateSubs > 0
  }

  /** No operation running and nothing of an earlier one outstanding. */
  ghost predicate Quiet(s: Sys) {
    s.phase.Idle? && s.tails == map[] && s.status == map[] && s.dialing == {}
  }

  ghost predicate Enabled(cfg: Cfg, s: Sys, e: Step) {
    match e
    case Create(a, _, _, params) =>
      Quiet(s) && a in s.agents && ValidMode(params.mode) && (forall b :: b in s.agents ==> s.agents[b].group.None?)
    case JoinStart(a, acceptor, _, _) =>
      && Quiet(s) && a in s.agents && acceptor in s.agents && s.agents[a].group.None?
      && MembersOf(s.agents[acceptor]) != map[] && s.agents[acceptor].group.value.params.Some?
    case Subscribe(m) => s.phase.Contacting? && m in s.phase.op.snapshot && s.phase.op.snapshot[m].active
                         && m !in s.phase.replies && m in s.agents && m !in s.tails
    case AllReplied =>
      && s.phase.Contacting?
      && forall m :: m in s.phase.op.snapshot && s.phase.op.snapshot[m].active ==> m in s.phase.replies
    case Wire(m) => s.phase.Wiring? && m in s.phase.op.snapshot && s.phase.op.snapshot[m].active
                    && m !in s.phase.wired && s.phase.op.me.name in s.agents
    case Check => s.phase.Wiring? && s.phase.op.me.name in s.agents
                  && forall m :: m in s.phase.op.snapshot && s.phase.op.snapshot[m].active ==> m in s.phase.wired
    case HelloArrives(m) => s.phase.Greeting? && m in s.phase.op.snapshot && Hears(s, m, s.phase.op.me.name)
    case AckArrives(m) => s.phase.Greeting? && m in s.phase.ackFlight && s.phase.op.me.name in s.agents
    case Announce => s.phase.Greeting? && s.phase.op.me.name in s.agents
                     && forall m :: m in s.phase.op.snapshot ==>
                          s.phase.op.snapshot[m].pubEndpoint in s.agents[s.phase.op.me.name].acks
    case TailConnect(m) => m in s.tails && !s.tails[m].connected && m in s.agents
    case TailAdd(m) => m in s.tails && s.tails[m].connected && m in s.agents
    case Establish(sub, pub) => (sub, pub) in s.dialing
    case Deliver(m) => m in s.status && m in s.agents && s.agents[m].stateSubs > 0
    case Leave(a) => Quiet(s) && a in s.agents && MembersOf(s.agents[a]) != map[]
  }

  /** What ValidJoin decides (see Validator.ValidJoin). */
  ghost predicate ConsistentReplies(cfg: Cfg, op: Join, replies: map<string, (bool, Bytes)>) {
    forall m :: m in replies && m != op.acceptor ==> replies[m].1 == cfg.b.checksum(op.snapshot)
  }

  function Stale(s: Sys, a: string, p: Params): set<string>
    requires a in s.agents
  {
    if s.agents[a].ordered && !p.orderEnabled then s.stale + {a} else s.stale - {a}
  }

  /** The status record a leaver publishes. */
  function Farewell(cfg: Cfg, l: Local, a: string): Member {
    if a in MembersOf(l) then MembersOf(l)[a].(active := false) else Member(false, false, a, "", cfg.endpoint(a))
  }

  /** A published status reaches the members of the sender's view that hear the sender. */
  ghost function Published(view: map<string, Member>, s: Sys, r: Member): map<string, Member> {
    map m | m in view && m != r.name && Hears(s, m, r.name) :: r
  }

  function DoCreate(cfg: Cfg, s: Sys, me: Member, params: Params): Sys
    requires me.name in s.agents
  {
    s.(agents := s.agents[me.name := AddAll(cfg.b, Begin(s.agents[me.name], params), [me])],
       stale := Stale(s, me.name, params))
  }

  function DoJoinStart(s: Sys, me: Member, acceptor: string, params: Params, snapshot: map<string, Member>): Sys
    requires me.name in s.agents
  {
    var op := Join(me, acceptor, params, snapshot, s.agents[me.name].acks);
    s.(agents := s.agents[me.name := Begin(s.agents[me.name], params)],
       phase := Contacting(op, map[]),
       stale := Stale(s, me.name, params))
  }

  function DoSubscribe(s: Sys, m: string): Sys
    requires s.phase.Contacting? && m in s.agents
  {
    match SubscribeReply(s.agents[m], m)
    case None => s.(phase := Contacting(s.phase.op, s.phase.replies[m := (false, [])]))
    case Some(reply) =>
      s.(phase := Contacting(s.phase.op, s.phase.replies[m := reply]),
         tails := s.tails[m := Tail(false, s.phase.op.me)])
  }

  function DoWire(cfg: Cfg, s: Sys, m: string): Sys
    requires s.phase.Wiring? && s.phase.op.me.name in s.agents && m in s.phase.op.snapshot
  {
    var op := s.phase.op;
    var publishes := m in s.phase.replies && s.phase.replies[m].0;
    var l := Meet(cfg.b, s.agents[op.me.name], op.me.name, op.snapshot[m], publishes);
    s.(agents := s.agents[op.me.name := if op.me.publisher then AddSub(l, m, cfg.key(m, op.me.name)) else l],
       dialing := s.dialing + {(op.me.name, m)},
       phase := Wiring(op, s.phase.replies, s.phase.wired + {m}))
  }

  /** AddMembrs for the snapshot and the joiner itself. */
  function DoInstall(cfg: Cfg, s: Sys): Sys
    requires s.phase.Wiring? && s.phase.op.me.name in s.agents
  {
    var op := s.phase.op;
    s.(agents := s.agents[op.me.name := Install(cfg.b, s.agents[op.me.name], op.snapshot, op.me)],
       phase := Greeting(op, {}, {}))
  }

  function DoAck(cfg: Cfg, s: Sys, m: string): Sys
    requires s.phase.Greeting? && s.phase.op.me.name in s.agents
  {
    var j := s.phase.op.me.name;
    s.(agents := s.agents[j := s.agents[j].(acks := s.agents[j].acks + {cfg.endpoint(m)})],
       phase := Greeting(s.phase.op, s.phase.heard, s.phase.ackFlight - {m}))
  }

  function DoTailConnect(cfg: Cfg, s: Sys, m: string): Sys
    requires m in s.tails && m in s.agents
  {
    s.(agents := s.agents[m := Meet(cfg.b, s.agents[m], m, s.tails[m].sub, s.tails[m].sub.publisher)],
       dialing := s.dialing + {(m, s.tails[m].sub.name)},
       tails := s.tails[m := s.tails[m].(connected := true)])
  }

  function DoTailAdd(cfg: Cfg, s: Sys, m: string): Sys
    requires m in s.tails && m in s.agents
  {
    s.(agents := s.agents[m := AddSub(s.agents[m], s.tails[m].sub.name, cfg.key(s.tails[m].sub.name, m))],
       tails := s.tails - {m})
  }

  function DoEstablish(s: Sys, sub: string, pub: string): Sys {
    s.(dialing := s.dialing - {(sub, pub)}, links := s.links + {(sub, pub)})
  }

  function DoAllReplied(s: Sys): Sys
    requires s.phase.Contacting?
  {
    s.(phase := Wiring(s.phase.op, s.phase.replies, {}))
  }

  function DoHello(s: Sys, m: string): Sys
    requires s.phase.Greeting?
  {
    s.(phase := Greeting(s.phase.op, s.phase.heard + {m}, s.phase.ackFlight + {m}))
  }

  function DoDeliver(cfg: Cfg, s: Sys, m: string): Sys
    requires m in s.status && m in s.agents
  {
    var r := s.status[m];
    s.(agents := s.agents[m := OnStatus(cfg.b, s.agents[m], m, r)],
       status := s.status - {m},
       dialing := if r.active then s.dialing else s.dialing - {(m, r.name)},
       links := if r.active then s.links else s.links - {(m, r.name)})
  }

  ghost function DoLeave(cfg: Cfg, s: Sys, a: string): Sys
    requires a in s.agents
  {
    s.(agents := s.agents[a := Left(cfg.b, s.agents[a], a)],
       status := Published(MembersOf(s.agents[a]), s, Farewell(cfg, s.agents[a], a)),
       links := set p | p in s.links && p.0 != a)
  }

  ghost function Next(cfg: Cfg, s: Sys, e: Step): Sys
    requires Enabled(cfg, s, e)
  {
    match e
    case Create(a, publisher, inv, params) => DoCreate(cfg, s, Record(cfg, a, publisher, inv), params)
    case JoinStart(a, acceptor, publisher, inv) =>
      DoJoinStart(s, Record(cfg, a, publisher, inv), acceptor,
                  s.agents[acceptor].group.value.params.value, MembersOf(s.agents[acceptor]))
    case Subscribe(m) => DoSubscribe(s, m)
    case AllReplied => DoAllReplied(s)
    case Wire(m) => DoWire(cfg, s, m)
    case Check =>
      if |s.phase.op.snapshot| > 1 && !ConsistentReplies(cfg, s.phase.op, s.phase.replies) &&
        s.phase.op.params.joinConsistent
      then s.(phase := Aborted(s.phase.op))
      else DoInstall(cfg, s)
    case HelloArrives(m) => DoHello(s, m)
    case AckArrives(m) => DoAck(cfg, s, m)
    case Announce =>
      // acks still in flight only repeat endpoints that have been stored
      s.(status := Published(MembersOf(s.agents[s.phase.op.me.name]), s, s.phase.op.me), phase := Idle)
    case TailConnect(m) => DoTailConnect(cfg, s, m)
    case TailAdd(m) => DoTailAdd(cfg, s, m)
    case Establish(sub, pub) => DoEstablish(s, sub, pub)
    case Deliver(m) => DoDeliver(cfg, s, m)
    case Leave(a) => DoLeave(cfg, s, a)
  }

  ghost predicate Init(cfg: Cfg, s: Sys) {
    && (forall a :: a in s.agents ==> s.agents[a] == BLANK)
    && s == Sys(s.agents, Idle, map[], map[], {}, {}, {})
    && (forall a, b :: a in s.agents && b in s.agents && cfg.endpoint(a) == cfg.endpoint(b) ==> a == b)
  }

  ghost predicate Run(cfg: Cfg, states: seq<Sys>, steps: seq<Step>) {
    && |states| == |steps| + 1
    && Init(cfg, states[0])
    && (forall i :: 0 <= i < |steps| ==> StepAt(cfg, states, steps, i))
  }

  ghost predicate StepAt(cfg: Cfg, states: seq<Sys>, steps: seq<Step>, i: nat)
    requires i < |steps| < |states|
  {
    Enabled(cfg, states[i], steps[i]) && states[i + 1] == Next(cfg, states[i], steps[i])
  }

  /** None of the members a joiner is about to contact has already acked it, in an earlier membership. */
  ghost predicate FreshAcks(s: Sys, e: Step) {
    e.JoinStart? && e.a in s.agents && e.acceptor in s.agents ==>
      forall m :: m in MembersOf(s.agents[e.acceptor]) ==>
        MembersOf(s.agents[e.acceptor])[m].pubEndpoint !in s.agents[e.a].acks
  }

  // ---- what the group should be ----

  /** The group as one atomic service would keep it: its members now, and before the last operation. */
  datatype Ideal = Ideal(view: map<string, Member>, before: map<string, Member>, params: Params)

  const NOBODY := Ideal(map[], map[], Params(false, false, SINGLE_QUEUE))

  /** A creator starts the group, a joiner is added when it announces itself, a leaver is removed. */
  ghost function IdealNext(cfg: Cfg, g: Ideal, s: Sys, e: Step): Ideal {
    match e
    case Create(a, publisher, inv, params) =>
      var v := map[a := Record(cfg, a, publisher, inv)];
      Ideal(v, v, params)
    case Announce =>
      if s.phase.Greeting? then g.(view := g.view[s.phase.op.me.name := s.phase.op.me], before := g.view) else g
    case Leave(a) => g.(view := g.view - {a}, before := g.view)
    case _ => g
  }

  ghost function IdealAt(cfg: Cfg, states: seq<Sys>, steps: seq<Step>, i: nat): Ideal
    requires i <= |steps| < |states|
  {
    if i == 0 then NOBODY else IdealNext(cfg, IdealAt(cfg, states, steps, i - 1), states[i - 1], steps[i - 1])
  }

  // ---- what each agent should hold, at every moment ----

  ghost predicate Joining(s: Sys) {
    s.phase.Contacting? || s.phase.Wiring? || s.phase.Greeting?
  }

  ghost predicate IsJoiner(s: Sys, a: string) {
    Joining(s) && s.phase.op.me.name == a
  }

  /** The members that have sent their subscribe reply to the current joiner. */
  ghost function Answered(ph: Phase): set<string> {
    match ph
    case Contacting(_, replies) => replies.Keys
    case Wiring(_, replies, _) => replies.Keys
    case Greeting(op, _, _) => op.snapshot.Keys
    case _ => {}
  }

  /** ... and have connected to the joiner's publisher socket. */
  ghost predicate Reached(s: Sys, m: string) {
    m in Answered(s.phase) && !(m in s.tails && !s.tails[m].connected)
  }

  /** The members the joiner has connected to. */
  ghost function WiredSet(ph: Phase): set<string> {
    match ph
    case Wiring(_, _, wired) => wired
    case Greeting(op, _, _) => op.snapshot.Keys
    case _ => {}
  }

  /** A joiner's announcement is on its way to m. */
  ghost predicate Expecting(s: Sys, m: string) {
    m in s.status && s.status[m].active
  }

  ghost function ViewOf(s: Sys, g: Ideal, m: string): map<string, Member> {
    if m in s.status then g.before else g.view
  }

  /** What an agent should hold: its group, the publishers it takes data from, the members its state socket
      is connected to, and the subscribers whose keys it knows, all of them if exact. */
  datatype Expect = Expect(group: Option<Group>, pubs: set<string>, conns: set<string>, known: set<string>, exact: bool)

  ghost function GroupOf(cfg: Cfg, view: map<string, Member>, params: Params): Option<Group> {
    Some(Group(view, cfg.b.checksum(view), Some(params)))
  }

  ghost function Newcomer(s: Sys, m: string): set<string> {
    if Expecting(s, m) then {s.status[m].name} else {}
  }

  ghost function MemberExpect(cfg: Cfg, s: Sys, g: Ideal, m: string): Expect {
    var view := ViewOf(s, g, m);
    Expect(
      GroupOf(cfg, view, g.params),
      Publishers(view) - {m}
      + (if Expecting(s, m) && s.status[m].publisher then {s.status[m].name} else {})
      + (if Joining(s) && Reached(s, m) && s.phase.op.me.publisher then {s.phase.op.me.name} else {}),
      (view.Keys + Newcomer(s, m)) - {m}
      + (if Joining(s) && Reached(s, m) then {s.phase.op.me.name} else {}),
      (view.Keys + Newcomer(s, m)) - {m} - (if m in s.tails then {s.tails[m].sub.name} else {})
      + (if Joining(s) && m in Answered(s.phase) && m !in s.tails then {s.phase.op.me.name} else {}),
      m in view && view[m].publisher)
  }

  ghost function JoinerExpect(cfg: Cfg, s: Sys, g: Ideal): Expect
    requires Joining(s)
  {
    var op, done := s.phase.op, WiredSet(s.phase);
    Expect(
      if s.phase.Greeting? then GroupOf(cfg, op.snapshot[op.me.name := op.me], op.params)
      else Some(EMPTY_GROUP.(params := Some(op.params))),
      Publishers(op.snapshot) * done,
      done,
      if op.me.publisher then done else {},
      true)
  }

  ghost function Expected(cfg: Cfg, s: Sys, g: Ideal, a: string): Expect {
    if IsJoiner(s, a) then JoinerExpect(cfg, s, g)
    else if a in g.view then MemberExpect(cfg, s, g, a)
    else Expect(None, {}, {}, {}, false)
  }

  ghost function Ends(cfg: Cfg, names: set<string>): set<string> {
    set n | n in names :: cfg.endpoint(n)
  }

  ghost predicate Fits(cfg: Cfg, a: string, mode: string, l: Local, x: Expect) {
    && l.group == x.group
    && l.filters == Bag(cfg.b, mode, x.pubs, a)
    && l.stateEnds == Ends(cfg, x.conns)
    && l.dataEnds == Ends(cfg, x.pubs)
    && (x.conns != {} ==> l.stateSubs > 0)
    && x.pubs <= l.authed
    && (forall k :: k in l.subs ==> k in x.known && l.subs[k] == cfg.key(k, a))
    && (x.exact ==> x.known <= l.subs.Keys)
  }

  ghost predicate Conn(s: Sys, x: string, y: string) {
    (x, y) in s.dialing || (x, y) in s.links
  }

  ghost predicate ShouldConn(s: Sys, g: Ideal, x: string, y: string) {
    || (x in g.view && y in g.view && x != y)
    || (IsJoiner(s, x) && y in WiredSet(s.phase))
    || (IsJoiner(s, y) && Reached(s, x))
    || (x in s.status && !s.status[x].active && s.status[x].name == y)
  }

  // ---- the invariant, in parts ----

  ghost predicate WellKept(cfg: Cfg, s: Sys, view: map<string, Member>) {
    forall m :: m in view ==>
      m in s.agents && view[m].name == m && view[m].active && view[m].pubEndpoint == cfg.endpoint(m)
  }

  ghost predicate DistinctEndpoints(cfg: Cfg, s: Sys) {
    forall a, b :: a in s.agents && b in s.agents && cfg.endpoint(a) == cfg.endpoint(b) ==> a == b
  }

  ghost predicate OpOk(cfg: Cfg, s: Sys, g: Ideal) {
    && !s.phase.Aborted?
    && (Joining(s) ==>
          var op := s.phase.op;
          && op.snapshot == g.view && op.params == g.params && op.acceptor in g.view
          && op.me.name !in g.view && op.me.name in s.agents && op.me.active
          && op.me.pubEndpoint == cfg.endpoint(op.me.name)
          && s.status == map[])
    && (s.phase.Contacting? || s.phase.Wiring? ==>
          forall m :: m in s.phase.replies ==>
            m in g.view && s.phase.replies[m] == (g.view[m].publisher, cfg.b.checksum(g.view)))
    && (s.phase.Wiring? ==> s.phase.wired <= g.view.Keys && g.view.Keys <= s.phase.replies.Keys)
    && (s.phase.Greeting? ==> s.phase.heard <= g.view.Keys && s.phase.ackFlight <= s.phase.heard)
  }

  /** Statuses under way are one record, sent to members of the current view; it explains how the view
      changed. */
  ghost predicate StatusOk(s: Sys, g: Ideal) {
    forall m :: m in s.status ==>
      var r := s.status[m];
      && m in g.view && m != r.name
      && (if r.active then r.name !in g.before && g.view == g.before[r.name := r]
          else r.name in g.before && g.before[r.name] == r.(active := true) && g.view == g.before - {r.name})
  }

  /** ... about an agent, at its endpoint. */
  ghost predicate SendersOk(cfg: Cfg, s: Sys) {
    forall m :: m in s.status ==>
      s.status[m].name in s.agents && s.status[m].pubEndpoint == cfg.endpoint(s.status[m].name)
  }

  ghost predicate TailsOk(s: Sys, g: Ideal) {
    forall m :: m in s.tails ==>
      && m in g.view && m != s.tails[m].sub.name && s.tails[m].sub.active
      && (Joining(s) ==> m in Answered(s.phase) && s.tails[m].sub == s.phase.op.me)
      && (!Joining(s) ==> s.tails[m].connected && s.tails[m].sub.name in g.view)
      && (!Joining(s) && m in s.status ==> s.status[m] == s.tails[m].sub)
  }

  /** Hellos travel over established links, and only heard members have acked. */
  ghost predicate HelloOk(cfg: Cfg, s: Sys, g: Ideal) {
    Joining(s) && s.phase.op.me.name in s.agents ==>
      forall m :: m in g.view ==>
        (cfg.endpoint(m) in s.agents[s.phase.op.me.name].acks ==> s.phase.Greeting? && m in s.phase.heard)
        && (s.phase.Greeting? && m in s.phase.heard ==> (m, s.phase.op.me.name) in s.links)
  }

  ghost predicate Fine(cfg: Cfg, s: Sys, g: Ideal, a: string)
    requires a in s.agents
  {
    Fits(cfg, a, g.params.mode, s.agents[a], Expected(cfg, s, g, a))
  }

  ghost predicate AgentsOk(cfg: Cfg, s: Sys, g: Ideal) {
    forall a :: a in s.agents ==> Fine(cfg, s, g, a)
  }

  ghost predicate ConnsOk(s: Sys, g: Ideal) {
    forall x, y :: Conn(s, x, y) <==> ShouldConn(s, g, x, y)
  }

  /** The part of the context that concerns the operation under way. */
  ghost predicate OpContext(cfg: Cfg, s: Sys, g: Ideal) {
    && DistinctEndpoints(cfg, s)
    && WellKept(cfg, s, g.view)
    && OpOk(cfg, s, g)
    && StatusOk(s, g)
    && SendersOk(cfg, s)
  }

  ghost predicate Context(cfg: Cfg, s: Sys, g: Ideal) {
    OpContext(cfg, s, g) && TailsOk(s, g) && HelloOk(cfg, s, g)
  }

  ghost predicate Inv(cfg: Cfg, s: Sys, g: Ideal) {
    Context(cfg, s, g) && ConnsOk(s, g) && AgentsOk(cfg, s, g)
  }

  // ---- changes to one agent's state, against what it should hold ----

  lemma EndsWith(cfg: Cfg, names: set<string>, n: string)
    ensures Ends(cfg, names + {n}) == Ends(cfg, names) + {cfg.endpoint(n)}
  {}

  lemma FitsMeet(cfg: Cfg, a: string, mode: string, l: Local, x: Expect, peer: Member, publishes: bool)
    requires Fits(cfg, a, mode, l, x) && ModeOf(l) == mode && peer.pubEndpoint == cfg.endpoint(peer.name)
    requires peer.publisher ==> peer.name !in x.pubs && publishes
    requires x.conns == {} ==> |MembersOf(l)| < 2
    ensures Fits(cfg, a, mode, Meet(cfg.b, l, a, peer, publishes),
                 x.(pubs := if peer.publisher then x.pubs + {peer.name} else x.pubs, conns := x.conns + {peer.name}))
  {
    EndsWith(cfg, x.conns, peer.name);
    if peer.publisher {
      BagAdd(cfg.b, mode, x.pubs, a, peer.name);
      EndsWith(cfg, x.pubs, peer.name);
    }
  }

  lemma FitsAddSub(cfg: Cfg, a: string, mode: string, l: Local, x: Expect, sub: string)
    requires Fits(cfg, a, mode, l, x)
    ensures Fits(cfg, a, mode, AddSub(l, sub, cfg.key(sub, a)), x.(known := x.known + {sub}))
  {}

  lemma FitsActive(cfg: Cfg, a: string, mode: string, l: Local, x: Expect, r: Member)
    requires Fits(cfg, a, mode, l, x) && r.active && x.group.Some?
    ensures var view := x.group.value.members[r.name := r];
            Fits(cfg, a, mode, OnStatus(cfg.b, l, a, r), x.(group := Some(Holding(cfg.b, x.group.value, view))))
  {
    assert [r][..0] == [];
    assert Put(x.group.value.members, [r]) == x.group.value.members[r.name := r];
  }

  /** Closing the connection to n loses no other. */
  lemma EndsWithout(cfg: Cfg, names: set<string>, n: string)
    requires forall p :: p in names && cfg.endpoint(p) == cfg.endpoint(n) ==> p == n
    ensures Ends(cfg, names) - {cfg.endpoint(n)} == Ends(cfg, names - {n})
  {}

  lemma FitsInactive(cfg: Cfg, a: string, mode: string, l: Local, x: Expect, r: Member)
    requires Fits(cfg, a, mode, l, x) && !r.active && x.group.Some? && ModeOf(l) == mode
    requires r.publisher <==> r.name in x.pubs
    requires r.pubEndpoint == cfg.endpoint(r.name)
    requires forall p :: p in x.conns + x.pubs && cfg.endpoint(p) == cfg.endpoint(r.name) ==> p == r.name
    ensures var view := x.group.value.members - {r.name};
            Fits(cfg, a, mode, OnStatus(cfg.b, l, a, r),
                 Expect(Some(Holding(cfg.b, x.group.value, view)),
                        x.pubs - {r.name}, x.conns - {r.name}, x.known - {r.name}, x.exact))
  {
    EndsWithout(cfg, x.conns, r.name);
    if r.publisher {
      BagRemove(cfg.b, mode, x.pubs, a, r.name);
      EndsWithout(cfg, x.pubs, r.name);
    } else {
      assert x.pubs - {r.name} == x.pubs;
    }
  }

  /** From s to s' only agent z changed, and nobody else is expected to. */
  ghost predicate OnlyAgent(cfg: Cfg, s: Sys, s': Sys, g: Ideal, g': Ideal, z: string) {
    && s'.agents.Keys == s.agents.Keys && g'.params.mode == g.params.mode
    && forall a :: a in s.agents && a != z ==>
       s'.agents[a] == s.agents[a] && Expected(cfg, s', g', a) == Expected(cfg, s, g, a)
  }

  lemma OneAgent(cfg: Cfg, s: Sys, s': Sys, g: Ideal, g': Ideal, z: string)
    requires AgentsOk(cfg, s, g) && z in s.agents && OnlyAgent(cfg, s, s', g, g', z) && Fine(cfg, s', g', z)
    ensures AgentsOk(cfg, s', g')
  {
    forall a | a in s'.agents ensures Fine(cfg, s', g', a) {
      assert Fine(cfg, s, g, a) || a == z;
    }
  }

  lemma MemberFits(cfg: Cfg, s: Sys, g: Ideal, m: string)
    requires m in s.agents && m in g.view && !IsJoiner(s, m)
    ensures Fine(cfg, s, g, m) <==> Fits(cfg, m, g.params.mode, s.agents[m], MemberExpect(cfg, s, g, m))
  {}

  lemma JoinerFits(cfg: Cfg, s: Sys, g: Ideal)
    requires Joining(s) && s.phase.op.me.name in s.agents
    ensures var j := s.phase.op.me.name;
            Fine(cfg, s, g, j) <==> Fits(cfg, j, g.params.mode, s.agents[j], JoinerExpect(cfg, s, g))
  {}

  ghost predicate SameSides(p: Phase, q: Phase) {
    && (p.Contacting? || p.Wiring? || p.Greeting? <==> q.Contacting? || q.Wiring? || q.Greeting?)
    && (p.Contacting? || p.Wiring? || p.Greeting? ==> p.op == q.op)
    && Answered(p) == Answered(q) && WiredSet(p) == WiredSet(q) && (p.Greeting? <==> q.Greeting?)
  }

  /** Steps that only move messages change nobody's expected state. */
  lemma SameExpectations(cfg: Cfg, s: Sys, s': Sys, g: Ideal)
    requires s'.tails == s.tails && s'.status == s.status && SameSides(s.phase, s'.phase)
    ensures forall a :: Expected(cfg, s', g, a) == Expected(cfg, s, g, a)
    ensures forall x, y :: ShouldConn(s', g, x, y) == ShouldConn(s, g, x, y)
  {}
}
