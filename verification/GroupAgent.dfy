/** The group agent itself (pubsub/agent.go, pubsub/processor.go): its operations and message handlers over
    its own stores and transport, each shown to change the agent's state exactly as AgentState says. */
module GroupAgent {
  import opened Common
  import opened Validator
  import opened GroupStore
  import opened AgentState
  import Subscribers
  import Syncer
  import T = Transport
  import opened Packer
  import D = DidExchange
  import Prober
  import Topics

  /** What an acceptor hands to a joiner. */
  datatype JoinResponse = JoinResponse(params: Params, members: seq<Member>)

  /** A Go map read: nil or the empty string for a missing key. */
  function At(keys: map<string, Bytes>, name: string): Bytes {
    if name in keys then keys[name] else []
  }

  /** A member's subscribe reply; a zero reply if it could not be reached. */
  function ReplyOf(replies: map<string, (bool, Bytes)>, name: string): (bool, Bytes) {
    if name in replies then replies[name] else (false, [])
  }

  /** What a joiner learned about each member: its subscribe reply, and its key from the connection. */
  datatype Heard = Heard(replies: map<string, (bool, Bytes)>, keys: map<string, Bytes>)

  /** Join's loop over the members it was told about: meet each active one and, as a publisher, record its
      key. */
  function WireAll(b: Base, l: Local, me: string, publisher: bool, mems: seq<Member>, heard: Heard): Local
  {
    if |mems| == 0 then l
    else
      var m := mems[|mems| - 1];
      var l1 := WireAll(b, l, me, publisher, mems[..|mems| - 1], heard);
      if m.active then WireOne(b, l1, me, publisher, m, heard) else l1
  }

  function Active(members: map<string, Member>): map<string, Member> {
    map k | k in members && members[k].active :: members[k]
  }

  function WireOne(b: Base, l: Local, me: string, publisher: bool, m: Member, heard: Heard): Local {
    var l1 := Meet(b, l, me, m, ReplyOf(heard.replies, m.name).0);
    if publisher then AddSub(l1, m.name, At(heard.keys, m.name)) else l1
  }

  /** The members that say in their replies that they publish. */
  function Publishing(members: map<string, Member>, replies: map<string, (bool, Bytes)>): set<string> {
    set k | k in members && ReplyOf(replies, k).0
  }

  /** The status subscriptions after connecting to n members. */
  function Subscribed(l: Local, n: nat): nat {
    if |MembersOf(l)| < 2 then l.stateSubs + n else l.stateSubs
  }

  function KeysFor(members: map<string, Member>, keys: map<string, Bytes>): map<string, Bytes> {
    map k | k in members :: At(keys, k)
  }

  /** l1 is l, connected to the members in `done`, subscribed to the publishers among them, authenticated for
      those that said they publish and, as a publisher, with their keys. */
  ghost predicate Wired(b: Base, l: Local, l1: Local, me: string, publisher: bool, done: map<string, Member>,
                        heard: Heard)
  {
    && l1.filters == l.filters + Bag(b, ModeOf(l), Publishers(done), me)
    && l1.stateEnds == l.stateEnds + Endpoints(done)
    && l1.dataEnds == l.dataEnds + Endpoints(PublishersOf(done))
    && l1.authed == l.authed + Publishing(done, heard.replies)
    && l1.stateSubs == Subscribed(l, |done|)
    && l1.subs == (if publisher then l.subs + KeysFor(done, heard.keys) else l.subs)
    && l1.group == l.group && l1.ordered == l.ordered && l1.acks == l.acks
  }

  lemma {:induction false} MoreFilters(b: Base, mode: string, me: string, done: map<string, Member>, m: Member)
    requires m.name !in done
    ensures Bag(b, mode, Publishers(done[m.name := m]), me) ==
            Bag(b, mode, Publishers(done), me) +
              (if m.publisher then multiset{b.dataTopic(mode, m.name, me)} else multiset{})
  {
    if m.publisher {
      assert Publishers(done[m.name := m]) == Publishers(done) + {m.name};
      BagAdd(b, mode, Publishers(done), me, m.name);
    } else {
      assert Publishers(done[m.name := m]) == Publishers(done);
    }
  }

  lemma MoreKeys(s: map<string, Bytes>, done: map<string, Member>, keys: map<string, Bytes>, m: Member)
    ensures (s + KeysFor(done, keys))[m.name := At(keys, m.name)] == s + KeysFor(done[m.name := m], keys)
  {}

  lemma MoreEnds(done: map<string, Member>, m: Member)
    requires m.name !in done
    ensures Endpoints(done[m.name := m]) == Endpoints(done) + {m.pubEndpoint}
    ensures PublishersOf(done[m.name := m]) ==
            if m.publisher then PublishersOf(done)[m.name := m] else PublishersOf(done)
  {
    var done' := done[m.name := m];
    assert forall k :: k in done ==> done'[k] == done[k];
    assert done'[m.name] == m;
  }

  /** l2 is l1 after meeting m. */
  ghost predicate Met(b: Base, l1: Local, l2: Local, me: string, m: Member, publishes: bool) {
    && l2.filters == l1.filters + (if m.publisher then multiset{b.dataTopic(ModeOf(l1), m.name, me)} else multiset{})
    && l2.stateEnds == l1.stateEnds + {m.pubEndpoint}
    && l2.dataEnds == l1.dataEnds + (if m.publisher then {m.pubEndpoint} else {})
    && l2.authed == l1.authed + (if publishes then {m.name} else {})
    && l2.stateSubs == Subscribed(l1, 1)
    && l2.subs == l1.subs && l2.group == l1.group && l2.ordered == l1.ordered && l2.acks == l1.acks
  }

  lemma MeetParts(b: Base, l: Local, me: string, m: Member, publishes: bool)
    ensures Met(b, l, Meet(b, l, me, m, publishes), me, m, publishes)
  {}

  lemma MorePublishing(done: map<string, Member>, replies: map<string, (bool, Bytes)>, m: Member)
    requires m.name !in done
    ensures Publishing(done[m.name := m], replies) ==
            Publishing(done, replies) + (if ReplyOf(replies, m.name).0 then {m.name} else {})
  {
    assert done[m.name := m].Keys == done.Keys + {m.name};
  }

  lemma OneMore(done: map<string, Member>, m: Member)
    requires m.name !in done
    ensures |done[m.name := m]| == |done| + 1
  {
    assert done[m.name := m].Keys == done.Keys + {m.name};
  }

  lemma MoreDataEnds(done: map<string, Member>, m: Member)
    requires m.name !in done
    ensures Endpoints(PublishersOf(done[m.name := m])) ==
            Endpoints(PublishersOf(done)) + (if m.publisher then {m.pubEndpoint} else {})
  {
    MoreEnds(done, m);
    MoreEnds(PublishersOf(done), m);
  }

  lemma {:induction false} WiredFilters(b: Base, mode: string, f: multiset<string>, f1: multiset<string>, me: string,
                                       done: map<string, Member>, m: Member)
    requires m.name !in done && f1 == f + Bag(b, mode, Publishers(done), me)
    ensures f1 + (if m.publisher then multiset{b.dataTopic(mode, m.name, me)} else multiset{})
         == f + Bag(b, mode, Publishers(done[m.name := m]), me)
  {
    MoreFilters(b, mode, me, done, m);
  }

  lemma WiredEnds(e: set<string>, d: set<string>, done: map<string, Member>, m: Member)
    requires m.name !in done
    ensures e + Endpoints(done) + {m.pubEndpoint} == e + Endpoints(done[m.name := m])
    ensures d + Endpoints(PublishersOf(done)) + (if m.publisher then {m.pubEndpoint} else {})
         == d + Endpoints(PublishersOf(done[m.name := m]))
  {
    MoreEnds(done, m);
    MoreDataEnds(done, m);
  }

  lemma WiredAuth(a: set<string>, a1: set<string>, done: map<string, Member>, replies: map<string, (bool, Bytes)>,
                  m: Member)
    requires m.name !in done && a1 == a + Publishing(done, replies)
    ensures a1 + (if ReplyOf(replies, m.name).0 then {m.name} else {}) == a + Publishing(done[m.name := m], replies)
  {
    MorePublishing(done, replies, m);
  }

  lemma WiredStatus(l: Local, l1: Local, done: map<string, Member>, m: Member)
    requires m.name !in done && l1.group == l.group && l1.stateSubs == Subscribed(l, |done|)
    ensures Subscribed(l1, 1) == Subscribed(l, |done[m.name := m]|)
  {
    OneMore(done, m);
  }

  lemma WiredOne(b: Base, l: Local, l1: Local, me: string, publisher: bool, done: map<string, Member>,
                 heard: Heard, m: Member)
    requires Wired(b, l, l1, me, publisher, done, heard) && m.name !in done
    ensures Wired(b, l, WireOne(b, l1, me, publisher, m, heard), me, publisher, done[m.name := m], heard)
  {
    MeetParts(b, l1, me, m, ReplyOf(heard.replies, m.name).0);
    WiredFilters(b, ModeOf(l), l.filters, l1.filters, me, done, m);
    WiredEnds(l.stateEnds, l.dataEnds, done, m);
    WiredAuth(l.authed, l1.authed, done, heard.replies, m);
    WiredStatus(l, l1, done, m);
    MoreKeys(l.subs, done, heard.keys, m);
  }

  lemma ActiveStep(snapshot: map<string, Member>, m: Member)
    requires m.name in snapshot && snapshot[m.name] == m
    ensures Active(snapshot) ==
            if m.active then Active(snapshot - {m.name})[m.name := m] else Active(snapshot - {m.name})
  {}

  lemma NothingWired(b: Base, l: Local, me: string, publisher: bool, heard: Heard)
    ensures Wired(b, l, l, me, publisher, Active(map[]), heard)
  {
    assert Active(map[]) == map[] && Publishers(map[]) == {} && PublishersOf(map[]) == map[];
    assert KeysFor(map[], heard.keys) == map[];
  }

  lemma {:induction false} WireLast(b: Base, l: Local, me: string, publisher: bool, mems: seq<Member>, heard: Heard,
                                   done: map<string, Member>)
    requires |mems| > 0
    requires Wired(b, l, WireAll(b, l, me, publisher, mems[..|mems| - 1], heard), me, publisher, done, heard)
    requires mems[|mems| - 1].name !in done
    ensures var m := mems[|mems| - 1];
            Wired(b, l, WireAll(b, l, me, publisher, mems, heard), me, publisher,
                  if m.active then done[m.name := m] else done, heard)
  {
    var m := mems[|mems| - 1];
    assert m in mems;
    if m.active {
      WiredOne(b, l, WireAll(b, l, me, publisher, mems[..|mems| - 1], heard), me, publisher, done, heard, m);
    }
  }

  /** Whatever the order of the members, the joiner ends up connected to every active member, with one data
      filter per active publisher and, as a publisher, with the key of every active member. */
  lemma {:induction false} WireAllAnyOrder(b: Base, l: Local, me: string, publisher: bool, mems: seq<Member>,
                                           heard: Heard, snapshot: map<string, Member>)
    requires Enumerates(mems, snapshot) && Keyed(snapshot)
    ensures Wired(b, l, WireAll(b, l, me, publisher, mems, heard), me, publisher, Active(snapshot), heard)
    decreases |mems|
  {
    NoMembers(mems, snapshot);
    if |mems| == 0 {
      NothingWired(b, l, me, publisher, heard);
    } else {
      var m := mems[|mems| - 1];
      ShorterSnapshot(mems, snapshot);
      WireAllAnyOrder(b, l, me, publisher, mems[..|mems| - 1], heard, snapshot - {m.name});
      WireLast(b, l, me, publisher, mems, heard, Active(snapshot - {m.name}));
      ActiveStep(snapshot, m);
    }
  }

  /** Storing an enumerated snapshot stores exactly that snapshot, over whatever was there. */
  lemma {:induction false} PutEnumeration(members: map<string, Member>, mems: seq<Member>, snapshot: map<string,
                                          Member>)
    requires Enumerates(mems, snapshot) && Keyed(snapshot)
    ensures Put(members, mems) == members + snapshot
    decreases |mems|
  {
    NoMembers(mems, snapshot);
    if |mems| > 0 {
      ShorterSnapshot(mems, snapshot);
      var m := mems[|mems| - 1];
      PutEnumeration(members, mems[..|mems| - 1], snapshot - {m.name});
      MergeLast(members, snapshot, m.name);
    }
  }

  lemma MergeLast(members: map<string, Member>, snapshot: map<string, Member>, k: string)
    requires k in snapshot
    ensures members + snapshot == (members + (snapshot - {k}))[k := snapshot[k]]
  {}

  /** AddMembrs of a listing and the joiner is what Install describes. */
  lemma AddAllInstalls(b: Base, l: Local, mems: seq<Member>, snapshot: map<string, Member>, joiner: Member)
    requires Enumerates(mems, snapshot) && Keyed(snapshot)
    ensures AddAll(b, l, mems + [joiner]) == Install(b, l, snapshot, joiner)
  {
    var members := if l.group.Some? then l.group.value.members else map[];
    PutEnumeration(members, mems, snapshot);
    assert (mems + [joiner])[..|mems|] == mems;
    assert (members + snapshot)[joiner.name := joiner] == members + snapshot[joiner.name := joiner];
  }

  /** What Join leaves behind for a snapshot. */
  ghost function JoinedView(b: Base, l: Local, p: Params, joiner: Member, snapshot: map<string, Member>,
                            heard: Heard): Local
  {
    var active, l1 := Active(snapshot), Begin(l, p);
    Install(b,
            l1.(subs := if joiner.publisher then l.subs + KeysFor(active, heard.keys) else l.subs,
                filters := l.filters + Bag(b, p.mode, Publishers(active), joiner.name),
                stateEnds := l.stateEnds + Endpoints(active), dataEnds := l.dataEnds + Endpoints(PublishersOf(active)),
                authed := l.authed + Publishing(active, heard.replies), stateSubs := Subscribed(l, |active|)),
            snapshot, joiner)
  }

  lemma JoinedGroup(b: Base, l: Local, p: Params, joiner: Member, snapshot: map<string, Member>, heard: Heard)
    requires l.group.None?
    ensures var view := snapshot[joiner.name := joiner];
            JoinedView(b, l, p, joiner, snapshot, heard).group == Some(Group(view, b.checksum(view), Some(p)))
  {
    assert map[] + snapshot[joiner.name := joiner] == snapshot[joiner.name := joiner];
  }

  /** What Join leaves behind for the list it was given. */
  ghost function JoinedFrom(b: Base, l: Local, p: Params, joiner: Member, mems: seq<Member>, heard: Heard): Local {
    AddAll(b, WireAll(b, Begin(l, p), joiner.name, joiner.publisher, mems, heard), mems + [joiner])
  }

  /** The list an acceptor sends is a snapshot in some order; the order leaves no trace. */
  lemma JoinMeans(b: Base, l: Local, p: Params, joiner: Member, mems: seq<Member>, snapshot: map<string, Member>,
                  heard: Heard)
    requires Enumerates(mems, snapshot) && Keyed(snapshot) && l.group.None?
    ensures JoinedFrom(b, l, p, joiner, mems, heard) == JoinedView(b, l, p, joiner, snapshot, heard)
    ensures |mems| == |snapshot|
  {
    WireAllAnyOrder(b, Begin(l, p), joiner.name, joiner.publisher, mems, heard, snapshot);
    AddAllInstalls(b, WireAll(b, Begin(l, p), joiner.name, joiner.publisher, mems, heard), mems, snapshot, joiner);
    SameSize(mems, snapshot);
  }

  /** Whoever connects to an active member while it stores fewer than two is subscribed to the group's status
      topic; a lone or new member never unsubscribes in between. */
  lemma {:induction false} WiredListens(b: Base, l: Local, me: string, publisher: bool, mems: seq<Member>, heard: Heard)
    requires |MembersOf(l)| < 2
    ensures MembersOf(WireAll(b, l, me, publisher, mems, heard)) == MembersOf(l)
    ensures (exists m :: m in mems && m.active) ==> WireAll(b, l, me, publisher, mems, heard).stateSubs > 0
    decreases |mems|
  {
    if |mems| > 0 {
      var m, rest := mems[|mems| - 1], mems[..|mems| - 1];
      WiredListens(b, l, me, publisher, rest, heard);
      assert mems == rest + [m];
      if m.active {
        MeetParts(b, WireAll(b, l, me, publisher, rest, heard), me, m, ReplyOf(heard.replies, m.name).0);
      }
    }
  }

  /** The checksums a joiner collected: the empty string for a member that did not answer. */
  function Hashes(mems: seq<Member>, replies: map<string, (bool, Bytes)>): map<string, Bytes> {
    map m | m in mems && m.active :: m.name := ReplyOf(replies, m.name).1
  }

  lemma {:induction false} WiredMore(b: Base, l: Local, me: string, publisher: bool, mems: seq<Member>, i: nat,
                                     heard: Heard)
    requires i < |mems|
    ensures var l1, m := WireAll(b, l, me, publisher, mems[..i], heard), mems[i];
            WireAll(b, l, me, publisher, mems[..i + 1], heard) ==
            if m.active then WireOne(b, l1, me, publisher, m, heard) else l1
  {
    assert mems[..i + 1][..i] == mems[..i];
  }

  lemma HashedMore(mems: seq<Member>, i: nat, replies: map<string, (bool, Bytes)>)
    requires i < |mems|
    ensures var m, hashes := mems[i], Hashes(mems[..i], replies);
            Hashes(mems[..i + 1], replies) == if m.active then hashes[m.name := ReplyOf(replies, m.name).1] else hashes
  {
    assert mems[..i + 1] == mems[..i] + [mems[i]];
  }

  /** Every active member other than the acceptor reported the checksum of the snapshot. */
  ghost predicate AllAgree(h: Hasher, acceptor: string, snapshot: map<string, Member>, replies: map<string,
                           (bool, Bytes)>) {
    forall k :: k in snapshot && snapshot[k].active && k != acceptor ==>
      ReplyOf(replies, k).1 == Checksum(h, snapshot)
  }

  /** Every active member's key is known from its connection. */
  ghost predicate Reachable(mems: seq<Member>, keys: map<string, Bytes>) {
    forall m :: m in mems && m.active ==> m.name in keys
  }

  /** What the join check compares. */
  ghost predicate HashesMatch(h: Hasher, acceptor: string, mems: seq<Member>, replies: map<string, (bool, Bytes)>) {
    forall l :: l in Hashes(mems, replies) && l != acceptor ==> Hashes(mems, replies)[l] == h.Digest(Ordered(mems))
  }

  /** The join goes on: nothing to compare, nobody insists, or everybody agrees. */
  ghost predicate MayJoin(h: Hasher, acceptor: string, p: Params, mems: seq<Member>, replies: map<string,
                          (bool, Bytes)>) {
    |mems| > 1 && p.joinConsistent ==> HashesMatch(h, acceptor, mems, replies)
  }

  lemma HashesAre(mems: seq<Member>, snapshot: map<string, Member>, replies: map<string, (bool, Bytes)>, k: string)
    requires Enumerates(mems, snapshot) && Keyed(snapshot)
    ensures k in Hashes(mems, replies) <==> k in snapshot && snapshot[k].active
    ensures k in Hashes(mems, replies) ==> Hashes(mems, replies)[k] == ReplyOf(replies, k).1
  {
    if k in snapshot {
      assert snapshot[k] in mems;
    }
  }

  /** The join check on the collected hashes asks for exactly that. */
  lemma HashesAgree(h: Hasher, acceptor: string, mems: seq<Member>, snapshot: map<string, Member>,
                    replies: map<string, (bool, Bytes)>)
    requires h.Valid() && Enumerates(mems, snapshot) && Keyed(snapshot)
    ensures HashesMatch(h, acceptor, mems, replies) <==> AllAgree(h, acceptor, snapshot, replies)
  {
    EnumerationIsCanonical(mems, snapshot);
    forall k ensures k in Hashes(mems, replies) <==> k in snapshot && snapshot[k].active
             ensures k in Hashes(mems, replies) ==> Hashes(mems, replies)[k] == ReplyOf(replies, k).1 {
      HashesAre(mems, snapshot, replies, k);
    }
  }

  /** Who may join, in terms of the snapshot: always if it lists at most one member or consistency is not asked
      for; otherwise exactly when all others report its checksum. */
  lemma MayJoinExactly(h: Hasher, acceptor: string, p: Params, mems: seq<Member>, snapshot: map<string, Member>,
                       replies: map<string, (bool, Bytes)>)
    requires h.Valid() && Enumerates(mems, snapshot) && Keyed(snapshot)
    ensures MayJoin(h, acceptor, p, mems, replies) <==>
            |snapshot| <= 1 || !p.joinConsistent || AllAgree(h, acceptor, snapshot, replies)
  {
    HashesAgree(h, acceptor, mems, snapshot, replies);
    SameSize(mems, snapshot);
  }

  /** The frame Send publishes for one subscriber, unless the agent has no keys for it. */
  function DataFrame(p: Prims, conn: D.Agent, mode: string, topic: string, me: string, sub: string, key: Bytes,
                     data: Bytes, rnd: Randomness): Option<string>
  {
    var packed := Prober.PackFor(p, conn, sub, key, data, rnd);
    if packed.None? then None
    else Some(Topics.Frame(Topics.DataTopic(mode, topic, me, sub), T.Text(packed.value)))
  }

  /** ... for each subscriber of the store. */
  ghost function DataFrames(p: Prims, conn: D.Agent, mode: string, topic: string, me: string, subs: map<string, Bytes>,
                            data: Bytes, rnd: string -> Randomness): string -> Option<string>
  {
    x => if x in subs then DataFrame(p, conn, mode, topic, me, x, subs[x], data, rnd(x)) else None
  }

  ghost predicate NoRepeats(order: seq<string>) {
    forall i, j :: 0 <= i < j < |order| ==> order[i] != order[j]
  }

  /** out is what goes on the wire when the subscribers are visited in this order. */
  ghost predicate Broadcasts(frames: string -> Option<string>, order: seq<string>, out: seq<string>) {
    && NoRepeats(order) && |out| == |order|
    && (forall i :: 0 <= i < |order| ==> frames(order[i]) == Some(out[i]))
  }

  lemma BroadcastsMore(frames: string -> Option<string>, order: seq<string>, out: seq<string>, sub: string,
                       frame: string)
    requires Broadcasts(frames, order, out) && sub !in order && frames(sub) == Some(frame)
    ensures Broadcasts(frames, order + [sub], out + [frame])
  {}

  class Agent {
    const me: string
    const pubEndpoint: string
    const gs: Store
    const subs: Subscribers.Store
    const zmq: T.Transport
    const syncr: Syncer.Syncer
    var invs: map<string, string>
    var acks: set<string>

    ghost predicate Valid()
      reads this, gs
    {
      zmq.gs == gs && gs.Valid()
    }

    /** What AgentState calls this agent's state in one group. */
    ghost function View(topic: string): Local
      reads this, gs, subs, zmq, syncr
    {
      Local(if topic in gs.groups then Some(gs.groups[topic]) else None,
            subs.At(topic), zmq.filters, topic in syncr.tsMap, acks, zmq.stateEnds, zmq.dataEnds,
            zmq.stateTopics[Topics.StateTopic(topic)], zmq.authed)
    }

    /** Everything this agent keeps about other groups. */
    ghost function Elsewhere(topic: string):
      (map<string, Group>, map<string, map<string, Bytes>>, map<string, Syncer.Ts>)
      reads gs, subs, syncr
    {
      (gs.groups - {topic}, subs.subs - {topic}, syncr.tsMap - {topic})
    }

    ghost function B(topic: string): Base {
      Concrete(gs.h, topic)
    }

    constructor (me: string, pubEndpoint: string, h: Hasher, c: Syncer.Envelope, id: int)
      requires h.Valid()
      ensures Valid() && fresh(gs) && fresh(subs) && fresh(zmq) && fresh(syncr)
      ensures this.me == me && this.pubEndpoint == pubEndpoint && gs.h == h
      ensures forall t :: View(t) == BLANK
    {
      this.me, this.pubEndpoint := me, pubEndpoint;
      var store := new Store(h);
      gs := store;
      subs := new Subscribers.Store();
      zmq := new T.Transport(store);
      syncr := new Syncer.Syncer(c, id);
      invs, acks := map[], {};
    }

    // ---- operations ----

    method Create(topic: string, publisher: bool, gp: Params, inv: string, now: int) returns (r: Outcome)
      requires Valid()
      modifies this`invs, gs, syncr
      ensures Valid()
      ensures Elsewhere(topic) == old(Elsewhere(topic))
      ensures r == if gp.mode == SINGLE_QUEUE || gp.mode == MULTIPLE_QUEUE then Done else Failed
      ensures View(topic) == if r.Failed? then old(View(topic))
                             else AddAll(B(topic), Begin(old(View(topic)), gp),
                                         [Member(true, publisher, me, inv, pubEndpoint)])
      ensures invs == old(invs)[topic := inv]
      ensures Syncer.Stored(syncr.tsMap, topic) ==
              if r.Done? && gp.orderEnabled then Some(Syncer.Ts(syncr.id, now))
              else Syncer.Stored(old(syncr.tsMap), topic)
    {
      var m := Member(true, publisher, me, inv, pubEndpoint);
      invs := invs[topic := inv];
      r := gs.SetParams(topic, gp);
      if r.Failed? {
        return;
      }
      r := StoreMembers(topic, [m]);
      if gp.orderEnabled {
        syncr.Init(topic, now);
      }
    }

    /** The acceptor's answer to a join request. */
    method JoinReqs(topic: string) returns (res: Option<JoinResponse>, r: Outcome)
      requires Valid()
      ensures r.Failed? <==> MembersOf(View(topic)) == map[]
      ensures r.Panicked? <==> MembersOf(View(topic)) != map[] && View(topic).group.value.params.None?
      ensures r.Done? <==> res.Some?
      ensures r.Done? ==> View(topic).group.value.params == Some(res.value.params)
                          && Enumerates(res.value.members, MembersOf(View(topic)))
    {
      var mems := gs.Membrs(topic);
      NoMembers(mems, MembersOf(View(topic)));
      if |mems| == 0 {
        return None, Failed;
      }
      if gs.groups[topic].params.None? {
        return None, Panicked;
      }
      return Some(JoinResponse(gs.groups[topic].params.value, mems)), Done;
    }

    lemma OneAdded(topics: multiset<string>, t: string)
      ensures (topics + multiset{t})[t] == topics[t] + 1
    {}

    lemma ConnectMeans(topic: string, msg: T.Request)
      requires Valid() && msg.Connect? && msg.connect && msg.role.Subscriber? && msg.initLabel == me
      requires msg.topic == topic && (msg.peer.publisher ==> zmq.Mode(topic).Some?)
      ensures ConnectTo(B(topic), View(topic), me, msg.peer) ==
              View(topic).(filters := zmq.FiltersAfter(msg, true),
                           stateEnds := zmq.stateEnds + {msg.peer.pubEndpoint},
                           dataEnds := zmq.DataEndsAfter(msg, true),
                           stateSubs := zmq.StateTopicsAfter(msg, true)[Topics.StateTopic(topic)])
    {
      OneAdded(zmq.stateTopics, Topics.StateTopic(topic));
    }

    /** A connect request put through both listeners. */
    method SendConnect(connect: bool, role: T.Role, initLabel: string, topic: string, m: Member,
                       ids: (string, string), works: bool) returns (r: Outcome)
      requires Valid()
      modifies zmq
      ensures Valid()
      ensures works && (connect && m.publisher ==> role.Subscriber? && zmq.Mode(topic).Some?) ==> r.Done?
      ensures r.Done? ==>
                var msg := T.Connect(connect, role, initLabel, topic, m, ids.0, ids.1);
                && works && (connect && m.publisher ==> zmq.Mode(topic).Some?)
                && zmq.filters == old(zmq.FiltersAfter(msg, true)) && zmq.dataEnds == old(zmq.DataEndsAfter(msg, true))
                && zmq.stateTopics == old(zmq.StateTopicsAfter(msg, true)) && zmq.authed == old(zmq.authed)
                && zmq.stateEnds == if connect then old(zmq.stateEnds) + {m.pubEndpoint}
                                    else old(zmq.stateEnds) - {m.pubEndpoint}
    {
      var msg := T.Connect(connect, role, initLabel, topic, m, ids.0, ids.1);
      zmq.ListenState(msg, works);
      if !zmq.replies[|zmq.replies| - 1].1 {
        return Failed;
      }
      r := zmq.ListenData(msg, works);
      if r.Done? && !zmq.replies[|zmq.replies| - 1].1 {
        return Failed;
      }
    }

    method ConnectPeer(topic: string, m: Member, ids: (string, string), works: bool) returns (r: Outcome)
      requires Valid()
      modifies zmq
      ensures Valid()
      ensures works && (m.publisher ==> zmq.Mode(topic).Some?) ==> r.Done?
      ensures !works ==> !r.Done?
      ensures r.Done? ==> View(topic) == ConnectTo(B(topic), old(View(topic)), me, m)
    {
      ghost var msg := T.Connect(true, T.Subscriber, me, topic, m, ids.0, ids.1);
      if m.publisher ==> zmq.Mode(topic).Some? {
        ConnectMeans(topic, msg);
      }
      r := SendConnect(true, T.Subscriber, me, topic, m, ids, works);
    }

    method SendSubscribe(subscribe: bool, unsubAll: bool, state: bool, data: bool, topic: string, m: Member,
                         ids: (string, string), works: bool) returns (r: Outcome)
      requires Valid()
      modifies zmq
      ensures Valid()
      ensures works ==> !r.Failed?
      ensures r.Panicked? ==> zmq.Mode(topic).None?
      ensures r.Done? ==>
                var msg := T.Subscribe(subscribe, unsubAll, state, data, topic, me, m, ids.0, ids.1);
                && zmq.filters == old(zmq.FiltersAfter(msg, works))
                && zmq.dataEnds == old(zmq.DataEndsAfter(msg, works))
                && zmq.stateEnds == (if state && !subscribe then old(zmq.stateEnds - Others(zmq.Members(topic), me))
                                     else old(zmq.stateEnds))
                && zmq.stateTopics == (if state && !subscribe
                                       then old(zmq.stateTopics) - multiset{Topics.StateTopic(topic)}
                                       else old(zmq.stateTopics))
                && zmq.authed == old(zmq.authed)
                && (state && !subscribe ==> works)
                && old(zmq.NeedsMode(msg, works) ==> works && zmq.Mode(topic).Some?)
    {
      var msg := T.Subscribe(subscribe, unsubAll, state, data, topic, me, m, ids.0, ids.1);
      zmq.ListenState(msg, works);
      if !zmq.replies[|zmq.replies| - 1].1 {
        return Failed;
      }
      r := zmq.ListenData(msg, works);
      if r.Done? && !zmq.replies[|zmq.replies| - 1].1 {
        return Failed;
      }
    }

    lemma UnsubscribeAllFilters(topic: string, msg: T.Request)
      requires Valid() && msg.Subscribe? && !msg.subscribe && msg.unsubAll && msg.data && msg.topic == topic
      requires msg.me == me
      requires zmq.NeedsMode(msg, true) ==> zmq.Mode(topic).Some?
      ensures zmq.FiltersAfter(msg, true) == UnsubscribeAll(B(topic), View(topic), me).filters
    {}

    lemma OneTakenBack(topics: multiset<string>, t: string)
      ensures (topics - multiset{t})[t] == if topics[t] > 0 then topics[t] - 1 else 0
    {}

    lemma UnsubscribeAllMeans(topic: string, msg: T.Request)
      requires Valid() && msg.Subscribe? && !msg.subscribe && msg.unsubAll && msg.data && msg.topic == topic
      requires msg.me == me
      requires zmq.NeedsMode(msg, true) ==> zmq.Mode(topic).Some?
      ensures var members, t := zmq.Members(topic), Topics.StateTopic(topic);
              UnsubscribeAll(B(topic), View(topic), me) ==
              View(topic).(filters := zmq.FiltersAfter(msg, true), stateEnds := zmq.stateEnds - Others(members, me),
                           dataEnds := zmq.DataEndsAfter(msg, true), stateSubs := (zmq.stateTopics - multiset{t})[t])
    {
      UnsubscribeAllFilters(topic, msg);
      OneTakenBack(zmq.stateTopics, Topics.StateTopic(topic));
      if !zmq.NeedsMode(msg, true) {
        zmq.NobodyElse(topic, me);
      }
    }

    method LeaveTopics(topic: string, ids: (string, string), works: bool) returns (r: Outcome)
      requires Valid()
      modifies zmq
      ensures Valid()
      ensures r.Done? ==> View(topic) == UnsubscribeAll(B(topic), old(View(topic)), me)
      ensures works ==> !r.Failed?
      ensures r.Panicked? ==> zmq.Mode(topic).None?
    {
      var nobody := Member(false, false, "", "", "");
      ghost var msg := T.Subscribe(false, true, true, true, topic, me, nobody, ids.0, ids.1);
      if zmq.NeedsMode(msg, true) ==> zmq.Mode(topic).Some? {
        UnsubscribeAllMeans(topic, msg);
      }
      r := SendSubscribe(false, true, true, true, topic, nobody, ids, works);
    }

    /** Leave, up to the status message it publishes: `farewell` is the record told to the others. */
    method Leave(topic: string, ids: (string, string), works: bool) returns (farewell: Member, r: Outcome)
      requires Valid()
      modifies gs, subs, zmq
      ensures Valid()
      ensures Elsewhere(topic) == old(Elsewhere(topic))
      ensures r.Done? ==> View(topic) == Left(B(topic), old(View(topic)), me) && old(MembersOf(View(topic)) != map[])
      ensures r.Done? && old(me in MembersOf(View(topic))) ==>
                farewell == Member(false, old(MembersOf(View(topic))[me].publisher), me,
                                   if topic in invs then invs[topic] else "", pubEndpoint)
      ensures works && old(MembersOf(View(topic)) != map[] && View(topic).group.value.params.Some?) ==> r.Done?
      ensures works && r.Failed? ==> old(MembersOf(View(topic)) == map[])
    {
      farewell := Member(false, false, me, if topic in invs then invs[topic] else "", pubEndpoint);
      r := LeaveTopics(topic, ids, works);
      if !r.Done? {
        return;
      }
      var membrs := gs.Membrs(topic);
      NoMembers(membrs, MembersOf(View(topic)));
      if |membrs| == 0 {
        return farewell, Failed;
      }
      var publisher := PublisherFlag(membrs, MembersOf(View(topic)));
      farewell := farewell.(publisher := publisher);
      subs.DeleteTopic(topic);
      gs.DeleteTopic(topic);
    }

    method PublisherFlag(membrs: seq<Member>, ghost members: map<string, Member>) returns (publisher: bool)
      requires Enumerates(membrs, members) && Keyed(members)
      ensures publisher <==> me in members && members[me].publisher
    {
      assert me in members ==> members[me] in membrs;
      for i := 0 to |membrs|
        invariant forall j :: 0 <= j < i ==> membrs[j].name != me
      {
        if membrs[i].name == me {
          return membrs[i].publisher;
        }
      }
      return false;
    }

    method ConnectMember(topic: string, publisher: bool, m: Member, heard: Heard, ids: (string, string), works: bool)
      returns (r: Outcome)
      requires Valid() && zmq.Mode(topic).Some?
      modifies subs, zmq
      ensures Valid()
      ensures Elsewhere(topic) == old(Elsewhere(topic))
      ensures r == if works && (publisher ==> m.name in heard.keys) then Done else Failed
      ensures r.Done? ==> View(topic) == WireOne(B(topic), old(View(topic)), me, publisher, m, heard)
    {
      r := Approach(topic, m, ReplyOf(heard.replies, m.name).0, ids, works);
      if !r.Done? {
        return;
      }
      if !publisher {
        return Done;
      }
      if m.name !in heard.keys {
        return Failed;
      }
      subs.Add(topic, m.name, heard.keys[m.name]);
    }

    /** Authenticate, then connect. */
    method Approach(topic: string, m: Member, publishes: bool, ids: (string, string), works: bool) returns (r: Outcome)
      requires Valid()
      modifies zmq
      ensures Valid()
      ensures works && (m.publisher ==> zmq.Mode(topic).Some?) ==> r.Done?
      ensures !works ==> r.Failed?
      ensures r.Done? ==> View(topic) == Meet(B(topic), old(View(topic)), me, m, publishes)
    {
      r := SendAuth(m.name, publishes, ids, works);
      if r.Done? {
        r := ConnectPeer(topic, m, ids, works);
      }
    }

    method ConnectAll(topic: string, publisher: bool, mems: seq<Member>, heard: Heard, ids: (string, string),
                      works: bool)
      returns (hashMap: map<string, Bytes>, r: Outcome)
      requires Valid() && zmq.Mode(topic).Some?
      modifies subs, zmq
      ensures Valid() && !r.Panicked?
      ensures Elsewhere(topic) == old(Elsewhere(topic))
      ensures works && (publisher ==> Reachable(mems, heard.keys)) ==> r.Done?
      ensures r.Done? ==> hashMap == Hashes(mems, heard.replies)
      ensures r.Done? ==> View(topic) == WireAll(B(topic), old(View(topic)), me, publisher, mems, heard)
    {
      hashMap := map[];
      ghost var start := View(topic);
      for i := 0 to |mems|
        invariant Valid() && Elsewhere(topic) == old(Elsewhere(topic))
        invariant hashMap == Hashes(mems[..i], heard.replies)
        invariant View(topic) == WireAll(B(topic), start, me, publisher, mems[..i], heard)
      {
        WiredMore(B(topic), start, me, publisher, mems, i, heard);
        HashedMore(mems, i, heard.replies);
        if !mems[i].active {
          continue;
        }
        hashMap := hashMap[mems[i].name := ReplyOf(heard.replies, mems[i].name).1];
        r := ConnectMember(topic, publisher, mems[i], heard, ids, works);
        if !r.Done? {
          return;
        }
      }
      assert mems[..|mems|] == mems;
      return hashMap, Done;
    }

    method BeginGroup(topic: string, params: Params, now: int) returns (r: Outcome)
      requires Valid()
      modifies gs, syncr
      ensures Valid()
      ensures Elsewhere(topic) == old(Elsewhere(topic))
      ensures r == if ValidMode(params.mode) then Done else Failed
      ensures r.Failed? ==> syncr.tsMap == old(syncr.tsMap)
      ensures View(topic) == if r.Done? then Begin(old(View(topic)), params) else old(View(topic))
      ensures Syncer.Stored(syncr.tsMap, topic) ==
              if r.Done? && params.orderEnabled then Some(Syncer.Ts(syncr.id, now))
              else Syncer.Stored(old(syncr.tsMap), topic)
    {
      r := gs.SetParams(topic, params);
      if r.Failed? {
        return;
      }
      if params.orderEnabled {
        syncr.Init(topic, now);
      }
    }

    /** The consistency check of a join. */
    method VirtualSynchrony(acceptor: string, mems: seq<Member>, hashMap: map<string, Bytes>, p: Params,
                            ghost replies: map<string, (bool, Bytes)>) returns (ok: bool)
      requires Valid() && hashMap == Hashes(mems, replies)
      ensures ok <==> MayJoin(gs.h, acceptor, p, mems, replies)
    {
      if |mems| > 1 {
        var v := ValidJoin(gs.h, acceptor, mems, hashMap);
        if !v.Consistent? && p.joinConsistent {
          return false;
        }
      }
      return true;
    }

    method StoreMembers(topic: string, mems: seq<Member>) returns (r: Outcome)
      requires Valid() && |mems| > 0
      modifies gs
      ensures Valid() && r.Done?
      ensures Elsewhere(topic) == old(Elsewhere(topic))
      ensures View(topic) == AddAll(B(topic), old(View(topic)), mems)
    {
      r := gs.AddMembrs(topic, mems);
    }

    /** The part of Join after its parameters are stored. */
    method Register(topic: string, acceptor: string, joiner: Member, p: Params, mems: seq<Member>, heard: Heard,
                    ids: (string, string), works: bool)
      returns (r: Outcome)
      requires Valid() && zmq.Mode(topic).Some?
      modifies gs, subs, zmq
      ensures Valid() && !r.Panicked?
      ensures Elsewhere(topic) == old(Elsewhere(topic))
      ensures r.Done? ==>
                && MayJoin(gs.h, acceptor, p, mems, heard.replies)
                && View(topic) == AddAll(B(topic),
                                         WireAll(B(topic), old(View(topic)), me, joiner.publisher, mems, heard),
                                         mems + [joiner])
      ensures (works && (joiner.publisher ==> Reachable(mems, heard.keys)) &&
               MayJoin(gs.h, acceptor, p, mems, heard.replies)) ==> r.Done?
    {
      var hashMap;
      hashMap, r := ConnectAll(topic, joiner.publisher, mems, heard, ids, works);
      if !r.Done? {
        return;
      }
      var ok := VirtualSynchrony(acceptor, mems, hashMap, p, heard.replies);
      if !ok {
        return Failed;
      }
      r := StoreMembers(topic, mems + [joiner]);
    }

    /** Join up to its hello messages, given the acceptor's response, whatever it lists, and the members'
        subscribe replies. */
    method Join(topic: string, acceptor: string, publisher: bool, inv: string, now: int, res: Option<JoinResponse>,
                heard: Heard, ids: (string, string), works: bool)
      returns (r: Outcome)
      requires Valid()
      modifies this`invs, gs, subs, zmq, syncr
      ensures Valid() && !r.Panicked?
      ensures Elsewhere(topic) == old(Elsewhere(topic))
      ensures invs == if old(View(topic)).group.Some? then old(invs) else old(invs)[topic := inv]
      ensures old(View(topic)).group.Some? || res.None? || !ValidMode(res.value.params.mode) ==>
                r.Failed? && View(topic) == old(View(topic)) && syncr.tsMap == old(syncr.tsMap)
      ensures r.Done? ==>
                && MayJoin(gs.h, acceptor, res.value.params, res.value.members, heard.replies)
                && View(topic) == JoinedFrom(B(topic), old(View(topic)), res.value.params,
                                             Member(true, publisher, me, inv, pubEndpoint), res.value.members, heard)
                && Syncer.Stored(syncr.tsMap, topic) ==
                   (if res.value.params.orderEnabled then Some(Syncer.Ts(syncr.id, now))
                    else Syncer.Stored(old(syncr.tsMap), topic))
                && ((exists m :: m in res.value.members && m.active) ==> Topics.StateTopic(topic) in zmq.stateTopics)
      ensures (&& works && old(View(topic)).group.None? && res.Some? && ValidMode(res.value.params.mode)
               && (publisher ==> Reachable(res.value.members, heard.keys))
               && MayJoin(gs.h, acceptor, res.value.params, res.value.members, heard.replies)) ==> r.Done?
    {
      if topic in gs.groups {
        return Failed;
      }
      invs := invs[topic := inv];
      if res.None? {
        return Failed;
      }
      r := BeginGroup(topic, res.value.params, now);
      if r.Failed? {
        return;
      }
      var joiner := Member(true, publisher, me, inv, pubEndpoint);
      WiredListens(B(topic), View(topic), me, publisher, res.value.members, heard);
      r := Register(topic, acceptor, joiner, res.value.params, res.value.members, heard, ids, works);
    }

    /** Send: one message packed and published per subscriber, in whatever order the store yields them. */
    method Send(topic: string, msg: Bytes, now: int, p: Prims, conn: D.Agent, rnd: string -> Randomness)
      returns (ghost order: seq<string>, ghost out: seq<string>, r: Outcome)
      requires Valid()
      modifies zmq, syncr
      ensures Valid()
      ensures Elsewhere(topic) == old(Elsewhere(topic))
      ensures var l := old(View(topic));
              r.Failed? <== me !in MembersOf(l) || !MembersOf(l)[me].publisher || topic !in subs.subs
      ensures var l := old(View(topic));
              r.Done? <== me in MembersOf(l) && MembersOf(l)[me].publisher && topic in subs.subs
                          && l.subs.Keys <= conn.keys.Keys && l.group.value.params.Some?
      ensures r.Done? ==>
                var l, data := old(View(topic)), Syncer.Wrap(syncr.c, Syncer.Stored(old(syncr.tsMap), topic), now, msg);
                && zmq.published == old(zmq.published) + out
                && Syncer.Stored(syncr.tsMap, topic) == Syncer.AfterSend(Syncer.Stored(old(syncr.tsMap), topic), now)
                && (forall x :: x in order <==> x in l.subs)
                && Broadcasts(DataFrames(p, conn, ModeOf(l), topic, me, l.subs, data, rnd), order, out)
      ensures View(topic) == old(View(topic))
    {
      order, out := [], [];
      var curnt := gs.Membr(topic, me);
      if curnt.None? || !curnt.value.publisher {
        return order, out, Failed;
      }
      var q := subs.QueryByTopic(topic);
      if q.Err? {
        return order, out, Failed;
      }
      var syncd := syncr.Message(topic, msg, now);
      order, out, r := PublishAll(topic, q.value, syncd, p, conn, rnd);
    }

    method PublishAll(topic: string, subscribers: map<string, Bytes>, data: Bytes, p: Prims, conn: D.Agent,
                      rnd: string -> Randomness)
      returns (ghost order: seq<string>, ghost out: seq<string>, r: Outcome)
      requires zmq.gs == gs
      modifies zmq`published
      ensures r.Done? <== subscribers.Keys <= conn.keys.Keys && zmq.Mode(topic).Some?
      ensures r.Done? ==>
                var mode := if zmq.Mode(topic).Some? then zmq.Mode(topic).value else "";
                && zmq.published == old(zmq.published) + out
                && (forall x :: x in order <==> x in subscribers)
                && Broadcasts(DataFrames(p, conn, mode, topic, me, subscribers, data, rnd), order, out)
    {
      order, out := [], [];
      ghost var mode := if zmq.Mode(topic).Some? then zmq.Mode(topic).value else "";
      ghost var frames := DataFrames(p, conn, mode, topic, me, subscribers, data, rnd);
      var todo := subscribers.Keys;
      while todo != {}
        invariant todo <= subscribers.Keys
        invariant zmq.published == old(zmq.published) + out
        invariant forall x :: x in order <==> x in subscribers && x !in todo
        invariant Broadcasts(frames, order, out)
        decreases todo
      {
        var sub :| sub in todo;
        ghost var frame;
        frame, r := PublishOne(topic, sub, subscribers, data, p, conn, rnd, frames);
        if !r.Done? {
          return;
        }
        BroadcastsMore(frames, order, out, sub, frame);
        out := out + [frame];
        order := order + [sub];
        todo := todo - {sub};
      }
      r := Done;
    }

    method PublishOne(topic: string, sub: string, subscribers: map<string, Bytes>, data: Bytes, p: Prims, conn: D.Agent,
                      rnd: string -> Randomness, ghost frames: string -> Option<string>)
      returns (ghost frame: string, r: Outcome)
      requires zmq.gs == gs && sub in subscribers
      requires zmq.Mode(topic).Some? ==>
                 frames == DataFrames(p, conn, zmq.Mode(topic).value, topic, me, subscribers, data, rnd)
      modifies zmq`published
      ensures r.Done? <== sub in conn.keys && zmq.Mode(topic).Some?
      ensures r.Done? ==> zmq.published == old(zmq.published) + [frame] && frames(sub) == Some(frame)
    {
      frame := "";
      var packed := Prober.PackFor(p, conn, sub, subscribers[sub], data, rnd(sub));
      if packed.None? {
        return frame, Failed;
      }
      var mode := zmq.Mode(topic);
      if mode.None? {
        return frame, Panicked;
      }
      var zmqTopic := Topics.DataTopic(mode.value, topic, me, sub);
      zmq.Publish(zmqTopic, packed.value);
      return Topics.Frame(zmqTopic, T.Text(packed.value)), Done;
    }

    // ---- handlers ----

    /** The subscribe handler. The reply goes out before the agent connects and records the subscriber. */
    method Subscriptions(subscribe: bool, topic: string, sub: Member, key: Bytes, ids: (string, string), works: bool)
      returns (reply: Option<(bool, Bytes)>, r: Outcome)
      requires Valid()
      modifies subs, zmq
      ensures Valid()
      ensures Elsewhere(topic) == old(Elsewhere(topic))
      ensures !subscribe ==>
                reply.None? && r.Done? && View(topic) == old(View(topic)).(subs := old(subs.At(topic)) - {sub.name})
      ensures subscribe && works ==> reply == SubscribeReply(old(View(topic)), me)
      ensures subscribe && r.Done? ==>
                View(topic) == AddSub(Meet(B(topic), old(View(topic)), me, sub, sub.publisher), sub.name, key)
      ensures subscribe && r.Done? && |MembersOf(old(View(topic)))| < 2 ==>
                Topics.StateTopic(topic) in zmq.stateTopics
      ensures works && old(me in MembersOf(View(topic)) && View(topic).group.value.params.Some?) ==> r.Done?
    {
      reply := None;
      if !subscribe {
        subs.Delete(topic, sub.name);
        return None, Done;
      }
      r := SendAuth(sub.name, sub.publisher, ids, works);
      if !r.Done? {
        return;
      }
      var curnt := gs.Membr(topic, me);
      if curnt.None? {
        return None, Failed;
      }
      reply := Some((curnt.value.publisher, gs.groups[topic].checksum));
      r := ConnectPeer(topic, sub, ids, works);
      if !r.Done? {
        return;
      }
      subs.Add(topic, sub.name, key);
    }

    method SendAuth(peerName: string, publishes: bool, ids: (string, string), works: bool) returns (r: Outcome)
      requires Valid()
      modifies zmq
      ensures Valid()
      ensures zmq.filters == old(zmq.filters) && zmq.stateTopics == old(zmq.stateTopics)
      ensures zmq.stateEnds == old(zmq.stateEnds) && zmq.dataEnds == old(zmq.dataEnds)
      ensures zmq.authed == if works && publishes then old(zmq.authed) + {peerName} else old(zmq.authed)
      ensures r == if works then Done else Failed
    {
      var msg := T.Authenticate(peerName, publishes, ids.0, ids.1);
      zmq.ListenState(msg, works);
      if !zmq.replies[|zmq.replies| - 1].1 {
        return Failed;
      }
      r := zmq.ListenData(msg, works);
    }

    /** The status handler, once the record addressed to this agent has been read. */
    method State(topic: string, m: Member, ids: (string, string), works: bool) returns (r: Outcome)
      requires Valid()
      modifies gs, subs, zmq
      ensures Valid()
      ensures Elsewhere(topic) == old(Elsewhere(topic))
      ensures r.Done? ==> View(topic) == OnStatus(B(topic), old(View(topic)), me, m)
      ensures works && m.name != me && old(me in MembersOf(View(topic)) && View(topic).group.value.params.Some?) ==>
                r.Done?
    {
      if !m.active {
        r := RemoveMember(topic, m, ids, works);
      } else {
        r := gs.AddMembrs(topic, [m]);
      }
    }

    method UnsubscribePeer(topic: string, m: Member, ids: (string, string), works: bool) returns (r: Outcome)
      requires Valid()
      modifies zmq
      ensures Valid()
      ensures r.Done? ==> View(topic) == Unsubscribe(B(topic), old(View(topic)), me, m)
      ensures works ==> !r.Failed?
      ensures r.Panicked? ==> zmq.Mode(topic).None?
    {
      r := SendSubscribe(false, false, false, true, topic, m, ids, works);
    }

    method RemoveMember(topic: string, m: Member, ids: (string, string), works: bool) returns (r: Outcome)
      requires Valid() && !m.active
      modifies gs, subs, zmq
      ensures Valid()
      ensures Elsewhere(topic) == old(Elsewhere(topic))
      ensures r.Done? ==> View(topic) == OnStatus(B(topic), old(View(topic)), me, m)
      ensures works && m.name != me && old(me in MembersOf(View(topic)) && View(topic).group.value.params.Some?) ==>
                r.Done?
    {
      r := SendConnect(false, T.Null, "", "", m, ids, works);
      if !r.Done? {
        return;
      }
      if m.publisher {
        r := UnsubscribePeer(topic, m, ids, works);
        if !r.Done? {
          return;
        }
      }
      subs.Delete(topic, m.name);
      assert me in MembersOf(View(topic)) && m.name != me ==> me in MembersOf(View(topic)) - {m.name};
      r := gs.DeleteMembr(topic, m.name);
    }

    /** The data handler: `read` is what ReadMessage made of the frame's payload. */
    method Data(zmqTopic: string, read: Option<(string, Bytes)>)
      returns (out: Option<(string, string, Bytes)>, r: Outcome)
      requires Valid()
      modifies syncr
      ensures var topic := Topics.GroupNameByDataTopic(zmqTopic);
              var stored := Syncer.Stored(old(syncr.tsMap), topic);
              match read
              case None =>
                && out.None? && syncr.tsMap == old(syncr.tsMap)
                && r == (if zmq.Mode(topic).None? then Panicked
                         else if zmq.Mode(topic).value == SINGLE_QUEUE then Done else Failed)
              case Some((sender, data)) =>
                && (r.Done? <==> Syncer.Unwrap(syncr.c, stored, data).Ok?) && !r.Panicked?
                && Syncer.Stored(syncr.tsMap, topic) == Syncer.AfterReceive(syncr.c, stored, data)
                && Elsewhere(topic) == old(Elsewhere(topic))
                && (r.Done? ==> out == Some((sender, topic, Syncer.Unwrap(syncr.c, stored, data).value)))
    {
      out := None;
      var topic := Topics.GroupNameByDataTopic(zmqTopic);
      if read.None? {
        var mode := zmq.Mode(topic);
        if mode.None? {
          return None, Panicked;
        }
        if mode.value == SINGLE_QUEUE {
          return None, Done;
        }
        return None, Failed;
      }
      var data := syncr.Parse(topic, read.value.1);
      if data.Err? {
        return None, Failed;
      }
      return Some((read.value.0, topic, data.value)), Done;
    }

    /** The listener for hello acks, and the question waitForConns keeps asking. */
    method OnAck(endpoint: string)
      modifies this`acks
      ensures forall t :: View(t) == old(View(t)).(acks := old(acks) + {endpoint})
    {
      acks := acks + {endpoint};
    }

    method AllConnected(grp: seq<Member>) returns (ok: bool)
      ensures ok <==> forall m :: m in grp ==> m.pubEndpoint in acks
    {
      for i := 0 to |grp|
        invariant forall j :: 0 <= j < i ==> grp[j].pubEndpoint in acks
      {
        if grp[i].pubEndpoint !in acks {
          return false;
        }
      }
      return true;
    }
  }
}
