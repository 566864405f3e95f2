/** What one agent keeps about one group, and how each handler of pubsub/agent.go and
    pubsub/processor.go changes it. */
module AgentState {
  import opened Common
  import opened Validator
  import opened GroupStore
  import Topics

  /** Group store entry, subscriber store entry, filters of the data SUB socket, whether the syncer has a
      timestamp for the topic, the endpoints whose hello acks have arrived (never forgotten), the endpoints
      that the state and the data SUB socket are connected to, how often the state socket is subscribed to the
      group's status topic, and the members the data socket has been authenticated for. */
  datatype Local = Local(group: Option<Group>, subs: map<string, Bytes>, filters: multiset<string>,
                         ordered: bool, acks: set<string>, stateEnds: set<string>, dataEnds: set<string>,
                         stateSubs: nat, authed: set<string>)

  const BLANK := Local(None, map[], multiset{}, false, {}, {}, {}, 0, {})

  function ModeOf(l: Local): string {
    if l.group.Some? && l.group.value.params.Some? then l.group.value.params.value.mode else ""
  }

  function MembersOf(l: Local): map<string, Member> {
    if l.group.Some? then l.group.value.members else map[]
  }

  /** The first part of Create and Join: group parameters, and a timestamp if messages are ordered. */
  function Begin(l: Local, p: Params): Local {
    l.(group := Some((if l.group.Some? then l.group.value else EMPTY_GROUP).(params := Some(p))),
       ordered := l.ordered || p.orderEnabled)
  }

  /** How this module sees the layers below it: the checksum of a member map, and the data topic of a
      group mode, publisher and subscriber. Concrete gives the real ones. */
  datatype Base = Base(checksum: map<string, Member> -> Bytes, dataTopic: (string, string, string) -> string)

  ghost function Concrete(h: Hasher, topic: string): Base {
    Base(m => Checksum(h, m), (mode, pub, sub) => Topics.DataTopic(mode, topic, pub, sub))
  }

  function Holding(b: Base, g: Group, members: map<string, Member>): Group {
    g.(members := members, checksum := b.checksum(members))
  }

  function AddAll(b: Base, l: Local, mems: seq<Member>): Local {
    var g := if l.group.Some? then l.group.value else EMPTY_GROUP;
    l.(group := Some(Holding(b, g, Put(g.members, mems))))
  }

  /** What Join stores: the snapshot it was given, and the joiner itself. */
  function Install(b: Base, l: Local, snapshot: map<string, Member>, joiner: Member): Local {
    var g := if l.group.Some? then l.group.value else EMPTY_GROUP;
    l.(group := Some(Holding(b, g, g.members + snapshot[joiner.name := joiner])))
  }

  /** connectData: connected to a publisher, and one filter more. */
  function ConnectPublisher(b: Base, l: Local, me: string, peer: Member): Local {
    l.(filters := l.filters + multiset{b.dataTopic(ModeOf(l), peer.name, me)},
       dataEnds := l.dataEnds + {peer.pubEndpoint})
  }

  /** A connect request: the state socket always, with a status subscription while fewer than two members are
      stored; the data socket when the peer is a publisher. */
  function ConnectTo(b: Base, l: Local, me: string, peer: Member): Local {
    var l1 := l.(stateEnds := l.stateEnds + {peer.pubEndpoint},
                 stateSubs := if |MembersOf(l)| < 2 then l.stateSubs + 1 else l.stateSubs);
    if peer.publisher then ConnectPublisher(b, l1, me, peer) else l1
  }

  /** An authenticate request, for the data socket if the peer publishes. */
  function AuthenticateFor(l: Local, peer: string, publishes: bool): Local {
    if publishes then l.(authed := l.authed + {peer}) else l
  }

  /** How both sides of a join deal with the other: authenticate as it says it publishes, then connect. */
  function Meet(b: Base, l: Local, me: string, peer: Member, publishes: bool): Local {
    ConnectTo(b, AuthenticateFor(l, peer.name, publishes), me, peer)
  }

  function AddSub(l: Local, sub: string, key: Bytes): Local {
    l.(subs := l.subs[sub := key])
  }

  /** The reply to a subscribe request, provided this agent is in its own view. */
  function SubscribeReply(l: Local, me: string): Option<(bool, Bytes)> {
    if me in MembersOf(l) then Some((MembersOf(l)[me].publisher, l.group.value.checksum)) else None
  }

  /** unsubscribeData: one filter less, and disconnected from the publisher. */
  function Unsubscribe(b: Base, l: Local, me: string, r: Member): Local {
    l.(filters := l.filters - multiset{b.dataTopic(ModeOf(l), r.name, me)}, dataEnds := l.dataEnds - {r.pubEndpoint})
  }

  /** The status handler, for a member that went active or left. */
  function OnStatus(b: Base, l: Local, me: string, r: Member): Local {
    if r.active then AddAll(b, l, [r])
    else
      var l0 := l.(stateEnds := l.stateEnds - {r.pubEndpoint});
      var l1 := if r.publisher then Unsubscribe(b, l0, me, r) else l0;
      var l2 := l1.(subs := l1.subs - {r.name});
      if l2.group.None? then l2
      else l2.(group := Some(Holding(b, l2.group.value, l2.group.value.members - {r.name})))
  }

  /** The endpoints of all members but one. */
  function Others(members: map<string, Member>, me: string): set<string> {
    set k | k in members && k != me :: members[k].pubEndpoint
  }

  function Endpoints(members: map<string, Member>): set<string> {
    set k | k in members :: members[k].pubEndpoint
  }

  function PublishersOf(members: map<string, Member>): map<string, Member> {
    map k | k in members && members[k].publisher :: members[k]
  }

  function Publishers(members: map<string, Member>): set<string> {
    set k | k in members && members[k].publisher
  }

  /** One data topic instance per publisher: in single-queue mode these are copies of one filter. */
  ghost function Bag(b: Base, mode: string, pubs: set<string>, sub: string): multiset<string> {
    if pubs == {} then multiset{}
    else
      var p :| p in pubs;
      Bag(b, mode, pubs - {p}, sub) + multiset{b.dataTopic(mode, p, sub)}
  }

  lemma {:induction false} BagRemove(b: Base, mode: string, pubs: set<string>, sub: string, p: string)
    requires p in pubs
    ensures Bag(b, mode, pubs, sub) == Bag(b, mode, pubs - {p}, sub) + multiset{b.dataTopic(mode, p, sub)}
    decreases pubs
  {
    var q :| q in pubs &&
             Bag(b, mode, pubs, sub) == Bag(b, mode, pubs - {q}, sub) + multiset{b.dataTopic(mode, q, sub)};
    if p != q {
      BagRemove(b, mode, pubs - {q}, sub, p);
      BagRemove(b, mode, pubs - {p}, sub, q);
      assert pubs - {q} - {p} == pubs - {p} - {q};
    }
  }

  lemma {:induction false} BagAdd(b: Base, mode: string, pubs: set<string>, sub: string, p: string)
    requires p !in pubs
    ensures Bag(b, mode, pubs + {p}, sub) == Bag(b, mode, pubs, sub) + multiset{b.dataTopic(mode, p, sub)}
  {
    BagRemove(b, mode, pubs + {p}, sub, p);
    assert pubs + {p} - {p} == pubs;
  }

  /** The unsubscribe-all request of a leaver: every data filter taken back, one status subscription, every
      connection closed. */
  ghost function UnsubscribeAll(b: Base, l: Local, me: string): Local {
    var members := MembersOf(l);
    l.(filters := l.filters - Bag(b, ModeOf(l), Publishers(members) - {me}, me),
       stateEnds := l.stateEnds - Others(members, me),
       stateSubs := if l.stateSubs > 0 then l.stateSubs - 1 else 0,
       dataEnds := l.dataEnds - Others(PublishersOf(members), me))
  }

  /** The leaver's side of Leave: unsubscribe from every other member, forget the group. */
  ghost function Left(b: Base, l: Local, me: string): Local {
    UnsubscribeAll(b, l, me).(subs := map[], group := None)
  }
}
