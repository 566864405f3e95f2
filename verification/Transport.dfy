/** The transport controller's two listeners and its publisher (pubsub/transport/zmq.go), for an
    abstract pair of SUB sockets: connected endpoints, and counted filters. */
module Transport {
  import opened Common
  import opened Validator
  import opened GroupStore
  import opened AgentState
  import Topics

  datatype Role = Publisher | Subscriber | Null

  /** Requests from the rest of the agent, each with one reply id per listener. */
  datatype Request =
    | Connect(connect: bool, role: Role, initLabel: string, topic: string, peer: Member, stateId: string,
              dataId: string)
    | Subscribe(subscribe: bool, unsubAll: bool, state: bool, data: bool, topic: string, me: string, peer: Member,
                stateId: string, dataId: string)
    | Authenticate(peerName: string, data: bool, stateId: string, dataId: string)

  /** Text as it travels inside a frame: one character per byte. */
  function Text(b: Bytes): string {
    seq(|b|, i requires 0 <= i < |b| => b[i] as char)
  }

  function Raw(s: string): Bytes {
    seq(|s|, i requires 0 <= i < |s| => s[i] as int % 256)
  }

  lemma RawOfText(b: Bytes)
    ensures Raw(Text(b)) == b
  {}

  lemma EndpointsOf(mems: seq<Member>, members: map<string, Member>, me: string)
    requires Enumerates(mems, members) && Keyed(members)
    ensures (set j | 0 <= j < |mems| && mems[j].name != me :: mems[j].pubEndpoint) == Others(members, me)
  {
    forall k | k in members && k != me
      ensures exists j :: 0 <= j < |mems| && mems[j].name != me && mems[j].pubEndpoint == members[k].pubEndpoint {
      assert members[k] in mems;
    }
  }

  /** done holds exactly the labels of the publishers other than me among the first i members. */
  ghost predicate PublishersIn(mems: seq<Member>, i: nat, me: string, done: set<string>) {
    && (forall k :: k in done ==> exists j :: 0 <= j < i <= |mems| && IsPublisher(mems[j], me, k))
    && (forall j :: 0 <= j < i <= |mems| && mems[j].publisher && mems[j].name != me ==> mems[j].name in done)
  }

  ghost predicate IsPublisher(m: Member, me: string, k: string) {
    m.publisher && m.name != me && m.name == k
  }

  lemma NextPublisher(mems: seq<Member>, i: nat, me: string, done: set<string>)
    requires DistinctLabels(mems) && i < |mems| && PublishersIn(mems, i, me, done)
    ensures mems[i].name !in done
    ensures PublishersIn(mems, i + 1, me,
                         if mems[i].publisher && mems[i].name != me then done + {mems[i].name} else done)
  {
    assert mems[i].publisher && mems[i].name != me ==> IsPublisher(mems[i], me, mems[i].name);
  }

  lemma AllPublishers(mems: seq<Member>, members: map<string, Member>, me: string, done: set<string>)
    requires Enumerates(mems, members) && Keyed(members) && PublishersIn(mems, |mems|, me, done)
    ensures done == Publishers(members) - {me}
  {
    forall k | k in Publishers(members) - {me} ensures k in done {
      assert members[k] in mems;
    }
  }

  lemma SomePublisher(mems: seq<Member>, members: map<string, Member>, i: nat, me: string)
    requires Enumerates(mems, members) && i < |mems| && mems[i].publisher && mems[i].name != me
    ensures mems[i].name in Publishers(members) - {me}
  {
    assert mems[i] in mems;
  }

  ghost function EndsOf(members: map<string, Member>, names: set<string>): set<string> {
    set k | k in names && k in members :: members[k].pubEndpoint
  }

  /** What is left of the connections in `ends` after closing those to the named members. */
  ghost function Closed(ends: set<string>, members: map<string, Member>, names: set<string>): set<string> {
    ends - EndsOf(members, names)
  }

  lemma CloseOne(ends: set<string>, mems: seq<Member>, members: map<string, Member>, names: set<string>, i: nat)
    requires Enumerates(mems, members) && i < |mems|
    ensures Closed(ends, members, names) - {mems[i].pubEndpoint} == Closed(ends, members, names + {mems[i].name})
  {
    assert mems[i] in mems;
    assert EndsOf(members, names + {mems[i].name}) == EndsOf(members, names) + {mems[i].pubEndpoint};
  }

  lemma CloseNone(ends: set<string>, members: map<string, Member>)
    ensures Closed(ends, members, {}) == ends
  {}

  lemma EndsOfOthers(members: map<string, Member>, me: string)
    ensures forall ends :: Closed(ends, members, Publishers(members) - {me}) == ends - Others(PublishersOf(members), me)
    ensures EndsOf(members, Publishers(members) - {me}) == Others(PublishersOf(members), me)
  {
    assert EndsOf(members, Publishers(members) - {me}) == Others(PublishersOf(members), me);
  }

  lemma {:induction false} TakeBack(h: Hasher, topic: string, mode: string, f: multiset<string>, pubs: set<string>,
                                    me: string, p: string)
    requires p !in pubs
    ensures f - Bag(Concrete(h, topic), mode, pubs, me) - multiset{Topics.DataTopic(mode, topic, p, me)}
         == f - Bag(Concrete(h, topic), mode, pubs + {p}, me)
  {
    BagAdd(Concrete(h, topic), mode, pubs, me, p);
  }

  class Transport {
    const gs: Store
    var filters: multiset<string>
    var dataEnds: set<string>
    var stateEnds: set<string>
    var stateTopics: multiset<string>
    var authed: set<string>
    var replies: seq<(string, bool)>
    var published: seq<string>

    constructor (gs: Store)
      ensures this.gs == gs && filters == multiset{} && stateTopics == multiset{}
      ensures dataEnds == {} && stateEnds == {} && authed == {} && replies == []
      ensures published == []
    {
      this.gs := gs;
      filters, stateTopics, published, replies := multiset{}, multiset{}, [], [];
      dataEnds, stateEnds, authed := {}, {}, {};
    }

    /** The group's mode; asking for that of a group without parameters is a nil dereference. */
    function Mode(topic: string): Option<string>
      reads gs
    {
      if topic in gs.groups && gs.groups[topic].params.Some? then Some(gs.groups[topic].params.value.mode) else None
    }

    ghost function Members(topic: string): map<string, Member>
      reads gs
    {
      Topic(gs.groups, topic).members
    }

    ghost function Base(topic: string): Base {
      Concrete(gs.h, topic)
    }

    ghost function DataTopics(topic: string, pubs: set<string>, me: string): multiset<string>
      requires Mode(topic).Some?
      reads gs
    {
      Bag(Base(topic), Mode(topic).value, pubs, me)
    }

    method Reply(id: string, ok: bool)
      modifies this`replies
      ensures replies == old(replies) + [(id, ok)]
    {
      replies := replies + [(id, ok)];
    }

    /** The publisher loop: one frame on the agent's PUB socket. */
    method Publish(zmqTopic: string, data: Bytes)
      modifies this`published
      ensures published == old(published) + [Topics.Frame(zmqTopic, Text(data))]
    {
      published := published + [Topics.Frame(zmqTopic, Text(data))];
    }

    // ---- the state listener ----

    /** The status subscriptions afterwards: connecting adds one while the group has fewer than two stored
        members, leaving takes one back. */
    ghost function StateTopicsAfter(msg: Request, works: bool): multiset<string>
      reads this`stateTopics, gs
    {
      if !works then stateTopics
      else match msg
        case Connect(connect, _, _, topic, _, _, _) =>
          if connect && |Members(topic)| < 2 then stateTopics + multiset{Topics.StateTopic(topic)} else stateTopics
        case Subscribe(subscribe, _, state, _, topic, _, _, _, _) =>
          if state && !subscribe then stateTopics - multiset{Topics.StateTopic(topic)} else stateTopics
        case Authenticate(_, _, _, _) => stateTopics
    }

    method SubscribeStatus(topic: string)
      requires gs.Valid()
      modifies this`stateTopics
      ensures stateTopics == if |Members(topic)| < 2 then old(stateTopics) + multiset{Topics.StateTopic(topic)}
                             else old(stateTopics)
    {
      var mems := gs.Membrs(topic);
      SameSize(mems, Members(topic));
      if |mems| < 2 {
        stateTopics := stateTopics + multiset{Topics.StateTopic(topic)};
      }
    }

    /** One internal message; `works` says whether the socket calls made for it succeed. */
    method ListenState(msg: Request, works: bool)
      requires gs.Valid()
      modifies this`replies, this`stateEnds, this`stateTopics
      ensures replies == old(replies) + [(msg.stateId, works || (msg.Subscribe? && (!msg.state || msg.subscribe)))]
      ensures !works || msg.Authenticate? ==> stateEnds == old(stateEnds)
      ensures works && msg.Connect? ==>
                stateEnds == if msg.connect then old(stateEnds) + {msg.peer.pubEndpoint}
                             else old(stateEnds) - {msg.peer.pubEndpoint}
      ensures works && msg.Subscribe? ==>
                stateEnds == if msg.state && !msg.subscribe then old(stateEnds) - Others(Members(msg.topic), msg.me)
                             else old(stateEnds)
      ensures stateTopics == old(StateTopicsAfter(msg, works))
      ensures works && msg.Connect? && msg.connect && |Members(msg.topic)| < 2 ==>
                Topics.StateTopic(msg.topic) in stateTopics
    {
      match msg
      case Connect(connect, _, _, topic, peer, stateId, _) =>
        if !connect {
          if !works {
            Reply(stateId, false);
            return;
          }
          stateEnds := stateEnds - {peer.pubEndpoint};
          Reply(stateId, true);
          return;
        }
        if !works {
          Reply(stateId, false);
          return;
        }
        stateEnds := stateEnds + {peer.pubEndpoint};
        SubscribeStatus(topic);
        Reply(stateId, true);
      case Subscribe(subscribe, _, state, _, topic, me, _, stateId, _) =>
        if !state {
          Reply(stateId, true);
          return;
        }
        if !subscribe {
          if !works {
            Reply(stateId, false);
            return;
          }
          UnsubscribeState(me, topic);
        }
        Reply(stateId, true);
      case Authenticate(_, _, stateId, _) =>
        Reply(stateId, works);
    }

    method UnsubscribeState(me: string, topic: string)
      requires gs.Valid()
      modifies this`stateEnds, this`stateTopics
      ensures stateEnds == old(stateEnds) - Others(Members(topic), me)
      ensures stateTopics == old(stateTopics) - multiset{Topics.StateTopic(topic)}
    {
      stateTopics := stateTopics - multiset{Topics.StateTopic(topic)};
      var mems := gs.Membrs(topic);
      DisconnectState(me, mems, Members(topic));
    }

    method DisconnectState(me: string, mems: seq<Member>, ghost members: map<string, Member>)
      requires Enumerates(mems, members) && Keyed(members)
      modifies this`stateEnds
      ensures stateEnds == old(stateEnds) - Others(members, me)
    {
      EndpointsOf(mems, members, me);
      for i := 0 to |mems|
        invariant stateEnds == old(stateEnds) - set j | 0 <= j < i && mems[j].name != me :: mems[j].pubEndpoint
      {
        if mems[i].name != me {
          stateEnds := stateEnds - {mems[i].pubEndpoint};
        }
      }
    }

    // ---- the data listener ----

    method ConnectData(role: Role, initLabel: string, topic: string, peer: Member, works: bool) returns (r: Outcome)
      modifies this`filters, this`dataEnds
      ensures !peer.publisher ==> r.Done? && filters == old(filters) && dataEnds == old(dataEnds)
      ensures peer.publisher ==>
                match r
                case Done =>
                  && works && !role.Null? && Mode(topic).Some?
                  && dataEnds == old(dataEnds) + {peer.pubEndpoint}
                  && var pub := if role.Publisher? then initLabel else peer.name;
                     var sub := if role.Publisher? then peer.name else initLabel;
                     filters == old(filters) + multiset{Topics.DataTopic(Mode(topic).value, topic, pub, sub)}
                case Failed =>
                  && (!works || role.Null?) && filters == old(filters)
                  && dataEnds == if works then old(dataEnds) + {peer.pubEndpoint} else old(dataEnds)
                case Panicked =>
                  && works && !role.Null? && Mode(topic).None? && filters == old(filters)
                  && dataEnds == old(dataEnds) + {peer.pubEndpoint}
    {
      if peer.publisher {
        if !works {
          return Failed;
        }
        dataEnds := dataEnds + {peer.pubEndpoint};
        var pub, sub;
        match role {
          case Publisher => pub, sub := initLabel, peer.name;
          case Subscriber => pub, sub := peer.name, initLabel;
          case Null => return Failed;
        }
        if Mode(topic).None? {
          return Panicked;
        }
        filters := filters + multiset{Topics.DataTopic(Mode(topic).value, topic, pub, sub)};
      }
      return Done;
    }

    method UnsubscribeData(me: string, topic: string, m: Member, works: bool) returns (r: Outcome)
      modifies this`filters, this`dataEnds
      ensures match r
              case Done =>
                && works && Mode(topic).Some? && dataEnds == old(dataEnds) - {m.pubEndpoint}
                && filters == old(filters) - multiset{Topics.DataTopic(Mode(topic).value, topic, m.name, me)}
              case Failed => !works && Mode(topic).Some? && filters == old(filters) && dataEnds == old(dataEnds)
              case Panicked => Mode(topic).None? && filters == old(filters) && dataEnds == old(dataEnds)
    {
      if Mode(topic).None? {
        return Panicked;
      }
      if !works {
        return Failed;
      }
      filters := filters - multiset{Topics.DataTopic(Mode(topic).value, topic, m.name, me)};
      dataEnds := dataEnds - {m.pubEndpoint};
      return Done;
    }

    ghost function Without(topic: string, f: multiset<string>, pubs: set<string>, me: string): multiset<string>
      reads gs
    {
      if Mode(topic).Some? then f - DataTopics(topic, pubs, me) else f
    }

    lemma WithoutOne(topic: string, f: multiset<string>, pubs: set<string>, me: string, p: string)
      requires Mode(topic).Some? && p !in pubs
      ensures Without(topic, f, pubs, me) - multiset{Topics.DataTopic(Mode(topic).value, topic, p, me)}
           == Without(topic, f, pubs + {p}, me)
    {
      TakeBack(gs.h, topic, Mode(topic).value, f, pubs, me, p);
    }

    lemma WithoutNone(topic: string, f: multiset<string>, me: string)
      ensures Without(topic, f, {}, me) == f
    {}

    /** Takes back one data filter per publisher of the group other than me, in whatever order the
        members come. */
    method UnsubscribeAllData(me: string, topic: string, works: bool) returns (r: Outcome)
      requires gs.Valid()
      modifies this`filters, this`dataEnds
      ensures r.Done? ==> filters == Without(topic, old(filters), Publishers(Members(topic)) - {me}, me)
      ensures r.Done? ==> dataEnds == old(dataEnds) - Others(PublishersOf(Members(topic)), me)
      ensures !r.Done? || Publishers(Members(topic)) - {me} == {} ==>
                filters == old(filters) && dataEnds == old(dataEnds)
      ensures r == if Publishers(Members(topic)) - {me} == {} then Done
                   else if Mode(topic).None? then Panicked
                   else if works then Done else Failed
    {
      var mems := gs.Membrs(topic);
      WithoutNone(topic, filters, me);
      ghost var f, ends, members := filters, dataEnds, Members(topic);
      CloseNone(ends, members);
      ghost var done := {};
      for i := 0 to |mems|
        invariant PublishersIn(mems, i, me, done)
        invariant Mode(topic).None? || !works ==> done == {}
        invariant filters == Without(topic, f, done, me)
        invariant dataEnds == Closed(ends, members, done)
      {
        NextPublisher(mems, i, me, done);
        if mems[i].name == me {
          continue;
        }
        if !mems[i].publisher {
          continue;
        }
        r := UnsubscribeData(me, topic, mems[i], works);
        if !r.Done? {
          SomePublisher(mems, members, i, me);
          WithoutNone(topic, f, me);
          return;
        }
        WithoutOne(topic, f, done, me, mems[i].name);
        CloseOne(ends, mems, members, done, i);
        done := done + {mems[i].name};
      }
      AllPublishers(mems, members, me, done);
      EndsOfOthers(members, me);
      return Done;
    }

    /** Whether handling msg asks for the mode of its group. */
    ghost predicate NeedsMode(msg: Request, works: bool)
      reads gs
    {
      match msg
      case Connect(connect, role, _, _, peer, _, _) => connect && peer.publisher && works && !role.Null?
      case Subscribe(subscribe, unsubAll, _, data, topic, me, _, _, _) =>
        !subscribe && data && (unsubAll ==> Publishers(Members(topic)) - {me} != {})
      case Authenticate(_, _, _, _) => false
    }

    /** The outcome reported on the data id. */
    ghost predicate DataOk(msg: Request, works: bool)
      reads gs
    {
      match msg
      case Connect(connect, role, _, _, peer, _, _) => connect && peer.publisher ==> works && !role.Null?
      case Subscribe(_, _, _, _, _, _, _, _, _) => NeedsMode(msg, works) ==> works
      case Authenticate(_, data, _, _) => data ==> works
    }

    ghost function FiltersAfter(msg: Request, works: bool): multiset<string>
      reads this`filters, gs
    {
      if !NeedsMode(msg, works) || !works || Mode(msg.topic).None? then filters
      else match msg
        case Connect(_, role, initLabel, topic, peer, _, _) =>
          var pub := if role.Publisher? then initLabel else peer.name;
          var sub := if role.Publisher? then peer.name else initLabel;
          filters + multiset{Topics.DataTopic(Mode(topic).value, topic, pub, sub)}
        case Subscribe(_, unsubAll, _, _, topic, me, peer, _, _) =>
          if unsubAll then filters - DataTopics(topic, Publishers(Members(topic)) - {me}, me)
          else filters - multiset{Topics.DataTopic(Mode(topic).value, topic, peer.name, me)}
    }

    /** The endpoints the data socket is connected to afterwards: the connect of an initiator without a role
        has been made before it is refused. */
    ghost function DataEndsAfter(msg: Request, works: bool): set<string>
      reads this`dataEnds, gs
    {
      if !works then dataEnds
      else match msg
        case Connect(connect, _, _, _, peer, _, _) =>
          if connect && peer.publisher then dataEnds + {peer.pubEndpoint} else dataEnds
        case Subscribe(_, unsubAll, _, _, topic, me, peer, _, _) =>
          if !NeedsMode(msg, works) || Mode(topic).None? then dataEnds
          else if unsubAll then dataEnds - Others(PublishersOf(Members(topic)), me)
          else dataEnds - {peer.pubEndpoint}
        case Authenticate(_, _, _, _) => dataEnds
    }

    lemma NobodyElse(topic: string, me: string)
      requires Publishers(Members(topic)) - {me} == {}
      ensures Others(PublishersOf(Members(topic)), me) == {}
    {
      EndsOfOthers(Members(topic), me);
    }

    method ListenConnect(msg: Request, works: bool) returns (r: Outcome)
      requires msg.Connect?
      modifies this`replies, this`filters, this`dataEnds
      ensures r == if NeedsMode(msg, works) && Mode(msg.topic).None? then Panicked else Done
      ensures replies == if r.Done? then old(replies) + [(msg.dataId, DataOk(msg, works))] else old(replies)
      ensures filters == old(FiltersAfter(msg, works)) && dataEnds == old(DataEndsAfter(msg, works))
    {
      if msg.connect {
        r := ConnectData(msg.role, msg.initLabel, msg.topic, msg.peer, works);
        if r.Panicked? {
          return;
        }
        if r.Failed? {
          Reply(msg.dataId, false);
          return Done;
        }
      }
      Reply(msg.dataId, true);
      return Done;
    }

    /** The calls a subscribe request leads to, and whether they succeed. */
    method Unsubscribe(msg: Request, works: bool) returns (r: Outcome)
      requires gs.Valid() && msg.Subscribe?
      modifies this`filters, this`dataEnds
      ensures r == if NeedsMode(msg, works) && Mode(msg.topic).None? then Panicked
                   else if DataOk(msg, works) then Done else Failed
      ensures filters == old(FiltersAfter(msg, works)) && dataEnds == old(DataEndsAfter(msg, works))
    {
      if msg.subscribe || !msg.data {
        return Done;
      }
      if msg.unsubAll {
        r := UnsubscribeAllData(msg.me, msg.topic, works);
      } else {
        r := UnsubscribeData(msg.me, msg.topic, msg.peer, works);
      }
    }

    method ListenSubscribe(msg: Request, works: bool) returns (r: Outcome)
      requires gs.Valid() && msg.Subscribe?
      modifies this`replies, this`filters, this`dataEnds
      ensures r == if NeedsMode(msg, works) && Mode(msg.topic).None? then Panicked else Done
      ensures replies == if r.Done? then old(replies) + [(msg.dataId, DataOk(msg, works))] else old(replies)
      ensures filters == old(FiltersAfter(msg, works)) && dataEnds == old(DataEndsAfter(msg, works))
    {
      r := Unsubscribe(msg, works);
      if r.Panicked? {
        return;
      }
      if r.Failed? {
        Reply(msg.dataId, false);
        return Done;
      }
      Reply(msg.dataId, true);
      return Done;
    }

    /** Every message is answered exactly once on its data id, with exactly the filters it stands for
        added or taken back. */
    method ListenData(msg: Request, works: bool) returns (r: Outcome)
      requires gs.Valid()
      modifies this`replies, this`filters, this`dataEnds, this`authed
      ensures r == if NeedsMode(msg, works) && Mode(msg.topic).None? then Panicked else Done
      ensures replies == if r.Done? then old(replies) + [(msg.dataId, DataOk(msg, works))] else old(replies)
      ensures filters == old(FiltersAfter(msg, works)) && dataEnds == old(DataEndsAfter(msg, works))
      ensures authed == if msg.Authenticate? && msg.data && works then old(authed) + {msg.peerName} else old(authed)
    {
      match msg
      case Connect(_, _, _, _, _, _, _) => r := ListenConnect(msg, works);
      case Subscribe(_, _, _, _, _, _, _, _, _) => r := ListenSubscribe(msg, works);
      case Authenticate(peerName, data, _, dataId) =>
        r := Done;
        if !data {
          Reply(dataId, true);
          return;
        }
        if works {
          authed := authed + {peerName};
        }
        Reply(dataId, works);
    }
  }
}
