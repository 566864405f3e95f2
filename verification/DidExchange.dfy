/** The pairwise DID exchange (prober/agent.go, prober/peers.go, didcomm/connection/handler.go): every
    interleaving of exchanges among any number of agents, one exchange at a time per pair. */
module DidExchange {
  import opened Common
  import opened Packer
  import opened Invitation

  const MESSAGE_SERVICE := "message-service"
  const GROUP_JOIN_SERVICE := "group-join-service"

  /** Everything outside the agents: their endpoints, key generation, and how a DID document is sealed
      for a key and read back. Prober.RealWorld gives the last two through the real envelope. */
  datatype World = World(
    endpoint: string -> string,
    pubOf: Bytes -> Bytes,
    seal: (Randomness, seq<Service>, Bytes, KeyPair) -> Bytes,
    open: (Bytes, KeyPair) -> Option<seq<Service>>)
  {
    predicate Made(pair: KeyPair) {
      pair.pub == pubOf(pair.prv)
    }

    ghost predicate Valid() {
      forall rnd, svcs, pair, sender {:trigger open(seal(rnd, svcs, pair.pub, sender), pair)} ::
        |svcs| > 0 && Made(pair) && Made(sender) ==> open(seal(rnd, svcs, pair.pub, sender), pair) == Some(svcs)
    }
  }

  /** A peer entry; `services` is empty in the bare entry that Accept writes. */
  datatype Peer = Peer(thId: string, services: seq<Service>)

  datatype Agent = Agent(keys: Keys, inv: Option<KeyPair>, peers: map<string, Peer>) {
    function WithKey(peer: string, pair: KeyPair): Agent {
      this.(keys := keys[peer := pair])
    }

    function WithPeer(peer: string, pr: Peer): Agent {
      this.(peers := peers[peer := pr])
    }
  }

  datatype ConnReq = ConnReq(to: string, name: string, thId: string, doc: Bytes)

  datatype ConnRes = ConnRes(to: string, thId: string, doc: Bytes)

  /** The two services an agent offers on one connection. */
  function OwnServices(ids: (string, string), endpoint: string, pub: Bytes): seq<Service> {
    [Service(ids.0, MESSAGE_SERVICE, endpoint, pub), Service(ids.1, GROUP_JOIN_SERVICE, endpoint, pub)]
  }

  /** The first service of that type. */
  function InfoByServc(filter: string, svcs: seq<Service>): (r: Option<Service>)
    ensures r.None? <==> forall i :: 0 <= i < |svcs| ==> svcs[i].kind != filter
    ensures forall i :: 0 <= i < |svcs| && svcs[i].kind == filter && (forall j :: 0 <= j < i ==> svcs[j].kind != filter)
              ==> r == Some(svcs[i])
  {
    if |svcs| == 0 then None
    else if svcs[0].kind == filter then Some(svcs[0])
    else InfoByServc(filter, svcs[1..])
  }

  /** The request Accept sends: the acceptor's label, a fresh thread id, its document for this connection
      sealed for the inviter's invitation key. */
  function Request(w: World, me: string, inviterEndpoint: string, inviterKey: Bytes, pair: KeyPair,
                   thId: string, ids: (string, string), rnd: Randomness): ConnReq {
    ConnReq(inviterEndpoint, me, thId, w.seal(rnd, OwnServices(ids, w.endpoint(me), pair.pub), inviterKey, pair))
  }

  /** processConnReq up to sending the response, which goes to the endpoint and key of the message service
      named by the requester's document; None when it stops with an error. */
  function Respond(w: World, me: string, inv: KeyPair, req: ConnReq,
                   pair: KeyPair, ids: (string, string), rnd: Randomness): Option<(ConnRes, seq<Service>)> {
    var svcs := w.open(req.doc, inv);
    if svcs.None? then None else
    var svc := InfoByServc(MESSAGE_SERVICE, svcs.value);
    if svc.None? then None else
    Some((ConnRes(svc.value.endpoint, req.thId,
                  w.seal(rnd, OwnServices(ids, w.endpoint(me), pair.pub), svc.value.pubKey, pair)),
          svcs.value))
  }

  // ---- all interleavings ----

  /** The most recent exchange of a pair: the messages in flight and how far its handlers have come.
      accKey and invKey are the key pairs the two handlers generated; `svcs` is the inviter's local result
      between sending its response and storing its peer entry. */
  datatype Exchange = Exchange(
    thId: string, acceptor: string, inviter: string, accKey: KeyPair, accIds: (string, string),
    req: Option<ConnReq>, bare: bool,
    responded: bool, invKey: KeyPair, invIds: (string, string), svcs: seq<Service>, inviterStored: bool,
    res: Option<ConnRes>, completed: bool)
  {
    predicate Done() {
      inviterStored && completed
    }

    function Pair(): set<string> {
      {acceptor, inviter}
    }

    function AcceptorServices(w: World): seq<Service> {
      OwnServices(accIds, w.endpoint(acceptor), accKey.pub)
    }

    function InviterServices(w: World): seq<Service> {
      OwnServices(invIds, w.endpoint(inviter), invKey.pub)
    }
  }

  /** `threads` records which pair each thread id was created for, `used` which agent generated a public
      key, and for which peer. */
  datatype Sys = Sys(agents: map<string, Agent>, slots: map<set<string>, Exchange>,
                     threads: map<string, set<string>>, used: map<Bytes, (string, string)>)

  datatype Step =
    | Invite(b: string, pair: KeyPair)
    | AcceptSend(a: string, b: string, thId: string, pair: KeyPair, ids: (string, string), rnd: Randomness)
    | AcceptStore(q: set<string>)
    | DeliverReq(q: set<string>, b: string, pair: KeyPair, ids: (string, string), rnd: Randomness)
    | StoreInviter(q: set<string>)
    | DeliverRes(q: set<string>, a: string, name: string)

  ghost predicate FreshKey(w: World, s: Sys, pair: KeyPair) {
    w.Made(pair) && pair.pub !in s.used
  }

  /** Delivery is by endpoint. DeliverRes needs a peer entry with the response's thread id: until one
      exists the original polls, which is this step not being possible yet. */
  ghost predicate Enabled(w: World, s: Sys, e: Step) {
    match e
    case Invite(b, pair) => b in s.agents && w.Made(pair)
    case AcceptSend(a, b, thId, pair, _, _) =>
      && a in s.agents && b in s.agents && a != b && s.agents[b].inv.Some?
      && thId !in s.threads && FreshKey(w, s, pair)
      && ({a, b} in s.slots ==> s.slots[{a, b}].Done())
    case AcceptStore(q) => q in s.slots && !s.slots[q].bare && s.slots[q].acceptor in s.agents
    case DeliverReq(q, b, pair, _, _) =>
      && q in s.slots && s.slots[q].req.Some?
      && b in s.agents && s.agents[b].inv.Some? && s.slots[q].req.value.to == w.endpoint(b)
      && FreshKey(w, s, pair)
    case StoreInviter(q) =>
      q in s.slots && s.slots[q].responded && !s.slots[q].inviterStored && s.slots[q].inviter in s.agents
    case DeliverRes(q, a, name) =>
      && q in s.slots && s.slots[q].res.Some?
      && a in s.agents && s.slots[q].res.value.to == w.endpoint(a)
      && name in s.agents[a].peers && s.agents[a].peers[name].thId == s.slots[q].res.value.thId
  }

  ghost function Next(w: World, s: Sys, e: Step): Sys
    requires Enabled(w, s, e)
  {
    match e
    case Invite(b, pair) =>
      if s.agents[b].inv.Some? then s else s.(agents := s.agents[b := s.agents[b].(inv := Some(pair))])
    case AcceptSend(a, b, thId, pair, ids, rnd) =>
      var req := Request(w, a, w.endpoint(b), s.agents[b].inv.value.pub, pair, thId, ids, rnd);
      Sys(s.agents[a := s.agents[a].WithKey(b, pair)],
          s.slots[{a, b} := Exchange(thId, a, b, pair, ids, Some(req), false, false, pair, ids,
                                     [], false, None, false)],
          s.threads[thId := {a, b}], s.used[pair.pub := (a, b)])
    case AcceptStore(q) =>
      var x := s.slots[q];
      s.(agents := s.agents[x.acceptor := s.agents[x.acceptor].WithPeer(x.inviter, Peer(x.thId, []))],
         slots := s.slots[q := x.(bare := true)])
    case DeliverReq(q, b, pair, ids, rnd) =>
      var x := s.slots[q];
      (match Respond(w, b, s.agents[b].inv.value, x.req.value, pair, ids, rnd)
       case None => s.(slots := s.slots[q := x.(req := None)])
       case Some((res, svcs)) =>
         s.(agents := s.agents[b := s.agents[b].WithKey(x.req.value.name, pair)],
            slots := s.slots[q := x.(req := None, responded := true, invKey := pair, invIds := ids,
                                     svcs := svcs, res := Some(res))],
            used := s.used[pair.pub := (b, x.req.value.name)]))
    case StoreInviter(q) =>
      var x := s.slots[q];
      s.(agents := s.agents[x.inviter := s.agents[x.inviter].WithPeer(x.acceptor, Peer(x.thId, x.svcs))],
         slots := s.slots[q := x.(inviterStored := true)])
    case DeliverRes(q, a, name) =>
      var x := s.slots[q];
      var res := x.res.value;
      var svcs := if name in s.agents[a].keys then w.open(res.doc, s.agents[a].keys[name]) else None;
      (match svcs
       case None => s.(slots := s.slots[q := x.(res := None)])
       case Some(v) =>
         s.(agents := s.agents[a := s.agents[a].WithPeer(name, Peer(res.thId, v))],
            slots := s.slots[q := x.(res := None, completed := true)]))
  }

  ghost predicate DistinctEndpoints(w: World, s: Sys) {
    forall a, b :: a in s.agents && b in s.agents && w.endpoint(a) == w.endpoint(b) ==> a == b
  }

  ghost predicate Init(w: World, s: Sys) {
    && (forall a :: a in s.agents ==> s.agents[a] == Agent(map[], None, map[]))
    && s.slots == map[] && s.threads == map[] && s.used == map[]
    && DistinctEndpoints(w, s)
  }

  ghost predicate Run(w: World, states: seq<Sys>, steps: seq<Step>) {
    && |states| == |steps| + 1
    && Init(w, states[0])
    && (forall i :: 0 <= i < |steps| ==>
          Enabled(w, states[i], steps[i]) && states[i + 1] == Next(w, states[i], steps[i]))
  }

  // ---- the invariant ----

  ghost function KeyOf(s: Sys, a: string, b: string): Option<KeyPair> {
    if a in s.agents && b in s.agents[a].keys then Some(s.agents[a].keys[b]) else None
  }

  ghost function Entry(s: Sys, a: string, b: string): Option<Peer> {
    if a in s.agents && b in s.agents[a].peers then Some(s.agents[a].peers[b]) else None
  }

  ghost function InvKeyOf(s: Sys, a: string): Option<KeyPair> {
    if a in s.agents then s.agents[a].inv else None
  }

  ghost predicate Shape(s: Sys, q: set<string>, x: Exchange) {
    && x.Pair() == q && x.acceptor in s.agents && x.inviter in s.agents && x.acceptor != x.inviter
    && x.thId in s.threads && s.threads[x.thId] == q
    && (x.completed ==> x.bare && x.responded) && (x.inviterStored ==> x.responded)
    && (x.req.Some? <==> !x.responded) && (x.res.Some? <==> x.responded && !x.completed)
  }

  ghost predicate KeysFit(s: Sys, x: Exchange) {
    && KeyOf(s, x.acceptor, x.inviter) == Some(x.accKey)
    && (x.responded ==> KeyOf(s, x.inviter, x.acceptor) == Some(x.invKey))
  }

  ghost predicate EntriesFit(w: World, s: Sys, x: Exchange) {
    && (!x.bare ==> Entry(s, x.acceptor, x.inviter).None? || Entry(s, x.acceptor, x.inviter).value.thId != x.thId)
    && (x.bare && !x.completed ==> Entry(s, x.acceptor, x.inviter) == Some(Peer(x.thId, [])))
    && (x.completed ==> Entry(s, x.acceptor, x.inviter) == Some(Peer(x.thId, x.InviterServices(w))))
    && (x.inviterStored ==> Entry(s, x.inviter, x.acceptor) == Some(Peer(x.thId, x.AcceptorServices(w))))
  }

  ghost predicate MessagesFit(w: World, s: Sys, x: Exchange) {
    && (x.req.Some? ==>
          && x.req.value.to == w.endpoint(x.inviter)
          && x.req.value.name == x.acceptor && x.req.value.thId == x.thId
          && InvKeyOf(s, x.inviter).Some?
          && w.open(x.req.value.doc, InvKeyOf(s, x.inviter).value) == Some(x.AcceptorServices(w)))
    && (x.responded ==> x.svcs == x.AcceptorServices(w))
    && (x.res.Some? ==>
          && x.res.value.to == w.endpoint(x.acceptor)
          && x.res.value.thId == x.thId
          && w.open(x.res.value.doc, x.accKey) == Some(x.InviterServices(w)))
  }

  ghost predicate SlotOk(w: World, s: Sys, q: set<string>, x: Exchange) {
    Shape(s, q, x) && KeysFit(s, x) && EntriesFit(w, s, x) && MessagesFit(w, s, x)
  }

  /** A peer entry carries a thread id created for exactly these two agents. */
  ghost predicate ThreadOwned(s: Sys, a: string, b: string) {
    Entry(s, a, b).Some? ==>
      Entry(s, a, b).value.thId in s.threads && s.threads[Entry(s, a, b).value.thId] == {a, b}
  }

  ghost predicate KeyMade(w: World, s: Sys, a: string, b: string) {
    KeyOf(s, a, b).Some? ==>
      && w.Made(KeyOf(s, a, b).value)
      && KeyOf(s, a, b).value.pub in s.used && s.used[KeyOf(s, a, b).value.pub] == (a, b)
  }

  ghost predicate Inv(w: World, s: Sys) {
    && DistinctEndpoints(w, s)
    && (forall q :: q in s.slots ==> SlotOk(w, s, q, s.slots[q]))
    && (forall a, b :: ThreadOwned(s, a, b))
    && (forall a, b :: KeyMade(w, s, a, b))
    && (forall a :: InvKeyOf(s, a).Some? ==> w.Made(InvKeyOf(s, a).value))
  }

  lemma SamePair(a: string, b: string, c: string, d: string)
    ensures {a, b} == {c, d} <==> (a == c && b == d) || (a == d && b == c)
  {
    if {a, b} == {c, d} {
      assert a in {c, d} && b in {c, d} && c in {a, b} && d in {a, b};
    }
  }

  /** What one step changes: the slot of one pair, and keys or entries only between that pair. */
  ghost predicate OnlyPair(s: Sys, s': Sys, q: set<string>) {
    && s'.agents.Keys == s.agents.Keys
    && (forall p :: p != q ==> (p in s'.slots <==> p in s.slots) && (p in s.slots ==> s'.slots[p] == s.slots[p]))
    && (forall t :: t in s.threads ==> t in s'.threads && s'.threads[t] == s.threads[t])
    && (forall a, b :: {a, b} != q ==> KeyOf(s', a, b) == KeyOf(s, a, b))
    && (forall a, b :: {a, b} != q ==> Entry(s', a, b) == Entry(s, a, b))
    && (forall a :: InvKeyOf(s, a).Some? ==> InvKeyOf(s', a) == InvKeyOf(s, a))
  }

  lemma OtherSlotKept(w: World, s: Sys, s': Sys, q: set<string>, p: set<string>)
    requires OnlyPair(s, s', q) && p != q && p in s.slots && SlotOk(w, s, p, s.slots[p])
    ensures SlotOk(w, s', p, s'.slots[p])
  {
    var x := s.slots[p];
    assert {x.acceptor, x.inviter} == p && {x.inviter, x.acceptor} == p;
  }

  ghost predicate NewKeyAt(s: Sys, s': Sys, a: string, b: string, pair: KeyPair) {
    forall c, d :: KeyOf(s', c, d) == if c == a && d == b then Some(pair) else KeyOf(s, c, d)
  }

  ghost predicate SameKeys(s: Sys, s': Sys) {
    forall c, d :: KeyOf(s', c, d) == KeyOf(s, c, d)
  }

  ghost predicate NewEntryAt(s: Sys, s': Sys, a: string, b: string, pr: Peer) {
    forall c, d :: Entry(s', c, d) == if c == a && d == b then Some(pr) else Entry(s, c, d)
  }

  ghost predicate SameEntries(s: Sys, s': Sys) {
    forall c, d :: Entry(s', c, d) == Entry(s, c, d)
  }

  /** The pair a step works for. */
  function Touched(e: Step): set<string> {
    match e
    case Invite(_, _) => {}
    case AcceptSend(a, b, _, _, _, _) => {a, b}
    case AcceptStore(q) => q
    case DeliverReq(q, _, _, _, _) => q
    case StoreInviter(q) => q
    case DeliverRes(q, _, _) => q
  }

  lemma PutKey(s: Sys, s': Sys, a: string, b: string, pair: KeyPair)
    requires a in s.agents && s'.agents == s.agents[a := s.agents[a].WithKey(b, pair)]
    ensures NewKeyAt(s, s', a, b, pair) && SameEntries(s, s')
    ensures forall c :: InvKeyOf(s', c) == InvKeyOf(s, c)
  {}

  lemma PutEntry(s: Sys, s': Sys, a: string, b: string, pr: Peer)
    requires a in s.agents && s'.agents == s.agents[a := s.agents[a].WithPeer(b, pr)]
    ensures NewEntryAt(s, s', a, b, pr) && SameKeys(s, s')
    ensures forall c :: InvKeyOf(s', c) == InvKeyOf(s, c)
  {}

  /** The slots of the other pairs, after a step that changes only q's. */
  lemma OtherSlots(w: World, s: Sys, s': Sys, q: set<string>)
    requires OnlyPair(s, s', q) && (q in s'.slots ==> SlotOk(w, s', q, s'.slots[q]))
    requires forall p :: p in s.slots ==> SlotOk(w, s, p, s.slots[p])
    ensures forall p :: p in s'.slots ==> SlotOk(w, s', p, s'.slots[p])
  {
    forall p | p in s'.slots ensures SlotOk(w, s', p, s'.slots[p]) {
      if p != q {
        OtherSlotKept(w, s, s', q, p);
      }
    }
  }

  lemma KeyKeepsOthers(s: Sys, s': Sys, q: set<string>, a: string, b: string, pair: KeyPair)
    requires q == {a, b} && a in s.agents && s'.agents == s.agents[a := s.agents[a].WithKey(b, pair)]
    requires q in s'.slots && s'.slots == s.slots[q := s'.slots[q]]
    requires forall t :: t in s.threads ==> t in s'.threads && s'.threads[t] == s.threads[t]
    ensures OnlyPair(s, s', q)
  {
    PutKey(s, s', a, b, pair);
  }

  lemma KeysStayMade(w: World, s: Sys, s': Sys, a: string, b: string, pair: KeyPair)
    requires forall c, d :: KeyMade(w, s, c, d)
    requires FreshKey(w, s, pair) && NewKeyAt(s, s', a, b, pair) && s'.used == s.used[pair.pub := (a, b)]
    ensures forall c, d :: KeyMade(w, s', c, d)
  {
    forall c, d ensures KeyMade(w, s', c, d) {
      assert KeyMade(w, s, c, d);
    }
  }

  lemma ThreadsStayOwned(s: Sys, s': Sys)
    requires forall c, d :: ThreadOwned(s, c, d)
    requires SameEntries(s, s') && forall t :: t in s.threads ==> t in s'.threads && s'.threads[t] == s.threads[t]
    ensures forall c, d :: ThreadOwned(s', c, d)
  {
    forall c, d ensures ThreadOwned(s', c, d) {
      assert ThreadOwned(s, c, d);
    }
  }

  /** The invariant of the other pairs, after a step that changes q's slot and one key of q's agents. */
  lemma KeyStep(w: World, s: Sys, s': Sys, q: set<string>, a: string, b: string, pair: KeyPair)
    requires Inv(w, s) && q == {a, b} && FreshKey(w, s, pair) && a in s.agents
    requires s'.agents == s.agents[a := s.agents[a].WithKey(b, pair)] && s'.used == s.used[pair.pub := (a, b)]
    requires q in s'.slots && s'.slots == s.slots[q := s'.slots[q]] && SlotOk(w, s', q, s'.slots[q])
    requires forall t :: t in s.threads ==> t in s'.threads && s'.threads[t] == s.threads[t]
    ensures Inv(w, s') && OnlyPair(s, s', q)
  {
    PutKey(s, s', a, b, pair);
    KeyKeepsOthers(s, s', q, a, b, pair);
    OtherSlots(w, s, s', q);
    KeysStayMade(w, s, s', a, b, pair);
    ThreadsStayOwned(s, s');
  }

  lemma EntryKeepsOthers(s: Sys, s': Sys, q: set<string>, a: string, b: string, pr: Peer)
    requires q == {a, b} && a in s.agents && s'.agents == s.agents[a := s.agents[a].WithPeer(b, pr)]
    requires q in s'.slots && s'.slots == s.slots[q := s'.slots[q]] && s'.threads == s.threads
    ensures OnlyPair(s, s', q)
  {
    PutEntry(s, s', a, b, pr);
  }

  lemma EntryOwned(s: Sys, s': Sys, a: string, b: string, pr: Peer)
    requires forall c, d :: ThreadOwned(s, c, d)
    requires NewEntryAt(s, s', a, b, pr) && s'.threads == s.threads && pr.thId in s.threads
    requires s.threads[pr.thId] == {a, b}
    ensures forall c, d :: ThreadOwned(s', c, d)
  {
    forall c, d ensures ThreadOwned(s', c, d) {
      assert ThreadOwned(s, c, d);
    }
  }

  lemma SameKeysMade(w: World, s: Sys, s': Sys)
    requires SameKeys(s, s') && s'.used == s.used && forall c, d :: KeyMade(w, s, c, d)
    ensures forall c, d :: KeyMade(w, s', c, d)
  {
    forall c, d ensures KeyMade(w, s', c, d) {
      assert KeyMade(w, s, c, d);
    }
  }

  /** The same for a step that stores one peer entry. */
  lemma EntryStep(w: World, s: Sys, s': Sys, q: set<string>, a: string, b: string, pr: Peer)
    requires Inv(w, s) && q == {a, b} && a in s.agents
    requires s'.agents == s.agents[a := s.agents[a].WithPeer(b, pr)] && s'.used == s.used
    requires q in s'.slots && s'.slots == s.slots[q := s'.slots[q]] && SlotOk(w, s', q, s'.slots[q])
    requires s'.threads == s.threads && pr.thId in s.threads && s.threads[pr.thId] == q
    ensures Inv(w, s') && OnlyPair(s, s', q)
  {
    PutEntry(s, s', a, b, pr);
    EntryKeepsOthers(s, s', q, a, b, pr);
    OtherSlots(w, s, s', q);
    SameKeysMade(w, s, s');
    EntryOwned(s, s', a, b, pr);
  }

  lemma InviteKeeps(w: World, s: Sys, e: Step)
    requires Enabled(w, s, e) && e.Invite? && forall q :: q in s.slots ==> Shape(s, q, s.slots[q])
    ensures var s' := Next(w, s, e);
            && SameKeys(s, s') && SameEntries(s, s') && OnlyPair(s, s', {})
            && s'.threads == s.threads && s'.used == s.used && s'.slots == s.slots && {} !in s'.slots
            && forall a :: InvKeyOf(s', a) == InvKeyOf(s, a) || InvKeyOf(s', a) == Some(e.pair)
  {
    forall q | q in s.slots ensures q != {} {
      assert Shape(s, q, s.slots[q]);
      assert s.slots[q].acceptor in q;
    }
  }

  lemma InviteStep(w: World, s: Sys, e: Step)
    requires Inv(w, s) && Enabled(w, s, e) && e.Invite?
    ensures Inv(w, Next(w, s, e)) && OnlyPair(s, Next(w, s, e), Touched(e))
  {
    var s' := Next(w, s, e);
    assert forall q :: q in s.slots ==> SlotOk(w, s, q, s.slots[q]);
    InviteKeeps(w, s, e);
    OtherSlots(w, s, s', {});
    SameKeysMade(w, s, s');
    ThreadsStayOwned(s, s');
  }

  lemma AcceptSendStep(w: World, s: Sys, e: Step)
    requires w.Valid() && Inv(w, s) && Enabled(w, s, e) && e.AcceptSend?
    ensures Inv(w, Next(w, s, e)) && OnlyPair(s, Next(w, s, e), Touched(e))
  {
    var AcceptSend(a, b, thId, pair, ids, rnd) := e;
    var s' := Next(w, s, e);
    var q, x := {a, b}, s'.slots[{a, b}];
    assert InvKeyOf(s, b) == s.agents[b].inv;
    assert w.open(w.seal(rnd, x.AcceptorServices(w), s.agents[b].inv.value.pub, pair), s.agents[b].inv.value)
        == Some(x.AcceptorServices(w));
    PutKey(s, s', a, b, pair);
    assert ThreadOwned(s, a, b);
    assert SlotOk(w, s', q, x);
    KeyStep(w, s, s', q, a, b, pair);
  }

  /** Accept's bare entry is never written after processConnRes has stored its own for this exchange. */
  lemma AcceptStoreStep(w: World, s: Sys, e: Step)
    requires Inv(w, s) && Enabled(w, s, e) && e.AcceptStore?
    ensures Inv(w, Next(w, s, e)) && OnlyPair(s, Next(w, s, e), Touched(e))
    ensures !s.slots[e.q].completed
  {
    var s' := Next(w, s, e);
    var x := s.slots[e.q];
    assert SlotOk(w, s, e.q, x);
    PutEntry(s, s', x.acceptor, x.inviter, Peer(x.thId, []));
    assert SlotOk(w, s', e.q, s'.slots[e.q]);
    EntryStep(w, s, s', e.q, x.acceptor, x.inviter, Peer(x.thId, []));
  }

  lemma StoreInviterStep(w: World, s: Sys, e: Step)
    requires Inv(w, s) && Enabled(w, s, e) && e.StoreInviter?
    ensures Inv(w, Next(w, s, e)) && OnlyPair(s, Next(w, s, e), Touched(e))
  {
    var s' := Next(w, s, e);
    var x := s.slots[e.q];
    assert SlotOk(w, s, e.q, x);
    PutEntry(s, s', x.inviter, x.acceptor, Peer(x.thId, x.svcs));
    assert SlotOk(w, s', e.q, s'.slots[e.q]);
    SamePair(x.acceptor, x.inviter, x.inviter, x.acceptor);
    EntryStep(w, s, s', e.q, x.inviter, x.acceptor, Peer(x.thId, x.svcs));
  }

  /** The request reaches the inviter it was meant for, and opens there. */
  lemma RequestAnswered(w: World, s: Sys, e: Step)
    requires w.Valid() && Inv(w, s) && Enabled(w, s, e) && e.DeliverReq?
    ensures var x := s.slots[e.q];
            && e.b == x.inviter && x.req.value.name == x.acceptor && !x.responded
            && Respond(w, e.b, s.agents[e.b].inv.value, x.req.value, e.pair, e.ids, e.rnd)
               == Some((ConnRes(w.endpoint(x.acceptor), x.thId,
                                w.seal(e.rnd, OwnServices(e.ids, w.endpoint(e.b), e.pair.pub), x.accKey.pub, e.pair)),
                        x.AcceptorServices(w)))
            && w.Made(x.accKey)
  {
    var x := s.slots[e.q];
    assert SlotOk(w, s, e.q, x);
    assert InvKeyOf(s, e.b) == s.agents[e.b].inv;
    assert KeyMade(w, s, x.acceptor, x.inviter);
  }

  lemma DeliverReqStep(w: World, s: Sys, e: Step)
    requires w.Valid() && Inv(w, s) && Enabled(w, s, e) && e.DeliverReq?
    ensures Inv(w, Next(w, s, e)) && OnlyPair(s, Next(w, s, e), Touched(e))
  {
    RequestAnswered(w, s, e);
    var x, s' := s.slots[e.q], Next(w, s, e);
    var y := s'.slots[e.q];
    assert SlotOk(w, s, e.q, x);
    assert w.open(w.seal(e.rnd, y.InviterServices(w), x.accKey.pub, e.pair), x.accKey) == Some(y.InviterServices(w));
    PutKey(s, s', e.b, x.acceptor, e.pair);
    assert SlotOk(w, s', e.q, y);
    SamePair(x.acceptor, x.inviter, x.inviter, x.acceptor);
    KeyStep(w, s, s', e.q, e.b, x.acceptor, e.pair);
  }

  /** The response reaches the acceptor, finds this exchange's peer entry, and opens there. */
  lemma ResponseAccepted(w: World, s: Sys, e: Step)
    requires w.Valid() && Inv(w, s) && Enabled(w, s, e) && e.DeliverRes?
    ensures var x := s.slots[e.q];
            && e.a == x.acceptor && e.name == x.inviter && x.bare && x.responded && !x.completed
            && Entry(s, e.a, e.name) == Some(Peer(x.thId, []))
            && e.name in s.agents[e.a].keys
            && w.open(x.res.value.doc, s.agents[e.a].keys[e.name]) == Some(x.InviterServices(w))
  {
    var x := s.slots[e.q];
    assert SlotOk(w, s, e.q, x);
    assert Entry(s, e.a, e.name) == Some(s.agents[e.a].peers[e.name]);
    assert ThreadOwned(s, e.a, e.name);
    SamePair(x.acceptor, x.inviter, e.a, e.name);
    assert KeyOf(s, e.a, e.name) == Some(x.accKey);
  }

  lemma DeliverResStep(w: World, s: Sys, e: Step)
    requires w.Valid() && Inv(w, s) && Enabled(w, s, e) && e.DeliverRes?
    ensures Inv(w, Next(w, s, e)) && OnlyPair(s, Next(w, s, e), Touched(e))
  {
    ResponseAccepted(w, s, e);
    var x, s' := s.slots[e.q], Next(w, s, e);
    assert SlotOk(w, s, e.q, x);
    PutEntry(s, s', e.a, e.name, Peer(x.thId, x.InviterServices(w)));
    assert SlotOk(w, s', e.q, s'.slots[e.q]);
    EntryStep(w, s, s', e.q, e.a, e.name, Peer(x.thId, x.InviterServices(w)));
  }

  /** Every step keeps the invariant and changes nothing outside the pair it works for. */
  lemma InvStep(w: World, s: Sys, e: Step)
    requires w.Valid() && Inv(w, s) && Enabled(w, s, e)
    ensures Inv(w, Next(w, s, e)) && OnlyPair(s, Next(w, s, e), Touched(e))
  {
    match e
    case Invite(_, _) => InviteStep(w, s, e);
    case AcceptSend(_, _, _, _, _, _) => AcceptSendStep(w, s, e);
    case AcceptStore(_) => AcceptStoreStep(w, s, e);
    case DeliverReq(_, _, _, _, _) => DeliverReqStep(w, s, e);
    case StoreInviter(_) => StoreInviterStep(w, s, e);
    case DeliverRes(_, _, _) => DeliverResStep(w, s, e);
  }

  lemma {:induction false} InvAlways(w: World, states: seq<Sys>, steps: seq<Step>, i: nat)
    requires w.Valid() && Run(w, states, steps) && i < |states|
    ensures Inv(w, states[i])
  {
    if i > 0 {
      InvAlways(w, states, steps, i - 1);
      InvStep(w, states[i - 1], steps[i - 1]);
    }
  }

  /** a and b have finished their latest exchange. */
  ghost predicate Connected(s: Sys, a: string, b: string) {
    {a, b} in s.slots && s.slots[{a, b}].Done()
  }

  /** What a holds about b: the shared thread id, and b's current key for this connection in both services. */
  ghost predicate Knows(w: World, s: Sys, a: string, b: string, thId: string) {
    && Entry(s, a, b).Some? && KeyOf(s, b, a).Some?
    && Entry(s, a, b).value.thId == thId
    && (exists ids :: Entry(s, a, b).value.services == OwnServices(ids, w.endpoint(b), KeyOf(s, b, a).value.pub))
  }

  /** In every run, at every moment, connected agents know each other symmetrically. */
  lemma Symmetry(w: World, states: seq<Sys>, steps: seq<Step>, i: nat, a: string, b: string)
    requires w.Valid() && Run(w, states, steps) && i < |states| && Connected(states[i], a, b)
    ensures exists thId :: Knows(w, states[i], a, b, thId) && Knows(w, states[i], b, a, thId)
  {
    InvAlways(w, states, steps, i);
    ConnectedKnow(w, states[i], a, b);
  }

  lemma ConnectedKnow(w: World, s: Sys, a: string, b: string)
    requires Inv(w, s) && Connected(s, a, b)
    ensures Knows(w, s, a, b, s.slots[{a, b}].thId) && Knows(w, s, b, a, s.slots[{a, b}].thId)
    ensures a != b && a in s.agents && b in s.agents
  {
    var x := s.slots[{a, b}];
    assert SlotOk(w, s, {a, b}, x);
    SamePair(a, b, x.acceptor, x.inviter);
    assert Entry(s, x.acceptor, x.inviter).value.services == OwnServices(x.invIds, w.endpoint(x.inviter), x.invKey.pub);
    assert Entry(s, x.inviter, x.acceptor).value.services ==
           OwnServices(x.accIds, w.endpoint(x.acceptor), x.accKey.pub);
  }

  /** Finished exchanges stay finished until the pair starts another, and only that step touches them. */
  lemma ConnectionsPersist(w: World, s: Sys, e: Step, a: string, b: string)
    requires w.Valid() && Inv(w, s) && Enabled(w, s, e) && Connected(s, a, b)
    requires !(e.AcceptSend? && {e.a, e.b} == {a, b})
    ensures var s' := Next(w, s, e);
            Connected(s', a, b) && Entry(s', a, b) == Entry(s, a, b) && KeyOf(s', a, b) == KeyOf(s, a, b)
  {
    assert Shape(s, {a, b}, s.slots[{a, b}]);
    assert {a, b} != {};
    InvStep(w, s, e);
  }

  // ---- exchanges can finish ----

  /** The exchange of pair {a, b} as a's accept has started it, and as far as the flags say. */
  ghost predicate Started(s: Sys, e: Step, bare: bool, responded: bool, stored: bool) {
    && e.AcceptSend? && {e.a, e.b} in s.slots
    && var x := s.slots[{e.a, e.b}];
       && x.acceptor == e.a && x.inviter == e.b && x.thId == e.thId
       && x.bare == bare && x.responded == responded && x.inviterStored == stored && !x.completed
  }

  lemma FirstMove(w: World, s: Sys, e: Step, pair: KeyPair)
    requires w.Valid() && Inv(w, s) && Enabled(w, s, e) && e.AcceptSend? && FreshKey(w, s, pair)
    requires pair.pub != e.pair.pub
    ensures var t := Next(w, s, e);
            && Inv(w, t) && Started(t, e, false, false, false) && FreshKey(w, t, pair)
            && Enabled(w, t, AcceptStore({e.a, e.b}))
  {
    InvStep(w, s, e);
    assert SlotOk(w, Next(w, s, e), {e.a, e.b}, Next(w, s, e).slots[{e.a, e.b}]);
  }

  lemma SecondMove(w: World, s: Sys, e: Step, pair: KeyPair, ids: (string, string), rnd: Randomness)
    requires w.Valid() && Inv(w, s) && Started(s, e, false, false, false) && FreshKey(w, s, pair)
    requires Enabled(w, s, AcceptStore({e.a, e.b}))
    ensures var t := Next(w, s, AcceptStore({e.a, e.b}));
            Inv(w, t) && Started(t, e, true, false, false) && Enabled(w, t, DeliverReq({e.a, e.b}, e.b, pair, ids, rnd))
  {
    var q := {e.a, e.b};
    InvStep(w, s, AcceptStore(q));
    var t := Next(w, s, AcceptStore(q));
    assert SlotOk(w, t, q, t.slots[q]);
    assert InvKeyOf(t, e.b).Some?;
  }

  lemma ThirdMove(w: World, s: Sys, e: Step, f: Step)
    requires w.Valid() && Inv(w, s) && Started(s, e, true, false, false)
    requires f.DeliverReq? && f.q == {e.a, e.b} && f.b == e.b && Enabled(w, s, f)
    ensures var t := Next(w, s, f);
            Inv(w, t) && Started(t, e, true, true, false) && Enabled(w, t, StoreInviter({e.a, e.b}))
  {
    RequestAnswered(w, s, f);
    InvStep(w, s, f);
    var t := Next(w, s, f);
    assert SlotOk(w, t, f.q, t.slots[f.q]);
  }

  lemma FourthMove(w: World, s: Sys, e: Step)
    requires w.Valid() && Inv(w, s) && Started(s, e, true, true, false) && Enabled(w, s, StoreInviter({e.a, e.b}))
    ensures var t := Next(w, s, StoreInviter({e.a, e.b}));
            Inv(w, t) && Started(t, e, true, true, true) && Enabled(w, t, DeliverRes({e.a, e.b}, e.a, e.b))
  {
    var q := {e.a, e.b};
    InvStep(w, s, StoreInviter(q));
    var t := Next(w, s, StoreInviter(q));
    assert SlotOk(w, t, q, t.slots[q]);
    assert Entry(t, e.a, e.b) == Some(Peer(e.thId, []));
  }

  lemma LastMove(w: World, s: Sys, e: Step)
    requires w.Valid() && Inv(w, s) && Started(s, e, true, true, true)
    requires Enabled(w, s, DeliverRes({e.a, e.b}, e.a, e.b))
    ensures var t := Next(w, s, DeliverRes({e.a, e.b}, e.a, e.b));
            Inv(w, t) && Connected(t, e.a, e.b) && Connected(t, e.b, e.a)
  {
    var f := DeliverRes({e.a, e.b}, e.a, e.b);
    ResponseAccepted(w, s, f);
    InvStep(w, s, f);
    SamePair(e.a, e.b, e.b, e.a);
  }

  /** Whenever a can accept b's invitation, and b can make another key, the exchange can run to its end,
      one handler after the other, and leaves both sides connected. */
  lemma ExchangeCanFinish(w: World, s: Sys, e: Step, pair: KeyPair, ids: (string, string), rnd: Randomness)
    requires w.Valid() && Inv(w, s) && Enabled(w, s, e) && e.AcceptSend? && FreshKey(w, s, pair)
    requires pair.pub != e.pair.pub
    ensures var q := {e.a, e.b};
            var s1 := Next(w, s, e);
            Enabled(w, s1, AcceptStore(q)) &&
            var s2 := Next(w, s1, AcceptStore(q));
            Enabled(w, s2, DeliverReq(q, e.b, pair, ids, rnd)) &&
            var s3 := Next(w, s2, DeliverReq(q, e.b, pair, ids, rnd));
            Enabled(w, s3, StoreInviter(q)) &&
            var s4 := Next(w, s3, StoreInviter(q));
            Enabled(w, s4, DeliverRes(q, e.a, e.b)) &&
            var t := Next(w, s4, DeliverRes(q, e.a, e.b));
            Inv(w, t) && Connected(t, e.a, e.b) && Connected(t, e.b, e.a)
  {
    var q := {e.a, e.b};
    FirstMove(w, s, e, pair);
    var s1 := Next(w, s, e);
    SecondMove(w, s1, e, pair, ids, rnd);
    var s2 := Next(w, s1, AcceptStore(q));
    ThirdMove(w, s2, e, DeliverReq(q, e.b, pair, ids, rnd));
    var s3 := Next(w, s2, DeliverReq(q, e.b, pair, ids, rnd));
    FourthMove(w, s3, e);
    LastMove(w, Next(w, s3, StoreInviter(q)), e);
  }
}
