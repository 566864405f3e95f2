/** One agent's prober (prober/agent.go): the handlers of the DID exchange, message sending and reading,
    and the addressing of group status messages over established connections. */
module Prober {
  import opened Common
  import opened Packer
  import opened Invitation
  import D = DidExchange

  /** The real envelope around the JSON of a DID document. */
  function RealWorld(p: Prims, docJson: seq<DocService> -> Bytes, docOf: Bytes -> Option<seq<DocService>>,
                     endpoint: string -> string): D.World
  {
    D.World(endpoint, p.pubOf,
            (rnd: Randomness, svcs: seq<Service>, rec: Bytes, pair: KeyPair) =>
              p.msgJson(Pack(p, rnd, docJson(DocsOf(svcs)), rec, pair.pub, pair.prv)),
            (data: Bytes, pair: KeyPair) => PeerInfo(p, docOf, data, pair))
  }

  function PeerInfo(p: Prims, docOf: Bytes -> Option<seq<DocService>>, data: Bytes, pair: KeyPair)
    : Option<seq<Service>>
  {
    var docBytes := Unpack(p, data, pair.pub, pair.prv);
    if docBytes.None? then None else
    var doc := docOf(docBytes.value);
    if doc.None? || |doc.value| == 0 then None else Some(ServicesOf(doc.value))
  }

  /** Sealing and reading documents through Pack, Unpack and the key buffers is a valid world. */
  lemma RealWorldValid(p: Prims, docJson: seq<DocService> -> Bytes, docOf: Bytes -> Option<seq<DocService>>,
                       endpoint: string -> string)
    requires p.Valid() && forall d :: docOf(docJson(d)) == Some(d)
    ensures RealWorld(p, docJson, docOf, endpoint).Valid()
  {
    var w := RealWorld(p, docJson, docOf, endpoint);
    forall rnd, svcs, pair, sender | |svcs| > 0 && w.Made(pair) && w.Made(sender)
      ensures w.open(w.seal(rnd, svcs, pair.pub, sender), pair) == Some(svcs) {
      DocumentOpens(p, docJson, docOf, endpoint, rnd, svcs, pair, sender);
    }
  }

  lemma {:induction false} DocumentOpens(p: Prims, docJson: seq<DocService> -> Bytes,
                                         docOf: Bytes -> Option<seq<DocService>>, endpoint: string -> string,
                                         rnd: Randomness, svcs: seq<Service>, pair: KeyPair, sender: KeyPair)
    requires p.Valid() && docOf(docJson(DocsOf(svcs))) == Some(DocsOf(svcs)) && |svcs| > 0
    requires pair.pub == p.pubOf(pair.prv) && sender.pub == p.pubOf(sender.prv)
    ensures var w := RealWorld(p, docJson, docOf, endpoint);
            w.open(w.seal(rnd, svcs, pair.pub, sender), pair) == Some(svcs)
  {
    UnpackUndoesPack(p, rnd, docJson(DocsOf(svcs)), sender.prv, pair.prv);
    DocumentRoundTrip(svcs);
  }

  class Prober {
    const w: D.World
    const me: string
    var keys: Keys
    var inv: Option<KeyPair>
    var peers: map<string, D.Peer>

    constructor (w: D.World, me: string)
      ensures this.w == w && this.me == me && View() == D.Agent(map[], None, map[])
    {
      this.w, this.me := w, me;
      keys, inv, peers := map[], None, map[];
    }

    function View(): D.Agent
      reads this
    {
      D.Agent(keys, inv, peers)
    }

    method SetConnPrereqs(peer: string, pair: KeyPair)
      modifies this`keys
      ensures View() == old(View()).WithKey(peer, pair)
    {
      keys := keys[peer := pair];
    }

    method AcceptSend(inviter: string, invEndpoint: string, invKey: Bytes, thId: string,
                      pair: KeyPair, ids: (string, string), rnd: Randomness) returns (req: D.ConnReq)
      modifies this`keys
      ensures View() == old(View()).WithKey(inviter, pair)
      ensures req == D.Request(w, me, invEndpoint, invKey, pair, thId, ids, rnd)
    {
      SetConnPrereqs(inviter, pair);
      var svcs := D.OwnServices(ids, w.endpoint(me), keys[inviter].pub);
      req := D.ConnReq(invEndpoint, me, thId, w.seal(rnd, svcs, invKey, keys[inviter]));
    }

    method AddPeer(name: string, pr: D.Peer)
      modifies this`peers
      ensures View() == old(View()).WithPeer(name, pr)
    {
      peers := peers[name := pr];
    }

    method ProcessConnReq(req: D.ConnReq, pair: KeyPair, ids: (string, string), rnd: Randomness)
      returns (r: Option<(D.ConnRes, seq<Service>)>)
      requires inv.Some?
      modifies this`keys
      ensures r == D.Respond(w, me, inv.value, req, pair, ids, rnd)
      ensures View() == if r.Some? then old(View()).WithKey(req.name, pair) else old(View())
    {
      var svcs := w.open(req.doc, inv.value);
      if svcs.None? {
        return None;
      }
      var svc := D.InfoByServc(D.MESSAGE_SERVICE, svcs.value);
      if svc.None? {
        return None;
      }
      SetConnPrereqs(req.name, pair);
      var doc := w.seal(rnd, D.OwnServices(ids, w.endpoint(me), pair.pub), svc.value.pubKey, keys[req.name]);
      return Some((D.ConnRes(svc.value.endpoint, req.thId, doc), svcs.value));
    }

    /** The scan of peerByExchId: some entry with this thread id, if there is one. */
    method PeerByExchId(exchId: string) returns (name: Option<string>)
      ensures name.Some? ==> name.value in peers && peers[name.value].thId == exchId
      ensures name.None? ==> !ValidConn(View(), exchId)
    {
      var todo := peers.Keys;
      while todo != {}
        invariant todo <= peers.Keys
        invariant forall n :: n in peers && n !in todo ==> peers[n].thId != exchId
        decreases |todo|
      {
        var n :| n in todo;
        if peers[n].thId == exchId {
          return Some(n);
        }
        todo := todo - {n};
      }
      return None;
    }

    /** One attempt of processConnRes. */
    method ProcessConnRes(res: D.ConnRes) returns (name: Option<string>)
      modifies this`peers
      ensures name.Some? ==>
                && name.value in old(peers) && old(peers)[name.value].thId == res.thId && name.value in keys
                && w.open(res.doc, keys[name.value]).Some?
                && View() == old(View()).WithPeer(name.value, D.Peer(res.thId, w.open(res.doc, keys[name.value]).value))
      ensures name.None? ==> View() == old(View())
      ensures name.None? && old(ValidConn(View(), res.thId)) ==>
                exists n :: n in peers && peers[n].thId == res.thId && (n !in keys || w.open(res.doc, keys[n]).None?)
    {
      name := PeerByExchId(res.thId);
      if name.None? {
        return;
      }
      if name.value !in keys {
        return None;
      }
      var svcs := w.open(res.doc, keys[name.value]);
      if svcs.None? {
        return None;
      }
      AddPeer(name.value, D.Peer(res.thId, svcs.value));
    }
  }

  // ---- messages on established connections ----

  ghost predicate ValidConn(ag: D.Agent, exchId: string) {
    exists n :: n in ag.peers && ag.peers[n].thId == exchId
  }

  /** SendMessage up to the network: destination endpoint and envelope. */
  function Send(p: Prims, ag: D.Agent, to: string, text: Bytes, rnd: Randomness): Option<(string, Bytes)> {
    if to !in ag.peers || to !in ag.keys then None else
    var svc := D.InfoByServc(D.MESSAGE_SERVICE, ag.peers[to].services);
    if svc.None? then None else
    Some((svc.value.endpoint, p.msgJson(Pack(p, rnd, text, svc.value.pubKey, ag.keys[to].pub, ag.keys[to].prv))))
  }

  /** The group layer's pack for a known key of the receiver. */
  function PackFor(p: Prims, ag: D.Agent, to: string, recPubKey: Bytes, text: Bytes, rnd: Randomness): Option<Bytes> {
    if to !in ag.keys then None
    else Some(p.msgJson(Pack(p, rnd, text, recPubKey, ag.keys[to].pub, ag.keys[to].prv)))
  }

  /** ... and for the key of a member's group-join service. */
  function GroupPack(p: Prims, ag: D.Agent, to: string, text: Bytes, rnd: Randomness): Option<Bytes> {
    if to !in ag.peers then None else
    var svc := D.InfoByServc(D.GROUP_JOIN_SERVICE, ag.peers[to].services);
    if svc.None? then None else PackFor(p, ag, to, svc.value.pubKey, text, rnd)
  }

  lemma ServicesFound(ids: (string, string), endpoint: string, pub: Bytes)
    ensures D.InfoByServc(D.MESSAGE_SERVICE, D.OwnServices(ids, endpoint, pub)) ==
            Some(Service(ids.0, D.MESSAGE_SERVICE, endpoint, pub))
    ensures D.InfoByServc(D.GROUP_JOIN_SERVICE, D.OwnServices(ids, endpoint, pub)) ==
            Some(Service(ids.1, D.GROUP_JOIN_SERVICE, endpoint, pub))
  {
    var svcs := D.OwnServices(ids, endpoint, pub);
    assert svcs[1..] == [Service(ids.1, D.GROUP_JOIN_SERVICE, endpoint, pub)];
    assert D.MESSAGE_SERVICE[0] != D.GROUP_JOIN_SERVICE[0];
  }

  lemma KeysOfAgent(w: D.World, p: Prims, s: D.Sys, a: string)
    requires D.Inv(w, s) && w.pubOf == p.pubOf && a in s.agents
    ensures WellMade(p, s.agents[a].keys) && DistinctKeys(s.agents[a].keys)
    ensures forall b, k :: b in s.agents && k in s.agents[b].keys ==>
              (forall n :: n in s.agents[a].keys && s.agents[a].keys[n].pub == s.agents[b].keys[k].pub ==>
                a == b && n == k)
  {
    forall n | n in s.agents[a].keys ensures D.KeyOf(s, a, n) == Some(s.agents[a].keys[n]) && D.KeyMade(w, s, a, n) {}
    forall b, k | b in s.agents && k in s.agents[b].keys
      ensures D.KeyOf(s, b, k) == Some(s.agents[b].keys[k]) && D.KeyMade(w, s, b, k) {}
  }

  /** The envelope a packs for b: both services of b's entry lead to the key b generated for a. */
  ghost function EnvelopeFor(p: Prims, s: D.Sys, a: string, b: string, text: Bytes, rnd: Randomness): Bytes
    requires D.KeyOf(s, a, b).Some? && D.KeyOf(s, b, a).Some?
  {
    var own, theirs := D.KeyOf(s, a, b).value, D.KeyOf(s, b, a).value;
    p.msgJson(Pack(p, rnd, text, theirs.pub, own.pub, own.prv))
  }

  lemma SendsEnvelope(w: D.World, p: Prims, s: D.Sys, a: string, b: string, text: Bytes, rnd: Randomness)
    requires D.Inv(w, s) && D.Connected(s, a, b)
    ensures a in s.agents && b in s.agents && D.KeyOf(s, a, b).Some? && D.KeyOf(s, b, a).Some?
    ensures Send(p, s.agents[a], b, text, rnd) == Some((w.endpoint(b), EnvelopeFor(p, s, a, b, text, rnd)))
    ensures GroupPack(p, s.agents[a], b, text, rnd) == Some(EnvelopeFor(p, s, a, b, text, rnd))
  {
    D.ConnectedKnow(w, s, a, b);
    var ids :| D.Entry(s, a, b).value.services == D.OwnServices(ids, w.endpoint(b), D.KeyOf(s, b, a).value.pub);
    ServicesFound(ids, w.endpoint(b), D.KeyOf(s, b, a).value.pub);
  }

  /** The two places a publisher learns a subscriber's key from agree: what the subscriber announces as its
      own key for their connection, and the group-join service in the publisher's entry for it. */
  lemma SubscriberKeysAgree(w: D.World, s: D.Sys, a: string, b: string)
    requires D.Inv(w, s) && D.Connected(s, a, b)
    ensures a in s.agents && b in s.agents && b in s.agents[a].peers && a in s.agents[b].keys
    ensures var svc := D.InfoByServc(D.GROUP_JOIN_SERVICE, s.agents[a].peers[b].services);
            svc.Some? && svc.value.pubKey == s.agents[b].keys[a].pub
  {
    D.ConnectedKnow(w, s, a, b);
    var ids :| D.Entry(s, a, b).value.services == D.OwnServices(ids, w.endpoint(b), D.KeyOf(s, b, a).value.pub);
    ServicesFound(ids, w.endpoint(b), D.KeyOf(s, b, a).value.pub);
  }

  /** Of all agents, exactly b reads the envelope packed for it: as coming from a, and as the given text. */
  lemma ReadByPeerOnly(w: D.World, p: Prims, s: D.Sys, a: string, b: string, text: Bytes, rnd: Randomness, c: string)
    requires p.Valid() && w.pubOf == p.pubOf && D.Inv(w, s) && c in s.agents
    requires D.KeyOf(s, a, b).Some? && D.KeyOf(s, b, a).Some?
    ensures ReadMessage(p, s.agents[c].keys, EnvelopeFor(p, s, a, b, text, rnd)) ==
            if c == b then Some((a, text)) else None
  {
    KeysOfAgent(w, p, s, a);
    KeysOfAgent(w, p, s, b);
    KeysOfAgent(w, p, s, c);
    ReadsOwnEnvelopes(p, rnd, s.agents[c].keys, text, s.agents[a].keys[b], s.agents[b].keys[a].prv, a);
  }

  /** On an established connection the text given to SendMessage goes to the peer's endpoint, is read
      there as coming from the sender and as exactly that text, and is read by nobody else. */
  lemma SendThenRead(w: D.World, p: Prims, s: D.Sys, a: string, b: string, text: Bytes, rnd: Randomness, c: string)
    requires p.Valid() && w.pubOf == p.pubOf && D.Inv(w, s) && D.Connected(s, a, b) && c in s.agents
    ensures a in s.agents && Send(p, s.agents[a], b, text, rnd).Some?
    ensures var (to, data) := Send(p, s.agents[a], b, text, rnd).value;
            to == w.endpoint(b) && ReadMessage(p, s.agents[c].keys, data) == if c == b then Some((a, text)) else None
  {
    SendsEnvelope(w, p, s, a, b, text, rnd);
    ReadByPeerOnly(w, p, s, a, b, text, rnd, c);
  }

  // ---- status messages ----

  /** The AuthMsgs of one status message: an envelope per member, under the thread id shared with it. */
  ghost predicate Addressed(ag: D.Agent, packed: map<string, Bytes>, auth: map<string, Bytes>) {
    && (forall m :: m in packed ==> m in ag.peers && ag.peers[m].thId in auth && auth[ag.peers[m].thId] == packed[m])
    && (forall k :: k in auth ==> exists m :: m in packed && m in ag.peers && ag.peers[m].thId == k)
  }

  ghost predicate DistinctThreads(ag: D.Agent) {
    forall m, n :: m in ag.peers && n in ag.peers && ag.peers[m].thId == ag.peers[n].thId ==> m == n
  }

  /** How the sender packs one text for any member. */
  ghost function Envelopes(p: Prims, ag: D.Agent, text: Bytes, rnd: string -> Randomness): string -> Option<Bytes> {
    m => GroupPack(p, ag, m, text, rnd(m))
  }

  /** The envelope for each of the given members that is not the sender itself. */
  ghost function PackedFor(envelope: string -> Option<Bytes>, me: string, mems: seq<string>): map<string, Bytes> {
    map m | m in mems && m != me && envelope(m).Some? :: envelope(m).value
  }

  lemma PackedMore(envelope: string -> Option<Bytes>, me: string, mems: seq<string>, i: nat)
    requires i < |mems|
    ensures PackedFor(envelope, me, mems[..i + 1]) ==
            if mems[i] != me && envelope(mems[i]).Some? then
              PackedFor(envelope, me, mems[..i])[mems[i] := envelope(mems[i]).value]
            else PackedFor(envelope, me, mems[..i])
  {
    assert mems[..i + 1] == mems[..i] + [mems[i]];
  }

  lemma AddressedMore(ag: D.Agent, packed: map<string, Bytes>, auth: map<string, Bytes>, m: string, data: Bytes)
    requires m in ag.peers
    ensures DistinctThreads(ag) && Addressed(ag, packed, auth) ==>
              Addressed(ag, packed[m := data], auth[ag.peers[m].thId := data])
  {
    var auth', packed' := auth[ag.peers[m].thId := data], packed[m := data];
    forall k | Addressed(ag, packed, auth) && k in auth'
      ensures exists n :: n in packed' && n in ag.peers && ag.peers[n].thId == k {
      if k != ag.peers[m].thId {
        var n :| n in packed && n in ag.peers && ag.peers[n].thId == k;
        assert n in packed';
      } else {
        assert m in packed';
      }
    }
  }

  /** The loop of compressStatus, and of waitForConns, over the members in whatever order they come: an
      envelope per other member, or an error if one of them is not connected. */
  method CollectAuthMsgs(p: Prims, ag: D.Agent, me: string, mems: seq<string>, text: Bytes, rnd: string -> Randomness)
    returns (auth: Result<map<string, Bytes>>)
    ensures auth.Ok? <==> forall m :: m in mems && m != me ==> GroupPack(p, ag, m, text, rnd(m)).Some?
    ensures auth.Ok? && DistinctThreads(ag) ==>
              Addressed(ag, PackedFor(Envelopes(p, ag, text, rnd), me, mems), auth.value)
  {
    ghost var envelope, distinct := Envelopes(p, ag, text, rnd), DistinctThreads(ag);
    var msgs: map<string, Bytes> := map[];
    for i := 0 to |mems|
      invariant forall j :: 0 <= j < i && mems[j] != me ==> envelope(mems[j]).Some?
      invariant distinct ==> Addressed(ag, PackedFor(envelope, me, mems[..i]), msgs)
    {
      PackedMore(envelope, me, mems, i);
      if mems[i] == me {
        continue;
      }
      var data := GroupPack(p, ag, mems[i], text, rnd(mems[i]));
      assert data == envelope(mems[i]);
      if data.None? {
        return Err;
      }
      AddressedMore(ag, PackedFor(envelope, me, mems[..i]), msgs, mems[i], data.value);
      msgs := msgs[ag.peers[mems[i]].thId := data.value];
    }
    assert mems[..|mems|] == mems;
    return Ok(msgs);
  }

  /** The receiver's loop over AuthMsgs in arbitrary order, stopping at the first thread id it knows. */
  method PickAuthMsg(ag: D.Agent, auth: map<string, Bytes>) returns (msg: Option<Bytes>)
    ensures msg.Some? ==> exists k :: k in auth && ValidConn(ag, k) && auth[k] == msg.value
    ensures msg.None? ==> forall k :: k in auth ==> !ValidConn(ag, k)
  {
    var todo := auth.Keys;
    while todo != {}
      invariant todo <= auth.Keys
      invariant forall k :: k in auth && k !in todo ==> !ValidConn(ag, k)
      decreases |todo|
    {
      var k :| k in todo;
      var known := Knows(ag, k);
      if known {
        return Some(auth[k]);
      }
      todo := todo - {k};
    }
    return None;
  }

  method Knows(ag: D.Agent, exchId: string) returns (ok: bool)
    ensures ok <==> ValidConn(ag, exchId)
  {
    ok := exists n | n in ag.peers :: ag.peers[n].thId == exchId;
  }

  /** Thread ids towards different peers differ, so no AuthMsgs entry is lost. */
  lemma ThreadsDistinct(w: D.World, s: D.Sys, a: string)
    requires D.Inv(w, s) && a in s.agents
    ensures DistinctThreads(s.agents[a])
  {
    forall m, n | m in s.agents[a].peers && n in s.agents[a].peers
                  && s.agents[a].peers[m].thId == s.agents[a].peers[n].thId
      ensures m == n {
      assert D.Entry(s, a, m).Some? && D.ThreadOwned(s, a, m);
      assert D.Entry(s, a, n).Some? && D.ThreadOwned(s, a, n);
      D.SamePair(a, m, a, n);
    }
  }

  /** In a status message of a, a connected member b accepts exactly one entry, and it is the one packed
      for b; an agent that a did not address accepts none. */
  lemma StatusAddressing(w: D.World, s: D.Sys, a: string, b: string, packed: map<string, Bytes>, auth: map<string,
                         Bytes>)
    requires D.Inv(w, s) && a in s.agents && b in s.agents && a != b
    requires Addressed(s.agents[a], packed, auth)
    ensures b in packed && D.Connected(s, a, b) ==>
              exists k :: k in auth && ValidConn(s.agents[b], k) && auth[k] == packed[b] &&
                          (forall k' :: k' in auth && ValidConn(s.agents[b], k') ==> k' == k)
    ensures b !in packed ==> forall k :: k in auth ==> !ValidConn(s.agents[b], k)
  {
    forall k | k in auth && ValidConn(s.agents[b], k) ensures b in packed && k == s.agents[a].peers[b].thId {
      var m :| m in packed && m in s.agents[a].peers && s.agents[a].peers[m].thId == k;
      var n :| n in s.agents[b].peers && s.agents[b].peers[n].thId == k;
      assert D.Entry(s, a, m).Some? && D.ThreadOwned(s, a, m);
      assert D.Entry(s, b, n).Some? && D.ThreadOwned(s, b, n);
      D.SamePair(a, m, b, n);
    }
    if b in packed && D.Connected(s, a, b) {
      D.ConnectedKnow(w, s, a, b);
      D.SamePair(a, b, b, a);
      var k := s.agents[a].peers[b].thId;
      assert s.agents[b].peers[a].thId == k;
      assert k in auth && ValidConn(s.agents[b], k);
    }
  }

  /** msg is the one entry of auth that the agent accepts. */
  ghost predicate OnlyEntry(ag: D.Agent, auth: map<string, Bytes>, msg: Bytes) {
    exists k :: k in auth && ValidConn(ag, k) && auth[k] == msg &&
                (forall k' :: k' in auth && ValidConn(ag, k') ==> k' == k)
  }

  lemma StatusRead(w: D.World, p: Prims, s: D.Sys, a: string, b: string, mems: seq<string>, text: Bytes,
                   rnd: string -> Randomness, auth: map<string, Bytes>)
    requires p.Valid() && w.pubOf == p.pubOf && D.Inv(w, s) && a in s.agents && b in mems && D.Connected(s, a, b)
    requires Addressed(s.agents[a], PackedFor(Envelopes(p, s.agents[a], text, rnd), a, mems), auth)
    ensures b in s.agents
    ensures exists msg :: OnlyEntry(s.agents[b], auth, msg) && ReadMessage(p, s.agents[b].keys, msg) == Some((a, text))
  {
    D.ConnectedKnow(w, s, a, b);
    var packed := PackedFor(Envelopes(p, s.agents[a], text, rnd), a, mems);
    SendsEnvelope(w, p, s, a, b, text, rnd(b));
    ReadByPeerOnly(w, p, s, a, b, text, rnd(b), b);
    assert b in packed;
    StatusAddressing(w, s, a, b, packed, auth);
    assert OnlyEntry(s.agents[b], auth, packed[b]);
  }

  /** In every run of exchanges, at every moment: a status (or hello) that a packs for its members is
      accepted by each connected member through exactly one entry, which it reads as coming from a and as
      exactly the given text; connected agents that are not among the members accept no entry. */
  lemma StatusReachesEachMember(w: D.World, p: Prims, states: seq<D.Sys>, steps: seq<D.Step>, i: nat, a: string,
                                b: string,
                                mems: seq<string>, text: Bytes, rnd: string -> Randomness, auth: map<string, Bytes>)
    requires w.Valid() && p.Valid() && w.pubOf == p.pubOf && D.Run(w, states, steps) && i < |states|
    requires a in states[i].agents
    requires Addressed(states[i].agents[a], PackedFor(Envelopes(p, states[i].agents[a], text, rnd), a, mems), auth)
    requires D.Connected(states[i], a, b)
    ensures b in states[i].agents && DistinctThreads(states[i].agents[a])
    ensures b in mems ==>
              exists msg :: OnlyEntry(states[i].agents[b], auth, msg) &&
                ReadMessage(p, states[i].agents[b].keys, msg) == Some((a, text))
    ensures b !in mems ==> forall k :: k in auth ==> !ValidConn(states[i].agents[b], k)
  {
    D.InvAlways(w, states, steps, i);
    D.ConnectedKnow(w, states[i], a, b);
    ThreadsDistinct(w, states[i], a);
    if b in mems {
      StatusRead(w, p, states[i], a, b, mems, text, rnd, auth);
    } else {
      StatusAddressing(w, states[i], a, b, PackedFor(Envelopes(p, states[i].agents[a], text, rnd), a, mems), auth);
    }
  }

  /** In every run of exchanges, at every moment: what a connected agent sends goes to its peer, is read
      there under the sender's label as exactly that text, and by no other agent. */
  lemma MessagesArrive(w: D.World, p: Prims, states: seq<D.Sys>, steps: seq<D.Step>, i: nat, a: string, b: string,
                       text: Bytes, rnd: Randomness, c: string)
    requires w.Valid() && p.Valid() && w.pubOf == p.pubOf && D.Run(w, states, steps) && i < |states|
    requires D.Connected(states[i], a, b) && c in states[i].agents
    ensures a in states[i].agents && Send(p, states[i].agents[a], b, text, rnd).Some?
    ensures var (to, data) := Send(p, states[i].agents[a], b, text, rnd).value;
            to == w.endpoint(b) &&
            ReadMessage(p, states[i].agents[c].keys, data) == if c == b then Some((a, text)) else None
  {
    D.InvAlways(w, states, steps, i);
    SendThenRead(w, p, states[i], a, b, text, rnd, c);
  }
}
