/** Both queue modes deliver every group message to every other member exactly once, although in one mode
    everybody's copy reaches everybody, and in the other ZeroMQ matches subscriptions by prefix. */
module QueueModes {
  import opened Common
  import opened Validator
  import opened GroupStore
  import opened AgentState
  import opened Packer
  import opened Topics
  import opened GroupAgent
  import D = DidExchange
  import Prober
  import Syncer
  import T = Transport
  import M = Membership
  import MT = MembershipTheorems

  /** What becomes of one published frame at one agent: its data socket is not connected to the publisher or
      does not take the frame, the data handler drops it silently, reports an error, or delivers a message. */
  datatype Receipt = NotTaken | Dropped | Refused | Got(sender: string, text: Bytes)

  ghost function Receive(p: Prims, c: Syncer.Envelope, keys: Keys, l: Local, stored: Option<Syncer.Ts>, topic: string,
                         pubEnd: string, frame: string): Receipt
  {
    if pubEnd !in l.dataEnds || !Accepts(l.filters, frame) then NotTaken
    else
      var frames := SplitFrame(frame);
      if |frames| != 2 || GroupNameByDataTopic(frames[0]) != topic then Refused
      else Handle(ModeOf(l), c, stored, ReadMessage(p, keys, T.Raw(frames[1])))
  }

  /** The data handler, given what ReadMessage made of the payload (see GroupAgent.Agent.Data). */
  function Handle(mode: string, c: Syncer.Envelope, stored: Option<Syncer.Ts>, read: Option<(string, Bytes)>): Receipt {
    match read
    case None => if mode == SINGLE_QUEUE then Dropped else Refused
    case Some((sender, data)) =>
      match Syncer.Unwrap(c, stored, data)
      case Err => Refused
      case Ok(text) => Got(sender, text)
  }

  // ---- which filters take which frames ----

  lemma {:induction false} InBag(b: Base, mode: string, pubs: set<string>, sub: string, f: string)
    ensures f in Bag(b, mode, pubs, sub) <==> exists q :: q in pubs && b.dataTopic(mode, q, sub) == f
    decreases pubs
  {
    if pubs != {} {
      var q :| q in pubs;
      BagRemove(b, mode, pubs, sub, q);
      InBag(b, mode, pubs - {q}, sub, f);
      if exists x :: x in pubs && b.dataTopic(mode, x, sub) == f {
        var x :| x in pubs && b.dataTopic(mode, x, sub) == f;
        assert x == q || x in pubs - {q};
      }
    }
  }

  lemma SameChar(f: string, g: string, i: nat)
    requires i < |f| && i < |g|
    ensures f <= g ==> f[i] == g[i]
  {}

  /** A filter without a space matches a frame through its topic only. */
  lemma FilterSeesTopic(f: string, zmqTopic: string, data: string)
    requires ' ' !in f
    ensures f <= Frame(zmqTopic, data) <==> f <= zmqTopic
  {
    var frame := Frame(zmqTopic, data);
    assert frame[|zmqTopic|] == ' ';
    if |f| > |zmqTopic| {
      SameChar(f, frame, |zmqTopic|);
    }
  }

  lemma CommonStart(s: string, x: string, y: string)
    ensures s + x <= s + y <==> x <= y
  {
    if s + x <= s + y {
      assert s + x == (s + y)[..|s| + |x|] == s + y[..|x|];
      assert x == (s + x)[|s|..] == (s + y[..|x|])[|s|..] == y[..|x|];
    }
  }

  lemma LabelPairPrefix(q: string, c: string, a: string, x: string)
    requires ':' !in q && ':' !in a
    ensures q + [':'] + c <= a + [':'] + x <==> q == a && c <= x
  {
    var f, g := q + [':'] + c, a + [':'] + x;
    if |q| < |a| {
      SameChar(f, g, |q|);
    } else if |a| < |q| {
      SameChar(f, g, |a|);
    } else {
      assert f[..|q|] == q && g[..|q|] == a;
      assert f <= g ==> f[..|q|] == g[..|q|];
      CommonStart(q + [':'], c, x);
    }
  }

  /** One subscription takes the frames of a dedicated queue exactly when the publisher is the same and the
      subscriber's label is a prefix of the addressee's. */
  lemma DedicatedPrefix(mode: string, t: string, q: string, c: string, a: string, x: string)
    requires mode != SINGLE_QUEUE && ':' !in q && ':' !in a
    ensures DataTopic(mode, t, q, c) <= DataTopic(mode, t, a, x) <==> q == a && c <= x
  {
    var s := PREFIX + t + [':'] + "data" + [':'];
    assert DataTopic(mode, t, q, c) == s + (q + [':'] + c);
    assert DataTopic(mode, t, a, x) == s + (a + [':'] + x);
    CommonStart(s, q + [':'] + c, a + [':'] + x);
    LabelPairPrefix(q, c, a, x);
  }

  lemma NoSpaces(mode: string, t: string, a: string, x: string)
    requires ' ' !in t && ' ' !in a && ' ' !in x
    ensures ' ' !in DataTopic(mode, t, a, x)
  {
    assert ' ' !in PREFIX;
  }

  /** Which of a's frames agent c's filters take. */
  lemma {:induction false} Taken(h: Hasher, topic: string, mode: string, pubs: set<string>, c: string, a: string,
                                 x: string, data: string)
    requires ' ' !in topic && PlainLabel(c) && PlainLabel(a) && PlainLabel(x) &&
             (forall q :: q in pubs ==> PlainLabel(q))
    requires a in pubs
    ensures Accepts(Bag(Concrete(h, topic), mode, pubs, c), Frame(DataTopic(mode, topic, a, x), data))
       <==> mode == SINGLE_QUEUE || c <= x
  {
    var b, zmqTopic := Concrete(h, topic), DataTopic(mode, topic, a, x);
    if mode == SINGLE_QUEUE || c <= x {
      var f := DataTopic(mode, topic, a, c);
      assert f == b.dataTopic(mode, a, c);
      InBag(b, mode, pubs, c, f);
      TakesOwn(mode, topic, a, c, x);
      NoSpaces(mode, topic, a, c);
      FilterSeesTopic(f, zmqTopic, data);
    } else if Accepts(Bag(b, mode, pubs, c), Frame(zmqTopic, data)) {
      var f :| f in Bag(b, mode, pubs, c) && f <= Frame(zmqTopic, data);
      InBag(b, mode, pubs, c, f);
      var q :| q in pubs && b.dataTopic(mode, q, c) == f;
      NoSpaces(mode, topic, q, c);
      FilterSeesTopic(f, zmqTopic, data);
      DedicatedPrefix(mode, topic, q, c, a, x);
    }
  }

  lemma TakesOwn(mode: string, topic: string, a: string, c: string, x: string)
    requires ':' !in a && (mode == SINGLE_QUEUE || c <= x)
    ensures DataTopic(mode, topic, a, c) <= DataTopic(mode, topic, a, x)
  {
    if mode != SINGLE_QUEUE {
      DedicatedPrefix(mode, topic, a, c, a, x);
    }
  }

  // ---- one frame at one member ----

  /** The surroundings of a quiescent group: the agents' connections, what the libraries do, the group's
      topic, its members and publishers, the keys its members use towards each other, and the endpoints their
      PUB sockets are bound to. */
  datatype Scene = Scene(w: D.World, p: Prims, ds: D.Sys, key: (string, string) -> Bytes, endpoint: string -> string,
                         env: Syncer.Envelope, h: Hasher, topic: string, members: set<string>, pubs: set<string>)
  {
    /** Exchanges among the members are finished, and group keys are those of the connections. */
    ghost predicate Valid() {
      && p.Valid() && env.Valid() && w.pubOf == p.pubOf && D.Inv(w, ds)
      && (forall x, y :: x in members && y in members && x != y ==>
            D.Connected(ds, x, y) && D.KeyOf(ds, x, y).Some? && key(x, y) == D.KeyOf(ds, x, y).value.pub)
      && ':' !in topic && ' ' !in topic && (forall m :: m in members ==> PlainLabel(m)) && pubs <= members
    }

    ghost function Agent(a: string): D.Agent {
      if a in ds.agents then ds.agents[a] else D.Agent(map[], None, map[])
    }
  }

  lemma Members(sc: Scene, x: string, y: string)
    requires sc.Valid() && x in sc.members && y in sc.members && x != y
    ensures x in sc.ds.agents && y in sc.ds.agents
    ensures D.KeyOf(sc.ds, x, y).Some? && D.KeyOf(sc.ds, y, x).Some? && D.Connected(sc.ds, x, y)
    ensures sc.key(x, y) == D.KeyOf(sc.ds, x, y).value.pub
  {
    D.ConnectedKnow(sc.w, sc.ds, x, y);
  }

  lemma PublishedFrame(sc: Scene, mode: string, a: string, x: string, data: Bytes, rnd: Randomness)
    requires sc.Valid() && a in sc.members && x in sc.members && a != x
    ensures D.KeyOf(sc.ds, a, x).Some? && D.KeyOf(sc.ds, x, a).Some?
    ensures DataFrame(sc.p, sc.Agent(a), mode, sc.topic, a, x, sc.key(x, a), data, rnd)
         == Some(Frame(DataTopic(mode, sc.topic, a, x), T.Text(Prober.EnvelopeFor(sc.p, sc.ds, a, x, data, rnd))))
  {
    Members(sc, a, x);
    Members(sc, x, a);
  }

  /** c's receipt of the copy that a sent for x. */
  function Fate(mode: string, a: string, msg: Bytes, x: string, c: string): Receipt {
    if x == c then Got(a, msg)
    else if mode == SINGLE_QUEUE then Dropped
    else if c <= x then Refused
    else NotTaken
  }

  /** Agent c as a receiver: its group state, and its stored timestamp for the topic. */
  ghost predicate Listens(sc: Scene, c: string, l: Local, stored: Option<Syncer.Ts>) {
    && l.filters == Bag(Concrete(sc.h, sc.topic), ModeOf(l), sc.pubs - {c}, c)
    && (forall q :: q in sc.pubs && q != c ==> sc.endpoint(q) in l.dataEnds)
    && (l.ordered <==> stored.Some?)
  }

  lemma Unframed(p: Prims, env: Syncer.Envelope, keys: Keys, l: Local, stored: Option<Syncer.Ts>, topic: string,
                 pubEnd: string, zmqTopic: string, envelope: Bytes)
    requires ' ' !in zmqTopic && GroupNameByDataTopic(zmqTopic) == topic && pubEnd in l.dataEnds
    ensures Receive(p, env, keys, l, stored, topic, pubEnd, Frame(zmqTopic, T.Text(envelope))) ==
            if Accepts(l.filters, Frame(zmqTopic, T.Text(envelope)))
            then Handle(ModeOf(l), env, stored, ReadMessage(p, keys, envelope)) else NotTaken
  {
    FrameRoundTrip(zmqTopic, T.Text(envelope));
    T.RawOfText(envelope);
  }

  /** What the handler makes of a's copy for x: at x it yields the text exactly when both order the topic or
      neither does; elsewhere it is not readable. */
  lemma HandledCopy(sc: Scene, a: string, x: string, c: string, mode: string, sender: Option<Syncer.Ts>,
                    receiver: Option<Syncer.Ts>, now: int, msg: Bytes, rnd: Randomness)
    requires sc.Valid() && a in sc.members && x in sc.members && c in sc.members && a != x && a != c
    requires D.KeyOf(sc.ds, a, x).Some? && D.KeyOf(sc.ds, x, a).Some?
    ensures var envelope := Prober.EnvelopeFor(sc.p, sc.ds, a, x, Syncer.Wrap(sc.env, sender, now, msg), rnd);
            var receipt := Handle(mode, sc.env, receiver, ReadMessage(sc.p, sc.Agent(c).keys, envelope));
            if x == c then receipt == Got(a, msg) <==> (sender.Some? <==> receiver.Some?)
            else receipt == if mode == SINGLE_QUEUE then Dropped else Refused
  {
    Members(sc, a, c);
    Prober.ReadByPeerOnly(sc.w, sc.p, sc.ds, a, x, Syncer.Wrap(sc.env, sender, now, msg), rnd, c);
    Syncer.EnvelopesAgree(sc.env, sender, receiver, now, msg);
  }

  lemma TakenCopy(sc: Scene, a: string, x: string, c: string, l: Local, receiver: Option<Syncer.Ts>, data: string)
    requires sc.Valid() && a in sc.pubs && x in sc.members && c in sc.members && a != c && Listens(sc, c, l, receiver)
    ensures var zmqTopic := DataTopic(ModeOf(l), sc.topic, a, x);
            && ' ' !in zmqTopic && GroupNameByDataTopic(zmqTopic) == sc.topic
            && (Accepts(l.filters, Frame(zmqTopic, data)) <==> ModeOf(l) == SINGLE_QUEUE || c <= x)
  {
    Taken(sc.h, sc.topic, ModeOf(l), sc.pubs - {c}, c, a, x, data);
    NoSpaces(ModeOf(l), sc.topic, a, x);
    GroupNameRoundTrip(ModeOf(l), sc.topic, a, x);
  }

  lemma OneFrame(sc: Scene, a: string, x: string, c: string, l: Local, sender: Option<Syncer.Ts>,
                 receiver: Option<Syncer.Ts>, now: int, msg: Bytes, rnd: Randomness)
    requires sc.Valid() && a in sc.pubs && x in sc.members && c in sc.members && a != x && a != c
    requires Listens(sc, c, l, receiver)
    requires D.KeyOf(sc.ds, a, x).Some? && D.KeyOf(sc.ds, x, a).Some?
    ensures var data := Syncer.Wrap(sc.env, sender, now, msg);
            var frame := Frame(DataTopic(ModeOf(l), sc.topic, a, x),
                               T.Text(Prober.EnvelopeFor(sc.p, sc.ds, a, x, data, rnd)));
            var receipt := Receive(sc.p, sc.env, sc.Agent(c).keys, l, receiver, sc.topic, sc.endpoint(a), frame);
            if x == c then receipt == Got(a, msg) <==> (sender.Some? <==> receiver.Some?)
            else receipt == Fate(ModeOf(l), a, msg, x, c)
  {
    var envelope := Prober.EnvelopeFor(sc.p, sc.ds, a, x, Syncer.Wrap(sc.env, sender, now, msg), rnd);
    TakenCopy(sc, a, x, c, l, receiver, T.Text(envelope));
    Unframed(sc.p, sc.env, sc.Agent(c).keys, l, receiver, sc.topic, sc.endpoint(a),
             DataTopic(ModeOf(l), sc.topic, a, x), envelope);
    HandledCopy(sc, a, x, c, ModeOf(l), sender, receiver, now, msg, rnd);
  }

  // ---- one message at every member ----

  /** What a sends: one copy per subscriber of its store, in some order. */
  ghost predicate Sends(sc: Scene, a: string, l: Local, sender: Option<Syncer.Ts>, now: int, msg: Bytes,
                        rnd: string -> Randomness, order: seq<string>, out: seq<string>) {
    && (l.ordered <==> sender.Some?)
    && (forall x :: x in order <==> x in l.subs)
    && Broadcasts(DataFrames(sc.p, sc.Agent(a), ModeOf(l), sc.topic, a, l.subs,
                             Syncer.Wrap(sc.env, sender, now, msg), rnd), order, out)
  }

  /** What becomes at c of everything a has put on the wire. */
  ghost function Receipts(sc: Scene, a: string, c: string, l: Local, receiver: Option<Syncer.Ts>,
                          out: seq<string>): (rs: seq<Receipt>)
    ensures |rs| == |out|
  {
    seq(|out|, i requires 0 <= i < |out| =>
      Receive(sc.p, sc.env, sc.Agent(c).keys, l, receiver, sc.topic, sc.endpoint(a), out[i]))
  }

  /** Exactly one copy is read, the one for c; every other copy meets its stated fate. */
  ghost predicate OneRead(mode: string, a: string, c: string, msg: Bytes, order: seq<string>, rs: seq<Receipt>) {
    && |order| == |rs|
    && (exists i :: 0 <= i < |rs| && order[i] == c)
    && NoRepeats(order)
    && (forall i :: 0 <= i < |rs| ==> rs[i] == Fate(mode, a, msg, order[i], c))
  }

  /** Of all copies, c reads exactly one, as a's message. */
  ghost predicate ReadsOnce(sc: Scene, a: string, c: string, l: Local, receiver: Option<Syncer.Ts>, msg: Bytes,
                            order: seq<string>, out: seq<string>) {
    OneRead(ModeOf(l), a, c, msg, order, Receipts(sc, a, c, l, receiver, out))
  }

  lemma SentCopy(sc: Scene, a: string, la: Local, sender: Option<Syncer.Ts>, now: int, msg: Bytes,
                 rnd: string -> Randomness,
                 order: seq<string>, out: seq<string>, i: nat)
    requires sc.Valid() && a in sc.members && Sends(sc, a, la, sender, now, msg, rnd, order, out) && i < |order|
    requires la.subs == map x | x in sc.members - {a} :: sc.key(x, a)
    ensures i < |out| && order[i] in sc.members && order[i] != a
    ensures D.KeyOf(sc.ds, a, order[i]).Some? && D.KeyOf(sc.ds, order[i], a).Some?
    ensures out[i] == Frame(DataTopic(ModeOf(la), sc.topic, a, order[i]),
                            T.Text(Prober.EnvelopeFor(sc.p, sc.ds, a, order[i],
                                                      Syncer.Wrap(sc.env, sender, now, msg), rnd(order[i]))))
  {
    assert order[i] in order && order[i] in la.subs;
    PublishedFrame(sc, ModeOf(la), a, order[i], Syncer.Wrap(sc.env, sender, now, msg), rnd(order[i]));
  }

  /** What c makes of copy i, whether or not a and c agree about the ordering envelope. */
  lemma CopyRead(sc: Scene, a: string, c: string, la: Local, lc: Local, sender: Option<Syncer.Ts>,
                 receiver: Option<Syncer.Ts>,
                 now: int, msg: Bytes, rnd: string -> Randomness, order: seq<string>, out: seq<string>, i: nat)
    requires sc.Valid() && a in sc.pubs && c in sc.members && a != c && i < |order|
    requires la.subs == map x | x in sc.members - {a} :: sc.key(x, a)
    requires Sends(sc, a, la, sender, now, msg, rnd, order, out)
    requires Listens(sc, c, lc, receiver) && ModeOf(la) == ModeOf(lc)
    ensures |order| == |out|
    ensures var receipt := Receipts(sc, a, c, lc, receiver, out)[i];
            if order[i] == c then receipt == Got(a, msg) <==> (la.ordered <==> lc.ordered)
            else receipt == Fate(ModeOf(lc), a, msg, order[i], c)
  {
    SentCopy(sc, a, la, sender, now, msg, rnd, order, out, i);
    OneFrame(sc, a, order[i], c, lc, sender, receiver, now, msg, rnd(order[i]));
  }

  lemma ReadExactlyWhen(mode: string, a: string, c: string, msg: Bytes, order: seq<string>, rs: seq<Receipt>,
                        agree: bool)
    requires |order| == |rs| && NoRepeats(order) && c in order
    requires forall i :: 0 <= i < |rs| ==>
               if order[i] == c then rs[i] == Got(a, msg) <==> agree else rs[i] == Fate(mode, a, msg, order[i], c)
    ensures OneRead(mode, a, c, msg, order, rs) <==> agree
  {
    var mine :| 0 <= mine < |order| && order[mine] == c;
    assert rs[mine] == Got(a, msg) <==> agree;
  }

  lemma EachReadsOnce(sc: Scene, a: string, c: string, la: Local, lc: Local, sender: Option<Syncer.Ts>,
                      receiver: Option<Syncer.Ts>,
                      now: int, msg: Bytes, rnd: string -> Randomness, order: seq<string>, out: seq<string>)
    requires sc.Valid() && a in sc.pubs && c in sc.members && a != c
    requires la.subs == map x | x in sc.members - {a} :: sc.key(x, a)
    requires Sends(sc, a, la, sender, now, msg, rnd, order, out)
    requires Listens(sc, c, lc, receiver) && ModeOf(la) == ModeOf(lc)
    ensures ReadsOnce(sc, a, c, lc, receiver, msg, order, out) <==> (la.ordered <==> lc.ordered)
  {
    assert c in la.subs && c in order;
    var rs := Receipts(sc, a, c, lc, receiver, out);
    forall i | 0 <= i < |rs|
      ensures if order[i] == c then rs[i] == Got(a, msg) <==> (la.ordered <==> lc.ordered)
              else rs[i] == Fate(ModeOf(lc), a, msg, order[i], c) {
      CopyRead(sc, a, c, la, lc, sender, receiver, now, msg, rnd, order, out, i);
    }
    ReadExactlyWhen(ModeOf(lc), a, c, msg, order, rs, la.ordered <==> lc.ordered);
  }

  /** The scene is the group that a membership run has reached. */
  ghost predicate Reached(sc: Scene, cfg: M.Cfg, g: M.Ideal) {
    && cfg.b == Concrete(sc.h, sc.topic) && cfg.key == sc.key && cfg.endpoint == sc.endpoint
    && sc.members == g.view.Keys && sc.pubs == Publishers(g.view)
  }

  /** c's sockets are connected to a: the state socket in the protocol, the data socket by its endpoint. */
  ghost predicate HearsFrom(sc: Scene, s: M.Sys, c: string, a: string)
    requires c in s.agents
  {
    (c, a) in s.links && sc.endpoint(a) in s.agents[c].stateEnds && sc.endpoint(a) in s.agents[c].dataEnds
  }

  /** Both queue modes, after any run of creates, joins and leaves: every other member is connected to the
      publisher and, whatever it sends, in whatever order it visits its subscribers, reads exactly one copy, as
      that publisher's and with exactly that text, if and only if the group is ordered, or both or neither
      carry a leftover timestamp. In single-queue mode it drops the copies for others; in multiple-queue mode
      it does not even see them, except those for members whose label its own label starts, which it refuses. */
  lemma {:induction false} QueueModesAgree(sc: Scene, cfg: M.Cfg, states: seq<M.Sys>, steps: seq<M.Step>, n: nat,
                                           a: string, c: string, sender: Option<Syncer.Ts>,
                                           receiver: Option<Syncer.Ts>, now: int, msg: Bytes,
                                           rnd: string -> Randomness, order: seq<string>, out: seq<string>)
    requires M.Run(cfg, states, steps) && MT.FreshRun(cfg, states, steps) && n <= |steps| && M.Quiet(states[n])
    requires sc.Valid() && Reached(sc, cfg, M.IdealAt(cfg, states, steps, n))
    requires a in sc.pubs && c in sc.members && a != c && a in states[n].agents && c in states[n].agents
    requires Sends(sc, a, states[n].agents[a], sender, now, msg, rnd, order, out)
    requires receiver.Some? <==> states[n].agents[c].ordered
    ensures HearsFrom(sc, states[n], c, a)
    ensures ReadsOnce(sc, a, c, states[n].agents[c], receiver, msg, order, out) <==>
            (M.IdealAt(cfg, states, steps, n).params.orderEnabled || (a in states[n].stale <==> c in states[n].stale))
  {
    MT.OrderingAgreement(cfg, states, steps, n, a, c);
    MemberHears(sc, cfg, states, steps, n, a, c);
    MemberListens(sc, cfg, states, steps, n, c, receiver);
    SameMode(cfg, states, steps, n, a);
    SameMode(cfg, states, steps, n, c);
    MT.SubscribersComplete(cfg, states, steps, n, a);
    EachReadsOnce(sc, a, c, states[n].agents[a], states[n].agents[c], sender, receiver, now, msg, rnd, order, out);
  }

  lemma {:induction false} SameMode(cfg: M.Cfg, states: seq<M.Sys>, steps: seq<M.Step>, n: nat, a: string)
    requires M.Run(cfg, states, steps) && MT.FreshRun(cfg, states, steps) && n <= |steps| && M.Quiet(states[n])
    requires a in states[n].agents && a in M.IdealAt(cfg, states, steps, n).view
    ensures ModeOf(states[n].agents[a]) == M.IdealAt(cfg, states, steps, n).params.mode
  {
    MT.Convergence(cfg, states, steps, n, a);
  }

  lemma {:induction false} MemberHears(sc: Scene, cfg: M.Cfg, states: seq<M.Sys>, steps: seq<M.Step>, n: nat,
                                       a: string, c: string)
    requires M.Run(cfg, states, steps) && MT.FreshRun(cfg, states, steps) && n <= |steps| && M.Quiet(states[n])
    requires Reached(sc, cfg, M.IdealAt(cfg, states, steps, n))
    requires a in sc.pubs && a in sc.members && c in sc.members && a != c && c in states[n].agents
    ensures HearsFrom(sc, states[n], c, a)
  {
    MT.ConnectionConservation(cfg, states, steps, n, c);
  }

  lemma {:induction false} MemberListens(sc: Scene, cfg: M.Cfg, states: seq<M.Sys>, steps: seq<M.Step>, n: nat,
                                         c: string, receiver: Option<Syncer.Ts>)
    requires M.Run(cfg, states, steps) && MT.FreshRun(cfg, states, steps) && n <= |steps| && M.Quiet(states[n])
    requires Reached(sc, cfg, M.IdealAt(cfg, states, steps, n))
    requires c in sc.members && c in states[n].agents && (receiver.Some? <==> states[n].agents[c].ordered)
    ensures Listens(sc, c, states[n].agents[c], receiver)
  {
    SameMode(cfg, states, steps, n, c);
    MT.FilterConservation(cfg, states, steps, n, c);
    MT.ConnectionConservation(cfg, states, steps, n, c);
  }

  /** In particular in a group whose agents all join for the first time, ordered or not. */
  lemma {:induction false} FirstTimersReadOnce(sc: Scene, cfg: M.Cfg, states: seq<M.Sys>, steps: seq<M.Step>, n: nat,
                                               a: string, c: string, sender: Option<Syncer.Ts>,
                                               receiver: Option<Syncer.Ts>, now: int, msg: Bytes,
                                               rnd: string -> Randomness, order: seq<string>, out: seq<string>)
    requires M.Run(cfg, states, steps) && MT.FirstTimers(steps) && n <= |steps| && M.Quiet(states[n])
    requires sc.Valid() && Reached(sc, cfg, M.IdealAt(cfg, states, steps, n))
    requires a in sc.pubs && c in sc.members && a != c && a in states[n].agents && c in states[n].agents
    requires Sends(sc, a, states[n].agents[a], sender, now, msg, rnd, order, out)
    requires receiver.Some? <==> states[n].agents[c].ordered
    ensures HearsFrom(sc, states[n], c, a)
    ensures ReadsOnce(sc, a, c, states[n].agents[c], receiver, msg, order, out)
  {
    MT.FirstTimersAgree(cfg, states, steps, n);
    MT.OrderingAgreement(cfg, states, steps, n, a, c);
    QueueModesAgree(sc, cfg, states, steps, n, a, c, sender, receiver, now, msg, rnd, order, out);
  }

  /** Agents outside the group take none of its frames, are connected to nobody, and nobody to them. */
  lemma {:induction false} OutsidersTakeNothing(p: Prims, env: Syncer.Envelope, keys: Keys, cfg: M.Cfg,
                                                states: seq<M.Sys>, steps: seq<M.Step>, n: nat, d: string,
                                                stored: Option<Syncer.Ts>, topic: string, pubEnd: string,
                                                frame: string)
    requires M.Run(cfg, states, steps) && MT.FreshRun(cfg, states, steps) && n <= |steps| && M.Quiet(states[n])
    requires d in states[n].agents && d !in M.IdealAt(cfg, states, steps, n).view
    ensures Receive(p, env, keys, states[n].agents[d], stored, topic, pubEnd, frame) == NotTaken
    ensures states[n].agents[d].stateEnds == {} && states[n].agents[d].dataEnds == {}
    ensures forall x :: x in states[n].agents ==> (x, d) !in states[n].links && (d, x) !in states[n].links
  {
    MT.ConnectionConservation(cfg, states, steps, n, d);
    forall x | x in states[n].agents ensures (x, d) !in states[n].links {
      MT.ConnectionConservation(cfg, states, steps, n, x);
    }
  }

  // ---- state and data ----

  /** Data subscriptions take no status frames, and status subscriptions no data frames. */
  lemma StateAndDataApart(mode: string, t: string, pub: string, sub: string, t': string, data: string)
    requires ':' !in t && ':' !in t' && ' ' !in t && ' ' !in t' && ' ' !in pub && ' ' !in sub
    ensures !(DataTopic(mode, t, pub, sub) <= Frame(StateTopic(t'), data))
    ensures !(StateTopic(t') <= Frame(DataTopic(mode, t, pub, sub), data))
  {
    var rest := if mode == SINGLE_QUEUE then "data" else "data" + [':'] + pub + [':'] + sub;
    assert DataTopic(mode, t, pub, sub) == PREFIX + (t + [':'] + rest);
    assert StateTopic(t') == PREFIX + (t' + [':'] + "state");
    NoSpaces(mode, t, pub, sub);
    assert ' ' !in PREFIX;
    assert "state"[0] == 's' && rest[0] == 'd';
    FilterSeesTopic(DataTopic(mode, t, pub, sub), StateTopic(t'), data);
    FilterSeesTopic(StateTopic(t'), DataTopic(mode, t, pub, sub), data);
    CommonStart(PREFIX, t + [':'] + rest, t' + [':'] + "state");
    CommonStart(PREFIX, t' + [':'] + "state", t + [':'] + rest);
    LabelPairPrefix(t, rest, t', "state");
    LabelPairPrefix(t', "state", t, rest);
  }
}
