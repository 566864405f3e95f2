/** Runs of the Lamport layer: any number of agents of one ordered topic, arbitrary clock readings,
    arbitrary interleaving of sends and deliveries, any message delivered any number of times. */
module Lamport {
  import opened Common
  import Syncer

  /** Start is syncer.init (on Create or Join), Send is syncer.message, Recv is syncer.parse of the
      message published by event `from` of the same run. */
  datatype Event =
    | Start(agent: string, now: int)
    | Send(agent: string, now: int)
    | Recv(agent: string, from: nat)

  /** The stored timestamp, sender id included, of every agent that has initialised the topic. */
  type State = map<string, Syncer.Ts>

  /** The state after an event, given the acting agent's own id and the timestamp on the delivered message. */
  function Next(s: State, e: Event, id: int, received: Syncer.Ts): State
    requires !e.Start? ==> e.agent in s
  {
    match e
    case Start(a, now) => s[a := Syncer.Ts(id, now)]
    case Send(a, now) => s[a := s[a].(lampTs := Syncer.Tick(s[a].lampTs, now))]
    case Recv(a, _) => s[a := Syncer.Merge(s[a], received)]
  }

  const ZERO := Syncer.Ts(0, 0)

  /** Events with the states between them, and the agents' ids. */
  datatype Run = Run(ids: string -> int, events: seq<Event>, states: seq<State>) {

    /** Event i is possible: agents publish and read only after initialising the topic, and read only
        what was published before. */
    ghost predicate Possible(i: nat)
      requires i < |events| < |states|
    {
      var e := events[i];
      && (!e.Start? ==> e.agent in states[i])
      && (e.Recv? ==> e.from < i && events[e.from].Send? && events[e.from].agent in states[e.from + 1])
    }

    ghost predicate Valid() {
      && |states| == |events| + 1
      && states[0] == map[]
      && (forall i :: 0 <= i < |events| ==> Possible(i) && states[i + 1] == After(i))
    }

    ghost function After(i: nat): State
      requires i < |events| < |states| && Possible(i)
    {
      Next(states[i], events[i], ids(events[i].agent), if events[i].Recv? then Stamp(events[i].from) else ZERO)
    }

    /** The timestamp stored right after event i; for a Send this is the published one. */
    ghost function Stamp(i: nat): Syncer.Ts
      requires i < |events| < |states|
    {
      if events[i].agent in states[i + 1] then states[i + 1][events[i].agent] else ZERO
    }

    ghost function LampTs(i: nat): int
      requires i < |events| < |states|
    {
      Stamp(i).lampTs
    }

    /** Re-initialising a topic (joining again after leaving) never moves an agent's timestamp back. */
    ghost predicate Calm()
      requires Valid()
    {
      forall i :: 0 <= i < |events| && events[i].Start? && events[i].agent in states[i] ==>
        states[i][events[i].agent].lampTs <= events[i].now
    }

    /** Re-initialising a topic never falls behind a message the agent may already have seen: the clock
        reading of a Start is at least the timestamp of every message that happens before it. */
    ghost predicate Gentle()
      requires Valid()
    {
      forall i, k :: 0 <= i < |events| && 0 <= k < |events| && events[i].Send? && events[k].Start? ==>
        HappensBefore(i, k) ==> LampTs(i) <= events[k].now
    }

    /** Of two messages a causally later one never carries a smaller timestamp. */
    ghost predicate InOrder()
      requires |events| < |states|
    {
      forall i, j :: 0 <= i < |events| && 0 <= j < |events| && events[i].Send? && events[j].Send? ==>
        HappensBefore(i, j) ==> LampTs(i) <= LampTs(j)
    }

    /** The first k events, then agent a publishing one message. */
    ghost function Then(k: nat, a: string, now: int): Run
      requires k <= |events| < |states| && a in states[k]
    {
      Run(ids, events[..k] + [Send(a, now)], states[..k + 1] + [Next(states[k], Send(a, now), ids(a), ZERO)])
    }

    /** Program order of one agent, or publication before delivery. */
    ghost predicate Edge(i: nat, j: nat) {
      i < j < |events| && (events[i].agent == events[j].agent || (events[j].Recv? && events[j].from == i))
    }

    ghost predicate Path(p: seq<nat>) {
      && |p| >= 2
      && (forall k :: 0 <= k < |p| ==> p[k] < |events|)
      && (forall k :: 0 < k < |p| ==> Edge(p[k - 1], p[k]))
    }

    ghost predicate HappensBefore(i: nat, j: nat) {
      exists p :: Path(p) && p[0] == i && p[|p| - 1] == j
    }

    function Sends(i: nat): nat
      requires i <= |events|
    {
      if i == 0 then 0 else Sends(i - 1) + if events[i - 1].Send? then 1 else 0
    }

    /** Every clock reading among the first i events is at most top. */
    ghost predicate ClocksUpTo(i: nat, top: int)
      requires i <= |events|
    {
      forall k :: 0 <= k < i && !events[k].Recv? ==> events[k].now <= top
    }
  }

  // ---- the syncer's own functions are the events of a run ----

  /** On the wire nothing is lost: an init stores the timestamp of a Start, a send stores that of the Send, and
      reading the envelope of a published message stores that of the Recv, whatever text it carries. The
      reader then is neither behind the message nor behind itself. */
  lemma WireFollowsRun(r: Run, c: Syncer.Envelope, i: nat, data: Bytes)
    requires r.Valid() && c.Valid() && i < |r.events|
    ensures var e := r.events[i];
            match e
            case Start(a, now) => r.Stamp(i) == Syncer.Ts(r.ids(a), now)
            case Send(a, now) => a in r.states[i] && Syncer.AfterSend(Some(r.states[i][a]), now) == Some(r.Stamp(i))
            case Recv(b, from) =>
              && r.Possible(i) && r.Possible(from) && b in r.states[i]
              && var stored, sender := r.states[i][b], r.events[from];
                 var msg := Syncer.Wrap(c, Some(r.states[from][sender.agent]), sender.now, data);
                 && Syncer.AfterReceive(c, Some(stored), msg) == Some(r.Stamp(i))
                 && Syncer.Unwrap(c, Some(stored), msg) == Ok(data)
                 && r.LampTs(i) >= stored.lampTs && r.LampTs(i) >= r.LampTs(from) >= sender.now
                 && (r.LampTs(i) == stored.lampTs || r.Stamp(i) == r.Stamp(from))
  {
    assert r.Possible(i) && r.states[i + 1] == r.After(i);
    if r.events[i].Recv? {
      var from := r.events[i].from;
      assert r.Possible(from) && r.states[from + 1] == r.After(from);
      ReadsWhatWasWrapped(c, r.states[from][r.events[from].agent], r.events[from].now, data);
    }
  }

  lemma ReadsWhatWasWrapped(c: Syncer.Envelope, stored: Syncer.Ts, now: int, data: Bytes)
    requires c.Valid()
    ensures var sent := stored.(lampTs := Syncer.Tick(stored.lampTs, now));
            c.dec(Syncer.Wrap(c, Some(stored), now, data)) == Some(Syncer.GroupMsg(sent, data))
  {}

  lemma {:induction false} StoredGrows(r: Run, a: string, i: nat, j: nat)
    requires r.Valid() && r.Calm()
    requires i <= j < |r.states| && a in r.states[i]
    ensures a in r.states[j] && r.states[i][a].lampTs <= r.states[j][a].lampTs
    decreases j
  {
    if i < j {
      StoredGrows(r, a, i, j - 1);
      assert r.Possible(j - 1);
    }
  }

  lemma EdgeMonotone(r: Run, i: nat, j: nat)
    requires r.Valid() && r.Calm() && r.Edge(i, j)
    ensures r.LampTs(i) <= r.LampTs(j)
    ensures r.events[i].agent == r.events[j].agent ==>
              r.events[j].agent in r.states[j] && r.LampTs(i) <= r.states[j][r.events[j].agent].lampTs
  {
    assert r.Possible(i) && r.Possible(j);
    if r.events[i].agent == r.events[j].agent {
      StoredGrows(r, r.events[i].agent, i + 1, j);
      StoredGrows(r, r.events[i].agent, j, j + 1);
    }
  }

  lemma {:induction false} PathMonotone(r: Run, p: seq<nat>)
    requires r.Valid() && r.Calm() && r.Path(p)
    ensures r.LampTs(p[0]) <= r.LampTs(p[|p| - 1])
    decreases |p|
  {
    EdgeMonotone(r, p[0], p[1]);
    if |p| > 2 {
      assert r.Edge(p[1], p[2]);
      PathMonotone(r, p[1..]);
    }
  }

  /** The latest event of agent a before state j, by which it obtained its stored value. */
  lemma {:induction false} LastWriter(r: Run, j: nat, a: string) returns (k: nat)
    requires r.Valid() && j < |r.states| && a in r.states[j]
    ensures k < j && r.events[k].agent == a && r.LampTs(k) == r.states[j][a].lampTs
    ensures forall m :: k < m < j ==> r.events[m].agent != a
  {
    assert r.Possible(j - 1);
    if r.events[j - 1].agent == a {
      k := j - 1;
    } else {
      k := LastWriter(r, j - 1, a);
    }
  }

  lemma {:induction false} StaysInitialised(r: Run, i: nat, j: nat)
    requires r.Valid() && i < |r.events| && i < j < |r.states|
    ensures r.events[i].agent in r.states[j]
    decreases j
  {
    assert r.Possible(i);
    if i + 1 < j {
      StaysInitialised(r, i, j - 1);
      assert r.Possible(j - 1);
    }
  }

  lemma {:induction false} PathRises(r: Run, p: seq<nat>, x: nat)
    requires r.Path(p) && x < |p|
    ensures p[x] <= p[|p| - 1]
    decreases |p| - x
  {
    if x < |p| - 1 {
      assert r.Edge(p[x], p[x + 1]);
      PathRises(r, p, x + 1);
    }
  }

  /** A message's timestamp is reached by whatever happens after it: the stored value after each event on a
      path from the message is at least that. */
  lemma {:induction false} PathCarries(r: Run, p: seq<nat>)
    requires r.Valid() && r.Gentle() && r.Path(p) && r.events[p[0]].Send?
    ensures r.LampTs(p[0]) <= r.LampTs(p[|p| - 1])
    decreases p[|p| - 1], 1
  {
    var n := |p| - 1;
    var e, f := p[n], p[n - 1];
    assert r.Edge(f, e);
    assert r.Possible(e);
    if r.events[e].Start? {
      assert r.HappensBefore(p[0], e);
    } else if r.events[e].Recv? && r.events[e].from == f {
      PrefixCarries(r, p, n - 1);
    } else {
      PathReachesStored(r, p);
    }
  }

  /** ... the same for a proper prefix of the path, down to the message itself. */
  lemma {:induction false} PrefixCarries(r: Run, p: seq<nat>, m: nat)
    requires r.Valid() && r.Gentle() && r.Path(p) && r.events[p[0]].Send? && m < |p|
    ensures r.LampTs(p[0]) <= r.LampTs(p[m])
    decreases p[m], 2
  {
    if m > 0 {
      PathCarries(r, p[..m + 1]);
    }
  }

  /** What a path ending in program order has already contributed to the agent's stored value. */
  lemma {:induction false} PathReachesStored(r: Run, p: seq<nat>)
    requires r.Valid() && r.Gentle() && r.Path(p) && r.events[p[0]].Send?
    requires r.events[p[|p| - 2]].agent == r.events[p[|p| - 1]].agent
    ensures var e := p[|p| - 1];
            r.events[e].agent in r.states[e] && r.LampTs(p[0]) <= r.states[e][r.events[e].agent].lampTs
    decreases p[|p| - 1], 0
  {
    var n := |p| - 1;
    var e, f := p[n], p[n - 1];
    assert r.Edge(f, e);
    StaysInitialised(r, f, e);
    var k := LastWriter(r, e, r.events[e].agent);
    if k == f {
      PrefixCarries(r, p, n - 1);
    } else {
      var q := p[..n] + [k];
      assert r.Edge(f, k);
      assert r.Path(q);
      PathCarries(r, q);
    }
  }

  /** Messages keep the causal order in every gentle run. */
  lemma GentleInOrder(r: Run)
    requires r.Valid() && r.Gentle()
    ensures r.InOrder()
  {
    forall i, j | 0 <= i < |r.events| && 0 <= j < |r.events| && r.events[i].Send? && r.events[j].Send? &&
      r.HappensBefore(i, j)
      ensures r.LampTs(i) <= r.LampTs(j) {
      var p :| r.Path(p) && p[0] == i && p[|p| - 1] == j;
      PathCarries(r, p);
    }
  }

  // ---- ... and in no others can it be relied on ----

  lemma ThenAgrees(r: Run, k: nat, a: string, now: int)
    requires r.Valid() && k <= |r.events| && a in r.states[k]
    ensures var q := r.Then(k, a, now);
            && |q.events| == k + 1 && |q.states| == k + 2 && q.events[k] == Send(a, now)
            && (forall i :: 0 <= i < k ==> q.events[i] == r.events[i])
            && (forall i :: 0 <= i <= k ==> q.states[i] == r.states[i])
            && (forall i :: 0 <= i < k ==> q.Stamp(i) == r.Stamp(i))
            && q.LampTs(k) == Syncer.Tick(r.states[k][a].lampTs, now)
  {}

  lemma ThenValid(r: Run, k: nat, a: string, now: int)
    requires r.Valid() && k <= |r.events| && a in r.states[k]
    ensures r.Then(k, a, now).Valid()
  {
    var q := r.Then(k, a, now);
    ThenAgrees(r, k, a, now);
    forall i | 0 <= i < |q.events|
      ensures q.Possible(i) && q.states[i + 1] == q.After(i) {
      if i < k {
        assert r.Possible(i);
      }
    }
  }

  /** What happens before an event of the first k did so in the longer run too, and the other way round. */
  lemma ThenPaths(r: Run, k: nat, a: string, now: int, p: seq<nat>)
    requires r.Valid() && k <= |r.events| && a in r.states[k] && |p| >= 2 && p[|p| - 1] < k
    ensures r.Path(p) <==> r.Then(k, a, now).Path(p)
  {
    var q := r.Then(k, a, now);
    ThenAgrees(r, k, a, now);
    if r.Path(p) {
      forall x | 0 <= x < |p| ensures p[x] < k {
        PathRises(r, p, x);
      }
      forall x | 0 < x < |p| ensures q.Edge(p[x - 1], p[x]) {
        assert r.Edge(p[x - 1], p[x]);
      }
    }
    if q.Path(p) {
      forall x | 0 <= x < |p| ensures p[x] < k {
        PathRises(q, p, x);
      }
      forall x | 0 < x < |p| ensures r.Edge(p[x - 1], p[x]) {
        assert q.Edge(p[x - 1], p[x]);
      }
    }
  }

  lemma ThenGentle(r: Run, k: nat, a: string, now: int)
    requires r.Valid() && r.Gentle() && k <= |r.events| && a in r.states[k] && r.Then(k, a, now).Valid()
    ensures r.Then(k, a, now).Gentle()
  {
    var q := r.Then(k, a, now);
    ThenAgrees(r, k, a, now);
    forall i, j | 0 <= i < |q.events| && 0 <= j < |q.events| && q.events[i].Send? && q.events[j].Start? &&
      q.HappensBefore(i, j)
      ensures q.LampTs(i) <= q.events[j].now {
      var p :| q.Path(p) && p[0] == i && p[|p| - 1] == j;
      PathRises(q, p, 0);
      ThenPaths(r, k, a, now, p);
      assert r.HappensBefore(i, j);
    }
  }

  /** A Start behind a message of its causal past: publishing right after it breaks the order. */
  lemma HarshStartBreaksOrder(r: Run, i: nat, k: nat)
    requires r.Valid() && i < |r.events| && k < |r.events| && r.events[i].Send? && r.events[k].Start?
    requires r.HappensBefore(i, k) && r.events[k].now < r.LampTs(i)
    ensures var a, now := r.events[k].agent, r.events[k].now;
            a in r.states[k + 1] && r.Then(k + 1, a, now).Valid() && !r.Then(k + 1, a, now).InOrder()
  {
    var a, now := r.events[k].agent, r.events[k].now;
    assert r.Possible(k);
    ThenAgrees(r, k + 1, a, now);
    ThenValid(r, k + 1, a, now);
    var p: seq<nat> :| r.Path(p) && p[0] == i && p[|p| - 1] == k;
    PathRises(r, p, 0);
    ThenFollows(r, p, k, now);
  }

  /** What happened before an agent's event happens before the message it publishes next. */
  lemma ThenFollows(r: Run, p: seq<nat>, k: nat, now: int)
    requires r.Valid() && k < |r.events| && r.Path(p) && p[|p| - 1] == k && r.events[k].agent in r.states[k + 1]
    ensures r.Then(k + 1, r.events[k].agent, now).HappensBefore(p[0], k + 1)
  {
    var a := r.events[k].agent;
    var q := r.Then(k + 1, a, now);
    ThenAgrees(r, k + 1, a, now);
    ThenPaths(r, k + 1, a, now, p);
    var p' := p + [k + 1];
    forall x | 0 < x < |p'| ensures q.Edge(p'[x - 1], p'[x]) {
      if x < |p| {
        assert q.Edge(p[x - 1], p[x]);
      }
    }
    forall x | 0 <= x < |p| ensures p[x] <= k {
      PathRises(r, p, x);
    }
    assert q.Path(p');
  }

  /** Causally ordered messages, exactly: a run is gentle if and only if, whatever an agent publishes next at
      any moment of it, no message carries a smaller timestamp than one that happens before it. */
  lemma CausalMonotonicity(r: Run)
    requires r.Valid()
    ensures r.Gentle() <==>
            (forall k: nat, a, now :: k <= |r.events| && a in r.states[k] ==> r.Then(k, a, now).InOrder())
    ensures r.Gentle() ==> r.InOrder()
  {
    if r.Gentle() {
      GentleInOrder(r);
      forall k: nat, a, now | k <= |r.events| && a in r.states[k] ensures r.Then(k, a, now).InOrder() {
        ThenValid(r, k, a, now);
        ThenGentle(r, k, a, now);
        GentleInOrder(r.Then(k, a, now));
      }
    } else {
      var i, k :| 0 <= i < |r.events| && 0 <= k < |r.events| && r.events[i].Send? && r.events[k].Start? &&
                  r.HappensBefore(i, k) && r.events[k].now < r.LampTs(i);
      HarshStartBreaksOrder(r, i, k);
    }
  }

  /** The stored value itself, at every event, never decreases along happens-before in precisely the runs in
      which no agent re-initialises the topic with a clock reading behind what it had stored. */
  lemma StoredMonotonicity(r: Run)
    requires r.Valid()
    ensures r.Calm() <==>
            (forall i, j :: 0 <= i < |r.events| && 0 <= j < |r.events| && r.HappensBefore(i, j) ==>
               r.LampTs(i) <= r.LampTs(j))
    ensures r.Calm() ==> r.Gentle()
  {
    if r.Calm() {
      forall i, j | 0 <= i < |r.events| && 0 <= j < |r.events| && r.HappensBefore(i, j)
        ensures r.LampTs(i) <= r.LampTs(j) {
        var p :| r.Path(p) && p[0] == i && p[|p| - 1] == j;
        PathMonotone(r, p);
      }
      forall k | 0 <= k < |r.events| && r.events[k].Start? ensures r.LampTs(k) == r.events[k].now {
        assert r.Possible(k);
      }
    } else {
      var j :| 0 <= j < |r.events| && r.events[j].Start? && r.events[j].agent in r.states[j] &&
               r.events[j].now < r.states[j][r.events[j].agent].lampTs;
      var k := LastWriter(r, j, r.events[j].agent);
      assert r.Possible(j);
      assert r.Path([k, j]);
      assert r.HappensBefore(k, j);
      assert r.LampTs(j) < r.LampTs(k);
    }
  }

  /** For two published messages: a causally later one never carries a smaller LampTs, and it carries
      the same LampTs exactly when its sender's clock and stored value both read that very number. */
  lemma MessageOrder(r: Run, i: nat, j: nat)
    requires r.Valid() && r.Gentle()
    requires i < |r.events| && j < |r.events| && r.events[i].Send? && r.events[j].Send? && r.HappensBefore(i, j)
    ensures r.LampTs(i) <= r.LampTs(j)
    ensures r.LampTs(i) == r.LampTs(j) <==>
            (r.events[j].now == r.LampTs(i) &&
             r.events[j].agent in r.states[j] && r.states[j][r.events[j].agent].lampTs == r.LampTs(i))
  {
    var p :| r.Path(p) && p[0] == i && p[|p| - 1] == j;
    assert r.Edge(p[|p| - 2], p[|p| - 1]);
    PathReachesStored(r, p);
    assert r.Possible(j);
    assert r.LampTs(j) == Syncer.Tick(r.states[j][r.events[j].agent].lampTs, r.events[j].now);
  }

  /** An agent starts and publishes, and again with its clock set back. */
  const SET_BACK: seq<Event> := [Start("a", 10), Send("a", 10), Start("a", 5), Send("a", 5)]

  lemma SetBackRuns(ids: string -> int)
    ensures var ten, five := map["a" := Syncer.Ts(ids("a"), 10)], map["a" := Syncer.Ts(ids("a"), 5)];
            var r := Run(ids, SET_BACK, [map[], ten, ten, five, five]);
            r.Valid() && r.LampTs(1) == 10 && r.LampTs(3) == 5
  {}

  /** Leaving and joining again while the clock has been set back breaks the order. */
  lemma RejoinCanRegress()
    ensures exists r: Run :: r.Valid() && |r.events| == 4 && r.events[1].Send? && r.events[3].Send? &&
                             r.HappensBefore(1, 3) && r.LampTs(1) > r.LampTs(3)
  {
    var ids: string -> int := x => 1;
    var ten, five := map["a" := Syncer.Ts(1, 10)], map["a" := Syncer.Ts(1, 5)];
    SetBackRuns(ids);
    var r := Run(ids, SET_BACK, [map[], ten, ten, five, five]);
    assert r.Path([1, 3]);
    assert r.HappensBefore(1, 3);
  }

  // ---- sender ids ----

  /** The latest event of agent a before state i, or -1. */
  function LastOf(r: Run, i: nat, a: string): (k: int)
    requires i <= |r.events|
    ensures -1 <= k < i && (k >= 0 ==> r.events[k].agent == a)
  {
    if i == 0 then -1 else if r.events[i - 1].agent == a then i - 1 else LastOf(r, i - 1, a)
  }

  lemma {:induction false} StoredByLast(r: Run, i: nat, a: string)
    requires r.Valid() && i <= |r.events| && a in r.states[i]
    ensures LastOf(r, i, a) >= 0 && r.states[i][a] == r.Stamp(LastOf(r, i, a))
  {
    assert r.Possible(i - 1);
    if r.events[i - 1].agent != a {
      StoredByLast(r, i - 1, a);
    }
  }

  /** The agent whose own timestamp an event's has descended from: receiving a message that is not behind
      takes over the sender's, and with it the sender's origin. */
  ghost function Origin(r: Run, i: nat): string
    requires r.Valid() && i < |r.events|
    decreases i
  {
    var e := r.events[i];
    var last := LastOf(r, i, e.agent);
    if e.Start? || last < 0 then e.agent
    else if e.Recv? && r.Possible(i) && r.Stamp(last).lampTs <= r.LampTs(e.from) then Origin(r, e.from)
    else Origin(r, last)
  }

  /** The sender id on a timestamp is that of its origin, not of the agent that publishes it. */
  lemma {:induction false} SenderIsOrigin(r: Run, i: nat)
    requires r.Valid() && i < |r.events|
    ensures r.Stamp(i).senderId == r.ids(Origin(r, i))
    decreases i
  {
    var e := r.events[i];
    assert r.Possible(i);
    if !e.Start? {
      StoredByLast(r, i, e.agent);
      SenderIsOrigin(r, LastOf(r, i, e.agent));
      if e.Recv? {
        SenderIsOrigin(r, e.from);
      }
    }
  }

  /** When (LampTs, SenderId) tells two messages apart: exactly when their values differ or they descend from
      different agents, provided agents have different ids. Messages of two agents that have kept their own
      timestamps always are; those of two agents that took over the same one are not. */
  lemma {:induction false} ToldApart(r: Run, i: nat, j: nat)
    requires r.Valid() && i < |r.events| && j < |r.events|
    requires r.ids(Origin(r, i)) == r.ids(Origin(r, j)) ==> Origin(r, i) == Origin(r, j)
    ensures r.Stamp(i) != r.Stamp(j) <==> r.LampTs(i) != r.LampTs(j) || Origin(r, i) != Origin(r, j)
  {
    SenderIsOrigin(r, i);
    SenderIsOrigin(r, j);
  }

  /** The run with one more event. */
  ghost function More(r: Run, e: Event): Run
    requires r.Valid() && (e.Start? || e.agent in r.states[|r.events|])
    requires e.Recv? ==> e.from < |r.events| && r.events[e.from].Send?
  {
    var received := if e.Recv? then r.Stamp(e.from) else ZERO;
    Run(r.ids, r.events + [e], r.states + [Next(r.states[|r.events|], e, r.ids(e.agent), received)])
  }

  lemma MoreValid(r: Run, e: Event)
    requires r.Valid() && (e.Start? || e.agent in r.states[|r.events|])
    requires e.Recv? ==> e.from < |r.events| && r.events[e.from].Send?
    ensures More(r, e).Valid()
    ensures forall i :: 0 <= i < |r.events| ==> More(r, e).events[i] == r.events[i] && More(r, e).Stamp(i) == r.Stamp(i)
  {
    var q := More(r, e);
    forall i | 0 <= i < |q.events| ensures q.Possible(i) && q.states[i + 1] == q.After(i) {
      if i < |r.events| {
        assert r.Possible(i);
      } else if e.Recv? {
        assert r.Possible(e.from);
      }
    }
  }

  /** Once two agents order a topic, the sender id cannot be relied on: however the run has gone so far, they
      can go on to publish two messages under one and the same timestamp, although their ids differ. */
  lemma TimestampsCollide(r: Run, a: string, b: string)
    requires r.Valid() && a != b && a in r.states[|r.events|] && b in r.states[|r.events|]
    ensures exists q: Run, i: nat, j: nat ::
              && q.Valid() && q.ids == r.ids && r.events <= q.events && i < |q.events| && j < |q.events|
              && q.events[i].Send? && q.events[j].Send? && q.events[i].agent == a && q.events[j].agent == b
              && q.Stamp(i) == q.Stamp(j)
  {
    var n := |r.events|;
    var sa, sb := r.states[n][a], r.states[n][b];
    var now := if sa.lampTs < sb.lampTs then sb.lampTs else sa.lampTs;
    MoreValid(r, Send(a, now));
    var r1 := More(r, Send(a, now));
    assert r1.Stamp(n) == Syncer.Ts(sa.senderId, now);
    MoreValid(r1, Recv(b, n));
    var r2 := More(r1, Recv(b, n));
    assert r2.states[n + 2][b] == r2.states[n + 2][a] == Syncer.Ts(sa.senderId, now);
    MoreValid(r2, Send(a, now));
    var r3 := More(r2, Send(a, now));
    MoreValid(r3, Send(b, now));
    var q := More(r3, Send(b, now));
    assert q.Stamp(n + 2) == r3.Stamp(n + 2) == q.Stamp(n + 3);
    assert q.events[n + 2] == Send(a, now) && q.events[n + 3] == Send(b, now);
  }

  // ---- drift ----

  lemma {:induction false} SendsMonotone(r: Run, i: nat, j: nat)
    requires i <= j <= |r.events|
    ensures r.Sends(i) <= r.Sends(j)
  {
    if i < j {
      SendsMonotone(r, i, j - 1);
    }
  }

  /** No stored timestamp exceeds the largest clock reading so far by more than the number of messages
      published so far, and no published one is behind its sender's clock. Holds in every run. */
  lemma {:induction false} DriftBound(r: Run, i: nat, top: int)
    requires r.Valid() && i <= |r.events| && r.ClocksUpTo(i, top)
    ensures forall a :: a in r.states[i] ==> r.states[i][a].lampTs <= top + r.Sends(i)
    ensures forall k :: 0 <= k < i && r.events[k].Send? ==>
              r.events[k].now <= r.LampTs(k) <= top + r.Sends(i)
    decreases i
  {
    if i > 0 {
      DriftBound(r, i - 1, top);
      assert r.Possible(i - 1);
    }
  }

  const INT64_MAX := 0x7FFF_FFFF_FFFF_FFFF

  /** The int64 increments of the original never overflow while clock readings plus messages fit. */
  lemma {:induction false} StaysBelow(r: Run, i: nat, a: string, top: int)
    requires r.Valid() && r.ClocksUpTo(|r.events|, top) && top + r.Sends(|r.events|) <= INT64_MAX
    requires i < |r.states| && a in r.states[i]
    ensures r.states[i][a].lampTs <= INT64_MAX
  {
    DriftBound(r, i, top);
    SendsMonotone(r, i, |r.events|);
  }
}
