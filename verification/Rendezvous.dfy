/** The internal request/reply rendezvous of the transport (pubsub/transport/zmq.go and the send*
    functions of pubsub/processor.go). A requester hands a connect, subscribe or authenticate request
    to the connector and waits first on its state reply, then on its data reply. The connector registers
    both reply ids and broadcasts the request to two listener loops; each loop replies on an unbuffered
    channel, so it is blocked until that requester is ready to receive. */
module Rendezvous {
  import opened Common

  datatype ReplyId = StateId(r: nat) | DataId(r: nat)

  datatype Requester = Ready | AwaitState | AwaitData | Finished | GaveUp

  datatype Connector = Idle | Taken(r: nat) | Registered(r: nat)

  /** A listener is free, or blocked sending the outcome for request r. */
  datatype Listener = Free | Replying(r: nat, ok: bool)

  /** One listener loop: its socket's queue, what it is doing, and the replies it has delivered. */
  datatype Loop = Loop(queue: seq<nat>, busy: Listener, answers: multiset<nat>) {
    function Enqueue(r: nat): Loop {
      this.(queue := queue + [r])
    }

    function Take(ok: bool): Loop
      requires |queue| > 0
    {
      this.(busy := Replying(queue[0], ok), queue := queue[1..])
    }

    function Delivered(): Loop
      requires busy.Replying?
    {
      this.(busy := Free, answers := answers[busy.r := answers[busy.r] + 1])
    }

    /** How many times request r is present in this loop, answered or not. */
    function Count(r: nat): nat {
      multiset(queue)[r] + (if busy.Replying? && busy.r == r then 1 else 0) + answers[r]
    }
  }

  datatype Sys = Sys(req: map<nat, Requester>, connector: Connector, replyChans: set<ReplyId>, state: Loop, data: Loop)

  /** Submit is a requester's channel send; the other steps belong to the three loops. The flag of a
      Take step is the outcome of the socket operation. */
  datatype Step =
    | Submit(r: nat)
    | Register
    | Broadcast
    | StateTake(ok: bool)
    | StateReply
    | DataTake(ok: bool)
    | DataReply

  ghost predicate Enabled(s: Sys, e: Step) {
    match e
    case Submit(r) => r in s.req && s.req[r].Ready? && s.connector.Idle?
    case Register => s.connector.Taken?
    case Broadcast => s.connector.Registered?
    case StateTake(_) => s.state.busy.Free? && |s.state.queue| > 0
    case StateReply => s.state.busy.Replying? && s.state.busy.r in s.req && s.req[s.state.busy.r].AwaitState?
    case DataTake(_) => s.data.busy.Free? && |s.data.queue| > 0
    case DataReply => s.data.busy.Replying? && s.data.busy.r in s.req && s.req[s.data.busy.r].AwaitData?
  }

  ghost function Next(s: Sys, e: Step): Sys
    requires Enabled(s, e)
  {
    match e
    case Submit(r) => s.(connector := Taken(r), req := s.req[r := AwaitState])
    case Register =>
      s.(connector := Registered(s.connector.r),
         replyChans := s.replyChans + {StateId(s.connector.r), DataId(s.connector.r)})
    case Broadcast =>
      s.(connector := Idle, state := s.state.Enqueue(s.connector.r), data := s.data.Enqueue(s.connector.r))
    case StateTake(ok) => s.(state := s.state.Take(ok))
    case StateReply =>
      // an error on the state channel makes the requester return without reading the data channel
      s.(state := s.state.Delivered(),
         req := s.req[s.state.busy.r := if s.state.busy.ok then AwaitData else GaveUp])
    case DataTake(ok) => s.(data := s.data.Take(ok))
    case DataReply => s.(data := s.data.Delivered(), req := s.req[s.data.busy.r := Finished])
  }

  const EMPTY_LOOP := Loop([], Free, multiset{})

  ghost predicate Init(s: Sys) {
    && (forall r :: r in s.req ==> s.req[r].Ready?)
    && s == Sys(s.req, Idle, {}, EMPTY_LOOP, EMPTY_LOOP)
  }

  ghost predicate Run(states: seq<Sys>, steps: seq<Step>) {
    && |states| == |steps| + 1
    && Init(states[0])
    && (forall i :: 0 <= i < |steps| ==> Enabled(states[i], steps[i]) && states[i + 1] == Next(states[i], steps[i]))
  }

  // ---- every request exists exactly once on each side ----

  function Held(s: Sys, r: nat): nat {
    if !s.connector.Idle? && s.connector.r == r then 1 else 0
  }

  ghost predicate Registrations(s: Sys) {
    && (forall r :: r in s.state.queue ==> StateId(r) in s.replyChans)
    && (forall r :: r in s.data.queue ==> DataId(r) in s.replyChans)
    && (s.state.busy.Replying? ==> StateId(s.state.busy.r) in s.replyChans)
    && (s.data.busy.Replying? ==> DataId(s.data.busy.r) in s.replyChans)
    && (s.connector.Registered? ==> {StateId(s.connector.r), DataId(s.connector.r)} <= s.replyChans)
  }

  /** Where request r is, by how far its requester has come. */
  ghost predicate Placed(s: Sys, r: nat) {
    var phase := if r in s.req then s.req[r] else Ready;
    match phase
    case Ready => Held(s, r) + s.state.Count(r) == 0 && s.data.Count(r) == 0
    case AwaitState => Held(s, r) + s.state.Count(r) == 1 && s.state.answers[r] == 0
                       && Held(s, r) + s.data.Count(r) == 1 && s.data.answers[r] == 0
    case AwaitData => Held(s, r) == 0 && s.state.Count(r) == s.state.answers[r] == 1
                      && s.data.Count(r) == 1 && s.data.answers[r] == 0
    case Finished => Held(s, r) == 0 && s.state.Count(r) == s.state.answers[r] == 1
                     && s.data.Count(r) == s.data.answers[r] == 1
    case GaveUp => Held(s, r) == 0 && s.state.Count(r) == s.state.answers[r] == 1
                   && s.data.Count(r) == 1 && s.data.answers[r] == 0
  }

  ghost predicate Inv(s: Sys) {
    Registrations(s) && forall r :: Placed(s, r)
  }

  lemma EnqueueCount(l: Loop, x: nat, r: nat)
    ensures l.Enqueue(x).Count(r) == l.Count(r) + if r == x then 1 else 0
  {}

  lemma TakeCount(l: Loop, ok: bool, r: nat)
    requires |l.queue| > 0 && l.busy.Free?
    ensures l.Take(ok).Count(r) == l.Count(r)
  {
    assert l.queue == [l.queue[0]] + l.queue[1..];
  }

  lemma DeliveredCount(l: Loop, r: nat)
    requires l.busy.Replying?
    ensures l.Delivered().Count(r) == l.Count(r)
  {}

  lemma PlacedBroadcast(s: Sys, r: nat)
    requires Placed(s, r) && s.connector.Registered?
    ensures Placed(Next(s, Broadcast), r)
  {
    EnqueueCount(s.state, s.connector.r, r);
    EnqueueCount(s.data, s.connector.r, r);
  }

  lemma PlacedTake(s: Sys, ok: bool, r: nat)
    requires Placed(s, r)
    ensures Enabled(s, StateTake(ok)) ==> Placed(Next(s, StateTake(ok)), r)
    ensures Enabled(s, DataTake(ok)) ==> Placed(Next(s, DataTake(ok)), r)
  {
    if Enabled(s, StateTake(ok)) {
      TakeCount(s.state, ok, r);
    }
    if Enabled(s, DataTake(ok)) {
      TakeCount(s.data, ok, r);
    }
  }

  lemma PlacedStateReply(s: Sys, r: nat)
    requires Placed(s, r) && Enabled(s, StateReply) && Placed(s, s.state.busy.r)
    ensures Placed(Next(s, StateReply), r)
  {
    DeliveredCount(s.state, r);
  }

  lemma PlacedDataReply(s: Sys, r: nat)
    requires Placed(s, r) && Enabled(s, DataReply)
    ensures Placed(Next(s, DataReply), r)
  {
    DeliveredCount(s.data, r);
  }

  lemma PlacedStep(s: Sys, e: Step, r: nat)
    requires Placed(s, r) && Enabled(s, e)
    requires e.StateReply? ==> Placed(s, s.state.busy.r)
    ensures Placed(Next(s, e), r)
  {
    match e
    case Submit(_) =>
    case Register =>
    case Broadcast => PlacedBroadcast(s, r);
    case StateTake(ok) => PlacedTake(s, ok, r);
    case StateReply => PlacedStateReply(s, r);
    case DataTake(ok) => PlacedTake(s, ok, r);
    case DataReply => PlacedDataReply(s, r);
  }

  lemma InvStep(s: Sys, e: Step)
    requires Inv(s) && Enabled(s, e)
    ensures Inv(Next(s, e))
  {
    forall r ensures Placed(Next(s, e), r) {
      PlacedStep(s, e, r);
    }
  }

  lemma {:induction false} InvAlways(states: seq<Sys>, steps: seq<Step>, i: nat)
    requires Run(states, steps) && i < |states|
    ensures Inv(states[i])
  {
    if i > 0 {
      InvAlways(states, steps, i - 1);
      InvStep(states[i - 1], steps[i - 1]);
    }
  }

  ghost predicate Pending(s: Sys) {
    exists r :: r in s.req && (s.req[r].AwaitState? || s.req[r].AwaitData?)
  }

  ghost predicate SomeoneGaveUp(s: Sys) {
    exists r :: r in s.req && s.req[r].GaveUp?
  }

  ghost predicate Submitted(s: Sys, r: nat) {
    r in s.req && !s.req[r].Ready?
  }

  /** Every submitted request answered once on each id, nothing queued, nobody blocked. */
  ghost predicate Settled(s: Sys) {
    && s.connector.Idle?
    && s.state.queue == [] && s.data.queue == [] && s.state.busy.Free? && s.data.busy.Free?
    && (forall r :: r in s.req ==> s.req[r].Ready? || s.req[r].Finished?)
    && (forall r :: s.state.answers[r] == s.data.answers[r] == if Submitted(s, r) then 1 else 0)
  }

  ghost predicate Stuck(s: Sys) {
    forall e: Step :: !e.Submit? ==> !Enabled(s, e)
  }

  lemma StateSideProgress(s: Sys, r: nat)
    requires Inv(s) && r in s.req && s.req[r].AwaitState?
    ensures !Stuck(s)
  {
    assert Placed(s, r);
    if s.connector.Taken? {
      assert Enabled(s, Register);
    } else if s.connector.Registered? {
      assert Enabled(s, Broadcast);
    } else if s.state.busy.Replying? {
      assert Placed(s, s.state.busy.r);
      assert Enabled(s, StateReply);
    } else {
      assert r in multiset(s.state.queue);
      assert Enabled(s, StateTake(true));
    }
  }

  /** No deadlock: while a request is pending some loop can move, provided no requester has given up. */
  lemma Progress(s: Sys)
    requires Inv(s) && Pending(s) && !SomeoneGaveUp(s)
    ensures !Stuck(s)
  {
    var r :| r in s.req && (s.req[r].AwaitState? || s.req[r].AwaitData?);
    assert Placed(s, r);
    if s.req[r].AwaitState? {
      StateSideProgress(s, r);
    } else if s.data.busy.Replying? {
      var q := s.data.busy.r;
      assert Placed(s, q);
      if s.req[q].AwaitState? {
        StateSideProgress(s, q);
      } else {
        assert Enabled(s, DataReply);
      }
    } else {
      assert r in multiset(s.data.queue);
      assert Enabled(s, DataTake(true));
    }
  }

  /** Work left in the loops; every internal step reduces it. */
  function Work(s: Sys): nat {
    (match s.connector case Idle => 0 case Taken(_) => 6 case Registered(_) => 5)
    + 2 * |s.state.queue| + (if s.state.busy.Free? then 0 else 1)
    + 2 * |s.data.queue| + (if s.data.busy.Free? then 0 else 1)
  }

  lemma WorkDecreases(s: Sys, e: Step)
    requires Enabled(s, e) && !e.Submit?
    ensures Work(Next(s, e)) < Work(s)
  {}

  lemma EmptyQueue(q: seq<nat>)
    requires forall r :: multiset(q)[r] == 0
    ensures q == []
  {
    assert multiset(q) == multiset{};
    assert |q| == |multiset(q)|;
  }

  lemma QuietMeansSettled(s: Sys)
    requires Inv(s) && !Pending(s) && !SomeoneGaveUp(s)
    ensures Settled(s)
  {
    forall r ensures s.state.answers[r] == s.data.answers[r] == if Submitted(s, r) then 1 else 0 {
      assert Placed(s, r);
    }
    assert s.connector.Idle? || Placed(s, s.connector.r);
    assert s.state.busy.Free? || Placed(s, s.state.busy.r);
    assert s.data.busy.Free? || Placed(s, s.data.busy.r);
    forall r ensures multiset(s.state.queue)[r] == 0 && multiset(s.data.queue)[r] == 0 {
      assert Placed(s, r);
    }
    EmptyQueue(s.state.queue);
    EmptyQueue(s.data.queue);
  }

  /** Once nothing can move, an abandoned request has the data listener blocked for good, on a reply that
      its requester will never read. */
  lemma AbandonedBlocks(s: Sys)
    requires Inv(s) && Stuck(s) && SomeoneGaveUp(s)
    ensures s.data.busy.Replying? && s.data.busy.r in s.req && s.req[s.data.busy.r].GaveUp?
  {
    var r :| r in s.req && s.req[r].GaveUp?;
    assert Placed(s, r);
    assert !Enabled(s, DataTake(true)) && !Enabled(s, DataReply);
    assert s.data.busy.Replying? || r in multiset(s.data.queue);
    var q := s.data.busy.r;
    assert Placed(s, q);
    if s.req[q].AwaitState? {
      StateSideProgress(s, q);
    }
  }

  /** Once the loops have done all they can, every request has been answered exactly once on each of its
      ids and no listener is blocked, if and only if no requester was turned away by a state error. */
  lemma ExactlyOnce(s: Sys)
    requires Inv(s) && Stuck(s)
    ensures Settled(s) <==> !SomeoneGaveUp(s)
  {
    if !SomeoneGaveUp(s) {
      if Pending(s) {
        Progress(s);
      }
      QuietMeansSettled(s);
    }
  }

  /** In every run, at every moment: at most one answer per id, and the id a listener is about to look
      up has been registered. */
  lemma AnswersNeverRepeat(states: seq<Sys>, steps: seq<Step>, i: nat, r: nat)
    requires Run(states, steps) && i < |states|
    ensures states[i].state.answers[r] <= 1 && states[i].data.answers[r] <= 1
    ensures states[i].state.busy.Replying? && states[i].state.busy.r == r ==> StateId(r) in states[i].replyChans
    ensures states[i].data.busy.Replying? && states[i].data.busy.r == r ==> DataId(r) in states[i].replyChans
  {
    InvAlways(states, steps, i);
    assert Placed(states[i], r);
  }

  lemma PlacedAlways(states: seq<Sys>, steps: seq<Step>, i: nat, r: nat)
    requires Run(states, steps) && i < |states|
    ensures Placed(states[i], r)
  {
    InvAlways(states, steps, i);
  }

  ghost predicate HasGivenUp(s: Sys, r: nat) {
    r in s.req && s.req[r].GaveUp?
  }

  /** This step reports a state failure to r. */
  ghost predicate ReportsFailure(s: Sys, e: Step, r: nat) {
    e.StateReply? && s.state.busy == Replying(r, false)
  }

  ghost predicate FailureReported(states: seq<Sys>, steps: seq<Step>, i: nat, r: nat)
    requires i < |states| == |steps| + 1
  {
    exists k :: 0 <= k < i && ReportsFailure(states[k], steps[k], r)
  }

  lemma GivingUpStep(s: Sys, e: Step, r: nat)
    requires Placed(s, r) && Enabled(s, e)
    ensures HasGivenUp(Next(s, e), r) <==> HasGivenUp(s, r) || ReportsFailure(s, e, r)
  {}

  /** A requester gives up exactly when the state listener has reported a failure to it. */
  lemma {:induction false} GivingUpMeansFailure(states: seq<Sys>, steps: seq<Step>, i: nat, r: nat)
    requires Run(states, steps) && i < |states|
    ensures HasGivenUp(states[i], r) <==> FailureReported(states, steps, i, r)
  {
    if i > 0 {
      GivingUpMeansFailure(states, steps, i - 1, r);
      PlacedAlways(states, steps, i - 1, r);
      GivingUpStep(states[i - 1], steps[i - 1], r);
      MoreReports(states, steps, i, r);
    }
  }

  lemma MoreReports(states: seq<Sys>, steps: seq<Step>, i: nat, r: nat)
    requires 0 < i < |states| && |states| == |steps| + 1
    ensures FailureReported(states, steps, i, r) <==>
            FailureReported(states, steps, i - 1, r) || ReportsFailure(states[i - 1], steps[i - 1], r)
  {}

  ghost predicate StateOperationFailed(states: seq<Sys>, steps: seq<Step>)
    requires Run(states, steps)
  {
    exists k :: 0 <= k < |steps| && steps[k].StateReply? && !states[k].state.busy.ok
  }

  /** The whole guarantee: however the loops and requesters interleave, once no loop can move every
      submitted request has been answered exactly once on each id and no listener is blocked, exactly
      when no state-socket operation failed during the run. */
  lemma RepliesExactlyOnce(states: seq<Sys>, steps: seq<Step>)
    requires Run(states, steps) && Stuck(states[|steps|])
    ensures Settled(states[|steps|]) <==> !StateOperationFailed(states, steps)
  {
    var s := states[|steps|];
    InvAlways(states, steps, |steps|);
    ExactlyOnce(s);
    if SomeoneGaveUp(s) {
      var r :| r in s.req && s.req[r].GaveUp?;
      GivingUpMeansFailure(states, steps, |steps|, r);
      assert HasGivenUp(s, r);
    }
    if StateOperationFailed(states, steps) {
      var k :| 0 <= k < |steps| && steps[k].StateReply? && !states[k].state.busy.ok;
      var r := states[k].state.busy.r;
      assert Enabled(states[k], steps[k]);
      GivingUpMeansFailure(states, steps, |steps|, r);
      assert ReportsFailure(states[k], steps[k], r);
    }
  }

  /** The failure is permanent: the data listener can never get past the abandoned request. */
  lemma AbandonedForever(s: Sys, e: Step, r: nat)
    requires Inv(s) && Enabled(s, e) && r in s.req && s.req[r].GaveUp?
    ensures r in Next(s, e).req && Next(s, e).req[r].GaveUp? && Next(s, e).data.answers[r] == 0
    ensures s.data.busy.Replying? && s.data.busy.r == r ==> Next(s, e).data.busy == s.data.busy
    ensures !Settled(s)
  {
    assert Placed(s, r);
    PlacedStep(s, e, if e.StateReply? then s.state.busy.r else r);
    InvStep(s, e);
    assert Placed(Next(s, e), r);
  }

  const ONE_READY := Sys(map[0 := Ready], Idle, {}, EMPTY_LOOP, EMPTY_LOOP)

  /** A run that does get stuck: one request whose state operation fails. Its requester leaves, and the data
      listener, which has done its part, keeps the reply for ever. */
  lemma FailureBlocks()
    ensures exists states: seq<Sys>, steps: seq<Step> ::
              && Run(states, steps) && |steps| == 6 && Stuck(states[6]) && StateOperationFailed(states, steps)
              && !Settled(states[6]) && states[6].req == map[0 := GaveUp] && states[6].data.busy == Replying(0, true)
  {
    var steps := [Submit(0), Register, Broadcast, StateTake(false), StateReply, DataTake(true)];
    var s1 := Next(ONE_READY, steps[0]);
    var s2 := Next(s1, steps[1]);
    var s3 := Next(s2, steps[2]);
    var s4 := Next(s3, steps[3]);
    var s5 := Next(s4, steps[4]);
    var s6 := Next(s5, steps[5]);
    var states := [ONE_READY, s1, s2, s3, s4, s5, s6];
    assert Run(states, steps);
    assert steps[4].StateReply? && !states[4].state.busy.ok;
    assert s6.req == map[0 := GaveUp] && s6.data.busy == Replying(0, true);
    assert s6.state.queue == [] && s6.data.queue == [];
  }
}
