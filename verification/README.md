# DIDComm group agents: a verified model

The agents of this repository form publish-subscribe groups without a broker. Every pair of members first
runs a two-message DID exchange, which leaves each of them with a thread id, a key pair of its own and the
other's public key for that connection. On top of these connections a group layer keeps, in every member, a
replicated map of all members with a cached checksum, lets agents join through any member and leave, and
publishes application messages through ZeroMQ sockets, optionally under Lamport timestamps.

The project models that in five linked cores.

* Group membership (`AgentState`, `Membership`, `MembershipSteps`, `MembershipOperations`,
  `MembershipTheorems`, `MembershipProgress`, `StaleAcks`, `Comebacks`): any number of agents, each with its group store
  entry, subscriber store entry, data filters, ordering flag, hello acks, the endpoints its two SUB sockets are
  connected to, its subscriptions to the group's status topic, and the members its data socket has been
  authenticated for. Create, Join and Leave are cut into their message steps,
  which may be interleaved in any order; operations do not overlap. The group layer's own methods, over
  mutable stores and sockets, are `GroupAgent`, `GroupStore`, `Subscribers` and `Transport`; each method's
  new state is the `AgentState` function that the protocol's steps use, so what is proved of all runs is
  proved of these methods.
* Checksum and join check (`Strings`, `Base64`, `Validator`).
* Lamport layer (`Syncer` for one agent, `Lamport` for runs of all of them).
* DID exchange and authenticated envelopes (`Cipher`, `Packer`, `Invitation`, `DidExchange`, `Prober`).
* Transport (`Topics` for names and frames, `Rendezvous` for the internal request and reply loops).

`QueueModes` puts membership, topics, envelopes and timestamps together into one delivery theorem, and
`JoinOutcome` ties the straight-line Join method to the interleaved protocol.

Libraries appear as function-valued parameters of which only what the libraries promise is assumed:
opening undoes sealing, JSON decoding undoes encoding, JSON of a non-empty member list is long enough for
the checksum buffer. SHA-256 is not assumed injective, only collision-free on the two views being compared; the aead is assumed to
refuse wrong headers, nonces and keys only in `Packer.OpensExactly`.
Base64, buffers, trimming, nonce fitting, sorting and topic parsing are concrete. Random values and clock
readings are arguments; fresh keys and thread ids are step parameters required to be unused. Go map
iteration is an arbitrary choice of the next key.

Where the code meets a property only under a condition, the condition is stated exactly:

* Hello acks are never forgotten. `StaleAcks.SafeExactlyWhenFresh`: every interleaving of a join ends well if
  and only if no member the acceptor lists has acked the joiner before; otherwise the joiner can announce
  itself to a member that is not connected yet, and that member never learns of it. By
  `StaleAcks.RejoinIsStale` every return to a group that still holds an earlier acquaintance is of the second
  kind, and `Comebacks.ReturnCanGoWrong` exhibits such a run for any two agents. Convergence is therefore proved
  for runs whose joins find fresh acks, in particular (`MembershipTheorems.FirstTimersAgree`) for all runs in
  which no agent joins twice.
* Messages carry timestamps that follow causality exactly in runs in which every re-initialisation of a topic reads
  a clock not behind any message in its causal past: in such runs no message, nor any that could be published
  next, is out of order, and after any other re-initialisation the agent's next message can be
  (`Lamport.CausalMonotonicity`, with `Lamport.RejoinCanRegress` as the example).
* Two members agree about the ordering envelope exactly when the group is ordered or both or neither carry a
  timestamp left over from an earlier membership (`MembershipTheorems.OrderingAgreement`);
  `Comebacks.OrderingCanDiffer` exhibits a run in which they do not.
* Every internal request is answered once on both ids exactly when no state-socket operation fails; after
  a failure the data listener is blocked for good (`Rendezvous.RepliesExactlyOnce`, `Rendezvous.AbandonedForever`);
  `Rendezvous.FailureBlocks` exhibits such a run.
* The comment at pubsub/syncer.go:17-19 promises one order of messages with equal timestamps by sender id. The code
  replaces the stored sender id when it takes over a timestamp, so the id on a message is that of the agent its
  timestamp descends from. Two messages are told apart exactly when their values or those origins differ
  (`Lamport.ToldApart`), and any run with two initialised agents can go on to two messages under one timestamp
  (`Lamport.TimestampsCollide`).
* A member reads what a publisher sends exactly when the two agree about the ordering envelope. In
  multiple-queue mode it also receives, and fails to decrypt, copies addressed to members whose label its own
  label is a prefix of (`QueueModes.QueueModesAgree`).

## Model

| member | source | states |
|---|---|---|
| MembershipTheorems.InvStep | pubsub/agent.go:129-323 | every step of Create, Join, Leave and their handlers keeps the protocol invariant: each agent's group, filters, subscriber keys and connected endpoints, and the socket connections, are exactly what the ideal group and the messages still under way call for; whoever is connected is subscribed to the status topic, and authenticated for the publishers it is connected to |
| MembershipTheorems.Convergence | pubsub/agent.go:160-268 | in every run with fresh acks, once nothing is outstanding every member holds the same member map, parameters and checksum, non-members hold nothing, and the map lists every member active, under its own label, at its own endpoint |
| MembershipTheorems.RecordsAsDeclared | pubsub/agent.go:178-185 | in every run each record of the ideal group is the one its member declared by its own last Create or Join - active, own label, chosen flag and invitation, own endpoint - and the member has not left since |
| MembershipTheorems.JoinsNeverAbort | pubsub/agent.go:242-251 | at no moment of such a run does the consistency check turn a joiner away |
| MembershipTheorems.FilterConservation | pubsub/transport/zmq.go:433-465 | between operations an agent's data filters are one instance per other publisher of its view, as a multiset, and none outside the group |
| MembershipTheorems.ConnectionsHeld | pubsub/transport/zmq.go:352-363 | at every moment the endpoints an agent's state socket is connected to are exactly those of its connections in the protocol, dialled or established |
| MembershipTheorems.ConnectionConservation | pubsub/transport/zmq.go:467-483 | between operations every member's SUB socket is established with exactly the other members, its state socket connected to their endpoints and its data socket to the publishers'; outside the group nothing is connected |
| MembershipTheorems.ConnectedAgentsListen | pubsub/transport/zmq.go:352-363 | at every moment of a run with fresh acks an agent connected to anybody holds the status subscription, and its data socket is connected only to publishers it has been authenticated for |
| MembershipTheorems.ConnectsAreNew | pubsub/transport/zmq.go:352-369 | in every run with fresh acks neither socket of an agent is ever connected to an endpoint it is already connected to |
| MembershipTheorems.DisconnectsArePresent | pubsub/transport/zmq.go:444-505 | in every run with fresh acks no socket is ever disconnected from an endpoint it is not connected to |
| MembershipTheorems.SubscribersComplete | pubsub/processor.go:117-122 | between operations a publisher's subscriber store is exactly the other members with their connection keys |
| MembershipTheorems.HelloSafety | pubsub/agent.go:309-320 | in every run, when a joiner announces itself each listed endpoint has acked it, either before this join began or during it: an agent at that endpoint received this joiner's hello over an established connection, and after that its ack was stored, both since the join started and before the announcement |
| MembershipTheorems.OrderingAgreement | pubsub/agent.go:187-193 | two members wrap and unwrap alike if and only if the group is ordered, or both or neither began with a leftover timestamp |
| MembershipTheorems.FirstTimersAgree | pubsub/agent.go:152-154 | if no agent creates or joins twice, acks are always fresh and every member's ordering equals the group's parameter |
| MembershipOperations.EveryoneListens | pubsub/agent.go:257-264 | once all listed endpoints have acked, every member has heard the hello, is connected to the joiner and has finished connecting |
| MembershipOperations.EveryoneHears | pubsub/transport/zmq.go:420-430 | ... and is subscribed to the status topic, so the announcement is neither missed nor filtered out |
| MembershipOperations.AnnounceStep | pubsub/agent.go:539-551 | announcing sends the status to every member and moves the ideal group by exactly the joiner |
| MembershipOperations.DeliverStep | pubsub/processor.go:161-179 | handling one status, in whatever order, keeps the invariant |
| MembershipOperations.CreateStep | pubsub/agent.go:143-154 | a creator starts a group in which the invariant holds |
| MembershipOperations.JoinStartStep | pubsub/processor.go:42-86 | the acceptor's answer is the ideal group, and the invariant survives storing its parameters |
| MembershipOperations.LeaveStep | pubsub/agent.go:600-626 | leaving removes exactly the leaver from the ideal group and keeps the invariant, with farewells under way to all others |
| MembershipSteps.SubscribeStep | pubsub/processor.go:88-115 | replying to a subscribe request with one's publisher flag and checksum keeps the invariant |
| MembershipSteps.SubscribeAnswers | pubsub/processor.go:220-246 | while a join is under way every member answers with the flag under which the group lists it and the checksum of the group |
| MembershipSteps.WireStep | pubsub/agent.go:325-345 | connecting to one member, in whatever order, keeps the invariant |
| MembershipSteps.WireAuthenticates | pubsub/agent.go:325-328 | connecting to a member authenticates the data socket for it exactly when the group lists it as a publisher |
| MembershipSteps.InstallStep | pubsub/agent.go:253-255 | storing the snapshot with the joiner keeps the invariant |
| MembershipSteps.TailConnectStep | pubsub/processor.go:117-119 | a subscribe handler's late connect keeps the invariant |
| MembershipSteps.TailAddStep | pubsub/processor.go:121-122 | a subscribe handler's late store of the subscriber key keeps the invariant, also after the status has been handled |
| MembershipSteps.HelloStep | pubsub/processor.go:152-159 | a hello answered with an ack keeps the invariant |
| MembershipSteps.AckStep | pubsub/transport/peers.go:45-56 | storing an ack keeps the invariant |
| MembershipProgress.Progress | pubsub/agent.go:195-323 | in every state in order with work outstanding some step can bring the running operation forward: no operation deadlocks |
| MembershipProgress.UsefulStepsRunOut | pubsub/agent.go:309-320 | every step but a repeated hello to the same member leaves strictly less to do, so no operation goes on for ever |
| MembershipProgress.OperationsFinish | pubsub/agent.go:160-268 | from every moment of a run with fresh acks the operation under way can be completed, and then it has taken effect: the agents hold exactly the ideal group, together with the joiner if one was joining, and everybody else nothing |
| StaleAcks.SafeExactlyWhenFresh | pubsub/agent.go:309-320 | from any state in order, every interleaving of a join avoids a member that misses the joiner for good, if and only if no listed member has acked the joiner before |
| StaleAcks.DivergenceStays | pubsub/processor.go:128-180 | a member that missed the announcement is not repaired by any step short of another operation |
| StaleAcks.RejoinIsStale | pubsub/transport/peers.go:28-31 | once an agent has announced itself to a member, any later join that lists that member at the same endpoint starts with a stale ack |
| Comebacks.ReturnCanGoWrong | pubsub/agent.go:309-320 | for any two agents there is a run of create, join, leave and a second join by the same agent, all earlier joins fresh, whose second join finds a stale ack and has an interleaving that leaves the creator without the joiner for good |
| Comebacks.OrderingCanDiffer | pubsub/agent.go:191-193 | for any two agents there is a run with fresh acks after which both are in one unordered group and one of them alone uses the ordering envelope |
| JoinOutcome.JoinerHoldsJoinedView | pubsub/agent.go:220-255 | however a join was interleaved, the joiner's group, filters, keys and connections equal what the Join method computes in one go from the list, in whatever order it comes, and that method authenticates the data socket for exactly the listed publishers |
| JoinOutcome.CheckDecides | pubsub/agent.go:242-251 | the check of the interleaved protocol turns a joiner away exactly when the Join method does |
| JoinOutcome.JoinThenLeave | pubsub/agent.go:600-626 | leaving after a join takes back every filter, connection, key and the group itself; left over are exactly the timestamp of an ordered group, the acks, the authentications, and one status subscription fewer than there were members listed |
| GroupAgent.WireAllAnyOrder | pubsub/agent.go:221-240 | in whatever order the members are listed, the loop leaves a connection to every active member, one filter per active publisher, one status subscription per active member while fewer than two members are stored, an authentication for each that said it publishes and, for a publisher, the key of every active member |
| GroupAgent.JoinMeans | pubsub/agent.go:220-255 | for a listing of a snapshot the state Join leaves depends on the snapshot alone: its members with the joiner and their checksum, filters, keys and connections |
| GroupAgent.HashesAgree | pubsub/agent.go:220-243 | the hash map built by Join passes the check exactly when every active member but the acceptor reported the checksum of the snapshot |
| GroupAgent.MayJoinExactly | pubsub/agent.go:242-251 | a join goes on if and only if at most one member was listed, consistency is not asked for, or every active member but the acceptor reported the checksum of the snapshot |
| GroupAgent.PutEnumeration | pubsub/stores/group.go:29-41 | storing a listing of a member map, in any order, overrides the stored members with that map |
| GroupAgent.AddAllInstalls | pubsub/agent.go:253-255 | adding a listing of a snapshot and the joiner stores the snapshot with the joiner, which is the step the protocol takes |
| GroupAgent.Agent.Create | pubsub/agent.go:129-158 | the new state is parameters, a timestamp at the clock reading under the own id if ordered, and the creator as only member; the invitation is kept; a mode other than the two valid ones changes neither |
| GroupAgent.Agent.JoinReqs | pubsub/processor.go:42-86 | the answer is the stored parameters and a listing of the stored members; refused exactly when there are none |
| GroupAgent.Agent.Join | pubsub/agent.go:160-255 | for any list of members: done means exactly the state of authenticating and connecting to each listed active member and storing the list with the joiner, that the reported checksums matched when that was demanded, that an ordered topic restarts at the clock reading under the own id, and that the status subscription is held if an active member was listed; the invitation is kept; not done when already joined, unanswered or given an invalid mode; succeeds whenever sockets work, keys are known and the checksums match |
| GroupAgent.Agent.ConnectMember | pubsub/agent.go:325-345 | data socket authenticated if the reply says the member publishes; state socket connected, with a status subscription while fewer than two members are stored, for a publisher also the data socket and one filter more; one key more if this agent publishes; fails exactly on a socket failure or a missing key |
| GroupAgent.Agent.Leave | pubsub/agent.go:600-626 | filters of all other publishers and one status subscription taken back, connections to all other members closed, both stores emptied, and the farewell record carries the agent's publisher flag and the invitation of this group |
| GroupAgent.Agent.Subscriptions | pubsub/processor.go:88-126 | the reply is the agent's publisher flag and cached checksum, and afterwards its sockets are connected to the subscriber's endpoint, with authentication and a filter if it publishes and the status subscription at least if fewer than two members are stored, and it holds the subscriber's key |
| GroupAgent.Agent.State | pubsub/processor.go:161-179 | the new state is that of the status function for joins and for leaves, and a member never panics on a status about another |
| GroupAgent.Agent.RemoveMember | pubsub/processor.go:248-270 | a leaver's connections are closed, and its filter, key and entry removed, and nothing else |
| GroupAgent.Agent.Send | pubsub/agent.go:392-433 | refused for non-members, non-publishers and unknown topics; otherwise the published frames are one per stored subscriber, each packed for its stored key under its data topic, in some order |
| GroupAgent.Agent.Data | pubsub/processor.go:182-204 | unreadable payloads are dropped silently in single-queue mode and reported otherwise; readable ones yield sender, group and the unwrapped text |
| GroupAgent.Agent.AllConnected | pubsub/agent.go:315-320 | true exactly when every listed endpoint has been acked |
| GroupAgent.Agent.OnAck | pubsub/transport/peers.go:45-56 | an ack adds its endpoint and changes nothing else |
| GroupStore.Store.Membrs | pubsub/stores/group.go:97-113 | the stored members, each once, in some order |
| GroupStore.Store.AddMembrs | pubsub/stores/group.go:29-56 | members stored under their labels, cached checksum recomputed, other groups untouched; panics exactly for an empty result |
| GroupStore.Store.DeleteMembr | pubsub/stores/group.go:58-78 | the same for a removal; panics exactly when the last member is removed |
| GroupStore.Store.Membr | pubsub/stores/group.go:115-129 | the scan by label is a lookup by key |
| GroupStore.Store.SetParams | pubsub/stores/group.go:131-145 | parameters stored exactly for a valid mode |
| GroupStore.ReplayCurrent | pubsub/stores/group.go:43-54 | after every non-emptying history of adds and deletes the cached checksum is that of the current members |
| GroupStore.HistoryIndependence | pubsub/stores/group.go:29-78 | two histories cache the same checksum if and only if they end in the same members |
| GroupStore.AddsCommute | pubsub/stores/group.go:32-42 | adds of different labels may be reordered and repeated |
| Subscribers.Store.Add | pubsub/stores/subscriber.go:35-42 | the key is stored or replaced, other subscribers and topics keep theirs |
| Subscribers.Store.Delete | pubsub/stores/subscriber.go:44-48 | one subscriber of one topic is forgotten, nothing else |
| Validator.Order | pubsub/validator/init.go:29-47 | the loops compute the canonical list |
| Validator.OrderCanonical | pubsub/validator/init.go:29-47 | the list does not depend on the order in which a map was read |
| Validator.OrderSortedPermutation | pubsub/validator/init.go:29-47 | with distinct labels it is a label-sorted permutation |
| Validator.OrderInjective | pubsub/validator/init.go:29-47 | equal lists come from equal member sets |
| Validator.Calculate | pubsub/validator/init.go:13-27 | the base64 of the hash, intact after trimming; panics exactly for no members |
| Validator.DigestDecodes | pubsub/validator/init.go:13-27 | a checksum is the standard base64 of the hash of the listed members |
| Validator.ChecksumIdentifiesView | pubsub/validator/init.go:13-27 | equal checksums if and only if equal member maps, barring a collision on these two |
| Validator.Verify | pubsub/validator/init.go:67-94 | ok exactly when all hashes agree; otherwise the full, duplicate-free class of one hash, none smaller, at most half of all |
| Validator.ValidJoin | pubsub/validator/init.go:49-65 | consistent exactly when every hash but the acceptor's equals that of the snapshot; otherwise a minority is named |
| Validator.ConsistentJoin | pubsub/processor.go:220-246 | the check passes if and only if every contacted member but the acceptor held exactly the snapshot |
| Strings.SortCorrect | pubsub/validator/init.go:36-36 | sorting yields a sorted permutation |
| Strings.FirstDifferenceDecides | pubsub/validator/init.go:36-36 | the order is decided by the first character in which two strings differ, and a prefix comes first |
| Strings.SortForgetsOrder | pubsub/validator/init.go:36-36 | permutations sort to the same list |
| Base64.RoundTrip | didcomm/invitation/handler.go:33-44 | decoding undoes encoding in both alphabets, for all bytes |
| Base64.EncodeFollowsRfc | didcomm/did/handler.go:23-26 | letter by letter the encoding of sections 4 and 5 of RFC 4648, with its tables, bit order, zero fill and padding |
| Base64.EncodeTrimmed | didcomm/did/handler.go:23-26 | encoding into a zeroed buffer and trimming gives exactly the encoding, or panics exactly when the buffer is too short |
| Common.TrimRemovesUnusedBuffer | didcomm/did/handler.go:23-26 | trimming removes exactly the unused bytes |
| Syncer.Syncer.Init | pubsub/syncer.go:49-56 | the topic's timestamp becomes the clock reading under the agent's own id |
| Syncer.Syncer.Message | pubsub/syncer.go:81-98 | what is sent, and the stored timestamp after it, for ordered and unordered topics |
| Syncer.Syncer.Parse | pubsub/syncer.go:59-79 | what is returned, and that the stored timestamp becomes the later of the two, sender id included (Lamport.WireFollowsRun ties that to the runs) |
| Syncer.Tick | pubsub/syncer.go:89-95 | a send never goes back or behind the clock, and strictly forward exactly when clock and stored value differ |
| Syncer.TickLeast | pubsub/syncer.go:89-95 | the value after a send is the least one that meets this |
| Syncer.EnvelopesAgree | pubsub/syncer.go:58-98 | the receiver gets the sender's bytes if and only if both or neither order the topic |
| Lamport.CausalMonotonicity | pubsub/syncer.go:59-98 | if one message happens before another its LampTs is not larger, whatever is published next at any moment, if and only if no agent re-initialises the topic with a clock behind a message in its causal past |
| Lamport.WireFollowsRun | pubsub/syncer.go:49-98 | init, message and parse are the events of a run: what a Start, a Send and a Recv store is what the agent stores on init, on sending and on reading the sender's envelope, whatever its text; a reader is then behind neither the message nor itself |
| Lamport.HarshStartBreaksOrder | pubsub/syncer.go:49-56 | after a re-initialisation behind a message of its causal past, publishing at the same clock reading gives a valid run that is out of order |
| Lamport.StoredMonotonicity | pubsub/syncer.go:59-98 | the stored value at every event never decreases along happens-before, if and only if no agent re-initialises the topic behind its stored value, which is the stronger condition of the two |
| Lamport.MessageOrder | pubsub/syncer.go:81-98 | under that condition a causally later message carries an equal value exactly when its sender's clock and stored value both read it |
| Lamport.RejoinCanRegress | pubsub/syncer.go:49-56 | a concrete run in which a rejoin after the clock was set back breaks the order |
| Lamport.SenderIsOrigin | pubsub/syncer.go:72-74 | the sender id on a timestamp is the id of the agent whose initialisation it descends from through takeovers, not of the agent that publishes it |
| Lamport.ToldApart | pubsub/syncer.go:17-19 | value and sender id together tell two messages apart exactly when the values differ or the timestamps descend from different agents |
| Lamport.TimestampsCollide | pubsub/syncer.go:72-74 | every run in which two agents have initialised the topic can be continued so that both publish under one and the same value and sender id |
| Lamport.DriftBound | pubsub/syncer.go:81-98 | every stored value is at most the largest clock reading plus the number of messages, and no published one is behind its sender's clock |
| Lamport.StaysBelow | pubsub/syncer.go:91-95 | the condition under which the 64-bit counter cannot overflow |
| Cipher.ModifyNonce | crypto/cipher.go:65-78 | the loop yields exactly 24 bytes: cut, or padded with the character 0 |
| Cipher.CopyFixed | crypto/cipher.go:38-60 | keys and IVs arrive byte by byte, cut or zero-padded to the array |
| Cipher.FixedTellsApart | crypto/cipher.go:38-46 | two keys or IVs reach the cipher as one exactly when their first bytes agree |
| Packer.UnpackUndoesPack | crypto/packer.go:25-176 | for every message, key pair and random choice of any length, unpacking gives the message back and the envelope names the recipient's key |
| Packer.EnvelopeCarries | crypto/packer.go:25-89 | what travels: header, content key, nonces and sender key as chosen, each under its own coding, and the text sealed under the whole header and the first bytes of nonce and content key |
| Packer.OpensExactly | crypto/packer.go:91-176 | with an aead that refuses wrong headers, nonces and keys: around the same recipient entry, any header, nonce and key pair opens the text exactly when the header is the sender's, the nonce starts like the sender's and the pair finds a content key that starts like the sender's; nothing otherwise |
| Packer.ReadsOwnEnvelopes | prober/agent.go:372-401 | an envelope for one of our keys is read under that peer's label; one for a key we lack is not read |
| Packer.KeyManager.Peer | crypto/keys.go:60-76 | a label found by scanning holds the key, and with distinct keys it is the one |
| Packer.KeyManager.GenerateKeys | crypto/keys.go:27-36 | the peer's key pair is replaced, all others kept |
| Packer.KeyManager.GenerateInvKeys | crypto/keys.go:78-94 | one invitation key pair, kept from the first call |
| Invitation.CreateDIDDoc | didcomm/did/handler.go:20-40 | one document service per service, with its id, type, endpoint and the encoded key; panics exactly when some key exceeds 48 bytes |
| Invitation.GetPeerInfo | prober/agent.go:304-325 | the services with a decodable key, each with its first such key; an error exactly for no services |
| Invitation.FirstKey | prober/agent.go:313-321 | the first key that decodes; none exactly when none does |
| Invitation.DocumentRoundTrip | prober/agent.go:292-326 | the peer recovers exactly the services a document was made from |
| Invitation.ParseInv | didcomm/invitation/handler.go:39-68 | the buffer, trimming and service loop compute the parse of the oob value |
| Invitation.FirstServiceDecides | didcomm/invitation/handler.go:55-67 | services without recipient keys are passed over and the first with some decides alone, also when its key does not decode |
| Invitation.InvitationRoundTrip | didcomm/invitation/handler.go:21-68 | parsing the oob value of a one-service invitation returns invitation, endpoint and key; the value is the URL-safe base64 of the invitation |
| DidExchange.InvStep | prober/agent.go:131-290 | every step of every exchange keeps the invariant and touches nothing outside its pair |
| DidExchange.Symmetry | prober/agent.go:131-290 | in every run, agents that have finished hold the same thread id and each the other's current key in both services |
| DidExchange.ExchangeCanFinish | prober/agent.go:131-290 | from every state in order in which an agent can accept an invitation and the inviter can make a key, the handlers can run one after the other and leave both sides connected |
| DidExchange.AcceptStoreStep | prober/agent.go:173-179 | the bare entry is never written after the response's entry of the same exchange |
| DidExchange.RequestAnswered | prober/agent.go:182-234 | a request reaches the inviter, opens there and is answered to the requester's endpoint, sealed for its key |
| DidExchange.ResponseAccepted | prober/agent.go:242-278 | a response reaches the requester, finds this exchange's entry and opens there |
| DidExchange.ConnectionsPersist | prober/peers.go:22-26 | a finished connection is changed only by a new exchange of the same pair |
| DidExchange.InfoByServc | prober/agent.go:452-461 | the first service of a type; none exactly when there is none |
| Prober.RealWorldValid | prober/agent.go:148-158 | documents sealed with Pack and read back through Unpack and the key buffers satisfy what the exchange relies on |
| Prober.Prober.AcceptSend | prober/agent.go:131-176 | a new key for the inviter and the request made from it |
| Prober.Prober.ProcessConnReq | prober/agent.go:182-234 | the response, and a new key exactly when the request could be answered |
| Prober.Prober.ProcessConnRes | prober/agent.go:242-278 | the entry with this thread id receives the opened services; otherwise nothing changes |
| Prober.Prober.PeerByExchId | prober/peers.go:42-66 | an entry with the thread id, if and only if there is one |
| Prober.SubscriberKeysAgree | pubsub/agent.go:460-474 | the key a subscriber announces and the key the publisher finds in its entry for it are the same |
| Prober.MessagesArrive | prober/agent.go:328-401 | in every run a message goes to the peer's endpoint and is read there, and by nobody else, as the sender's exact text |
| Prober.CollectAuthMsgs | pubsub/agent.go:563-588 | the loop addresses every other member, in any order, without losing an entry; an error exactly when a member is not connected |
| Prober.PickAuthMsg | pubsub/processor.go:134-146 | the receiver's loop finds an entry it can accept if and only if there is one |
| Prober.StatusAddressing | pubsub/processor.go:134-146 | a connected addressee accepts exactly one entry, the one packed for it; others accept none |
| Prober.StatusReachesEachMember | pubsub/agent.go:553-597 | in every run each connected member accepts exactly one entry and reads it as the sender's exact text |
| Topics.GroupNameRoundTrip | pubsub/transport/zmq.go:515-534 | the group name is recovered from a data topic, in both modes, if and only if it contains no colon |
| Topics.Names | pubsub/transport/zmq.go:515-524 | the literal names of single, dedicated and status queues |
| Topics.FrameRoundTrip | pubsub/transport/zmq.go:150-155 | topic and payload are recovered from a frame, for any payload, if and only if the topic contains no space |
| Topics.DataTopicInjective | pubsub/transport/zmq.go:515-520 | dedicated queues of different publishers, subscribers or groups have different topics |
| Topics.SplitUndoesJoin | pubsub/transport/zmq.go:526-534 | splitting recovers the parts of a name |
| Transport.Transport.ListenState | pubsub/transport/zmq.go:157-220 | every internal message is answered exactly once on its state id, with exactly the connections and status subscriptions it stands for added or taken back |
| Transport.Transport.ListenData | pubsub/transport/zmq.go:267-335 | every internal message is answered exactly once on its data id, with exactly the filters and connections it stands for added or taken back |
| Transport.Transport.ConnectData | pubsub/transport/zmq.go:365-387 | for a publisher a connection to its endpoint and one filter, with publisher and subscriber by role; neither otherwise |
| Transport.Transport.UnsubscribeAllData | pubsub/transport/zmq.go:444-465 | in any order, one filter per other publisher is taken back and its endpoint disconnected |
| Transport.Transport.UnsubscribeData | pubsub/transport/zmq.go:485-498 | one filter of one publisher is taken back and its endpoint disconnected |
| Rendezvous.InvStep | pubsub/transport/zmq.go:79-115 | at every step each request exists exactly once on each side, queued, being answered or answered |
| Rendezvous.AnswersNeverRepeat | pubsub/transport/zmq.go:536-553 | in every run at most one answer per id, and an id is registered before it is looked up |
| Rendezvous.Progress | pubsub/processor.go:289-376 | while a request is pending and nobody gave up, some loop can move |
| Rendezvous.WorkDecreases | pubsub/transport/zmq.go:127-350 | the loops always run out of work |
| Rendezvous.RepliesExactlyOnce | pubsub/processor.go:289-376 | when no loop can move, every request was answered once on each id and no listener is blocked, if and only if no state operation failed |
| Rendezvous.AbandonedBlocks | pubsub/processor.go:303-306 | once nothing can move, an abandoned request has the data listener blocked on a reply that its requester will never read |
| Rendezvous.FailureBlocks | pubsub/processor.go:303-306 | a concrete run, one request whose state operation fails, ends with nothing able to move, its requester gone and the data listener blocked |
| Rendezvous.AbandonedForever | pubsub/processor.go:303-306 | a requester that returns on a state error leaves the data listener blocked for good |
| QueueModes.DedicatedPrefix | pubsub/transport/zmq.go:515-520 | a subscription takes a dedicated queue's frames exactly for the same publisher and a label it is a prefix of |
| QueueModes.StateAndDataApart | pubsub/transport/zmq.go:515-524 | no data subscription takes a status frame, and no status subscription a data frame, of any group |
| QueueModes.EachReadsOnce | pubsub/agent.go:413-427 | of all copies a connected member reads exactly one, and the others are dropped, refused or not taken as stated, if and only if it and the publisher agree about the ordering envelope |
| QueueModes.QueueModesAgree | pubsub/processor.go:182-204 | after any run with fresh acks, in both modes, each other member's sockets are connected to the publisher, and it reads exactly one copy, as the publisher's and with exactly its text, if and only if the group is ordered or both or neither carry a leftover timestamp |
| QueueModes.FirstTimersReadOnce | pubsub/agent.go:392-433 | in groups of agents that join for the first time every other member is connected to the publisher and reads exactly one copy |
| QueueModes.OutsidersTakeNothing | pubsub/transport/zmq.go:444-465 | agents outside the group take none of its frames, are connected to nobody, and nobody to them |

## Left out

- MembershipTheorems.Convergence: runs with overlapping joins or leaves, failed or retried operations and several groups sharing one socket are not covered; two joins through one acceptor that overlap can end with different views.
- MembershipTheorems.HelloSafety: acks still in flight when a joiner announces itself are discarded, since they only repeat endpoints already stored; hellos repeated by the retry loop are one hello.
- GroupAgent.Agent.Leave: the socket calls of one request succeed or fail together; a loop failing half-way is not modelled.
- GroupAgent.Agent.State: AuthMsgs and decompression precede it (see Prober.PickAuthMsg); of the ZeroMQ authenticator only the members the data socket was authenticated for are kept, not the keys, nor their removal for a leaver.
- GroupAgent.Agent.Join: waiting for DID connections and the concurrent subscribe requests come in as the collected replies; their interleavings are the protocol's, in Membership.
- GroupStore.Store.DeleteMembr: after a panic the store is described as unchanged, although the process is gone.
- DidExchange.Symmetry: the DID stored with a peer and the two JSON wrappings around a document are left out; a response waits for its entry without giving up after ten tries; one exchange at a time per pair.
- Syncer.Tick: integers are unbounded; Lamport.StaysBelow says when 64 bits suffice.
- Packer.ReadsOwnEnvelopes: an envelope without recipients, on which the original panics, is read as nothing.
- Prober.StatusReachesEachMember: asking a bare entry for a service, a nil dereference in the original, is treated as the service being absent.
- Transport.Transport.ListenState: status subscriptions are not conserved over runs; connecting adds one per member and leaving removes one, so some are left over (see JoinOutcome.JoinThenLeave).
- Transport.Transport.ConnectData: connections of a socket are a set of endpoints; MembershipTheorems.ConnectsAreNew shows that the protocol never connects twice to one.
- MembershipOperations.CreateStep: a group is created only where no agent holds one; Create itself would also run for a live topic and start a second group under its name.
- QueueModes.QueueModesAgree: labels contain no colon and no space and the group name neither; ack channels for measurements are left out.
- ZeroMQ sockets, CURVE authentication, contexts and termination messages.
- Timers, sleeps and polling: SyncAccept, SyncService and the retry loops are steps that become possible.
- URL syntax around the oob value, zstd, base58, JSON and the cryptographic primitives themselves.
- The order in which one subscriber's messages are delivered, and lost messages.
- Command line, logging, HTTP client and servers, discovery, container wiring and the measurement scripts.
