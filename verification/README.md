# Verified model of the `congress` leader election

Drawbridge ingress pods elect a leader with the `congress` crate: an election in the style of Raft
(section 5.2 of the extended Raft paper), without a log. This project models that protocol, the table of
peer connections it runs over and the byte framing underneath, and proves what they promise over every run.

## How the model is built

- `types.dfy`, `protocol.dfy`: one node as a value, and each atomic step of its three role loops as a function:
  waking at the top of `start`, a timer, a heartbeat round, one pass of the candidate's quorum check, one
  received message with its handler, and a handler that a `select!` timer drops after some of its writes.
- `handlers.dfy`: what each input does to a node in every role, and what it leaves alone: which messages are ignored,
  which requests are answered, when a candidate wins, what a cut handler has done.
- `system.dfy`: the cluster. A map of nodes, each node's own member list, a multiset of messages in flight,
  and a record of votes, candidacies, wins, role changes and messages sent, delivered and lost. A run is a
  sequence of actions: a node's step, the loss of a message, a change of a member list.
- `invariants.dfy`: what every action keeps. `elections.dfy`, `tightness.dfy`: election safety and its exact
  quorum bound. `votes.dfy`: which votes are answered, what `voted_for` remembers, where terms come from.
  `leadership.dfy`, `exceptions.dfy`, `torn.dfy`: what leaders may claim, and runs with cuts that break it.
  `convergence.dfy`, `roles.dfy`, `timing.dfy`: take-over by the leader of the highest term, role notifications,
  and the integer-clock model of leader stability.
- `senator.dfy`: the classes as the source writes them, with nested loops that overwrite shared fields. Each
  loop runs over a script of what its awaits resolve to and is proved against `protocol.dfy`.
  `refinement.dfy` ties the class to the cluster: a `Senator` started on the inputs that a run resolved at a
  node ends as that node, having sent the same messages.
- `peers.dfy`, `wire.dfy`, `handshake.dfy`: the peer table, the framed byte stream, and the 8-byte id exchange
  that puts one connection into both tables.

## Assumptions

- Delivery removes a message. The source counts `VoteGranted` without looking at its sender
  (congress/src/states/candidate.rs:76-78) and never resends (congress/src/senator.rs:149-162), so a network
  that duplicated grants is outside the model. Loss and reordering are unrestricted.
- One receive with its handler is one step, except where a `select!` can drop the handler: candidates'
  heartbeat and vote-request handlers, a candidate's win, and leaders' handlers can each be cut at their
  waits. Follower handlers run outside the `select!` future and are atomic. A dropped send has not written.
- Ids are distinct, a node does not restart under its old id, and nobody outside writes `role` or `term`.
- Terms are naturals; the source's `u64` is taken not to overflow.

## Where the code and its comments differ

- congress/src/senator.rs:240: `Ok(())?` does not return, so a connection with a lower `established_by`
  replaces the existing one, although the comments at 238-239 and 284-289 say that it is not added.
  `PeerTable.Add` and `RPCNetwork.AddPeer` follow the code; `AddByPolicy` and `AddPeerByPolicy` follow the
  comments. The policy keeps the first of the maximal offers (`PolicyKeepsFirst`), the table as written the first
  of the last block of offers by one establisher (`WrittenKeepsBlock`). The two keep the same connection to an id
  exactly when its offers come in ascending order of `established_by` (`WrittenIsPolicyExactly`).
- congress/src/states/candidate.rs:13 calls the quorum half the nodes rounded up; the formula at line 52 is
  `1 + (peers + 1) / 2`, and that is what is modelled.

## What turned out false, and exactly when it holds

- Election safety with changing member lists fails when winners count few connections. `QuorumBoundExact`:
  with N nodes and winners that counted at least m connections, every run has one winner per term if and only
  if 2 * (1 + (m + 1) / 2) > N. `PairBoundExact`: nodes that counted m and n connections can both win a term
  if and only if 1 + (m + 1) / 2 + 1 + (n + 1) / 2 <= N.
- A leader's 50 ms timer can drop its handler between the term write and the role write
  (congress/src/states/leader.rs:46-49, congress/src/senator.rs:71-73): the leader is then torn into a term
  that it did not win, and stays in office. No other cut of a leader's handler has that effect.
  - A heartbeat's term was won by its sender if and only if the sender was not torn into it
    (`HeartbeatAuthenticExactly`, `HeartbeatStepExactly`). `CutLeaderLies` is a run with such a heartbeat.
  - With overlapping quorums, the heartbeats of a term that its winner speaks in have one sender if and only if
    no other sender was torn into it (`HeartbeatsAgreeExactly`, `OneSenderExactly`). `TornLeaderSpeaks` is a run
    of three fully connected nodes in which the winner and a torn leader both send heartbeats of term 2.
  - A leader's term moves during a stay in office if and only if that leader is torn (`LeaderTermFrozen`).
  - All nodes settle on the winner of the highest term if and only if nobody is torn into it
    (`ConvergenceExactly`). `TornLeaderStays` continues that run: node 0 hears the winner twice and goes on leading.
  - Election safety holds in every such run.
- A vote is not always answered: a candidate's or leader's handler can be cut after the vote is written.
  `VotesAnsweredExactly` says that a vote for another node was answered exactly if its handler was not cut there.
- A leader does not always name itself: its win can be cut between the role and the `current_leader` write.
  `LeaderTermFrozen` says that it names itself exactly when its win was not cut; `CutWinUnnamed` is a run.
- Leaders are stable exactly when the longest gap between heartbeat rounds and the delivery bound add up to
  at most 400 ms, the smallest timeout: delivery in under 350 ms if rounds come every 50 ms (`DelayBoundExact`).
  A follower that stops hearing is patient for exactly 400 ms (`PatienceExact`), and notices within `d` ms exactly
  if `d` is at least 799 (`DetectionBoundExact`).
- A message survives framing exactly when it encodes to under 2^32 bytes (`FrameRoundTripExactly`).

## Model

| member | source | states |
|---|---|---|
| Elections.ElectionSafety | congress/src/states/candidate.rs:52-60 | Over every run, with changing member lists, loss, reordering and cut handlers of candidates and leaders: if any two different winners of a term counted enough connections for their quorums to exceed all nodes together, no term has two winners. |
| Elections.ElectionSafetyFixed | congress/src/states/candidate.rs:28-82 | With fixed full membership no hypothesis is needed: one winner per term for every cluster size. |
| Tightness.QuorumBoundExact | congress/src/states/candidate.rs:52-60 | For every set of nodes and every m, runs whose winners counted at least m connections are all safe if and only if 2 * (1 + (m + 1) / 2) exceeds the number of nodes. |
| Tightness.PairBoundExact | congress/src/states/candidate.rs:52-60 | For every set of nodes and every pair of counts of other nodes, nobody ever wins a term with m connections that another node wins with n if and only if 1 + (m + 1) / 2 + 1 + (n + 1) / 2 exceeds the number of nodes. |
| Tightness.TwoWinners | congress/src/states/candidate.rs:52-60 | Below that bound, a run exists in which two nodes win one term, having counted exactly m and n connections, and nobody else wins. |
| Elections.ElectionsMoveForward | congress/src/states/candidate.rs:28-60 | A candidacy begun after some node won term t can only win in a term greater than t, if the two quorums together exceed all nodes. |
| Elections.ElectionsMoveForwardFixed | congress/src/senator.rs:71-79 | The same with fixed full membership and no quorum hypothesis. |
| Elections.WinnersHaveMajority | congress/src/states/candidate.rs:52-60 | With fixed full membership every win is backed by recorded votes of more than half of all nodes. |
| Elections.WinsOnMajorityExactly | congress/src/states/candidate.rs:48-60 | In every reachable state, a candidate's pass makes it leader if and only if its own vote and the delivered grants are more than half of its connections and itself. |
| Handlers.QuorumIsLeastMajority | congress/src/states/candidate.rs:52 | The quorum is the least number that is more than half of the connections and the node itself. |
| Handlers.WinsExactly | congress/src/states/candidate.rs:48-60 | A pass makes a candidate leader, naming itself, if and only if twice its votes exceed its connections and itself; otherwise it waits, or leaves the loop if it stepped down; nothing else changes. |
| Handlers.VoteAnswered | congress/src/senator.rs:67-90 | In every role, a vote request of a higher term is voted for, answered with exactly one grant, and makes the node a follower of that term. |
| Handlers.MessageIgnored | congress/src/senator.rs:60-73 | In every role, custom messages, grants, and heartbeats and vote requests too old to act on change no role, term, vote or leader and are not answered; a grant of a waiting candidate's own term adds one to its count, and nothing else does. |
| Handlers.HeartbeatObeyed | congress/src/states/candidate.rs:67-72 | Any other heartbeat makes the node a follower of its term; it names the sender unless it was a leader, and a candidate forgets its vote. |
| Handlers.MovesExactly | congress/src/states/follower.rs:37-47 | A message moves a node's term or role, or is answered, if and only if it is a heartbeat or vote request of a higher term, or a heartbeat that meets a candidate in its own term. |
| Handlers.CutCandidatePrefix | congress/src/states/candidate.rs:44-73 | A candidate's cut handler has done a prefix of the whole handler's writes, in their order, answers nothing and ends the loop. |
| Handlers.CutLeaderPrefix | congress/src/states/leader.rs:33-55 | The same for leaders; one still in office sends its next round in the term it then has. |
| Handlers.CutsExactly | congress/src/states/candidate.rs:44-57 | Handlers can be cut exactly where they can run, and a win exactly where the whole pass would win. |
| Handlers.CutWinPrefix | congress/src/states/candidate.rs:56-57 | A win cut between its two writes has made a leader and left `current_leader` as it was; the term and the vote are those of the whole pass. |
| Handlers.TimerOnly | congress/src/states/follower.rs:36 | Timers run in follower and candidate loops only; a follower's makes it a candidate, and no other field changes. |
| Handlers.WakesAs | congress/src/states/candidate.rs:26-40 | At the top of `start` a candidate begins the next term with its own vote and asks each member once, a leader tells each member once, a follower is silent. |
| Handlers.SpeaksOnly | congress/src/senator.rs:92-112 | Rounds and custom broadcasts reach each member once in the present term and change nothing. |
| Elections.OneVotePerTerm | congress/src/senator.rs:67-90 | Over every run a node votes for at most one candidate in a term, itself included; every grant sent is such a vote; every candidacy is a vote for itself; no message carries a term above its sender's. |
| Votes.VotesAnsweredExactly | congress/src/senator.rs:75-89 | Over every run, with any handler cut, a vote for another node was answered by a grant if and only if its handler was not cut between the vote and the answer. |
| Votes.VotedForIsLastVote | congress/src/senator.rs:75-79 | Over every run, whoever `voted_for` names is the candidate of the node's vote in its highest term. |
| Votes.TermsAreBegun | congress/src/states/candidate.rs:28-30 | Over every run, every positive term that a node has or a message carries was begun by some candidacy. |
| Elections.RunGrows | congress/src/senator.rs:70-79 | Over every run terms never decrease, records only grow, and every later vote is in a term above the one its voter had. |
| Elections.VotedForIsNeverRead | congress/src/senator.rs:75-79 | Two nodes that differ only in `voted_for` take every step alike and send the same. |
| Elections.CounterRefinesVoters | congress/src/states/candidate.rs:76-78 | In every reachable state a candidate's `votes_granted` is one plus the distinct other nodes whose grant for this candidacy was delivered, all of which voted for it; messages sent are delivered, in flight or lost, and no grant is sent twice. |
| Invariants.KeepInv | congress/src/senator.rs:67-90 | Every action keeps, together: conservation of messages, terms bounding every message and vote, one vote per term, every grant a recorded vote sent once, every request and vote from a begun candidacy, the counter equal to the delivered grants plus one, and every win backed by enough voters. |
| Invariants.StepHonest | congress/src/states/follower.rs:26-49 | Each step of a node never lowers its term, sends only in its own name and new term, and votes only in a strictly higher term, for itself on waking or for the sender of the vote request it took. |
| Leadership.HeartbeatAuthenticExactly | congress/src/states/leader.rs:26-58 | Over every run, with any handler cut and any member lists, a heartbeat carries a term its sender won if and only if its sender was not torn into that term. |
| Leadership.HeartbeatStepExactly | congress/src/states/leader.rs:33-55 | From a state reached without tears, a step keeps every heartbeat sent authentic if and only if it does not tear a leader that has members to tell. |
| Leadership.HeartbeatsAuthentic | congress/src/states/leader.rs:26-31 | In runs that tear no leader, whatever other cuts they make, every heartbeat carries a term its sender won. |
| Leadership.NamedLeadersAuthentic | congress/src/states/follower.rs:41-45 | Over every run, with any handler cut, every `current_leader` names a node that won a term no greater than the holder's. |
| Leadership.HeartbeatsAgreeExactly | congress/src/states/leader.rs:26-58 | When winners' quorums overlap, a heartbeat of a term that its sender won has the same sender as another heartbeat of that term if and only if the other's sender was not torn into it. |
| Leadership.OneSenderExactly | congress/src/states/leader.rs:26-58 | A term that its winner sends heartbeats in has one sender of heartbeats if and only if no sender was torn into it. |
| Leadership.LeaderTermFrozen | congress/src/states/leader.rs:26-58 | Over every stay in office, whatever happens elsewhere, a leader's term moves if and only if that leader is torn, and whom it names never changes; it won its term exactly if it was not torn into it, and then names itself exactly if its win was not cut. |
| Leadership.LeaderTermMovesExactly | congress/src/states/leader.rs:33-55 | A step leaves a leader in office with another term if and only if it cuts a heartbeat or vote-request handler of a higher term right after the term write. |
| Exceptions.CutLeaderLies | congress/src/states/leader.rs:46-49 | A run in which a cut leader handler leads to a heartbeat in a term that nobody won. |
| TornRuns.TornLeaderSpeaks | congress/src/states/leader.rs:46-50 | A run of three nodes with fixed full lists and quorate wins in which two nodes send heartbeats of one term, one of them its winner. |
| Exceptions.CutWinUnnamed | congress/src/states/candidate.rs:56-57 | A run in which a cut win leaves a leader without a `current_leader`. |
| Convergence.TwoHeartbeatsConverge | congress/src/states/leader.rs:46-49 | While no election timer fires and some node leads in the highest term, a term no pending candidate can pass, then whatever else is delivered, lost or cut: if in the end nobody else leads in that term, every other node that heard that leader twice is a follower in its term that names it, and one heard once is a follower in its term; the leader stays. |
| Convergence.SoleLeaderExactly | congress/src/states/candidate.rs:52-60 | When winners' quorums overlap, a winner of the highest term leads in it alone if and only if no other leader was torn into it. |
| Convergence.ConvergenceExactly | congress/src/states/leader.rs:33-55 | When winners' quorums overlap and every other node heard the winner of the highest term twice, all of them have settled on it if and only if no leader was torn into that term in the whole run. |
| TornRuns.TornLeaderStays | congress/src/states/leader.rs:46-50 | A run with fixed full lists and quorate wins, a winner of the highest term, no timer and two heartbeats heard by everyone, after which a torn leader has not settled. |
| Convergence.FirstHeartbeat | congress/src/states/candidate.rs:67-72 | The first such heartbeat also sets `current_leader` exactly if the node was not a leader (or named that leader already): why two rounds are needed. |
| Roles.ExactRoleReporting | congress/src/senator.rs:22-47 | Over every run the `on_role` notifications are the role changes, each once and in order, except at most the one made since the present loop was entered; the changes form a path in Follower to Candidate, Candidate to Leader or Follower, Leader to Follower. |
| Roles.WakingReportsAll | congress/src/senator.rs:26-35 | At the top of `start` every change so far is reported. |
| Roles.StepRole | congress/src/states/follower.rs:26-36 | A step changes the role only along an edge and only when no change is unreported, so each role loop returns after at most one change. |
| Roles.RetryAddsNothing | congress/src/states/candidate.rs:44-45 | A candidate whose timer fires stands again in the next term with one vote and reports nothing. |
| Timing.LeaderStability | congress/src/states/follower.rs:31-44 | With no loss, and heartbeat gap and delivery bound adding up to at most 400 ms, from one leader and followers that just accepted a heartbeat, and any messages up to the leader's term in flight, no election timer ever runs out and no role or term changes. |
| Timing.DelayBoundExact | congress/src/utils.rs:5-9 | For every round gap of at least the 50 ms a leader sleeps and every delivery bound, all such runs are stable if and only if the two add up to at most 400 ms. |
| Timing.DetectionBoundExact | congress/src/utils.rs:5-9 | In every play, a follower that accepted a heartbeat and none after it has its timer due d ms later, if and only if d is at least 799. |
| Timing.PatienceExact | congress/src/utils.rs:5-9 | In every play, its timer is never due before d ms have passed, if and only if d is at most 400. |
| Timing.TimeoutsExactly | congress/src/senator.rs:44-45 | A timeout is set anew, to 400 up to 799 ms from then, exactly when a follower accepts a heartbeat or a role loop returns to the top of `start`. |
| Timing.RoundsExactly | congress/src/states/leader.rs:30-34 | A step that sends a heartbeat is a round to all members, whose instant is recorded. |
| Congress.Senator.Start | congress/src/senator.rs:19-48 | The loop of `start`, with the three role loops it runs, turns the object into what replaying the script of its resolved awaits gives, outbox included. |
| Congress.Senator.HandleVoteRequest | congress/src/senator.rs:67-90 | A request of a higher term that is not cut makes a follower of that term with this vote and one grant sent; an older one changes nothing; a cut one sends nothing. Whole or cut after any of its waits, the handler ends in the state and outbox of the specification function. |
| Congress.Senator.BroadcastMessage | congress/src/senator.rs:92-112 | One message in the present term to each member. |
| Congress.CandidateLoop.Run | congress/src/states/candidate.rs:26-84 | The candidate's setup and message loop reach the same state as the atomic steps, and return to the top of `start` or use up the script. |
| Congress.CandidateLoop.Pass | congress/src/states/candidate.rs:48-60 | One pass steps down, waits, or wins, and wins exactly with more than half of its connections and itself; `votes_needed` is the least such number. |
| Congress.FollowerLoop.Run | congress/src/states/follower.rs:20-51 | The follower's loop does the atomic steps in order, and returns only to the top of `start` or at the end of the script. |
| Congress.LeaderLoop.Run | congress/src/states/leader.rs:19-58 | The leader's nested loops do the atomic steps, with a round on each resumption of the outer loop, and return only to the top of `start` or at the end of the script. |
| Refinement.RunIsReplay | congress/src/senator.rs:114-126 | For every run and node, replaying that node's inputs from the constructor's state gives its state in the cluster and exactly the messages the cluster records as sent by it. |
| Refinement.RunSenator | congress/src/senator.rs:19-48 | So a `Senator` object started on those inputs ends as that node of the cluster. |
| PeerTable.OpenConnectionsAreTheTable | congress/src/senator.rs:190-208 | After any add and remove calls, under either reading of line 240, a close channel is unused and held if and only if a table entry holds it, and every entry is under its own id and established by us or by that peer. |
| PeerTable.RPCNetwork.Members | congress/src/senator.rs:164-166 | The list a quorum is counted from has the table's ids, as many as there are open connections. |
| PeerTable.MembersAreOpen | congress/src/senator.rs:164-208 | One open connection per peer makes members and open connections equal in number. |
| PeerTable.AddKeeps | congress/src/senator.rs:212-246 | Adding a peer, as written or by the policy, keeps one open connection per peer. |
| PeerTable.AnswersExactly | congress/src/senator.rs:212-246 | As written, the answer is Ok if and only if the call opens a new channel, and otherwise nothing changes; it is the duplicate error exactly if the table holds a connection to that id by the same establisher. |
| PeerTable.PolicyAnswersExactly | congress/src/senator.rs:284-289 | By the policy, the answer is Ok if and only if the entry afterwards is the offer on a new channel or was established by a strictly higher id, and otherwise nothing changes. |
| PeerTable.ChannelsExactly | congress/src/senator.rs:190-246 | Over any calls a close channel was signalled if and only if some call removed its entry or offered a higher connection, and was lost without a signal if and only if, as written, a lower offer replaced its entry; by the policy none is ever lost. |
| PeerTable.ClosesOnly | congress/src/senator.rs:190-208 | Removal takes out one entry, signals its channel, and leaves all others. |
| PeerTable.PolicyKeepsMaximum | congress/src/senator.rs:284-289 | By the policy, an id is in the table exactly if an acceptable offer for it came, and its entry is one of the offers with the highest `established_by`. |
| PeerTable.PolicyKeepsFirst | congress/src/senator.rs:284-289 | By the policy, the kept connection is the first of the offers with the highest `established_by`. |
| PeerTable.PolicyIgnoresOrder | congress/src/senator.rs:284-289 | By the policy, tables that were offered the same connections, in any order and with any repetition, have entries for the same ids established by the same nodes, and keep the same connection unless one was redialled by its dialler. |
| PeerTable.PolicyOrderExactly | congress/src/senator.rs:284-289 | By the policy, two orders of offers keep the same connection if and only if their first maximal offers are the same. |
| PeerTable.BothEndsAgree | congress/src/senator.rs:212-246 | By the policy, two nodes with one connection dialled by each both keep the one dialled by the node with the higher id. |
| PeerTable.WrittenKeepsLast | congress/src/senator.rs:225-246 | As written, an entry has the `established_by` of the last acceptable offer. |
| PeerTable.WrittenKeepsBlock | congress/src/senator.rs:225-246 | As written, the kept connection is the first of the last block of offers by one establisher. |
| PeerTable.WrittenIsPolicyExactly | congress/src/senator.rs:237-246 | For different connections, the table as written has entries for the same ids as the policy, and keeps the same connection if and only if the offers for that id come in ascending order of `established_by`. |
| PeerTable.WrittenMeetsPolicyExactly | congress/src/senator.rs:237-246 | As written, an entry has the policy's `established_by` if and only if the last acceptable offer is a maximum. |
| PeerTable.FallThroughExactly | congress/src/senator.rs:237-246 | One call as written does what the policy says if and only if the fall-through branch is not taken. |
| PeerTable.WrittenEndsAgreeExactly | congress/src/senator.rs:225-246 | As written, both ends keep the same connection if and only if their last offers were established by the same node. |
| PeerTable.WrittenEndsDiffer | congress/src/senator.rs:237-246 | A run in which the two ends, as written, keep different connections. |
| PeerTable.RPCNetwork.AddPeer | congress/src/senator.rs:212-281 | The method as written; it answers Ok exactly when it opens a channel and otherwise changes nothing, and it keeps the invariant. |
| PeerTable.RPCNetwork.AddPeerByPolicy | congress/src/senator.rs:284-289 | The same for the policy in the comments, where an error changes nothing. |
| PeerTable.RPCNetwork.RemovePeer | congress/src/senator.rs:185-208 | Removal takes the entry out and signals its close channel, and nothing else. |
| PeerTable.RPCNetwork.SendMsg | congress/src/senator.rs:149-162 | A message that cannot be written removes its peer; otherwise the table is unchanged. |
| Wire.FrameRoundTripExactly | congress/src/peer.rs:26-57 | A sent message is read back with exactly the following bytes left if and only if it encodes to under 2^32 bytes. |
| Wire.StreamRoundTrip | congress/src/peer.rs:26-57 | Writing the id and any list of such messages and reading gives that id and that list, and uses every byte. |
| Wire.StreamPrefixSafe | congress/src/peer.rs:26-41 | A stream cut after any number of bytes yields the id once 8 bytes are there and exactly the messages wholly received, never a wrong one. |
| Wire.BigEndianExact | congress/src/peer.rs:51 | A number written in w bytes is read back if and only if it is below 256^w. |
| Wire.FirstByteLeads | congress/src/peer.rs:33 | The first byte is the most significant: a byte in front of n others adds that byte times 256^n. |
| Wire.FrameLayout | congress/src/peer.rs:51-54 | A frame is four bytes, the most significant first, whose number is the payload's length modulo 2^32, and then the payload. |
| Wire.HelloLayout | drawbridge_ingress/src/leadership_system.rs:218-222 | The id on the wire is its eight base-256 digits, the most significant first. |
| Wire.ReadsExactly | congress/src/peer.rs:26-41 | For every stream, a read meets the end if and only if no whole frame is in front; otherwise it gives the message of that frame's payload and the bytes behind it, or a bad message if the payload has none. |
| Wire.Connection.SendMsg | congress/src/peer.rs:43-57 | Appends one frame, whose bytes `FrameLayout` gives, or nothing when the message does not serialize. |
| Wire.Connection.ReadMsg | congress/src/peer.rs:26-41 | Reads one frame, or reports the end of the stream or a bad payload. |
| Wire.Connection.Pump | congress/src/senator.rs:250-278 | The peer task's loop hands on exactly the messages of the stream up to its first read error. |
| Wire.SendAndPump | congress/src/peer.rs:26-57 | Messages sent on one end, each under 2^32 bytes encoded, are what the other end's task hands on, in order. |
| Handshake.EndsNameTheDialler | drawbridge_ingress/src/leadership_system.rs:148-152 | The id that the dialler writes is the id that the accepting end reads, whatever follows the 8 bytes. |
| Handshake.LeadershipSystem.HandleConnection | drawbridge_ingress/src/leadership_system.rs:141-155 | The accepting end changes the table as for a peer established by the id it read, or not at all when 8 bytes never come; it joins exactly when a channel was opened, and otherwise passes the refusal on. |
| Handshake.LeadershipSystem.AddPeer | drawbridge_ingress/src/leadership_system.rs:205-231 | The dialling end writes its id and changes the table as for a peer established by itself; it joins exactly when a channel was opened, and otherwise passes the refusal on. |
| Handshake.Connect | drawbridge_ingress/src/leadership_system.rs:141-231 | Dialling a node that does not know us leaves the connection in both tables, established by us. |

## Left out

- Tokio tasks, locks, channels and sockets: they are atomic steps, a multiset network and a state per close channel.
- Overflow of the `u64` term: terms are naturals.
- `from_role` in messages, which nothing in the election reads.
- The payload codec: it is any pair of functions of which the second undoes the first.
- Listeners on `on_role` and `on_message`: a notification is recorded; what a listener does is not modelled. Custom messages are steps that change no election state.
- `next_timeout` outside `timing.dfy`: in the untimed model a timer may fire at any time. In `timing.dfy` only followers' timers are bound to the clock; a candidate's may fire at any time.
- A peer task that ends by itself: its entry stays in the table, as in the source, and its end is not a step.
- Partial writes of a frame: sends run to completion.
- The race in which a failed send removes a peer by id after it was replaced: the convergence of the two tables is about runs of `add_peer` without removals.
- Retrying the TCP connection in `LeadershipSystem::add_peer`, and the hash that turns a pod name into an id.
- The ACME client, the TLS acceptor, the proxy, the Kubernetes watcher and certificate storage.
- A claim that only one node generates certificates at a time: the role is checked once and generation goes on after leadership is lost, so the code does not decide it.
