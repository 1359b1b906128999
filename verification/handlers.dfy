/** What each input does to a node in every role, and what it leaves alone. */
module Handlers {
  import opened Types
  import opened Protocol
  import opened Invariants

  /** What elections read and write of a node. */
  predicate SameOffice(n: Node, n': Node) {
    n'.role == n.role && n'.term == n.term && n'.votedFor == n.votedFor && n'.currentLeader == n.currentLeader
  }

  /** Nothing was sent or voted. */
  predicate Silent(e: Effect) {
    e.out == multiset{} && e.cast == None
  }

  /** Messages of a wrong kind, or too old to act on. */
  predicate Stale(n: Node, m: Message) {
    match m.kind
    case VoteRequest => m.term <= n.term
    case LeaderHeartbeat => m.term < n.term || (n.role == Leader && m.term == n.term)
    case VoteGranted => true
    case Custom(_) => true
  }

  /** `VoteGranted`, custom and stale messages change no office and are not answered; of the loop they
      change at most a candidate's count, by a grant of its own term. */
  lemma MessageIgnored(n: Node, m: Message)
    requires CanStep(n, Receive(m)) && LoopMatches(n) && Stale(n, m)
    ensures var e := Step(n, Receive(m));
      Silent(e) && SameOffice(n, e.node) &&
      if n.loop.InCandidate? then
        e.node.loop == InCandidate(n.loop.granted + (if m.kind == VoteGranted && m.term == n.term then 1 else 0), true)
      else e.node.loop == n.loop
  {
    match m.kind
    case VoteRequest =>
    case _ =>
  }

  /** In every role, a vote request of a higher term is voted for and answered, and makes a follower. */
  lemma VoteAnswered(n: Node, m: Message)
    requires CanStep(n, Receive(m)) && LoopMatches(n) && m.kind == VoteRequest && m.term > n.term
    ensures var e := Step(n, Receive(m));
      e.cast == Some(m.from) && e.out == multiset{Message(n.id, m.from, m.term, VoteGranted)} &&
      e.node.role == Follower && e.node.term == m.term && e.node.votedFor == Some(m.from) &&
      e.node.currentLeader == n.currentLeader
  {
  }

  /** A heartbeat that is not stale makes a follower of its term.  A node that was not a leader names the
      sender; a candidate forgets its vote. */
  lemma HeartbeatObeyed(n: Node, m: Message)
    requires CanStep(n, Receive(m)) && LoopMatches(n) && m.kind == LeaderHeartbeat && !Stale(n, m)
    ensures var e := Step(n, Receive(m));
      Silent(e) && e.node.role == Follower && e.node.term == m.term &&
      e.node.currentLeader == (if n.role == Leader then n.currentLeader else Some(m.from)) &&
      e.node.votedFor == (if n.role == Candidate then None else n.votedFor)
  {
  }

  /** A received message moves a node's term or role, or is answered, if and only if it is a heartbeat or vote
      request of a higher term, or a heartbeat that meets a candidate in its own term. */
  lemma MovesExactly(n: Node, m: Message)
    requires CanStep(n, Receive(m)) && LoopMatches(n)
    ensures var e := Step(n, Receive(m));
      e.node.term != n.term || e.node.role != n.role || !Silent(e) <==>
        ((m.kind == LeaderHeartbeat || m.kind == VoteRequest) && m.term > n.term) ||
        (m.kind == LeaderHeartbeat && n.role == Candidate && m.term == n.term)
  {
    if Stale(n, m) { MessageIgnored(n, m); }
    else if m.kind == VoteRequest { VoteAnswered(n, m); }
    else { HeartbeatObeyed(n, m); }
  }

  /** After receiving, a node that left its role is on its way to the top of `start`. */
  lemma ReceiveLoop(n: Node, m: Message)
    requires CanStep(n, Receive(m)) && LoopMatches(n)
    ensures var n' := Step(n, Receive(m)).node;
      (n.loop.InFollower? ==> n'.loop.InFollower?) &&
      (n.loop.InLeader? ==> n'.loop == if n'.role == Leader then InLeader else Idle) &&
      (n.loop.InCandidate? ==> n'.loop.InCandidate? && n'.loop.atTop) &&
      n'.id == n.id && n'.lastRole == n.lastRole && n'.notified == n.notified
  {
    match m.kind
    case VoteRequest =>
    case _ =>
  }

  /** Handlers are cut exactly where they could run, and wins exactly where the whole pass would win. */
  lemma CutsExactly(n: Node, m: Message, writes: nat, members: set<NodeID>)
    ensures CanStep(n, CutCandidate(m, writes)) <==> n.loop.InCandidate? && CanStep(n, Receive(m))
    ensures CanStep(n, CutLeader(m, writes, members)) <==> n.loop.InLeader? && CanStep(n, Receive(m))
    ensures CanStep(n, CutWin(members)) <==>
            CanStep(n, Check(members)) && n.role != Leader && Step(n, Check(members)).node.role == Leader
  {
  }

  /** `n'` has the first `k` of the writes that lead from `n` to `w`, in the order term, leader, role, vote.
      Writes that change nothing count as well. */
  predicate Prefix(n: Node, w: Node, n': Node, term: bool, leader: bool, role: bool, vote: bool) {
    n'.term == (if term then w.term else n.term) &&
    n'.currentLeader == (if leader then w.currentLeader else n.currentLeader) &&
    n'.role == (if role then w.role else n.role) &&
    n'.votedFor == (if vote then w.votedFor else n.votedFor)
  }

  lemma PartVotePrefix(n: Node, m: Message, k: nat)
    requires m.kind == VoteRequest
    ensures var w, e := HandleVoteRequest(n, m.from, m.term), PartVote(n, m.from, m.term, k);
      Prefix(n, w.node, e.node, k >= 1, true, k >= 2, k >= 2) && e.out == multiset{} &&
      e.cast == (if k >= 2 then w.cast else None) && e.node.loop == n.loop
  {
  }

  /** A candidate's cut handler has done a prefix of what the whole one does, and answers nothing: the term
      first, then for a heartbeat the leader and the role, for a vote request the role and the vote.  Its
      loop is over. */
  lemma CutCandidatePrefix(n: Node, m: Message, k: nat)
    requires CanStep(n, CutCandidate(m, k)) && LoopMatches(n)
    ensures var w, e := Step(n, Receive(m)), Step(n, CutCandidate(m, k));
      e.out == multiset{} && e.node.loop == Idle &&
      if m.kind == LeaderHeartbeat then
        Prefix(n, w.node, e.node, k >= 1, k >= 2, k >= 3, false) && e.cast == None
      else Prefix(n, w.node, e.node, k >= 1, true, k >= 2, k >= 2) && e.cast == (if k >= 2 then w.cast else None)
  {
    if m.kind == VoteRequest { PartVotePrefix(n, m, k); }
  }

  lemma PartLeaderPrefix(n: Node, m: Message, k: nat)
    requires n.loop.InLeader? && n.role == Leader
    ensures var w, e := OnLeader(n, m), PartLeader(n, m, k);
      Prefix(n, w.node, e.node, k >= 1, true, k >= 2, k >= 2) && e.out == multiset{} &&
      e.cast == (if k >= 2 then w.cast else None) && e.node.id == n.id && e.node.loop == n.loop
  {
    if m.kind == VoteRequest { PartVotePrefix(n, m, k); }
  }

  /** A leader's cut handler has done a prefix of what the whole one does, and answers nothing.  If it still
      leads, the next round goes out in the term it then has; if not, its loop is over. */
  lemma CutLeaderPrefix(n: Node, m: Message, k: nat, members: set<NodeID>)
    requires CanStep(n, CutLeader(m, k, members)) && LoopMatches(n)
    ensures var w, e := Step(n, Receive(m)), Step(n, CutLeader(m, k, members));
      Prefix(n, w.node, e.node, k >= 1, true, k >= 2, k >= 2) && e.cast == (if k >= 2 then w.cast else None) &&
      if e.node.role == Leader then
        e.out == Broadcast(n.id, e.node.term, LeaderHeartbeat, members) && e.node.loop == InLeader
      else e.out == multiset{} && e.node.loop == Idle
  {
    PartLeaderPrefix(n, m, k);
  }

  /** A timer makes a follower a candidate and sends a candidate to stand again, and does nothing else. */
  lemma TimerOnly(n: Node)
    requires LoopMatches(n)
    ensures CanStep(n, Timer) <==> n.loop.InFollower? || n.loop.InCandidate?
    ensures CanStep(n, Timer) ==>
      var e := Step(n, Timer);
      Silent(e) && e.node.loop == Idle && e.node.term == n.term && e.node.votedFor == n.votedFor &&
      e.node.currentLeader == n.currentLeader && e.node.role == (if n.role == Follower && n.loop.InFollower? then
        Candidate else n.role)
  {
  }

  /** Exactly one message of this kind and term to each member. */
  ghost predicate TellsAll(out: multiset<Message>, from: NodeID, term: nat, kind: Kind, members: set<NodeID>) {
    forall m :: out[m] == if m.from == from && m.term == term && m.kind == kind && m.to in members then 1 else 0
  }

  lemma BroadcastTellsAll(from: NodeID, term: nat, kind: Kind, members: set<NodeID>)
    ensures TellsAll(Broadcast(from, term, kind, members), from, term, kind, members)
  {
    forall m
      ensures Broadcast(from, term, kind, members)[m] ==
              if m.from == from && m.term == term && m.kind == kind && m.to in members then 1 else 0
    {
      if m.from == from && m.term == term && m.kind == kind && m.to in members {
        assert m == Message(from, m.to, term, kind);
      }
    }
  }

  /** At the top of `start` a candidate begins the next term with its own vote and asks all its members; a leader
      tells all its members; nobody else speaks, and only a candidate's office changes. */
  lemma WakesAs(n: Node, members: set<NodeID>)
    requires CanStep(n, Wake(members))
    ensures var e := Step(n, Wake(members));
      e.node.role == n.role && e.cast == (if n.role == Candidate then Some(n.id) else None) &&
      match n.role
      case Follower => SameOffice(n, e.node) && e.out == multiset{} && e.node.loop == InFollower
      case Leader => SameOffice(n, e.node) && TellsAll(e.out, n.id, n.term, LeaderHeartbeat, members) &&
                     e.node.loop == InLeader
      case Candidate =>
        e.node.term == n.term + 1 && e.node.votedFor == Some(n.id) && e.node.currentLeader == None &&
        TellsAll(e.out, n.id, n.term + 1, VoteRequest, members) && e.node.loop == InCandidate(1, true)
  {
    BroadcastTellsAll(n.id, n.term, LeaderHeartbeat, members);
    BroadcastTellsAll(n.id, n.term + 1, VoteRequest, members);
  }

  /** A round and a custom broadcast reach all members in the present term and change nothing. */
  lemma SpeaksOnly(n: Node, members: set<NodeID>, payload: nat)
    ensures n.loop.InLeader? <==> CanStep(n, Beat(members))
    ensures CanStep(n, Beat(members)) ==>
      var e := Step(n, Beat(members));
      e.node == n && e.cast == None && TellsAll(e.out, n.id, n.term, LeaderHeartbeat, members)
    ensures var e := Step(n, Say(members, payload));
      e.node == n && e.cast == None && TellsAll(e.out, n.id, n.term, Custom(payload), members)
  {
    BroadcastTellsAll(n.id, n.term, LeaderHeartbeat, members);
    BroadcastTellsAll(n.id, n.term, Custom(payload), members);
  }

  /** The quorum is the least number that is more than half of the connections and the node itself. */
  lemma QuorumIsLeastMajority(peers: nat, k: nat)
    ensures Needed(peers) <= k <==> 2 * k > peers + 1
  {
  }

  /** A candidate's pass makes it a leader if and only if its votes are more than half of the nodes it counts;
      otherwise it waits, and a node that stepped down leaves the loop. */
  lemma WinsExactly(n: Node, members: set<NodeID>)
    requires CanStep(n, Check(members)) && LoopMatches(n)
    ensures var e := Step(n, Check(members));
      (e.node.role == Leader <==> n.role == Candidate && 2 * n.loop.granted > |members| + 1) &&
      Silent(e) && e.node.term == n.term && e.node.votedFor == n.votedFor &&
      (e.node.role != Leader ==> SameOffice(n, e.node)) &&
      (e.node.role == Leader ==> e.node.currentLeader == Some(n.id)) &&
      e.node.loop == if e.node.role == Candidate then InCandidate(n.loop.granted, false) else Idle
  {
    QuorumIsLeastMajority(|members|, n.loop.granted);
  }

  /** A win cut between its two writes has made a leader that names nobody new, and nothing else. */
  lemma CutWinPrefix(n: Node, members: set<NodeID>)
    requires CanStep(n, CutWin(members))
    ensures var w, e := Step(n, Check(members)), Step(n, CutWin(members));
      Prefix(n, w.node, e.node, true, false, true, true) && e.node.role == Leader && Silent(e) && e.node.loop == Idle
  {
  }
}
