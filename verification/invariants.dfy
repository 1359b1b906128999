/** What every step of the cluster keeps, whichever handlers are cut and whatever is lost. */
module Invariants {
  import opened Types
  import opened Protocol
  import opened System

  /** The nodes that voted for `c` in term `t`. */
  function Voters(s: State, c: NodeID, t: nat): set<NodeID> {
    set v | v in s.nodes && Vote(v, t, c) in s.votes
  }

  /** The nodes whose grant for candidacy `(c, t)` has been delivered. */
  function Granters(s: State, c: NodeID, t: nat): set<NodeID> {
    set v | v in s.nodes && Message(v, c, t, VoteGranted) in s.delivered
  }

  predicate Standing(n: Node) {
    n.loop.InCandidate? && n.role == Candidate
  }

  ghost predicate Shape(s: State) {
    s.members.Keys == s.nodes.Keys == s.changes.Keys &&
    forall i | i in s.nodes :: s.nodes[i].id == i
  }

  /** Nothing is duplicated or invented: every message sent is delivered, in flight or lost. */
  ghost predicate Conserved(s: State) {
    s.sent == s.delivered + s.net + s.lost
  }

  ghost predicate TermsBounded(s: State) {
    forall m | m in s.sent :: m.from in s.nodes && m.term <= s.nodes[m.from].term
  }

  ghost predicate VotesBounded(s: State) {
    forall v | v in s.votes :: v.voter in s.nodes && v.term <= s.nodes[v.voter].term
  }

  ghost predicate OneVote(s: State) {
    forall v, w | v in s.votes && w in s.votes && v.voter == w.voter && v.term == w.term :: v.candidate == w.candidate
  }

  ghost predicate GrantsAreVotes(s: State) {
    forall m | m in s.sent && m.kind == VoteGranted ::
      Vote(m.from, m.term, m.to) in s.votes && s.sent[m] == 1 && m.from != m.to
  }

  ghost predicate RequestsBegun(s: State) {
    forall m | m in s.sent && m.kind == VoteRequest :: Candidacy(m.from, m.term) in s.begun
  }

  ghost predicate VotesBegun(s: State) {
    (forall v | v in s.votes :: Candidacy(v.candidate, v.term) in s.begun) &&
    (forall c | c in s.begun :: Vote(c.node, c.term, c.node) in s.votes)
  }

  /** A standing candidate's counter is one plus the distinct nodes whose grants arrived. */
  ghost predicate CountedAt(s: State, i: NodeID)
    requires i in s.nodes
  {
    Standing(s.nodes[i]) ==>
      Candidacy(i, s.nodes[i].term) in s.begun &&
      s.nodes[i].loop.granted == 1 + |Granters(s, i, s.nodes[i].term)|
  }

  ghost predicate Counted(s: State) {
    forall i | i in s.nodes :: CountedAt(s, i)
  }

  /** A win has the votes of as many nodes as the quorum of the connections it counted. */
  ghost predicate Backed(s: State, w: Win) {
    w.node in s.nodes && Needed(w.size) <= |Voters(s, w.node, w.term)|
  }

  ghost predicate WinsBacked(s: State) {
    forall w | w in s.wins :: Backed(s, w)
  }

  /** A role loop runs only in its role; the candidate's may see a step-down at its next pass. */
  predicate LoopMatches(n: Node) {
    match n.loop
    case Idle => true
    case InFollower => n.role == Follower
    case InLeader => n.role == Leader
    case InCandidate(_, top) => n.role == Candidate || (n.role == Follower && top)
  }

  ghost predicate LoopsMatch(s: State) {
    forall i | i in s.nodes :: LoopMatches(s.nodes[i])
  }

  ghost predicate Inv(s: State) {
    Shape(s) && Conserved(s) && TermsBounded(s) && VotesBounded(s) && OneVote(s) && GrantsAreVotes(s) &&
    RequestsBegun(s) && VotesBegun(s) && Counted(s) && WinsBacked(s) && LoopsMatch(s)
  }

  /** What one atomic step of a node guarantees about votes, terms and messages. */
  ghost predicate Honest(n: Node, e: Effect) {
    e.node.id == n.id && n.term <= e.node.term &&
    (e.cast.Some? ==> n.term < e.node.term) &&
    (forall m | m in e.out ::
      m.from == n.id && m.term == e.node.term && e.out[m] == 1 &&
      (m.kind == VoteRequest ==> e.cast == Some(n.id)) &&
      (m.kind == VoteGranted ==> e.cast == Some(m.to)))
  }

  /** A vote is cast on waking as a candidate, or for the sender of a vote request just taken. */
  ghost predicate VoteAsked(n: Node, input: Input, e: Effect) {
    e.cast.Some? ==>
      if input.Wake? then e.cast == Some(n.id)
      else (input.Receive? || input.CutCandidate? || input.CutLeader?) &&
           input.msg.kind == VoteRequest && input.msg.term == e.node.term && e.cast == Some(input.msg.from)
  }

  lemma BroadcastHonest(from: NodeID, term: nat, kind: Kind, members: set<NodeID>)
    ensures forall m | m in Broadcast(from, term, kind, members) ::
      m.from == from && m.term == term && m.kind == kind && Broadcast(from, term, kind, members)[m] == 1
  {
  }

  lemma WakeHonest(n: Node, members: set<NodeID>)
    ensures Honest(n, WakeUp(n, members)) && VoteAsked(n, Wake(members), WakeUp(n, members))
  {
    BroadcastHonest(n.id, n.term, LeaderHeartbeat, members);
    BroadcastHonest(n.id, n.term + 1, VoteRequest, members);
  }

  lemma SpeakHonest(n: Node, kind: Kind, members: set<NodeID>)
    requires kind.LeaderHeartbeat? || kind.Custom?
    ensures Honest(n, Effect(n, Broadcast(n.id, n.term, kind, members), None))
  {
    BroadcastHonest(n.id, n.term, kind, members);
  }

  lemma ReceiveHonest(n: Node, m: Message)
    requires CanStep(n, Receive(m))
    ensures Honest(n, Step(n, Receive(m))) && VoteAsked(n, Receive(m), Step(n, Receive(m)))
  {
    match m.kind
    case VoteRequest =>
    case LeaderHeartbeat =>
    case VoteGranted =>
    case Custom(_) =>
  }

  lemma ResumeHonest(n: Node, e: Effect, members: set<NodeID>)
    requires Honest(n, e) && (e.node.role == Leader ==> e.cast == None)
    ensures Honest(n, Resume(e, members))
  {
    BroadcastHonest(n.id, e.node.term, LeaderHeartbeat, members);
  }

  lemma PartLeaderHonest(n: Node, m: Message, writes: nat)
    ensures var e := PartLeader(n, m, writes);
            Honest(n, e) && (e.node.role == Leader ==> e.cast == None) &&
            (e.cast.Some? ==> m.kind == VoteRequest && m.term == e.node.term && e.cast == Some(m.from))
  {
    match m.kind
    case VoteRequest =>
    case LeaderHeartbeat =>
    case VoteGranted =>
    case Custom(_) =>
  }

  lemma StepHonest(n: Node, input: Input)
    requires CanStep(n, input)
    ensures Honest(n, Step(n, input)) && VoteAsked(n, input, Step(n, input))
  {
    match input
    case Wake(ms) => WakeHonest(n, ms);
    case Timer =>
    case Beat(ms) => SpeakHonest(n, LeaderHeartbeat, ms);
    case Check(_) =>
    case Receive(m) => ReceiveHonest(n, m);
    case CutCandidate(_, _) =>
    case CutWin(_) =>
    case CutLeader(m, k, ms) =>
      PartLeaderHonest(n, m, k);
      ResumeHonest(n, PartLeader(n, m, k), ms);
    case Say(ms, payload) => SpeakHonest(n, Custom(payload), ms);
  }

  lemma InitInv(members: map<NodeID, set<NodeID>>)
    ensures Inv(Init(members))
  {
  }

  lemma KeepShape(s: State, a: Action)
    requires Shape(s) && Enabled(s, a)
    ensures Shape(Apply(s, a))
  {
    if a.Local? { StepHonest(s.nodes[a.node], a.input); }
  }

  lemma KeepConserved(s: State, a: Action)
    requires Shape(s) && Conserved(s) && Enabled(s, a)
    ensures Conserved(Apply(s, a))
  {
    if a.Local? {
      assert Taken(a.input) <= s.net;
    }
  }

  lemma KeepTermsBounded(s: State, a: Action)
    requires Shape(s) && TermsBounded(s) && Enabled(s, a)
    ensures TermsBounded(Apply(s, a))
  {
    if a.Local? { StepHonest(s.nodes[a.node], a.input); }
  }

  lemma KeepVotes(s: State, a: Action)
    requires Shape(s) && VotesBounded(s) && OneVote(s) && Enabled(s, a)
    ensures VotesBounded(Apply(s, a)) && OneVote(Apply(s, a))
  {
    if a.Local? { StepHonest(s.nodes[a.node], a.input); }
  }

  /** A message that a node takes off the network was sent to that node. */
  lemma TakenWasSent(s: State, i: NodeID, input: Input, m: Message)
    requires Shape(s) && Conserved(s) && Enabled(s, Local(i, input)) && m in Taken(input)
    ensures m in s.sent && m.to == i
  {
  }

  lemma KeepGrants(s: State, a: Action)
    requires Shape(s) && Conserved(s) && TermsBounded(s) && GrantsAreVotes(s) && Enabled(s, a)
    ensures GrantsAreVotes(Apply(s, a))
  {
    if a.Local? {
      var i, n := a.node, s.nodes[a.node];
      var e, s' := Step(n, a.input), Apply(s, a);
      StepHonest(n, a.input);
      forall m | m in s'.sent && m.kind == VoteGranted
        ensures Vote(m.from, m.term, m.to) in s'.votes && s'.sent[m] == 1 && m.from != m.to
      {
        if m in e.out {
          assert m !in s.sent;
          assert !a.input.Wake?;
          TakenWasSent(s, i, a.input, a.input.msg);
        }
      }
    }
  }

  lemma KeepBegun(s: State, a: Action)
    requires Shape(s) && Conserved(s) && RequestsBegun(s) && VotesBegun(s) && Enabled(s, a)
    ensures RequestsBegun(Apply(s, a)) && VotesBegun(Apply(s, a))
  {
    if a.Local? {
      var i, n := a.node, s.nodes[a.node];
      var e, s' := Step(n, a.input), Apply(s, a);
      StepHonest(n, a.input);
      if e.cast.Some? && !a.input.Wake? {
        TakenWasSent(s, i, a.input, a.input.msg);
      }
      assert s'.votes == s.votes + VotesOf(i, e);
    }
  }

  lemma StepLoop(n: Node, input: Input)
    requires CanStep(n, input) && LoopMatches(n)
    ensures LoopMatches(Step(n, input).node)
  {
    match input
    case Wake(_) =>
    case Timer =>
    case Beat(_) =>
    case Check(_) =>
    case Receive(m) =>
    case CutCandidate(_, _) =>
    case CutWin(_) =>
    case CutLeader(_, _, _) =>
    case Say(_, _) =>
  }

  lemma KeepLoops(s: State, a: Action)
    requires Shape(s) && LoopsMatch(s) && Enabled(s, a)
    ensures LoopsMatch(Apply(s, a))
  {
    if a.Local? { StepLoop(s.nodes[a.node], a.input); }
  }

  lemma SubsetSize<T>(a: set<T>, b: set<T>)
    requires a <= b
    ensures |a| <= |b|
  {
    assert b == a + (b - a);
  }

  /** A node stands after a step only if it has just begun, or stood before in the same term. */
  lemma StepStanding(n: Node, input: Input)
    requires CanStep(n, input) && LoopMatches(n) && Standing(Step(n, input).node)
    ensures var e := Step(n, input);
      if input.Wake? then
        e.node.term == n.term + 1 && e.node.loop == InCandidate(1, true) && e.cast == Some(n.id)
      else
        Standing(n) && e.node.term == n.term &&
        e.node.loop.granted == n.loop.granted +
          (if input.Receive? && input.msg.kind == VoteGranted && input.msg.term == n.term then 1 else 0)
  {
    match input
    case Wake(_) =>
    case Timer =>
    case Beat(_) =>
    case Check(_) =>
    case Receive(m) =>
    case CutCandidate(_, _) =>
    case CutWin(_) =>
    case CutLeader(_, _, _) =>
    case Say(_, _) =>
  }

  /** Votes and grants are only ever for terms their candidate has reached. */
  lemma VoteReached(s: State, v: Vote)
    requires VotesBounded(s) && VotesBegun(s) && v in s.votes && v.candidate in s.nodes
    ensures v.term <= s.nodes[v.candidate].term
  {
    assert Candidacy(v.candidate, v.term) in s.begun;
  }

  lemma NoEarlyGrants(s: State, c: NodeID, t: nat)
    requires Conserved(s) && VotesBounded(s) && GrantsAreVotes(s) && VotesBegun(s)
    requires c in s.nodes && s.nodes[c].term < t
    ensures Granters(s, c, t) == {}
  {
    forall v | v in s.nodes ensures v !in Granters(s, c, t) {
      if Message(v, c, t, VoteGranted) in s.sent { VoteReached(s, Vote(v, t, c)); }
    }
  }

  /** A grant that arrives was never counted before. */
  lemma FreshGrant(s: State, i: NodeID, m: Message)
    requires Shape(s) && Conserved(s) && GrantsAreVotes(s) && TermsBounded(s)
    requires m in s.net && m.to == i && m.kind == VoteGranted
    ensures m.from in s.nodes && m !in s.delivered
  {
    assert s.sent[m] == s.delivered[m] + s.net[m] + s.lost[m];
  }

  /** What a node takes off the network does not touch the grants delivered to others. */
  lemma CountedElsewhere(s: State, a: Action, j: NodeID)
    requires Shape(s) && Enabled(s, a) && j in s.nodes && CountedAt(s, j)
    requires a.Local? ==> a.node != j
    ensures CountedAt(Apply(s, a), j)
  {
    if a.Local? {
      LocalMoves(s, a.node, a.input);
      CountedOthers(s, Apply(s, a), a.node, a.input, Step(s.nodes[a.node], a.input), j);
    }
  }

  lemma CountedOthers(s: State, u: State, i: NodeID, input: Input, e: Effect, j: NodeID)
    requires j in s.nodes && CountedAt(s, j) && i != j && Moved(s, u, i, input, e)
    requires forall m | m in Taken(input) :: m.to == i
    ensures CountedAt(u, j)
  {
    var t := s.nodes[j].term;
    assert Granters(u, j, t) == Granters(s, j, t);
  }

  lemma CountedBegin(s: State, i: NodeID, ms: set<NodeID>)
    requires Inv(s) && Enabled(s, Local(i, Wake(ms)))
    ensures CountedAt(Apply(s, Local(i, Wake(ms))), i)
  {
    var s', t := Apply(s, Local(i, Wake(ms))), s.nodes[i].term + 1;
    NoEarlyGrants(s, i, t);
    assert Granters(s', i, t) == Granters(s, i, t);
  }

  lemma GrantersReceive(s: State, s': State, i: NodeID, m: Message, e: Effect, t: nat)
    requires Shape(s) && Conserved(s) && GrantsAreVotes(s) && TermsBounded(s)
    requires m in s.net && m.to == i && Moved(s, s', i, Receive(m), e)
    ensures Granter(m, t) !! Granters(s, i, t)
    ensures Granters(s', i, t) == Granters(s, i, t) + Granter(m, t)
  {
    assert s'.nodes.Keys == s.nodes.Keys && s'.delivered == s.delivered + multiset{m};
    if m.kind == VoteGranted && m.term == t {
      FreshGrant(s, i, m);
      assert m == Message(m.from, i, t, VoteGranted);
    }
    assert Granters(s', i, t) == Granters(s, i, t) + Granter(m, t);
  }

  /** A standing candidate that counts exactly the new granters stays counted. */
  lemma CountOn(s: State, s': State, i: NodeID, more: set<NodeID>)
    requires i in s.nodes && i in s'.nodes && CountedAt(s, i)
    requires Standing(s.nodes[i]) && Standing(s'.nodes[i]) && s'.nodes[i].term == s.nodes[i].term
    requires s.begun <= s'.begun && more !! Granters(s, i, s.nodes[i].term)
    requires Granters(s', i, s.nodes[i].term) == Granters(s, i, s.nodes[i].term) + more
    requires s'.nodes[i].loop.granted == s.nodes[i].loop.granted + |more|
    ensures CountedAt(s', i)
  {
  }

  /** The node whose grant this is, if it is one for the term `t`. */
  function Granter(m: Message, t: nat): set<NodeID> {
    if m.kind == VoteGranted && m.term == t then {m.from} else {}
  }

  lemma CountedReceive(s: State, s': State, i: NodeID, m: Message, e: Effect)
    requires Shape(s) && Conserved(s) && GrantsAreVotes(s) && TermsBounded(s) && LoopsMatch(s)
    requires i in s.nodes && CountedAt(s, i)
    requires Enabled(s, Local(i, Receive(m))) && e == Step(s.nodes[i], Receive(m))
    requires Moved(s, s', i, Receive(m), e)
    ensures CountedAt(s', i)
  {
    var t := s.nodes[i].term;
    if Standing(e.node) {
      StepStanding(s.nodes[i], Receive(m));
      GrantersReceive(s, s', i, m, e, t);
      CountOn(s, s', i, Granter(m, t));
    }
  }

  /** Nobody is still standing after a cut, so a candidate that still stands took no message. */
  lemma QuietTakesNothing(n: Node, input: Input)
    requires CanStep(n, input) && !input.Receive? && Standing(Step(n, input).node)
    ensures Taken(input) == multiset{}
  {
  }

  lemma CountedQuiet(s: State, s': State, i: NodeID, input: Input, e: Effect)
    requires i in s.nodes && CanStep(s.nodes[i], input) && LoopMatches(s.nodes[i])
    requires !input.Wake? && !input.Receive?
    requires CountedAt(s, i) && e == Step(s.nodes[i], input) && Moved(s, s', i, input, e)
    ensures CountedAt(s', i)
  {
    var t := s.nodes[i].term;
    if Standing(e.node) {
      StepStanding(s.nodes[i], input);
      QuietTakesNothing(s.nodes[i], input);
      assert Granters(s', i, t) == Granters(s, i, t);
      CountOn(s, s', i, {});
    }
  }

  lemma KeepCounted(s: State, a: Action)
    requires Inv(s) && Enabled(s, a)
    ensures Counted(Apply(s, a))
  {
    KeepShape(s, a);
    var s' := Apply(s, a);
    forall j | j in s'.nodes ensures CountedAt(s', j) {
      assert CountedAt(s, j);
      if !a.Local? || a.node != j { CountedElsewhere(s, a, j); }
      else if a.input.Wake? { CountedBegin(s, j, a.input.members); }
      else {
        LocalMoves(s, j, a.input);
        var e := Step(s.nodes[j], a.input);
        if a.input.Receive? { CountedReceive(s, s', j, a.input.msg, e); } else { CountedQuiet(s, s', j, a.input, e); }
      }
    }
  }

  /** A candidate's counter never exceeds the number of nodes that voted for it. */
  lemma CountedBelowVoters(s: State, i: NodeID)
    requires Inv(s) && i in s.nodes && Standing(s.nodes[i])
    ensures s.nodes[i].loop.granted <= |Voters(s, i, s.nodes[i].term)|
  {
    var t := s.nodes[i].term;
    assert Vote(i, t, i) in s.votes;
    forall v | v in Granters(s, i, t) ensures v in Voters(s, i, t) && v != i {
      assert Message(v, i, t, VoteGranted) in s.sent;
    }
    SubsetSize({i} + Granters(s, i, t), Voters(s, i, t));
  }

  /** Votes are never taken back, so a backed win stays backed. */
  lemma OldWin(s: State, t: State, w: Win)
    requires Backed(s, w) && s.nodes.Keys <= t.nodes.Keys && s.votes <= t.votes
    ensures Backed(t, w)
  {
    SubsetSize(Voters(s, w.node, w.term), Voters(t, w.node, w.term));
  }

  /** A node wins only while standing, on at least the quorum of the connections it counts. */
  lemma StepWins(n: Node, input: Input, w: Win)
    requires CanStep(n, input) && LoopMatches(n) && w in WinsOf(n, input, Step(n, input))
    ensures Standing(n) && w.node == n.id && w.term == n.term && Needed(w.size) <= n.loop.granted
  {
  }

  lemma NewWin(s: State, i: NodeID, input: Input, w: Win)
    requires Inv(s) && Enabled(s, Local(i, input)) && w in WinsOf(s.nodes[i], input, Step(s.nodes[i], input))
    ensures Backed(s, w)
  {
    StepWins(s.nodes[i], input, w);
    CountedBelowVoters(s, i);
  }

  lemma KeepWins(s: State, a: Action)
    requires Inv(s) && Enabled(s, a)
    ensures WinsBacked(Apply(s, a))
  {
    var t := Apply(s, a);
    if a.Local? { LocalMoves(s, a.node, a.input); }
    forall w | w in t.wins ensures Backed(t, w) {
      if w !in s.wins { NewWin(s, a.node, a.input, w); }
      OldWin(s, t, w);
    }
  }

  lemma KeepInv(s: State, a: Action)
    requires Inv(s) && Enabled(s, a)
    ensures Inv(Apply(s, a))
  {
    KeepShape(s, a);
    KeepConserved(s, a);
    KeepTermsBounded(s, a);
    KeepVotes(s, a);
    KeepGrants(s, a);
    KeepBegun(s, a);
    KeepLoops(s, a);
    KeepCounted(s, a);
    KeepWins(s, a);
  }

  lemma {:induction false} RunInv(s: State, acts: seq<Action>)
    requires Inv(s) && Run(s, acts).Some?
    ensures Inv(Run(s, acts).value)
    decreases |acts|
  {
    if acts != [] {
      var k := |acts| - 1;
      RunInv(s, acts[..k]);
      KeepInv(Run(s, acts[..k]).value, acts[k]);
    }
  }
}
