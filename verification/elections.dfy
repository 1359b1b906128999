/** Safety of elections over whole runs: one vote and one winner per term. */
module Elections {
  import opened Types
  import opened Protocol
  import opened System
  import opened Invariants
  import opened Handlers

  /** The quorums of two wins, each one more than half of the connections counted rounded up,
      are together more than all nodes. */
  predicate Overlap(w: Win, x: Win, nodes: nat) {
    (w.size + 1) / 2 + (x.size + 1) / 2 + 2 > nodes
  }

  /** Any two nodes that won one term counted enough connections for their quorums to overlap. */
  ghost predicate QuorateWins(s: State) {
    forall w, x | w in s.wins && x in s.wins && w.term == x.term && w.node != x.node :: Overlap(w, x, |s.nodes|)
  }

  ghost predicate OneWinner(s: State) {
    forall w, x | w in s.wins && x in s.wins && w.term == x.term :: w.node == x.node
  }

  lemma RunFromInit(members: map<NodeID, set<NodeID>>, acts: seq<Action>, s: State)
    requires Run(Init(members), acts) == Some(s)
    ensures Inv(s) && s.nodes.Keys == members.Keys
  {
    InitInv(members);
    RunInv(Init(members), acts);
    RunGrows(Init(members), acts);
  }

  /** What a run only adds to: nodes stay, terms, votes, candidacies and wins never shrink. */
  ghost predicate Grows(s: State, t: State) {
    s.nodes.Keys == t.nodes.Keys &&
    (forall i | i in s.nodes :: s.nodes[i].term <= t.nodes[i].term) &&
    s.votes <= t.votes && s.begun <= t.begun && s.wins <= t.wins &&
    s.sent <= t.sent && s.delivered <= t.delivered && s.lost <= t.lost &&
    (forall v | v in t.votes && v !in s.votes && v.voter in s.nodes :: s.nodes[v.voter].term < v.term)
  }

  lemma StepGrows(s: State, a: Action)
    requires Enabled(s, a) && Shape(s)
    ensures Grows(s, Apply(s, a))
  {
    if a.Local? { StepHonest(s.nodes[a.node], a.input); }
  }

  /** Terms never decrease, and every later vote is in a term above the voter's term now. */
  lemma {:induction false} RunGrows(s: State, acts: seq<Action>)
    requires Shape(s) && Run(s, acts).Some?
    ensures Shape(Run(s, acts).value) && Grows(s, Run(s, acts).value)
    decreases |acts|
  {
    if acts != [] {
      var k := |acts| - 1;
      RunGrows(s, acts[..k]);
      StepGrows(Run(s, acts[..k]).value, acts[k]);
      KeepShape(Run(s, acts[..k]).value, acts[k]);
    }
  }

  /** Over every run, with any handler cut and any loss: a node votes for at most one
      candidate in a term, itself included; a message never carries a term above its sender's. */
  lemma OneVotePerTerm(members: map<NodeID, set<NodeID>>, acts: seq<Action>, s: State)
    requires Run(Init(members), acts) == Some(s)
    ensures forall v, w | v in s.votes && w in s.votes && v.voter == w.voter && v.term == w.term :: v == w
    ensures forall m | m in s.sent && m.kind == VoteGranted :: Vote(m.from, m.term, m.to) in s.votes
    ensures forall c | c in s.begun :: Vote(c.node, c.term, c.node) in s.votes
    ensures forall m | m in s.sent :: m.from in s.nodes && m.term <= s.nodes[m.from].term
  {
    RunFromInit(members, acts, s);
  }

  /** Over every run, a standing candidate's counter is one plus the number of distinct other
      nodes whose grant reached it in this term, and no message is duplicated or invented. */
  lemma CounterRefinesVoters(members: map<NodeID, set<NodeID>>, acts: seq<Action>, s: State, c: NodeID)
    requires Run(Init(members), acts) == Some(s)
    requires c in s.nodes && Standing(s.nodes[c])
    ensures s.nodes[c].loop.granted == 1 + |Granters(s, c, s.nodes[c].term)|
    ensures c !in Granters(s, c, s.nodes[c].term)
    ensures Granters(s, c, s.nodes[c].term) <= Voters(s, c, s.nodes[c].term)
    ensures forall m :: s.sent[m] == s.delivered[m] + s.net[m] + s.lost[m]
    ensures forall m | m in s.sent && m.kind == VoteGranted :: s.sent[m] == 1
  {
    RunFromInit(members, acts, s);
    assert CountedAt(s, c);
    forall v | v in Granters(s, c, s.nodes[c].term) ensures Vote(v, s.nodes[c].term, c) in s.votes && v != c {
      assert Message(v, c, s.nodes[c].term, VoteGranted) in s.sent;
    }
  }

  lemma DisjointSizes<T>(a: set<T>, b: set<T>, c: set<T>)
    requires a !! b && a <= c && b <= c
    ensures |a| + |b| <= |c|
  {
    assert |a + b| == |a| + |b|;
    SubsetSize(a + b, c);
  }

  /** Two quorums meet: some node voted for both winners. */
  lemma QuorumsMeet(s: State, w: Win, t: State, x: Win) returns (v: NodeID)
    requires WinsBacked(s) && w in s.wins && WinsBacked(t) && x in t.wins
    requires s.nodes.Keys == t.nodes.Keys && Overlap(w, x, |t.nodes|)
    ensures v in Voters(s, w.node, w.term) && v in Voters(t, x.node, x.term)
  {
    var a, b := Voters(s, w.node, w.term), Voters(t, x.node, x.term);
    assert |s.nodes| == |s.nodes.Keys| && |t.nodes| == |t.nodes.Keys|;
    if a !! b {
      DisjointSizes(a, b, s.nodes.Keys);
      assert false;
    }
    v :| v in a && v in b;
  }

  lemma OverlapMeansOne(s: State, w: Win, x: Win)
    requires Inv(s) && w in s.wins && x in s.wins && w.term == x.term && Overlap(w, x, |s.nodes|)
    ensures w.node == x.node
  {
    var v := QuorumsMeet(s, w, s, x);
    assert Vote(v, w.term, w.node) in s.votes && Vote(v, x.term, x.node) in s.votes;
  }

  lemma QuorateMeansOneWinner(s: State)
    requires Inv(s) && QuorateWins(s)
    ensures OneWinner(s)
  {
    forall w, x | w in s.wins && x in s.wins && w.term == x.term && w.node != x.node
      ensures false
    {
      OverlapMeansOne(s, w, x);
    }
  }

  /** Election safety under changing member lists, arbitrary loss, reordering and cut handlers. */
  lemma ElectionSafety(members: map<NodeID, set<NodeID>>, acts: seq<Action>, s: State)
    requires Run(Init(members), acts) == Some(s) && QuorateWins(s)
    ensures OneWinner(s)
  {
    RunFromInit(members, acts, s);
    QuorateMeansOneWinner(s);
  }

  ghost predicate FullLists(members: map<NodeID, set<NodeID>>) {
    forall i | i in members :: members[i] == members.Keys - {i}
  }

  ghost predicate FixedLists(acts: seq<Action>) {
    forall a | a in acts :: !a.SetMembers?
  }

  ghost predicate CountAllOthers(s: State, members: map<NodeID, set<NodeID>>) {
    s.members == members && forall w | w in s.wins :: w.size == |members| - 1
  }

  lemma StepCountsAll(s: State, a: Action, members: map<NodeID, set<NodeID>>)
    requires FullLists(members) && CountAllOthers(s, members) && Enabled(s, a) && !a.SetMembers?
    ensures CountAllOthers(Apply(s, a), members)
  {
    if a.Local? {
      assert |members.Keys - {a.node}| == |members.Keys| - 1;
      assert WinsOf(s.nodes[a.node], a.input, Step(s.nodes[a.node], a.input)) != {} ==>
             a.input.members == members[a.node];
    }
  }

  lemma {:induction false} FullWins(members: map<NodeID, set<NodeID>>, acts: seq<Action>)
    requires FullLists(members) && FixedLists(acts) && Run(Init(members), acts).Some?
    ensures CountAllOthers(Run(Init(members), acts).value, members)
    decreases |acts|
  {
    if acts != [] {
      var k := |acts| - 1;
      assert acts[k] in acts;
      FullWins(members, acts[..k]);
      StepCountsAll(Run(Init(members), acts[..k]).value, acts[k], members);
    }
  }

  lemma FullListsQuorate(members: map<NodeID, set<NodeID>>, acts: seq<Action>, s: State)
    requires FullLists(members) && FixedLists(acts) && Run(Init(members), acts) == Some(s)
    ensures QuorateWins(s)
  {
    FullWins(members, acts);
    RunFromInit(members, acts, s);
    assert |s.nodes| == |s.nodes.Keys| == |members|;
  }

  /** With fixed full membership every winner has the votes of more than half of all nodes. */
  lemma WinnersHaveMajority(members: map<NodeID, set<NodeID>>, acts: seq<Action>, s: State, w: Win)
    requires FullLists(members) && FixedLists(acts) && Run(Init(members), acts) == Some(s) && w in s.wins
    ensures 2 * |Voters(s, w.node, w.term)| > |s.nodes|
  {
    FullWins(members, acts);
    RunFromInit(members, acts, s);
    assert |s.nodes| == |s.nodes.Keys| == |members|;
    QuorumIsLeastMajority(w.size, |Voters(s, w.node, w.term)|);
  }

  /** In every reachable state a candidate's pass over its connections makes it leader if and only if its own vote
      and the delivered grants are more than half of the connections and itself. */
  lemma WinsOnMajorityExactly(members: map<NodeID, set<NodeID>>, acts: seq<Action>, s: State, c: NodeID)
    requires Run(Init(members), acts) == Some(s) && c in s.nodes && c in s.members && Standing(s.nodes[c])
    requires CanStep(s.nodes[c], Check(s.members[c]))
    ensures Step(s.nodes[c], Check(s.members[c])).node.role == Leader <==>
            2 * (1 + |Granters(s, c, s.nodes[c].term)|) > |s.members[c]| + 1
  {
    CounterRefinesVoters(members, acts, s, c);
    WinsExactly(s.nodes[c], s.members[c]);
  }

  /** Election safety with fixed full membership, for every cluster size. */
  lemma ElectionSafetyFixed(members: map<NodeID, set<NodeID>>, acts: seq<Action>, s: State)
    requires FullLists(members) && FixedLists(acts) && Run(Init(members), acts) == Some(s)
    ensures OneWinner(s)
  {
    FullListsQuorate(members, acts, s);
    ElectionSafety(members, acts, s);
  }

  /** Elections do not go backwards: a candidacy begun after a win can only win a later term,
      if the two quorums overlap. */
  lemma ElectionsMoveForward(members: map<NodeID, set<NodeID>>, before: seq<Action>, after: seq<Action>,
                             s: State, t: State, w: Win, x: Win)
    requires Run(Init(members), before) == Some(s) && Run(s, after) == Some(t) && Overlap(w, x, |t.nodes|)
    requires w in s.wins && x in t.wins && Candidacy(x.node, x.term) !in s.begun
    ensures w.term < x.term
  {
    RunFromInit(members, before, s);
    RunInv(s, after);
    RunGrows(s, after);
    assert |s.nodes| == |s.nodes.Keys| == |t.nodes.Keys| == |t.nodes|;
    var v := QuorumsMeet(s, w, t, x);
    assert Vote(v, w.term, w.node) in s.votes;
    assert Vote(v, x.term, x.node) !in s.votes;
  }

  /** The same with fixed full membership, where no quorum hypothesis is needed. */
  lemma ElectionsMoveForwardFixed(members: map<NodeID, set<NodeID>>, before: seq<Action>, after: seq<Action>,
                                  s: State, t: State, w: Win, x: Win)
    requires FullLists(members) && FixedLists(before + after)
    requires Run(Init(members), before) == Some(s) && Run(s, after) == Some(t)
    requires w in s.wins && x in t.wins && Candidacy(x.node, x.term) !in s.begun
    ensures w.term < x.term
  {
    RunConcat(Init(members), before, after);
    FullWins(members, before + after);
    RunFromInit(members, before, s);
    RunFromInit(members, before + after, t);
    RunGrows(s, after);
    assert |t.nodes| == |t.nodes.Keys| == |members|;
    ElectionsMoveForward(members, before, after, s, t, w, x);
  }

  predicate SameButVotedFor(e: Effect, f: Effect) {
    f.node.(votedFor := e.node.votedFor) == e.node && f.out == e.out && f.cast == e.cast
  }

  lemma VoteIgnoresVotedFor(n: Node, from: NodeID, term: nat, v: Option<NodeID>)
    ensures SameButVotedFor(HandleVoteRequest(n, from, term), HandleVoteRequest(n.(votedFor := v), from, term))
  {
  }

  lemma HandlersIgnoreVotedFor(n: Node, m: Message, v: Option<NodeID>)
    ensures SameButVotedFor(OnFollower(n, m), OnFollower(n.(votedFor := v), m))
    ensures SameButVotedFor(OnLeader(n, m), OnLeader(n.(votedFor := v), m))
  {
    VoteIgnoresVotedFor(n, m.from, m.term, v);
  }

  lemma CandidateIgnoresVotedFor(n: Node, m: Message, v: Option<NodeID>)
    requires n.loop.InCandidate?
    ensures SameButVotedFor(OnCandidate(n, m), OnCandidate(n.(votedFor := v), m))
  {
    var top := n.(loop := InCandidate(n.loop.granted, true));
    assert n.(votedFor := v).(loop := InCandidate(n.loop.granted, true)) == top.(votedFor := v);
    VoteIgnoresVotedFor(top, m.from, m.term, v);
  }

  lemma CutIgnoresVotedFor(n: Node, m: Message, writes: nat, members: set<NodeID>, v: Option<NodeID>)
    ensures SameButVotedFor(PartCandidate(n, m, writes), PartCandidate(n.(votedFor := v), m, writes))
    ensures SameButVotedFor(Resume(PartLeader(n, m, writes), members),
                            Resume(PartLeader(n.(votedFor := v), m, writes), members))
  {
    match m.kind
    case VoteRequest =>
    case _ =>
  }

  /** Nothing reads `voted_for`: nodes that differ only there do the same and send the same. */
  lemma VotedForIsNeverRead(n: Node, input: Input, v: Option<NodeID>)
    requires CanStep(n, input)
    ensures CanStep(n.(votedFor := v), input)
    ensures SameButVotedFor(Step(n, input), Step(n.(votedFor := v), input))
  {
    match input
    case Receive(m) =>
      HandlersIgnoreVotedFor(n, m, v);
      if n.loop.InCandidate? { CandidateIgnoresVotedFor(n, m, v); }
    case CutCandidate(m, k) => CutIgnoresVotedFor(n, m, k, {}, v);
    case CutLeader(m, k, ms) => CutIgnoresVotedFor(n, m, k, ms, v);
    case _ =>
  }
}
