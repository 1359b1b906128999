/** What a torn leader can do among three fully connected nodes: speak in a term that another node won,
    and never settle on the winner. */
module TornRuns {
  import opened Types
  import opened Protocol
  import opened System
  import opened Elections
  import opened Leadership
  import opened Convergence
  import opened Tightness

  const TRIO: map<NodeID, set<NodeID>> := map[0 := {1, 2}, 1 := {0, 2}, 2 := {0, 1}]

  predicate Is(s: State, i: NodeID, role: Role, term: nat, loop: Loop) {
    i in s.nodes && i in s.members && i in s.changes && i in TRIO && s.members[i] == TRIO[i] &&
    s.nodes[i].id == i && s.nodes[i].role == role && s.nodes[i].term == term && s.nodes[i].loop == loop
  }

  /** From `s0`, steps of nodes alone lead to `s`. */
  ghost predicate Reached(s0: State, acts: seq<Action>, s: State) {
    Run(s0, acts) == Some(s) && forall a | a in acts :: a.Local?
  }

  lemma Go(s0: State, acts: seq<Action>, s: State, i: NodeID, input: Input) returns (acts': seq<Action>, t: State)
    requires Reached(s0, acts, s) && Enabled(s, Local(i, input))
    ensures acts' == acts + [Local(i, input)] && Reached(s0, acts', t)
    ensures Moved(s, t, i, input, Step(s.nodes[i], input)) && Apart(s, t, {i})
  {
    var one;
    one, t := Once(s, i, input);
    RunConcat(s0, acts, one);
    acts' := acts + one;
  }

  lemma TrioSize(i: NodeID)
    requires i in TRIO
    ensures |TRIO[i]| == 2 && i !in TRIO[i]
  {
  }

  lemma Starts(s0: State, acts: seq<Action>, s: State, i: NodeID) returns (acts': seq<Action>, t: State)
    requires Reached(s0, acts, s) && Is(s, i, Follower, 0, Idle)
    ensures Reached(s0, acts', t) && Apart(s, t, {i}) && t.wins == s.wins && Is(t, i, Follower, 0, InFollower)
  {
    acts', t := Go(s0, acts, s, i, Wake(s.members[i]));
  }

  lemma Expires(s0: State, acts: seq<Action>, s: State, i: NodeID) returns (acts': seq<Action>, t: State)
    requires Reached(s0, acts, s) && Is(s, i, Follower, 0, InFollower)
    ensures Reached(s0, acts', t) && Apart(s, t, {i}) && t.wins == s.wins && Is(t, i, Candidate, 0, Idle)
  {
    acts', t := Go(s0, acts, s, i, Timer);
  }

  lemma AskNode(n: Node, members: set<NodeID>)
    requires n.loop.Idle? && n.role == Candidate
    ensures var e := Step(n, Wake(members));
      e.node.id == n.id && e.node.role == Candidate && e.node.term == n.term + 1 &&
      e.node.loop == InCandidate(1, true) && e.out == Broadcast(n.id, n.term + 1, VoteRequest, members)
  {
  }

  lemma Asks(s0: State, acts: seq<Action>, s: State, i: NodeID, term: nat) returns (acts': seq<Action>, t: State)
    requires Reached(s0, acts, s) && Is(s, i, Candidate, term, Idle)
    ensures Reached(s0, acts', t) && Apart(s, t, {i}) && t.wins == s.wins
    ensures Is(t, i, Candidate, term + 1, InCandidate(1, true))
    ensures forall p | p in TRIO[i] :: Message(i, p, term + 1, VoteRequest) in t.net
  {
    AskNode(s.nodes[i], s.members[i]);
    acts', t := Go(s0, acts, s, i, Wake(s.members[i]));
  }

  lemma GivesUp(s0: State, acts: seq<Action>, s: State, i: NodeID, term: nat) returns (acts': seq<Action>, t: State)
    requires Reached(s0, acts, s) && Is(s, i, Candidate, term, InCandidate(1, true))
    ensures Reached(s0, acts', t) && Apart(s, t, {i}) && t.wins == s.wins && Is(t, i, Candidate, term, Idle)
  {
    acts', t := Go(s0, acts, s, i, Timer);
  }

  lemma Waits(s0: State, acts: seq<Action>, s: State, c: NodeID, term: nat) returns (acts': seq<Action>, t: State)
    requires Reached(s0, acts, s) && Is(s, c, Candidate, term, InCandidate(1, true))
    ensures Reached(s0, acts', t) && Apart(s, t, {c}) && t.wins == s.wins
    ensures Is(t, c, Candidate, term, InCandidate(1, false))
  {
    TrioSize(c);
    WaitNode(s.nodes[c], s.members[c]);
    acts', t := Go(s0, acts, s, c, Check(s.members[c]));
  }

  lemma GrantNode(n: Node, c: NodeID, term: nat)
    requires n.loop == InFollower && n.role == Follower && n.term < term
    ensures var e := Step(n, Receive(Message(c, n.id, term, VoteRequest)));
      e.node.id == n.id && e.node.role == Follower && e.node.term == term && e.node.loop == InFollower &&
      e.out == multiset{Message(n.id, c, term, VoteGranted)}
  {
  }

  lemma Grants(s0: State, acts: seq<Action>, s: State, c: NodeID, v: NodeID, past: nat, term: nat)
    returns (acts': seq<Action>, t: State)
    requires Reached(s0, acts, s) && Is(s, v, Follower, past, InFollower) && past < term
    requires Message(c, v, term, VoteRequest) in s.net
    ensures Reached(s0, acts', t) && Apart(s, t, {v}) && t.wins == s.wins && Is(t, v, Follower, term, InFollower)
    ensures Message(v, c, term, VoteGranted) in t.net
  {
    GrantNode(s.nodes[v], c, term);
    acts', t := Go(s0, acts, s, v, Receive(Message(c, v, term, VoteRequest)));
  }

  lemma CountNode(n: Node, v: NodeID)
    requires n.loop == InCandidate(1, false) && n.role == Candidate
    ensures Step(n, Receive(Message(v, n.id, n.term, VoteGranted))) ==
            Effect(n.(loop := InCandidate(2, true)), multiset{}, None)
  {
  }

  lemma Counts(s0: State, acts: seq<Action>, s: State, c: NodeID, v: NodeID, term: nat)
    returns (acts': seq<Action>, t: State)
    requires Reached(s0, acts, s) && Is(s, c, Candidate, term, InCandidate(1, false))
    requires Message(v, c, term, VoteGranted) in s.net
    ensures Reached(s0, acts', t) && Apart(s, t, {c}) && t.wins == s.wins
    ensures Is(t, c, Candidate, term, InCandidate(2, true))
  {
    CountNode(s.nodes[c], v);
    acts', t := Go(s0, acts, s, c, Receive(Message(v, c, term, VoteGranted)));
  }

  lemma Wins(s0: State, acts: seq<Action>, s: State, c: NodeID, term: nat) returns (acts': seq<Action>, t: State)
    requires Reached(s0, acts, s) && Is(s, c, Candidate, term, InCandidate(2, true))
    ensures Reached(s0, acts', t) && Apart(s, t, {c}) && Is(t, c, Leader, term, Idle)
    ensures t.wins == s.wins + {Win(c, term, 2, true)}
  {
    TrioSize(c);
    acts', t := Go(s0, acts, s, c, Check(s.members[c]));
  }

  lemma Leads(s0: State, acts: seq<Action>, s: State, c: NodeID, term: nat) returns (acts': seq<Action>, t: State)
    requires Reached(s0, acts, s) && Is(s, c, Leader, term, Idle)
    ensures Reached(s0, acts', t) && Apart(s, t, {c}) && t.wins == s.wins && Is(t, c, Leader, term, InLeader)
    ensures forall p | p in TRIO[c] :: Message(c, p, term, LeaderHeartbeat) in t.net
  {
    acts', t := Go(s0, acts, s, c, Wake(s.members[c]));
  }

  /** A node that has not started times out and stands in term 1. */
  lemma StandsUp(s0: State, acts: seq<Action>, s: State, i: NodeID) returns (acts': seq<Action>, t: State)
    requires Reached(s0, acts, s) && Is(s, i, Follower, 0, Idle)
    ensures Reached(s0, acts', t) && Apart(s, t, {i}) && t.wins == s.wins
    ensures Is(t, i, Candidate, 1, InCandidate(1, true))
    ensures forall p | p in TRIO[i] :: Message(i, p, 1, VoteRequest) in t.net
  {
    acts', t := Starts(s0, acts, s, i);
    acts', t := Expires(s0, acts', t, i);
    acts', t := Asks(s0, acts', t, i, 0);
  }

  /** A candidate wins with the vote of `v`, and leads. */
  lemma Elected(s0: State, acts: seq<Action>, s: State, c: NodeID, v: NodeID, past: nat, term: nat)
    returns (acts': seq<Action>, t: State)
    requires Reached(s0, acts, s) && c != v && Is(s, c, Candidate, term, InCandidate(1, true))
    requires Is(s, v, Follower, past, InFollower) && past < term && Message(c, v, term, VoteRequest) in s.net
    ensures Reached(s0, acts', t) && Apart(s, t, {c, v}) && t.wins == s.wins + {Win(c, term, 2, true)}
    ensures Is(t, c, Leader, term, InLeader) && Is(t, v, Follower, term, InFollower)
    ensures forall p | p in TRIO[c] :: Message(c, p, term, LeaderHeartbeat) in t.net
  {
    acts', t := Waits(s0, acts, s, c, term);
    acts', t := Grants(s0, acts', t, c, v, past, term);
    acts', t := Counts(s0, acts', t, c, v, term);
    acts', t := Wins(s0, acts', t, c, term);
    acts', t := Leads(s0, acts', t, c, term);
  }

  /** Nobody has started. */
  ghost predicate AllIdle(s: State) {
    s.nodes.Keys == TRIO.Keys && s.wins == {} &&
    Is(s, 0, Follower, 0, Idle) && Is(s, 1, Follower, 0, Idle) && Is(s, 2, Follower, 0, Idle)
  }

  lemma InitIdle()
    ensures AllIdle(Init(TRIO)) && Reached(Init(TRIO), [], Init(TRIO))
  {
  }

  /** Node 0 leads term 1 with the vote of 2. */
  lemma FirstLeader(s0: State) returns (acts: seq<Action>, s: State)
    requires AllIdle(s0) && Reached(s0, [], s0)
    ensures Reached(s0, acts, s) && s.nodes.Keys == TRIO.Keys && s.wins == {Win(0, 1, 2, true)}
    ensures Is(s, 0, Leader, 1, InLeader) && Is(s, 1, Follower, 0, Idle) && Is(s, 2, Follower, 1, InFollower)
  {
    acts, s := Starts(s0, [], s0, 2);
    acts, s := StandsUp(s0, acts, s, 0);
    acts, s := Elected(s0, acts, s, 0, 2, 0, 1);
  }

  /** Node 0 leads term 1; node 1 retried and leads term 2 with the vote of 2; its request to 0 is in flight. */
  ghost predicate TwoLead(s: State) {
    s.nodes.Keys == TRIO.Keys && s.wins == {Win(0, 1, 2, true), Win(1, 2, 2, true)} &&
    Is(s, 0, Leader, 1, InLeader) && Is(s, 1, Leader, 2, InLeader) && Is(s, 2, Follower, 2, InFollower) &&
    Message(1, 0, 2, VoteRequest) in s.net && Calls(s)
  }

  /** Node 1's heartbeats of term 2 are in flight to both others. */
  predicate Calls(s: State) {
    Heartbeat(1, 0, 2) in s.net && Heartbeat(1, 2, 2) in s.net
  }

  lemma SecondLeader(s0: State) returns (acts: seq<Action>, s: State)
    requires AllIdle(s0) && Reached(s0, [], s0)
    ensures Reached(s0, acts, s) && TwoLead(s)
  {
    acts, s := FirstLeader(s0);
    acts, s := StandsUp(s0, acts, s, 1);
    acts, s := GivesUp(s0, acts, s, 1, 1);
    acts, s := Asks(s0, acts, s, 1, 1);
    acts, s := Elected(s0, acts, s, 1, 2, 1, 2);
  }

  /** Two leaders of term 2: the winner, and one that was torn into it. */
  ghost predicate TwoSpeak(s: State) {
    s.nodes.Keys == TRIO.Keys && s.wins == {Win(0, 1, 2, true), Win(1, 2, 2, true)} &&
    Is(s, 0, Leader, 2, InLeader) && Is(s, 1, Leader, 2, InLeader) && Is(s, 2, Follower, 2, InFollower)
  }

  const TEAR := CutLeader(Message(1, 0, 2, VoteRequest), 1, {1, 2})

  lemma TearNode(n: Node)
    requires n.loop == InLeader && n.role == Leader && n.term == 1
    ensures Step(n, TEAR) == Effect(n.(term := 2), Broadcast(n.id, 2, LeaderHeartbeat, {1, 2}), None)
  {
  }

  /** Node 0's handler for that request is cut right after its term write. */
  lemma IsTorn(s0: State, acts: seq<Action>, s: State) returns (acts': seq<Action>, t: State)
    requires Reached(s0, acts, s) && TwoLead(s)
    ensures acts' == acts + [Local(0, TEAR)] && Reached(s0, acts', t) && TwoSpeak(t) && Calls(t)
    ensures Message(0, 2, 2, LeaderHeartbeat) in t.net
  {
    TearNode(s.nodes[0]);
    acts', t := Go(s0, acts, s, 0, TEAR);
    assert Message(0, 2, 2, LeaderHeartbeat) in Broadcast(0, 2, LeaderHeartbeat, {1, 2});
  }

  lemma TrioList(i: NodeID)
    requires i in TRIO
    ensures TRIO[i] == TRIO.Keys - {i}
  {
    assert i == 0 || i == 1 || i == 2;
    forall j: NodeID ensures j in TRIO[i] <==> j in TRIO.Keys - {i} {
      assert j in TRIO <==> j == 0 || j == 1 || j == 2;
    }
  }

  lemma TrioFull(s0: State, acts: seq<Action>, s: State)
    requires Reached(s0, acts, s)
    ensures FullLists(TRIO) && FixedLists(acts)
  {
    forall i | i in TRIO ensures TRIO[i] == TRIO.Keys - {i} { TrioList(i); }
  }

  /** Fixed full lists, and yet two nodes send heartbeats of one term. */
  lemma TornLeaderSpeaks() returns (acts: seq<Action>, s: State, m: Message, k: Message)
    ensures FullLists(TRIO) && FixedLists(acts) && Run(Init(TRIO), acts) == Some(s) && QuorateWins(s)
    ensures m in s.sent && k in s.sent && m.kind == k.kind == LeaderHeartbeat && m.term == k.term
    ensures Won(s, m.from, m.term) && m.from != k.from
  {
    InitIdle();
    acts, s := SecondLeader(Init(TRIO));
    acts, s := IsTorn(Init(TRIO), acts, s);
    TrioFull(Init(TRIO), acts, s);
    FullListsQuorate(TRIO, acts, s);
    RunFromInit(TRIO, acts, s);
    m, k := Heartbeat(1, 2, 2), Heartbeat(0, 2, 2);
    assert Win(1, 2, 2, true) in s.wins;
  }

  lemma HeardSnoc(acts: seq<Action>, a: Action, l: NodeID, n: NodeID, t: nat)
    ensures Heard(acts + [a], l, n, t) ==
            Heard(acts, l, n, t) + (if a == Local(n, Receive(Heartbeat(l, n, t))) then 1 else 0)
  {
    assert (acts + [a])[..|acts|] == acts;
  }

  /** From `s0` on no timer has fired, and nodes 0 and 2 have heard node 1 `k` times. */
  ghost predicate HeardBoth(acts: seq<Action>, k: nat) {
    NoTimers(acts) && Heard(acts, 1, 0, 2) == k && Heard(acts, 1, 2, 2) == k
  }

  lemma HearsQuietly(acts: seq<Action>, a: Action)
    requires NoTimers(acts) && a.Local? && NoTimer(a) && !a.input.Receive?
    ensures NoTimers(acts + [a]) && forall k | HeardBoth(acts, k) :: HeardBoth(acts + [a], k)
  {
    HeardSnoc(acts, a, 1, 0, 2);
    HeardSnoc(acts, a, 1, 2, 2);
  }

  /** One heartbeat for each. */
  lemma HearsTwice(acts: seq<Action>, k: nat)
    requires HeardBoth(acts, k)
    ensures HeardBoth(acts + [Local(0, Receive(Heartbeat(1, 0, 2)))] + [Local(2, Receive(Heartbeat(1, 2, 2)))], k + 1)
  {
    var a, b := Local(0, Receive(Heartbeat(1, 0, 2))), Local(2, Receive(Heartbeat(1, 2, 2)));
    assert a.input.msg.to != b.input.msg.to;
    HeardSnoc(acts, a, 1, 0, 2);
    HeardSnoc(acts, a, 1, 2, 2);
    HeardSnoc(acts + [a], b, 1, 0, 2);
    HeardSnoc(acts + [a], b, 1, 2, 2);
  }

  lemma HearsAt(s0: State, acts: seq<Action>, s: State, n: NodeID) returns (acts': seq<Action>, t: State)
    requires Reached(s0, acts, s) && TwoSpeak(s) && Heartbeat(1, n, 2) in s.net && (n == 0 || n == 2)
    ensures acts' == acts + [Local(n, Receive(Heartbeat(1, n, 2)))] && Reached(s0, acts', t) && TwoSpeak(t)
    ensures Apart(s, t, {n})
  {
    acts', t := Go(s0, acts, s, n, Receive(Heartbeat(1, n, 2)));
  }

  /** Both other nodes receive a heartbeat of node 1, and node 0 ignores it. */
  lemma BothHear(s0: State, acts: seq<Action>, s: State, k: nat) returns (acts': seq<Action>, t: State)
    requires Reached(s0, acts, s) && TwoSpeak(s) && Calls(s) && HeardBoth(acts, k)
    ensures Reached(s0, acts', t) && TwoSpeak(t) && HeardBoth(acts', k + 1)
  {
    acts', t := HearsAt(s0, acts, s, 0);
    acts', t := HearsAt(s0, acts', t, 2);
    HearsTwice(acts, k);
  }

  lemma CallsAgain(s0: State, acts: seq<Action>, s: State, k: nat) returns (acts': seq<Action>, t: State)
    requires Reached(s0, acts, s) && TwoSpeak(s) && HeardBoth(acts, k)
    ensures Reached(s0, acts', t) && TwoSpeak(t) && Calls(t) && HeardBoth(acts', k)
  {
    var e := Step(s.nodes[1], Beat({0, 2}));
    assert Heartbeat(1, 0, 2) in e.out && Heartbeat(1, 2, 2) in e.out;
    acts', t := Go(s0, acts, s, 1, Beat({0, 2}));
    HearsQuietly(acts, Local(1, Beat({0, 2})));
  }

  /** Two rounds after the tear, both have heard node 1 twice, and node 0 still leads. */
  lemma TwoRounds(s: State) returns (acts: seq<Action>, u: State)
    requires TwoLead(s)
    ensures Reached(s, acts, u) && TwoSpeak(u) && HeardBoth(acts, 2)
  {
    acts, u := IsTorn(s, [], s);
    HearsQuietly([], Local(0, TEAR));
    acts, u := BothHear(s, acts, u, 0);
    acts, u := CallsAgain(s, acts, u, 1);
    acts, u := BothHear(s, acts, u, 1);
  }

  lemma SecondDominates(s: State)
    requires TwoLead(s)
    ensures Dominates(s, 1, 2) && Won(s, 1, 2)
  {
    assert Win(1, 2, 2, true) in s.wins;
    assert forall i | i in s.nodes :: i == 0 || i == 1 || i == 2;
  }

  lemma AllHeard(acts: seq<Action>, s: State, k: nat)
    requires s.nodes.Keys == TRIO.Keys && HeardBoth(acts, k)
    ensures forall n | n in s.nodes && n != 1 :: Heard(acts, 1, n, 2) == k
  {
  }

  /** Fixed full lists, a winner of the highest term that everybody heard twice, no timer: and yet one
      node has not settled on it. */
  lemma TornLeaderStays() returns (before: seq<Action>, acts: seq<Action>, s: State, u: State)
    ensures FullLists(TRIO) && FixedLists(before + acts) && Run(Init(TRIO), before) == Some(s)
    ensures Run(s, acts) == Some(u) && NoTimers(acts) && QuorateWins(u) && Dominates(s, 1, 2) && Won(s, 1, 2)
    ensures forall n | n in s.nodes && n != 1 :: Heard(acts, 1, n, 2) == 2
    ensures 0 in u.nodes && !Settled(u.nodes[0], 1, 2)
  {
    InitIdle();
    before, s := SecondLeader(Init(TRIO));
    acts, u := TwoRounds(s);
    SecondDominates(s);
    AllHeard(acts, s, 2);
    RunConcat(Init(TRIO), before, acts);
    TrioFull(Init(TRIO), before + acts, u);
    FullListsQuorate(TRIO, before + acts, u);
  }
}
