/** Short runs showing which assumptions the leadership theorems need. */
module Exceptions {
  import opened Types
  import opened Protocol
  import opened System
  import opened Leadership

  /** One more step of node `i`, whose effect is `e`. */
  lemma Do(s0: State, acts: seq<Action>, s: State, i: NodeID, input: Input, e: Effect)
    returns (acts': seq<Action>, t: State)
    requires Run(s0, acts) == Some(s) && Enabled(s, Local(i, input)) && e == Step(s.nodes[i], input)
    ensures acts' == acts + [Local(i, input)] && Run(s0, acts') == Some(t)
    ensures t.nodes == s.nodes[i := e.node] && t.members == s.members && t.changes.Keys == s.changes.Keys
    ensures t.sent == s.sent + e.out && t.net == s.net - Taken(input) + e.out
    ensures t.wins == s.wins + WinsOf(s.nodes[i], input, e)
  {
    acts', t := acts + [Local(i, input)], Apply(s, Local(i, input));
    assert acts'[..|acts|] == acts;
  }

  const START := Init(map[0 := {}, 1 := {0}])

  function Stands(i: NodeID, term: nat): Node {
    Node(i, Candidate, term, Some(i), None, Candidate, [Candidate], InCandidate(1, true))
  }

  const WON := Node(0, Leader, 1, Some(0), Some(0), Candidate, [Candidate], Idle)
  const LEADS := Node(0, Leader, 1, Some(0), Some(0), Leader, [Candidate, Leader], InLeader)

  /** The part of a state that these runs look at. */
  ghost predicate Looks(s: State, i: NodeID, n: Node, ms: set<NodeID>) {
    i in s.nodes && i in s.members && i in s.changes && s.nodes[i] == n && s.members[i] == ms
  }

  /** No leader handler is cut at all. */
  ghost predicate LeadersAtomic(acts: seq<Action>) {
    forall a | a in acts :: !(a.Local? && a.input.CutLeader?)
  }

  ghost predicate Played(s0: State, acts: seq<Action>, s: State) {
    Run(s0, acts) == Some(s) && LeadersAtomic(acts)
  }

  /** The steps from `s` to `t` were those of node `i`, and added `wins`. */
  ghost predicate Only(s: State, t: State, i: NodeID, wins: set<Win>) {
    t.nodes.Keys == s.nodes.Keys && t.members == s.members && t.changes.Keys == s.changes.Keys &&
    t.wins == s.wins + wins && forall j | j in s.nodes && j != i :: t.nodes[j] == s.nodes[j]
  }

  lemma FirstSteps(s0: State, acts: seq<Action>, s: State, i: NodeID, ms: set<NodeID>)
    returns (acts': seq<Action>, t: State)
    requires Played(s0, acts, s) && Looks(s, i, NewNode(i), ms)
    ensures Played(s0, acts', t) && Only(s, t, i, {})
    ensures Looks(t, i, NewNode(i).(role := Candidate), ms)
  {
    var follows := NewNode(i).(loop := InFollower);
    acts', t := Do(s0, acts, s, i, Wake(ms), Quiet(follows));
    acts', t := Do(s0, acts', t, i, Timer, Quiet(follows.(role := Candidate, loop := Idle)));
  }

  /** A node that starts, times out and asks `ms` for votes. */
  lemma Campaign(s0: State, acts: seq<Action>, s: State, i: NodeID, ms: set<NodeID>)
    returns (acts': seq<Action>, t: State)
    requires Played(s0, acts, s) && Looks(s, i, NewNode(i), ms)
    ensures Played(s0, acts', t) && Only(s, t, i, {}) && Looks(t, i, Stands(i, 1), ms)
  {
    var u;
    acts', u := FirstSteps(s0, acts, s, i, ms);
    acts', t := Do(s0, acts', u, i, Wake(ms), Effect(Stands(i, 1), Broadcast(i, 1, VoteRequest, ms), Some(i)));
  }

  /** Without connections, node 0 wins at once. */
  lemma WinAlone(s0: State, acts: seq<Action>, s: State) returns (acts': seq<Action>, t: State)
    requires Played(s0, acts, s) && Looks(s, 0, Stands(0, 1), {})
    ensures Played(s0, acts', t) && Only(s, t, 0, {Win(0, 1, 0, true)}) && Looks(t, 0, WON, {})
  {
    acts', t := Do(s0, acts, s, 0, Check({}), Quiet(WON));
  }

  lemma WonWakes()
    ensures WakeUp(WON, {}) == Effect(LEADS, Broadcast(0, 1, LeaderHeartbeat, {}), None)
  {
    assert [Candidate] + [Role.Leader] == [Candidate, Leader];
  }

  lemma StartLeading(s0: State, acts: seq<Action>, s: State) returns (acts': seq<Action>, t: State)
    requires Played(s0, acts, s) && Looks(s, 0, WON, {})
    ensures Played(s0, acts', t) && Only(s, t, 0, {}) && Looks(t, 0, LEADS, {})
  {
    WonWakes();
    var e := WakeUp(WON, {});
    acts', t := Do(s0, acts, s, 0, Wake({}), e);
  }

  lemma GiveUp(s0: State, acts: seq<Action>, s: State, i: NodeID, ms: set<NodeID>)
    returns (acts': seq<Action>, t: State)
    requires Played(s0, acts, s) && Looks(s, i, Stands(i, 1), ms)
    ensures Played(s0, acts', t) && Only(s, t, i, {}) && Looks(t, i, Stands(i, 1).(loop := Idle), ms)
  {
    acts', t := Do(s0, acts, s, i, Timer, Quiet(Stands(i, 1).(loop := Idle)));
  }

  /** A candidate that retries asks again in the next term. */
  lemma Retry(s0: State, acts: seq<Action>, s: State, i: NodeID, to: NodeID) returns (acts': seq<Action>, t: State)
    requires Played(s0, acts, s) && Looks(s, i, Stands(i, 1).(loop := Idle), {to})
    ensures Played(s0, acts', t) && Only(s, t, i, {}) && Message(i, to, 2, VoteRequest) in t.net
  {
    var e := Effect(Stands(i, 2), Broadcast(i, 2, VoteRequest, {to}), Some(i));
    acts', t := Do(s0, acts, s, i, Wake({to}), e);
    assert Message(i, to, 2, VoteRequest) in e.out;
  }

  /** Node 0, without connections, leads term 1 while node 1 asks it for its vote in term 2. */
  lemma SecondTermRequest(s0: State) returns (acts: seq<Action>, s: State)
    requires Looks(s0, 0, NewNode(0), {}) && Looks(s0, 1, NewNode(1), {0}) && s0.wins == {}
    ensures Played(s0, acts, s) && Looks(s, 0, LEADS, {}) && s.wins == {Win(0, 1, 0, true)}
    ensures Message(1, 0, 2, VoteRequest) in s.net
  {
    acts, s := Campaign(s0, [], s0, 0, {});
    acts, s := WinAlone(s0, acts, s);
    acts, s := StartLeading(s0, acts, s);
    acts, s := Campaign(s0, acts, s, 1, {0});
    acts, s := GiveUp(s0, acts, s, 1, {0});
    acts, s := Retry(s0, acts, s, 1, 0);
  }

  /** From there, a cut after the term write makes node 0 send heartbeats of term 2. */
  lemma LieFrom(s0: State) returns (acts: seq<Action>, s: State)
    requires Looks(s0, 0, NewNode(0), {}) && Looks(s0, 1, NewNode(1), {0}) && s0.wins == {}
    ensures Run(s0, acts) == Some(s) && s.wins == {Win(0, 1, 0, true)}
    ensures Message(0, 1, 2, LeaderHeartbeat) in s.sent
  {
    var acts0, s1 := SecondTermRequest(s0);
    var list := SetMembers(0, {1});
    acts, s := acts0 + [list], Apply(s1, list);
    assert acts[..|acts0|] == acts0;
    var e := Effect(LEADS.(term := 2), Broadcast(0, 2, LeaderHeartbeat, {1}), None);
    acts, s := Do(s0, acts, s, 0, CutLeader(Message(1, 0, 2, VoteRequest), 1, {1}), e);
    assert Message(0, 1, 2, LeaderHeartbeat) in e.out;
  }

  lemma StartLooks()
    ensures Looks(START, 0, NewNode(0), {}) && Looks(START, 1, NewNode(1), {0}) && START.wins == {}
  {
  }

  /** A leader whose vote-request handler is cut between its term write and its role write sends
      heartbeats in a term that nobody won: without atomic leader handlers authenticity fails. */
  lemma CutLeaderLies() returns (acts: seq<Action>, s: State, m: Message)
    ensures Run(START, acts) == Some(s)
    ensures m in s.sent && m.kind == LeaderHeartbeat && forall i :: !Won(s, i, m.term)
  {
    StartLooks();
    acts, s := LieFrom(START);
    m := Message(0, 1, 2, LeaderHeartbeat);
  }

  lemma UnnamedFrom(s0: State) returns (acts: seq<Action>, s: State)
    requires Looks(s0, 0, NewNode(0), {})
    ensures Played(s0, acts, s) && 0 in s.nodes && s.nodes[0] == Stands(0, 1).(role := Leader, loop := Idle)
  {
    acts, s := Campaign(s0, [], s0, 0, {});
    acts, s := Do(s0, acts, s, 0, CutWin({}), Quiet(Stands(0, 1).(role := Leader, loop := Idle)));
  }

  /** A candidate whose win is cut between its two writes leads without naming itself. */
  lemma CutWinUnnamed() returns (acts: seq<Action>, s: State)
    ensures Run(START, acts) == Some(s) && LeadersAtomic(acts)
    ensures 0 in s.nodes && s.nodes[0].role == Leader && s.nodes[0].currentLeader == None
  {
    StartLooks();
    acts, s := UnnamedFrom(START);
  }
}
