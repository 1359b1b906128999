/** The whole cluster: nodes, their connection lists, the messages in flight,
    and a record of what happened that the theorems speak about. */
module System {
  import opened Types
  import opened Protocol

  datatype Vote = Vote(voter: NodeID, term: nat, candidate: NodeID)
  datatype Candidacy = Candidacy(node: NodeID, term: nat)
  /** A win records how many connections the winner counted, and whether `current_leader` was written. */
  datatype Win = Win(node: NodeID, term: nat, size: nat, clean: bool)

  datatype State = State(
    nodes: map<NodeID, Node>,
    members: map<NodeID, set<NodeID>>,
    net: multiset<Message>,
    sent: multiset<Message>,
    delivered: multiset<Message>,
    lost: multiset<Message>,
    votes: set<Vote>,
    begun: set<Candidacy>,
    wins: set<Win>,
    changes: map<NodeID, seq<Role>>)

  datatype Action =
    | Local(node: NodeID, input: Input)
    | Lose(msg: Message)
    | SetMembers(node: NodeID, members: set<NodeID>)

  function Init(members: map<NodeID, set<NodeID>>): State {
    State(
      map i | i in members :: NewNode(i),
      members,
      multiset{}, multiset{}, multiset{}, multiset{},
      {}, {}, {},
      map i | i in members :: [])
  }

  /** The message an input takes off the network, if any. */
  function Taken(input: Input): multiset<Message> {
    match input
    case Receive(m) => multiset{m}
    case CutCandidate(m, _) => multiset{m}
    case CutLeader(m, _, _) => multiset{m}
    case _ => multiset{}
  }

  /** Messages come from the network addressed to the node, and member lists are its own. */
  predicate InputMatches(s: State, i: NodeID, input: Input)
    requires i in s.members
  {
    match input
    case Wake(ms) => ms == s.members[i]
    case Timer => true
    case Beat(ms) => ms == s.members[i]
    case Check(ms) => ms == s.members[i]
    case Receive(m) => m in s.net && m.to == i
    case CutCandidate(m, _) => m in s.net && m.to == i
    case CutWin(ms) => ms == s.members[i]
    case CutLeader(m, _, ms) => m in s.net && m.to == i && ms == s.members[i]
    case Say(ms, _) => ms == s.members[i]
  }

  predicate Enabled(s: State, a: Action) {
    match a
    case Local(i, input) =>
      i in s.nodes && i in s.members && i in s.changes && InputMatches(s, i, input) && CanStep(s.nodes[i], input)
    case Lose(m) => m in s.net
    case SetMembers(i, _) => i in s.members
  }

  function VotesOf(i: NodeID, e: Effect): set<Vote> {
    if e.cast.Some? then {Vote(i, e.node.term, e.cast.value)} else {}
  }

  function CandidaciesOf(i: NodeID, e: Effect): set<Candidacy> {
    if e.cast == Some(i) then {Candidacy(i, e.node.term)} else {}
  }

  function WinsOf(n: Node, input: Input, e: Effect): set<Win> {
    if n.role != Leader && e.node.role == Leader && (input.Check? || input.CutWin?) then
      {Win(n.id, e.node.term, |input.members|, input.Check?)}
    else {}
  }

  function ApplyLocal(s: State, i: NodeID, input: Input): State
    requires Enabled(s, Local(i, input))
  {
    var n := s.nodes[i];
    var e := Step(n, input);
    s.(nodes := s.nodes[i := e.node],
       net := s.net - Taken(input) + e.out,
       sent := s.sent + e.out,
       delivered := s.delivered + Taken(input),
       votes := s.votes + VotesOf(i, e),
       begun := s.begun + CandidaciesOf(i, e),
       wins := s.wins + WinsOf(n, input, e),
       changes := if e.node.role != n.role then s.changes[i := s.changes[i] + [e.node.role]] else s.changes)
  }

  function Apply(s: State, a: Action): State
    requires Enabled(s, a)
  {
    match a
    case Local(i, input) => ApplyLocal(s, i, input)
    case Lose(m) => s.(net := s.net - multiset{m}, lost := s.lost + multiset{m})
    case SetMembers(i, ms) => s.(members := s.members[i := ms])
  }

  /** What a step of node `i` with effect `e` does to the cluster. */
  ghost predicate Moved(s: State, t: State, i: NodeID, input: Input, e: Effect) {
    i in s.nodes && t.nodes == s.nodes[i := e.node] && t.members == s.members &&
    t.net == s.net - Taken(input) + e.out && t.sent == s.sent + e.out && t.delivered == s.delivered + Taken(input) &&
    t.lost == s.lost && t.votes == s.votes + VotesOf(i, e) && t.begun == s.begun + CandidaciesOf(i, e) &&
    t.wins == s.wins + WinsOf(s.nodes[i], input, e) && i in s.changes &&
    t.changes == if e.node.role != s.nodes[i].role then s.changes[i := s.changes[i] + [e.node.role]] else s.changes
  }

  lemma LocalMoves(s: State, i: NodeID, input: Input)
    requires Enabled(s, Local(i, input))
    ensures Moved(s, Apply(s, Local(i, input)), i, input, Step(s.nodes[i], input))
  {
  }

  lemma TakeOne<T>(a: multiset<T>, x: T, k: T)
    requires x in a
    ensures (a - multiset{x})[k] == (if k == x then a[k] - 1 else a[k])
  {
  }

  /** A loss takes one copy out of flight for good, and touches no other message. */
  lemma LosesOne(s: State, m: Message, k: Message)
    requires Enabled(s, Lose(m))
    ensures var t := Apply(s, Lose(m));
      t.net[k] == s.net[k] - (if k == m then 1 else 0) && t.lost[k] == s.lost[k] + (if k == m then 1 else 0) &&
      t.sent == s.sent && t.delivered == s.delivered && t.nodes == s.nodes
  {
    TakeOne(s.net, m, k);
    LostOne(s.lost, m, k);
  }

  lemma LostOne<T>(a: multiset<T>, x: T, k: T)
    ensures (a + multiset{x})[k] == a[k] + (if k == x then 1 else 0)
  {
  }

  /** The state after all of `acts`, or None when one of them is not enabled. */
  function Run(s: State, acts: seq<Action>): Option<State> {
    if acts == [] then Some(s)
    else
      var k := |acts| - 1;
      match Run(s, acts[..k])
      case None => None
      case Some(t) => if Enabled(t, acts[k]) then Some(Apply(t, acts[k])) else None
  }

  lemma {:induction false} RunConcat(s: State, a: seq<Action>, b: seq<Action>)
    requires Run(s, a).Some?
    ensures Run(s, a + b) == Run(Run(s, a).value, b)
    decreases |b|
  {
    if b == [] {
      assert a + b == a;
    } else {
      var k := |b| - 1;
      RunConcat(s, a, b[..k]);
      assert (a + b)[..|a + b| - 1] == a + b[..k];
    }
  }
}
