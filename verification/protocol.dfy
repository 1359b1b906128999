/** One `Senator`, as a value, and what each of its atomic steps does.

    `loop` says which role loop is executing, so that a step is one resolved
    await of the source: waking at the top of `start`, a timer, one pass of the
    candidate's quorum check, or one received message with its handler.  The
    `Cut` inputs are the handlers that a `select!` timer drops half way. */
module Protocol {
  import opened Types

  /** `Idle` is the top of the loop in `start`, between two role loops.
      A candidate's `atTop` separates its quorum check from its wait for a message. */
  datatype Loop = Idle | InFollower | InCandidate(granted: nat, atTop: bool) | InLeader

  datatype Node = Node(
    id: NodeID,
    role: Role,
    term: nat,
    votedFor: Option<NodeID>,
    currentLeader: Option<NodeID>,
    lastRole: Role,
    notified: seq<Role>,
    loop: Loop)

  /** What the environment resolves next; `members` is the list that `members()` returned. */
  datatype Input =
    | Wake(members: set<NodeID>)
    | Timer
    | Beat(members: set<NodeID>)
    | Check(members: set<NodeID>)
    | Receive(msg: Message)
    | CutCandidate(msg: Message, writes: nat)
    | CutWin(members: set<NodeID>)
    | CutLeader(msg: Message, writes: nat, members: set<NodeID>)
    | Say(members: set<NodeID>, payload: nat)

  /** The node afterwards, what it sent, and for whom it voted in its new term. */
  datatype Effect = Effect(node: Node, out: multiset<Message>, cast: Option<NodeID>)

  function NewNode(id: NodeID): Node {
    Node(id, Follower, 0, None, None, Follower, [], Idle)
  }

  /** Votes needed by a candidate that currently has `peers` connections. */
  function Needed(peers: nat): nat {
    1 + (peers + 1) / 2
  }

  function Broadcast(from: NodeID, term: nat, kind: Kind, members: set<NodeID>): multiset<Message> {
    multiset(set p | p in members :: Message(from, p, term, kind))
  }

  function Quiet(n: Node): Effect {
    Effect(n, multiset{}, None)
  }

  function HandleVoteRequest(n: Node, from: NodeID, term: nat): Effect {
    if term <= n.term then
      Quiet(n)
    else
      Effect(
        n.(term := term, role := Follower, votedFor := Some(from)),
        multiset{Message(n.id, from, term, VoteGranted)},
        Some(from))
  }

  function OnFollower(n: Node, m: Message): Effect {
    match m.kind
    case LeaderHeartbeat =>
      Quiet(if m.term >= n.term then n.(term := m.term, currentLeader := Some(m.from)) else n)
    case VoteRequest => HandleVoteRequest(n, m.from, m.term)
    case VoteGranted => Quiet(n)
    case Custom(_) => Quiet(n)
  }

  function OnCandidate(n: Node, m: Message): Effect
    requires n.loop.InCandidate?
  {
    var top := n.(loop := InCandidate(n.loop.granted, true));
    match m.kind
    case LeaderHeartbeat =>
      Quiet(
        if m.term >= n.term then
          top.(term := m.term, currentLeader := Some(m.from), role := Follower, votedFor := None)
        else top)
    case VoteRequest => HandleVoteRequest(top, m.from, m.term)
    case VoteGranted =>
      Quiet(if m.term == n.term then n.(loop := InCandidate(n.loop.granted + 1, true)) else top)
    case Custom(_) => Quiet(top)
  }

  function OnLeader(n: Node, m: Message): Effect {
    match m.kind
    case LeaderHeartbeat =>
      Quiet(if m.term > n.term then n.(term := m.term, role := Follower, loop := Idle) else n)
    case VoteRequest =>
      var e := HandleVoteRequest(n, m.from, m.term);
      if e.node.role == Leader then e else e.(node := e.node.(loop := Idle))
    case VoteGranted => Quiet(n)
    case Custom(_) => Quiet(n)
  }

  /** The vote-request handler dropped after its first `writes` waits: it never sends. */
  function PartVote(n: Node, from: NodeID, term: nat, writes: nat): Effect {
    if term <= n.term || writes == 0 then Quiet(n)
    else if writes == 1 then Quiet(n.(term := term))
    else Effect(n.(term := term, role := Follower, votedFor := Some(from)), multiset{}, Some(from))
  }

  function PartCandidate(n: Node, m: Message, writes: nat): Effect {
    match m.kind
    case LeaderHeartbeat =>
      Quiet(
        if m.term < n.term || writes == 0 then n
        else if writes == 1 then n.(term := m.term)
        else if writes == 2 then n.(term := m.term, currentLeader := Some(m.from))
        else n.(term := m.term, currentLeader := Some(m.from), role := Follower))
    case VoteRequest => PartVote(n, m.from, m.term, writes)
    case VoteGranted => Quiet(n)
    case Custom(_) => Quiet(n)
  }

  function PartLeader(n: Node, m: Message, writes: nat): Effect {
    match m.kind
    case LeaderHeartbeat =>
      Quiet(
        if m.term <= n.term || writes == 0 then n
        else if writes == 1 then n.(term := m.term)
        else n.(term := m.term, role := Follower))
    case VoteRequest => PartVote(n, m.from, m.term, writes)
    case VoteGranted => Quiet(n)
    case Custom(_) => Quiet(n)
  }

  /** The leader's outer loop after its sleep: another heartbeat round, or a return. */
  function Resume(e: Effect, members: set<NodeID>): Effect {
    if e.node.role == Leader then
      e.(out := Broadcast(e.node.id, e.node.term, LeaderHeartbeat, members))
    else e.(node := e.node.(loop := Idle))
  }

  /** The top of `start` reports a changed role. */
  function Report(n: Node): Node {
    n.(notified := if n.lastRole != n.role then n.notified + [n.role] else n.notified, lastRole := n.role)
  }

  /** `start` then enters that role's loop. */
  function WakeUp(n: Node, members: set<NodeID>): Effect {
    var woken := Report(n);
    match n.role
    case Follower => Quiet(woken.(loop := InFollower))
    case Leader =>
      Effect(woken.(loop := InLeader), Broadcast(n.id, n.term, LeaderHeartbeat, members), None)
    case Candidate =>
      Effect(
        woken.(term := n.term + 1, votedFor := Some(n.id), currentLeader := None, loop := InCandidate(1, true)),
        Broadcast(n.id, n.term + 1, VoteRequest, members),
        Some(n.id))
  }

  /** One pass of the candidate loop up to the wait for a message. */
  function Pass(n: Node, members: set<NodeID>): Node
    requires n.loop.InCandidate?
  {
    if n.role != Candidate then n.(loop := Idle)
    else if n.loop.granted >= Needed(|members|) then
      n.(role := Leader, currentLeader := Some(n.id), loop := Idle)
    else n.(loop := InCandidate(n.loop.granted, false))
  }

  predicate CanStep(n: Node, input: Input) {
    match input
    case Wake(_) => n.loop.Idle?
    case Timer => n.loop.InFollower? || n.loop.InCandidate?
    case Beat(_) => n.loop.InLeader?
    case Check(_) => n.loop.InCandidate? && n.loop.atTop
    case Receive(_) => n.loop.InFollower? || n.loop.InLeader? || (n.loop.InCandidate? && !n.loop.atTop)
    case CutCandidate(_, _) => n.loop.InCandidate? && !n.loop.atTop
    case CutWin(members) =>
      n.loop.InCandidate? && n.loop.atTop && n.role == Candidate && n.loop.granted >= Needed(|members|)
    case CutLeader(_, _, _) => n.loop.InLeader?
    case Say(_, _) => true
  }

  function Step(n: Node, input: Input): Effect
    requires CanStep(n, input)
  {
    match input
    case Wake(members) => WakeUp(n, members)
    case Timer =>
      Quiet(if n.loop.InFollower? then n.(role := Candidate, loop := Idle) else n.(loop := Idle))
    case Beat(members) =>
      Effect(n, Broadcast(n.id, n.term, LeaderHeartbeat, members), None)
    case Check(members) => Quiet(Pass(n, members))
    case Receive(m) =>
      if n.loop.InFollower? then OnFollower(n, m)
      else if n.loop.InLeader? then OnLeader(n, m)
      else OnCandidate(n, m)
    case CutCandidate(m, writes) =>
      var e := PartCandidate(n, m, writes);
      e.(node := e.node.(loop := Idle))
    case CutWin(_) => Quiet(n.(role := Leader, loop := Idle))
    case CutLeader(m, writes, members) =>
      Resume(PartLeader(n, m, writes), members)
    case Say(members, payload) =>
      Effect(n, Broadcast(n.id, n.term, Custom(payload), members), None)
  }

  datatype Trace = Trace(node: Node, out: multiset<Message>)

  /** What becomes of a node and its outbox over the inputs from position `i` on, or None if one does not fit. */
  function Replay(t: Trace, script: seq<Input>, i: nat): Option<Trace>
    requires i <= |script|
    decreases |script| - i
  {
    if i == |script| then Some(t)
    else if CanStep(t.node, script[i]) then
      var e := Step(t.node, script[i]);
      Replay(Trace(e.node, t.out + e.out), script, i + 1)
    else None
  }

  /** Replaying one more input at the end is one more step. */
  lemma {:induction false} ReplaySnoc(t: Trace, script: seq<Input>, i: nat, input: Input)
    requires i <= |script|
    ensures Replay(t, script + [input], i) ==
      match Replay(t, script, i)
      case None => None
      case Some(u) =>
        if CanStep(u.node, input) then
          var e := Step(u.node, input); Some(Trace(e.node, u.out + e.out))
        else None
    decreases |script| - i
  {
    if i < |script| {
      assert (script + [input])[i] == script[i];
      if CanStep(t.node, script[i]) {
        var e := Step(t.node, script[i]);
        ReplaySnoc(Trace(e.node, t.out + e.out), script, i + 1, input);
      }
    } else {
      assert (script + [input])[i] == input;
    }
  }
}
