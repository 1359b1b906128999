/** Role notifications are exactly the role changes, in order, along the role graph. */
module Roles {
  import opened Types
  import opened Protocol
  import opened System
  import opened Invariants

  predicate Edge(a: Role, b: Role) {
    match a
    case Follower => b == Candidate
    case Candidate => b == Leader || b == Follower
    case Leader => b == Follower
  }

  function LastOf(start: Role, path: seq<Role>): Role {
    if path == [] then start else path[|path| - 1]
  }

  /** The role before change `k`. */
  function Before(start: Role, path: seq<Role>, k: nat): Role
    requires k < |path|
  {
    if k == 0 then start else path[k - 1]
  }

  predicate IsPath(start: Role, path: seq<Role>) {
    forall k: nat | k < |path| :: Edge(Before(start, path, k), path[k])
  }

  /** The change not yet reported, if there is one. */
  function Unreported(n: Node): seq<Role> {
    if n.role != n.lastRole then [n.role] else []
  }

  /** Each loop was entered for the role last reported. */
  predicate LoopTracks(n: Node) {
    match n.loop
    case Idle => true
    case InFollower => n.lastRole == Follower
    case InLeader => n.lastRole == Leader
    case InCandidate(_, _) => n.lastRole == Candidate
  }

  /** The changes of a node are its notifications and at most one more, along the role graph. */
  ghost predicate ReportedAt(n: Node, path: seq<Role>) {
    LoopTracks(n) && path == n.notified + Unreported(n) && IsPath(Follower, path) &&
    n.role == LastOf(Follower, path) && n.lastRole == LastOf(Follower, n.notified)
  }

  ghost predicate Reported(s: State) {
    s.changes.Keys == s.nodes.Keys && forall i | i in s.nodes :: ReportedAt(s.nodes[i], s.changes[i])
  }

  /** A role changes along an edge, only when every earlier change is reported, and only between wake-ups. */
  predicate Turns(n: Node, n': Node, woke: bool) {
    LoopTracks(n') &&
    (n'.role != n.role ==> Edge(n.role, n'.role) && n.role == n.lastRole && !woke) &&
    if woke then n'.notified == n.notified + Unreported(n) && n'.lastRole == n.role
    else n'.notified == n.notified && n'.lastRole == n.lastRole
  }

  lemma ReceiveRole(n: Node, m: Message)
    requires CanStep(n, Receive(m)) && LoopMatches(n) && LoopTracks(n)
    ensures Turns(n, Step(n, Receive(m)).node, false)
  {
    match m.kind
    case VoteRequest =>
    case _ =>
  }

  lemma CutRole(n: Node, m: Message, writes: nat, members: set<NodeID>)
    requires LoopTracks(n) && LoopMatches(n)
    ensures n.loop.InCandidate? && !n.loop.atTop ==> Turns(n, PartCandidate(n, m, writes).node.(loop := Idle), false)
    ensures n.loop.InLeader? ==> Turns(n, Resume(PartLeader(n, m, writes), members).node, false)
  {
    match m.kind
    case VoteRequest =>
    case _ =>
  }

  lemma StepRole(n: Node, input: Input)
    requires CanStep(n, input) && LoopMatches(n) && LoopTracks(n)
    ensures Turns(n, Step(n, input).node, input.Wake?)
  {
    match input
    case Receive(m) => ReceiveRole(n, m);
    case CutCandidate(m, k) => CutRole(n, m, k, {});
    case CutLeader(m, k, ms) => CutRole(n, m, k, ms);
    case _ =>
  }

  lemma PathSnoc(start: Role, path: seq<Role>, r: Role)
    requires IsPath(start, path) && Edge(LastOf(start, path), r)
    ensures IsPath(start, path + [r]) && LastOf(start, path + [r]) == r
  {
    forall k: nat | k < |path + [r]| ensures Edge(Before(start, path + [r], k), (path + [r])[k]) {
      if k < |path| { assert Before(start, path + [r], k) == Before(start, path, k); }
    }
  }

  lemma TurnReported(n: Node, path: seq<Role>, n': Node, woke: bool)
    requires ReportedAt(n, path) && Turns(n, n', woke)
    ensures ReportedAt(n', if n'.role != n.role then path + [n'.role] else path)
  {
    if n'.role != n.role { PathSnoc(Follower, path, n'.role); }
  }

  /** Replacing one reported node by another keeps every node reported. */
  lemma MoveReported(s: State, t: State, i: NodeID, n: Node, path: seq<Role>)
    requires Reported(s) && i in s.nodes && ReportedAt(n, path)
    requires t.nodes == s.nodes[i := n] && t.changes == s.changes[i := path]
    ensures Reported(t)
  {
  }

  lemma StepReported(n: Node, path: seq<Role>, input: Input)
    requires CanStep(n, input) && LoopMatches(n) && ReportedAt(n, path)
    ensures var n' := Step(n, input).node;
      ReportedAt(n', if n'.role != n.role then path + [n'.role] else path)
  {
    StepRole(n, input);
    TurnReported(n, path, Step(n, input).node, input.Wake?);
  }

  lemma MovedChanges(s: State, t: State, i: NodeID, input: Input, e: Effect)
    requires Moved(s, t, i, input, e)
    ensures i in t.changes && t.changes == s.changes[i := t.changes[i]]
    ensures t.changes[i] == if e.node.role != s.nodes[i].role then s.changes[i] + [e.node.role] else s.changes[i]
  {
  }

  lemma KeepReported(s: State, a: Action)
    requires LoopsMatch(s) && Reported(s) && Enabled(s, a)
    ensures Reported(Apply(s, a))
  {
    if a.Local? {
      LocalMoves(s, a.node, a.input);
      StepReported(s.nodes[a.node], s.changes[a.node], a.input);
      var t, e := Apply(s, a), Step(s.nodes[a.node], a.input);
      MovedChanges(s, t, a.node, a.input, e);
      MoveReported(s, t, a.node, e.node, t.changes[a.node]);
    }
  }

  lemma {:induction false} RunReported(s: State, acts: seq<Action>)
    requires Inv(s) && Reported(s) && Run(s, acts).Some?
    ensures Inv(Run(s, acts).value) && Reported(Run(s, acts).value)
    decreases |acts|
  {
    if acts != [] {
      var k := |acts| - 1;
      RunReported(s, acts[..k]);
      KeepInv(Run(s, acts[..k]).value, acts[k]);
      KeepReported(Run(s, acts[..k]).value, acts[k]);
    }
  }

  lemma ReportedFromInit(members: map<NodeID, set<NodeID>>, acts: seq<Action>, s: State)
    requires Run(Init(members), acts) == Some(s)
    ensures Inv(s) && Reported(s)
  {
    InitInv(members);
    RunReported(Init(members), acts);
  }

  /** Exact role reporting: the notifications are the role changes, each once and in order, except the
      one change made since the present role loop was entered; the changes form a path from Follower
      in Follower -> Candidate, Candidate -> {Leader, Follower}, Leader -> Follower. */
  lemma ExactRoleReporting(members: map<NodeID, set<NodeID>>, acts: seq<Action>, s: State, i: NodeID)
    requires Run(Init(members), acts) == Some(s) && i in s.nodes
    ensures i in s.changes && s.nodes[i].notified <= s.changes[i]
    ensures |s.nodes[i].notified| <= |s.changes[i]| <= |s.nodes[i].notified| + 1
    ensures s.changes[i] == s.nodes[i].notified <==> s.nodes[i].role == s.nodes[i].lastRole
    ensures IsPath(Follower, s.changes[i]) && s.nodes[i].role == LastOf(Follower, s.changes[i])
    ensures s.nodes[i].loop.InFollower? || s.nodes[i].loop.InLeader? ==> s.nodes[i].notified == s.changes[i]
  {
    ReportedFromInit(members, acts, s);
    assert ReportedAt(s.nodes[i], s.changes[i]);
  }

  /** Waking reports everything there is to report. */
  lemma WakingReportsAll(members: map<NodeID, set<NodeID>>, acts: seq<Action>, s: State, i: NodeID)
    requires Run(Init(members), acts) == Some(s) && i in s.nodes && i in s.members
    requires Enabled(s, Local(i, Wake(s.members[i])))
    ensures var t := Apply(s, Local(i, Wake(s.members[i])));
      t.nodes[i].notified == t.changes[i] == s.changes[i]
  {
    ReportedFromInit(members, acts, s);
    assert ReportedAt(s.nodes[i], s.changes[i]);
    StepRole(s.nodes[i], Wake(s.members[i]));
  }

  /** A candidate whose timer fires while it still is a candidate retries in the next term and reports nothing. */
  lemma RetryAddsNothing(n: Node, ms: set<NodeID>)
    requires Standing(n) && LoopMatches(n) && LoopTracks(n)
    ensures var retry := Step(Step(n, Timer).node, Wake(ms)).node;
      retry.notified == n.notified && Standing(retry) && retry.term == n.term + 1 && retry.loop.granted == 1
  {
  }
}
